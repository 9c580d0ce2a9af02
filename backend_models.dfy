/** The records of backend/api/models.py that the views and tasks read and write. */
module Models {
  import opened Wrappers
  import opened Json

  /** The `Chat.status` choices. */
  datatype ChatStatus = Ready | InProgress | Thinking | GettingHelp | ReadyForGrading | Grading | Complete

  /** The value each status is stored and sent as. */
  function StatusValue(s: ChatStatus): string
  {
    match s
    case Ready => "ready"
    case InProgress => "in_progress"
    case Thinking => "thinking"
    case GettingHelp => "getting_help"
    case ReadyForGrading => "ready_for_grading"
    case Grading => "grading"
    case Complete => "complete"
  }

  /** The stored values tell the statuses apart. */
  lemma StatusValueInjective(a: ChatStatus, b: ChatStatus)
    ensures StatusValue(a) == StatusValue(b) ==> a == b
  {
  }

  /**
   * One element of `Chat.messages`: a dict whose 'role' and 'content' keys may be missing.
   * Only string values are modelled.
   */
  datatype Msg = Msg(role: Option<string>, content: Option<string>)

  function M(role: string, content: string): Msg
  {
    Msg(Some(role), Some(content))
  }

  predicate IsRole(m: Msg, role: string) { m.role == Some(role) }

  /** The summed content length of a message list, a missing content counting as empty. */
  function ContentChars(ms: seq<Msg>): nat
    decreases |ms|
  {
    if ms == [] then 0 else ContentChars(ms[..|ms| - 1]) + |ms[|ms| - 1].content.GetOr("")|
  }

  /** One element of `Chat.help_responses`. */
  datatype HelpEntry = HelpEntry(turn: int, timestamp: string, helpText: string, status: string)

  datatype Chat = Chat(
    owner: nat,
    title: string,
    status: ChatStatus,
    courseData: Json,
    avatarId: Option<string>,
    messages: seq<Msg>,
    score: Option<int>,
    gradingData: Json,
    helpResponses: seq<HelpEntry>,
    interactionCount: int,
    completed: bool,
    updatedAt: int,
    openwebuiChatId: Option<string>)

  /** `UserProfile`: the OpenWebUI token kept for a user, nullable. */
  datatype Profile = Profile(openwebuiToken: Option<string>)

  datatype User = User(
    username: string,
    email: string,
    firstName: string,
    lastName: string,
    isStaff: bool,
    profile: Option<Profile>)

  datatype Note = Note(title: string, content: string, author: nat)

  /** A reading of the clock: the stamp stored in `updated_at` and its ISO 8601 text. */
  datatype Instant = Instant(stamp: int, iso: string)
}
