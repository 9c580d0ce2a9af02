/**
 * The chat sidebar (frontend/src/app/pages/chat/components/ChatSidebar.tsx): the turn counter,
 * its captions, and when each button is disabled.
 */
module ChatSidebar {
  import opened Wrappers
  import Strs
  import ChatPage

  /**
   * The glyph the source writes for an unlimited turn count: the UTF-8 bytes of the infinity sign
   * read as Windows-1252, three characters.
   */
  const INFINITY_AS_WRITTEN: string := "âˆž"

  /** The infinity sign itself, which the counter evidently means to show. */
  const INFINITY: string := "∞"

  /** The limit as the counter writes it, with the glyph given. */
  function LimitTextWith(limit: ChatPage.TurnLimit, glyph: string): string
  {
    match limit
    case Unlimited => glyph
    case AtMost(n) => Strs.IntToStr(n)
  }

  /** `{turnCount} / {maxTurns === Infinity ? glyph : maxTurns}` as the source writes it. */
  function CounterTextAsWritten(turnCount: int, limit: ChatPage.TurnLimit): string
  {
    Strs.IntToStr(turnCount) + " / " + LimitTextWith(limit, INFINITY_AS_WRITTEN)
  }

  /** The counter with the infinity sign: the count first, then ` / ` and the limit. */
  function CounterText(turnCount: int, limit: ChatPage.TurnLimit): (r: string)
    ensures var count := Strs.IntToStr(turnCount);
      |r| > |count| + 3 && r[..|count|] == count && r[|count|..|count| + 3] == " / "
    ensures limit.Unlimited? ==> r[|r| - 1] == '∞'
  {
    Strs.IntToStr(turnCount) + " / " + LimitTextWith(limit, INFINITY)
  }

  /** As written, an unlimited chat shows three stray characters where one sign belongs. */
  lemma UnlimitedCounterIsGarbled(turnCount: int)
    ensures var shown := CounterTextAsWritten(turnCount, ChatPage.Unlimited);
      shown[|shown| - 3..] == "âˆž" && '∞' !in shown
  {
  }

  /** The corrected counter ends in the single infinity sign, and a finite one in the limit. */
  lemma CounterEndsInLimit(turnCount: int, limit: ChatPage.TurnLimit)
    ensures var shown := CounterText(turnCount, limit);
      && (limit.Unlimited? ==> shown[|shown| - 1] == '∞' && shown == Strs.IntToStr(turnCount) + " / ∞")
      && (limit.AtMost? ==> shown == Strs.IntToStr(turnCount) + " / " + Strs.IntToStr(limit.n))
  {
  }

  /** The "N turns remaining" caption, shown only when one to three turns are left. */
  function RemainingCaption(turnsRemaining: ChatPage.TurnLimit): (r: Option<string>)
    ensures r.Some? <==> turnsRemaining.AtMost? && 0 < turnsRemaining.n <= 3
  {
    match turnsRemaining
    case Unlimited => None
    case AtMost(n) =>
      if n <= 3 && n > 0 then Some(Strs.IntToStr(n) + " turn" + (if n != 1 then "s" else "") + " remaining")
      else None
  }

  /** Singular wording for exactly one turn left. */
  lemma RemainingWording()
    ensures RemainingCaption(ChatPage.AtMost(1)) == Some("1 turn remaining")
    ensures RemainingCaption(ChatPage.AtMost(2)) == Some("2 turns remaining")
    ensures RemainingCaption(ChatPage.AtMost(3)) == Some("3 turns remaining")
  {
    assert RemainingCaption(ChatPage.AtMost(1)) == Some("1 turn remaining") by {
      assert Strs.IntToStr(1) == "1" by { assert Strs.DigitChar(1) == '1'; }
      assert "1" + " turn" + "" + " remaining" == "1 turn remaining";
    }
    assert RemainingCaption(ChatPage.AtMost(2)) == Some("2 turns remaining") by {
      assert Strs.IntToStr(2) == "2" by { assert Strs.DigitChar(2) == '2'; }
      assert "2" + " turn" + "s" + " remaining" == "2 turns remaining";
    }
    assert Strs.IntToStr(3) == "3" by { assert Strs.DigitChar(3) == '3'; }
    assert "3" + " turn" + "s" + " remaining" == "3 turns remaining";
  }

  /** 'Max turns reached' is shown exactly when the limit is reached. */
  function MaxTurnsCaption(maxTurnsReached: bool): (r: Option<string>)
    ensures r.Some? <==> maxTurnsReached
  {
    if maxTurnsReached then Some("Max turns reached") else None
  }

  /** Action buttons: disabled while submitting, once used, or at the limit. */
  predicate ActionDisabled(isSubmitting: bool, usedActionIndices: set<int>, index: int, maxTurnsReached: bool)
  {
    isSubmitting || index in usedActionIndices || maxTurnsReached
  }

  /** The help button. */
  predicate HelpDisabled(isSubmitting: bool, isComplete: bool, isGraded: bool, maxTurnsReached: bool, isGrading: bool)
  {
    isSubmitting || isComplete || isGraded || maxTurnsReached || isGrading
  }

  /** The grade button: at least two messages and no result yet; grading in progress does not disable it. */
  predicate GradeDisabled(isSubmitting: bool, messageCount: nat, isGraded: bool)
  {
    isSubmitting || messageCount <= 1 || isGraded
  }

  /** The export button. */
  predicate ExportDisabled(messageCount: nat)
  {
    messageCount == 0
  }

  /**
   * How the buttons differ: submitting disables every button but export; a reached limit disables
   * help and the actions but not grading or export; grading in progress and a finished chat disable
   * help only; a result disables help and grading; export needs nothing but one message.
   */
  lemma ButtonRules(isSubmitting: bool, used: set<int>, index: int, maxTurnsReached: bool, isComplete: bool,
                    isGraded: bool, isGrading: bool, messageCount: nat)
    ensures isSubmitting ==> ActionDisabled(isSubmitting, used, index, maxTurnsReached)
                             && HelpDisabled(isSubmitting, isComplete, isGraded, maxTurnsReached, isGrading)
                             && GradeDisabled(isSubmitting, messageCount, isGraded)
    ensures !ActionDisabled(isSubmitting, used, index, maxTurnsReached) <==>
              !isSubmitting && index !in used && !maxTurnsReached
    ensures !HelpDisabled(isSubmitting, isComplete, isGraded, maxTurnsReached, isGrading) <==>
              !isSubmitting && !isComplete && !isGraded && !maxTurnsReached && !isGrading
    ensures !GradeDisabled(isSubmitting, messageCount, isGraded) <==> !isSubmitting && messageCount >= 2 && !isGraded
    ensures ExportDisabled(messageCount) <==> messageCount == 0
  {
  }

  /**
   * On the page's own state, the sidebar never offers an action index the send handler would
   * refuse, and an enabled action button always leads to a send when the chat has an id.
   */
  lemma EnabledActionIsAccepted(isSubmitting: bool, used: set<int>, index: int, limit: ChatPage.TurnLimit,
                                turnCount: int)
    requires !ActionDisabled(isSubmitting, used, index, ChatPage.MaxTurnsReached(limit, turnCount))
    ensures index !in used && !ChatPage.MaxTurnsReached(limit, turnCount)
    ensures ChatPage.TurnsRemaining(limit, turnCount).AtMost? ==> ChatPage.TurnsRemaining(limit, turnCount).n > 0
  {
  }

  /** Once the limit is reached, help and every action are disabled but export is not. */
  lemma LimitDisablesHelpAndActions(isSubmitting: bool, used: set<int>, index: int, isComplete: bool, isGraded: bool,
                                    isGrading: bool, messageCount: nat)
    requires messageCount > 0
    ensures ActionDisabled(isSubmitting, used, index, true)
    ensures HelpDisabled(isSubmitting, isComplete, isGraded, true, isGrading)
    ensures !ExportDisabled(messageCount)
  {
  }
}
