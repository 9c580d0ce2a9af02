/**
 * The dashboard (frontend/src/app/pages/dashboard/DashboardPage.tsx): training scenarios grouped
 * by unit, the welcome header and the welcome dialog. The scenario list itself lives in JSON
 * assets and is an input.
 */
module Dashboard {
  import opened Wrappers
  import Strs
  import Preferences
  import Avatars

  const WELCOME_DIALOG: string := "welcome"

  /** The fields of a scenario's metadata the grouping reads. */
  datatype ScenarioMeta = ScenarioMeta(id: string, unit: string)

  datatype UnitGroup = UnitGroup(unitNumber: nat, conversations: seq<ScenarioMeta>)

  // ---------------------------------------------------------------------------
  // The unit number in a scenario id

  /** `/unit(\d+)/` matches with its `unit` at position `i`. */
  predicate UnitMatchAt(id: string, i: int)
  {
    0 <= i && i + 5 <= |id| && id[i..i + 4] == "unit" && Strs.IsDigit(id[i + 4])
  }

  /** The first position the pattern matches from `from` on. */
  function FirstUnitMatch(id: string, from: nat): (r: Option<nat>)
    ensures r.Some? ==> from <= r.value && UnitMatchAt(id, r.value)
    ensures r.Some? ==> forall j :: from <= j < r.value ==> !UnitMatchAt(id, j)
    ensures r.None? ==> forall j :: from <= j ==> !UnitMatchAt(id, j)
    decreases |id| - from
  {
    if from + 5 > |id| then None
    else if UnitMatchAt(id, from) then Some(from)
    else FirstUnitMatch(id, from + 1)
  }

  /** `parseInt` of the digits after the first `unit` followed by a digit, 0 when there is none. */
  function UnitNumber(id: string): nat
  {
    match FirstUnitMatch(id, 0)
    case None => 0
    case Some(i) => Strs.DigitsValue(Strs.LeadingDigits(id[i + 4..]))
  }

  lemma UnitNumberExamples()
    ensures UnitNumber("unit1_conversation1") == 1
    ensures UnitNumber("intro") == 0
  {
    var id := "unit1_conversation1";
    assert UnitMatchAt(id, 0) by {
      assert id[0..4] == "unit";
    }
    assert Strs.LeadingDigits(id[4..]) == "1" by {
      assert id[4..][1] == '_';
    }
    assert Strs.DigitsValue("1") == 1;
  }

  // ---------------------------------------------------------------------------
  // Grouping

  /** The groups the `forEach` has built after the given scenarios. */
  function Grouped(list: seq<ScenarioMeta>): map<string, UnitGroup>
    decreases |list|
  {
    if list == [] then map[]
    else
      var n := |list| - 1;
      var g := Grouped(list[..n]);
      var chat := list[n];
      if chat.unit in g then g[chat.unit := g[chat.unit].(conversations := g[chat.unit].conversations + [chat])]
      else g[chat.unit := UnitGroup(UnitNumber(chat.id), [chat])]
  }

  /** The scenarios of one unit, in list order. */
  function OfUnit(list: seq<ScenarioMeta>, unit: string): seq<ScenarioMeta>
    decreases |list|
  {
    if list == [] then []
    else
      var n := |list| - 1;
      OfUnit(list[..n], unit) + (if list[n].unit == unit then [list[n]] else [])
  }

  /** The position of the first scenario of a unit. */
  function FirstOfUnit(list: seq<ScenarioMeta>, unit: string): (k: nat)
    requires exists i :: 0 <= i < |list| && list[i].unit == unit
    ensures k < |list| && list[k].unit == unit && forall j :: 0 <= j < k ==> list[j].unit != unit
    decreases |list|
  {
    if list[0].unit == unit then 0
    else
      assert exists i :: 0 <= i < |list[1..]| && list[1..][i].unit == unit by {
        var i :| 0 <= i < |list| && list[i].unit == unit;
        assert list[1..][i - 1] == list[i];
      }
      1 + FirstOfUnit(list[1..], unit)
  }

  /**
   * The groups are keyed by exactly the units that occur; each holds that unit's scenarios in list
   * order, so every scenario lands in exactly one group; its unit number comes from the first
   * scenario of the unit.
   */
  lemma GroupedSpec(list: seq<ScenarioMeta>, unit: string)
    ensures unit in Grouped(list) <==> exists i :: 0 <= i < |list| && list[i].unit == unit
    ensures unit in Grouped(list) ==> Grouped(list)[unit].conversations == OfUnit(list, unit)
    ensures unit in Grouped(list) ==> Grouped(list)[unit].unitNumber == UnitNumber(list[FirstOfUnit(list, unit)].id)
  {
    GroupedKeys(list, unit);
    GroupedConversations(list, unit);
    if unit in Grouped(list) {
      GroupedUnitNumber(list, unit);
    }
  }

  lemma {:induction false} GroupedKeys(list: seq<ScenarioMeta>, unit: string)
    ensures unit in Grouped(list) <==> exists i :: 0 <= i < |list| && list[i].unit == unit
    decreases |list|
  {
    if list != [] {
      var n := |list| - 1;
      var init := list[..n];
      GroupedKeys(init, unit);
      if exists i :: 0 <= i < n && init[i].unit == unit {
        var i :| 0 <= i < n && init[i].unit == unit;
        assert list[i] == init[i];
      } else if list[n].unit != unit {
        forall i | 0 <= i < |list| ensures list[i].unit != unit {
          if i < n {
            assert init[i] == list[i];
          }
        }
      }
    }
  }

  lemma {:induction false} GroupedConversations(list: seq<ScenarioMeta>, unit: string)
    ensures unit in Grouped(list) ==> Grouped(list)[unit].conversations == OfUnit(list, unit)
    decreases |list|
  {
    if list != [] {
      var n := |list| - 1;
      var init := list[..n];
      GroupedConversations(init, unit);
      if unit !in Grouped(init) && list[n].unit == unit {
        GroupedKeys(init, unit);
        assert forall i :: 0 <= i < n ==> init[i].unit != unit;
        OfUnitAbsent(init, unit);
      }
    }
  }

  lemma {:induction false} GroupedUnitNumber(list: seq<ScenarioMeta>, unit: string)
    requires unit in Grouped(list)
    ensures exists i :: 0 <= i < |list| && list[i].unit == unit
    ensures Grouped(list)[unit].unitNumber == UnitNumber(list[FirstOfUnit(list, unit)].id)
    decreases |list|
  {
    GroupedKeys(list, unit);
    var n := |list| - 1;
    var init := list[..n];
    if unit in Grouped(init) {
      GroupedUnitNumber(init, unit);
      FirstOfUnitPrefix(list, n, unit);
    } else {
      GroupedKeys(init, unit);
      assert forall i :: 0 <= i < n ==> list[i].unit != unit by {
        forall i | 0 <= i < n ensures list[i].unit != unit {
          assert init[i] == list[i];
        }
      }
      assert FirstOfUnit(list, unit) == n;
    }
  }

  /** A unit already present in a prefix has its first scenario inside the prefix. */
  lemma FirstOfUnitPrefix(list: seq<ScenarioMeta>, n: nat, unit: string)
    requires n <= |list| && exists i :: 0 <= i < n && list[..n][i].unit == unit
    ensures exists i :: 0 <= i < |list| && list[i].unit == unit
    ensures FirstOfUnit(list, unit) == FirstOfUnit(list[..n], unit)
  {
    var i :| 0 <= i < n && list[..n][i].unit == unit;
    assert list[i] == list[..n][i];
    var k := FirstOfUnit(list, unit);
    var k' := FirstOfUnit(list[..n], unit);
    assert list[..n][k'] == list[k'];
  }

  lemma {:induction false} OfUnitAbsent(list: seq<ScenarioMeta>, unit: string)
    requires forall i :: 0 <= i < |list| ==> list[i].unit != unit
    ensures OfUnit(list, unit) == []
    decreases |list|
  {
    if list != [] {
      OfUnitAbsent(list[..|list| - 1], unit);
    }
  }

  /** A scenario appears in its own unit's group only. */
  lemma {:induction false} OfUnitMembers(list: seq<ScenarioMeta>, unit: string, c: ScenarioMeta)
    ensures c in OfUnit(list, unit) <==> c in list && c.unit == unit
    decreases |list|
  {
    if list != [] {
      var n := |list| - 1;
      OfUnitMembers(list[..n], unit, c);
      assert list == list[..n] + [list[n]];
    }
  }

  /** `conversationsByUnit`: the `forEach` that fills the record in place. */
  method GroupByUnit(list: seq<ScenarioMeta>) returns (grouped: map<string, UnitGroup>)
    ensures grouped == Grouped(list)
  {
    grouped := map[];
    var i := 0;
    while i < |list|
      invariant 0 <= i <= |list|
      invariant grouped == Grouped(list[..i])
    {
      assert list[..i + 1][..i] == list[..i];
      var chat := list[i];
      assert list[..i + 1][i] == chat;
      ghost var before := grouped;
      if chat.unit !in grouped {
        var unitNumber := UnitNumber(chat.id);
        grouped := grouped[chat.unit := UnitGroup(unitNumber, [])];
      }
      grouped := grouped[chat.unit := grouped[chat.unit].(conversations := grouped[chat.unit].conversations + [chat])];
      if chat.unit !in before {
        var empty: seq<ScenarioMeta> := [];
        assert empty + [chat] == [chat];
        assert grouped[chat.unit] == UnitGroup(UnitNumber(chat.id), [chat]);
        assert grouped == before[chat.unit := UnitGroup(UnitNumber(chat.id), [chat])];
      }
      i := i + 1;
    }
    assert list[..|list|] == list;
  }

  // ---------------------------------------------------------------------------
  // Header and welcome dialog

  /** `!!(user && user.id)`: a loaded user with a non-zero id. */
  predicate UserExists(userId: Option<int>)
  {
    userId.Some? && userId.value != 0
  }

  /** The header above the scenarios: the user's avatar and a greeting. */
  datatype Header = Header(avatarId: string, greeting: string)

  /**
   * The welcome header, rendered only while `userExists`: the chosen avatar, avatar `1` when none
   * is chosen, and `Welcome <username>!` with `User` standing in for a missing or empty name.
   */
  function WelcomeHeader(userId: Option<int>, username: Option<string>, userAvatar: Option<Avatars.Avatar>)
    : (r: Option<Header>)
    ensures r.Some? <==> UserExists(userId)
    ensures r.Some? ==> r.value.avatarId == (if userAvatar.Some? then userAvatar.value.id else "1")
    ensures r.Some? && username.Some? && username.value != "" ==> r.value.greeting == "Welcome " + username.value + "!"
    ensures r.Some? && (username.None? || username.value == "") ==> r.value.greeting == "Welcome User!"
  {
    if !UserExists(userId) then None
    else
      var name := if username.Some? && username.value != "" then username.value else "User";
      Some(Header(if userAvatar.Some? then userAvatar.value.id else "1", "Welcome " + name + "!"))
  }

  /** The welcome dialog is open until its flag is truthy. */
  predicate WelcomeOpen(seen: map<string, bool>)
  {
    !(WELCOME_DIALOG in seen && seen[WELCOME_DIALOG])
  }

  /** Closing the dialog sets its flag, and the dialog stays closed. */
  method CloseWelcome(prefs: Preferences.PreferencesState)
    modifies prefs
    ensures prefs.seenDialogs == old(prefs.seenDialogs)[WELCOME_DIALOG := true]
    ensures !WelcomeOpen(prefs.seenDialogs)
    ensures prefs.apiToken == old(prefs.apiToken) && prefs.refreshToken == old(prefs.refreshToken)
    ensures prefs.userAvatarId == old(prefs.userAvatarId) && prefs.chatSettings == old(prefs.chatSettings)
  {
    prefs.SetSeenDialog(WELCOME_DIALOG, true);
  }

  /** A fresh session shows the welcome dialog. */
  lemma InitialShowsWelcome()
    ensures WelcomeOpen(Preferences.INITIAL_SEEN_DIALOGS)
  {
  }
}
