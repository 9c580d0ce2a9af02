/** The staff user search (frontend/src/app/components/user-list/UserList.tsx). */
module UserList {
  import Strs

  datatype UserData = UserData(id: int, username: string, email: string, firstName: string, lastName: string)

  /** `text.toLowerCase().includes(lowerSearch)`. */
  predicate Includes(text: string, lowerSearch: string)
  {
    Strs.Contains(Strs.Lower(text), lowerSearch)
  }

  /** The filter callback: username, email, and the names when they are non-empty. */
  predicate Matches(u: UserData, lowerSearch: string)
  {
    || Includes(u.username, lowerSearch)
    || Includes(u.email, lowerSearch)
    || (u.firstName != "" && Includes(u.firstName, lowerSearch))
    || (u.lastName != "" && Includes(u.lastName, lowerSearch))
  }

  function FilterMatching(users: seq<UserData>, lowerSearch: string): (r: seq<UserData>)
    ensures |r| <= |users|
    decreases |users|
  {
    if users == [] then []
    else
      var rest := FilterMatching(users[1..], lowerSearch);
      if Matches(users[0], lowerSearch) then [users[0]] + rest else rest
  }

  /** `filteredUsers`: everyone for an empty term. */
  function FilteredUsers(allUsers: seq<UserData>, searchTerm: string): (r: seq<UserData>)
    ensures |r| <= |allUsers|
    ensures searchTerm == "" ==> r == allUsers
  {
    if searchTerm == "" then allUsers else FilterMatching(allUsers, Strs.Lower(searchTerm))
  }

  /** A user is kept exactly when it matches. */
  lemma {:induction false} FilterMembers(users: seq<UserData>, lowerSearch: string, u: UserData)
    ensures u in FilterMatching(users, lowerSearch) <==> u in users && Matches(u, lowerSearch)
    decreases |users|
  {
    if users != [] {
      FilterMembers(users[1..], lowerSearch, u);
      assert users == [users[0]] + users[1..];
    }
  }

  /** `s` is `t` with some elements left out, the rest in their order. */
  predicate IsSubsequence(s: seq<UserData>, t: seq<UserData>)
    decreases |t|
  {
    if t == [] then s == []
    else IsSubsequence(s, t[1..]) || (s != [] && s[0] == t[0] && IsSubsequence(s[1..], t[1..]))
  }

  lemma {:induction false} FilterIsSubsequence(users: seq<UserData>, lowerSearch: string)
    ensures IsSubsequence(FilterMatching(users, lowerSearch), users)
    decreases |users|
  {
    if users != [] {
      FilterIsSubsequence(users[1..], lowerSearch);
      var r := FilterMatching(users, lowerSearch);
      if Matches(users[0], lowerSearch) {
        assert r[1..] == FilterMatching(users[1..], lowerSearch);
      }
    }
  }

  /** The filtered list keeps exactly the matching users, in fetched order. */
  lemma FilteredUsersSpec(allUsers: seq<UserData>, searchTerm: string, u: UserData)
    ensures searchTerm == "" ==> FilteredUsers(allUsers, searchTerm) == allUsers
    ensures searchTerm != "" ==>
      (u in FilteredUsers(allUsers, searchTerm) <==> u in allUsers && Matches(u, Strs.Lower(searchTerm)))
    ensures IsSubsequence(FilteredUsers(allUsers, searchTerm), allUsers)
  {
    FilterMembers(allUsers, Strs.Lower(searchTerm), u);
    FilterIsSubsequence(allUsers, Strs.Lower(searchTerm));
    if searchTerm == "" {
      SubsequenceRefl(allUsers);
    }
  }

  lemma {:induction false} SubsequenceRefl(t: seq<UserData>)
    ensures IsSubsequence(t, t)
    decreases |t|
  {
    if t != [] {
      SubsequenceRefl(t[1..]);
    }
  }

  /** The count line: `N user(s)`, and the total only while a term is entered. */
  function CountText(shown: nat, total: nat, searchTerm: string): string
  {
    Strs.NatToStr(shown) + (if shown == 1 then " user " else " users ")
    + (if searchTerm != "" then "(filtered from " + Strs.NatToStr(total) + " total)" else "")
  }

  /**
   * The count opens with the number shown and the word `user`, which takes an `s` exactly when
   * the number is not one; the total follows, in parentheses at the end, exactly when a term is
   * entered.
   */
  lemma CountTextWording(shown: nat, total: nat, searchTerm: string)
    ensures var t := CountText(shown, total, searchTerm);
      var c := Strs.NatToStr(shown);
      && |t| > |c| + 5 && t[..|c|] == c && t[|c|..|c| + 5] == " user"
      && (t[|c| + 5] == 's' <==> shown != 1)
      && (t[|t| - 1] == ')' <==> searchTerm != "")
    ensures var t := CountText(shown, total, searchTerm);
      var f := "(filtered from " + Strs.NatToStr(total) + " total)";
      searchTerm != "" ==> |t| >= |f| && t[|t| - |f|..] == f
  {
    var f := "(filtered from " + Strs.NatToStr(total) + " total)";
    CountShape(Strs.NatToStr(shown), shown != 1, f, searchTerm != "");
  }

  /** The count line's layout, for any number text and any parenthesised total. */
  lemma CountShape(c: string, plural: bool, f: string, filtered: bool)
    requires f != [] && f[|f| - 1] == ')'
    ensures var t := c + (if plural then " users " else " user ") + (if filtered then f else "");
      && |t| > |c| + 5 && t[..|c|] == c && t[|c|..|c| + 5] == " user"
      && (t[|c| + 5] == 's' <==> plural)
      && (t[|t| - 1] == ')' <==> filtered)
      && (filtered ==> |t| >= |f| && t[|t| - |f|..] == f)
  {
    var mid := if plural then " users " else " user ";
    var tail := if filtered then f else "";
    Opens(c, mid, tail);
    assert mid[..5] == " user";
    if filtered {
      Ends(c + mid, f);
    } else {
      assert (c + mid) + tail == c + mid;
    }
  }

  lemma Opens(c: string, mid: string, tail: string)
    requires |mid| >= 6
    ensures var t := (c + mid) + tail;
      && |t| > |c| + 5 && t[..|c|] == c && t[|c|..|c| + 5] == mid[..5] && t[|c| + 5] == mid[5]
  {
    var t := (c + mid) + tail;
    assert t[..|c|] == (c + mid)[..|c|];
    assert t[|c|..|c| + 5] == (c + mid)[|c|..|c| + 5];
  }

  lemma Ends(x: string, f: string)
    requires f != []
    ensures |x + f| >= |f| && (x + f)[|x + f| - |f|..] == f && (x + f)[|x + f| - 1] == f[|f| - 1]
  {
  }

  /** The empty-state text, chosen by whether a term is entered. */
  function EmptyText(searchTerm: string): string
  {
    if searchTerm != "" then "No users match your search." else "No users found."
  }

  /** What the list area shows: the empty state exactly when no user is left. */
  function ListView(allUsers: seq<UserData>, searchTerm: string): (r: (string, seq<UserData>, string))
    ensures r.1 == FilteredUsers(allUsers, searchTerm)
    ensures r.0 == CountText(|r.1|, |allUsers|, searchTerm)
    ensures r.2 != "" <==> r.1 == []
    ensures r.1 == [] ==> r.2 == EmptyText(searchTerm)
  {
    var users := FilteredUsers(allUsers, searchTerm);
    (CountText(|users|, |allUsers|, searchTerm), users, if users == [] then EmptyText(searchTerm) else "")
  }
}
