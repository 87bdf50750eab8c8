/** The top bar: the title for the current path, the user's initials, and the logout
    button. */
module Navbar {
  import opened JsCore
  import opened Records
  import AuthStore

  /** `getPageTitle()` */
  function PageTitle(path: string): (r: string)
    ensures path == "/campaigns" ==> r == "Campaigns"
    ensures path == "/donations" ==> r == "Donations"
    ensures path == "/receipts" ==> r == "Receipts"
    ensures path !in {"/campaigns", "/donations", "/receipts"} ==> r == "Dashboard"
  {
    if path == "/dashboard" then "Dashboard"
    else if path == "/campaigns" then "Campaigns"
    else if path == "/donations" then "Donations"
    else if path == "/receipts" then "Receipts"
    else "Dashboard"
  }

  /** `getUserInitials()`: for a user with a non-empty name, the first characters of the
      words (the non-space characters that start the name or follow a space), upper-cased,
      at most two; `'U'` otherwise. */
  function UserInitials(user: Option<User>): (r: string)
    ensures |r| <= 2
    ensures (user.None? || !Truthy(user.value.name)) ==> r == "U"
    ensures user.Some? && Truthy(user.value.name) ==>
              r == FirstN(ToUpper(WordStarts(user.value.name.value, true)), 2)
  {
    if user.Some? && Truthy(user.value.name) then
      var name := user.value.name.value;
      JoinHeadsOfSplit(name);
      FirstN(ToUpper(JoinHeads(SplitOnSpace(name))), 2)
    else "U"
  }

  /** A name made only of spaces has no initials at all: the result is empty, not `'U'`. */
  lemma {:induction false} SpacesOnlyNameHasNoInitials(s: string, afterSpace: bool)
    requires forall i :: 0 <= i < |s| ==> s[i] == ' '
    ensures WordStarts(s, afterSpace) == ""
    decreases |s|
  {
    if s != [] {
      SpacesOnlyNameHasNoInitials(s[1..], true);
    }
  }

  /** A single-word name gives its first letter, upper-cased. */
  lemma {:induction false} OneWordInitial(s: string, afterSpace: bool)
    requires forall i :: 0 <= i < |s| ==> s[i] != ' '
    ensures |s| > 0 && afterSpace ==> WordStarts(s, afterSpace) == [s[0]]
    ensures !afterSpace ==> WordStarts(s, afterSpace) == ""
    decreases |s|
  {
    if s != [] {
      OneWordInitial(s[1..], false);
    }
  }

  /** `handleLogout()`: the session is cleared first, then the login page is the
      destination. */
  method HandleLogout(store: AuthStore.AuthStore) returns (navigateTo: string)
    modifies store
    ensures store.token.None? && store.user.None? && store.persisted.None?
    ensures navigateTo == "/login"
  {
    store.Logout();
    navigateTo := "/login";
  }
}
