/**
 * The signed-in user's entry in the sidebar, src/components/nav-user.tsx:
 * which of the login button, nothing, or the account menu is shown, the
 * avatar's initials and the name shown beside it.
 */
module NavUser {
  import opened Js

  /** The fields of the signed-in user the entry reads; each may be null. */
  datatype User = User(
    firstName: Option<string>,
    lastName: Option<string>,
    username: Option<string>,
    fullName: Option<string>)

  /** `user.firstName && user.lastName ? first[0] + last[0] : (user.username?.[0] ?? 'U')`. */
  function Initials(user: User): (r: string)
    ensures 1 <= |r| <= 2
    ensures TruthyString(user.firstName) && TruthyString(user.lastName) ==>
      r == [user.firstName.value[0], user.lastName.value[0]]
    ensures !(TruthyString(user.firstName) && TruthyString(user.lastName)) ==>
      r == if TruthyString(user.username) then [user.username.value[0]] else "U"
  {
    if TruthyString(user.firstName) && TruthyString(user.lastName) then
      [user.firstName.value[0]] + [user.lastName.value[0]]
    else
      match FirstChar(user.username)
      case Some(c) => [c]
      case None => "U"
  }

  /** `s?.[0]`: undefined for a missing or an empty string. */
  function FirstChar(s: Option<string>): (c: Option<char>)
    ensures c.Some? <==> TruthyString(s)
    ensures c.Some? ==> c.value == s.value[0]
  {
    if s.Some? && |s.value| > 0 then Some(s.value[0]) else None
  }

  /** `user.fullName ?? user.username`: an empty full name is still shown. */
  function DisplayName(user: User): (name: Option<string>)
    ensures user.fullName.Some? ==> name == user.fullName
    ensures user.fullName.None? ==> name == user.username
  {
    match user.fullName
    case Some(_) => user.fullName
    case None => user.username
  }

  datatype Entry =
    | LoginButton
    | Nothing
    | Menu(initials: string, displayName: Option<string>)

  /** What the entry renders for the current user and loading state. */
  function View(user: Option<User>, userLoaded: bool): (e: Entry)
    ensures e.LoginButton? <==> user.None? && userLoaded
    ensures e.Nothing? <==> !userLoaded
    ensures e.Menu? <==> user.Some? && userLoaded
    ensures e.Menu? ==> e.initials == Initials(user.value) && e.displayName == DisplayName(user.value)
  {
    if user.None? && userLoaded then LoginButton
    else if !userLoaded || user.None? then Nothing
    else Menu(Initials(user.value), DisplayName(user.value))
  }

  /** Initials for a user with a first and last name, and for one with neither name nor username. */
  lemma InitialsExamples()
    ensures Initials(User(Some("Ana"), Some("López"), Some("ana"), None)) == "AL"
    ensures Initials(User(Some("Ana"), Some(""), Some("zed"), None)) == "z"
    ensures Initials(User(None, None, Some(""), None)) == "U"
  {
    assert "Ana"[0] == 'A' && "López"[0] == 'L' && "zed"[0] == 'z';
  }
}
