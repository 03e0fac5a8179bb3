/**
 * The authentication store of src/stores/AuthStore.ts: the signed-in user's
 * id and two flags, overwritten together by `setAuth` and cleared by `reset`.
 */
module AuthStore {
  import opened Js

  datatype AuthState = AuthState(userId: Option<string>, isSignedIn: bool, isLoaded: bool)

  /** The state the store starts in and `reset` returns to. */
  const Initial := AuthState(None, false, false)

  /** `userId || null`: a missing or empty id becomes null. */
  function NormalizeUserId(userId: Option<string>): (r: Option<string>)
    ensures r.None? <==> !TruthyString(userId)
    ensures r.Some? ==> r == userId && r.value != ""
  {
    if TruthyString(userId) then userId else None
  }

  /** The state `setAuth` stores: it depends on the arguments only. */
  function SetAuthState(userId: Option<string>, isSignedIn: bool, isLoaded: bool): (s: AuthState)
    ensures s.isSignedIn == isSignedIn && s.isLoaded == isLoaded
    ensures s.userId == NormalizeUserId(userId)
  {
    AuthState(NormalizeUserId(userId), isSignedIn, isLoaded)
  }

  class Store {
    var userId: Option<string>
    var isSignedIn: bool
    var isLoaded: bool

    function State(): AuthState
      reads this
    {
      AuthState(userId, isSignedIn, isLoaded)
    }

    constructor ()
      ensures State() == Initial
    {
      userId, isSignedIn, isLoaded := None, false, false;
    }

    /** `setAuth(userId, isSignedIn, isLoaded)`: all three fields are overwritten. */
    method SetAuth(newUserId: Option<string>, newIsSignedIn: bool, newIsLoaded: bool)
      modifies this
      ensures State() == SetAuthState(newUserId, newIsSignedIn, newIsLoaded)
    {
      userId := if TruthyString(newUserId) then newUserId else None;
      isSignedIn := newIsSignedIn;
      isLoaded := newIsLoaded;
    }

    /** `reset()`: back to the initial state, whatever the state was. */
    method Reset()
      modifies this
      ensures State() == Initial
    {
      userId, isSignedIn, isLoaded := None, false, false;
    }
  }
}
