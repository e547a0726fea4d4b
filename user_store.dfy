/** The session store: who is signed in and with which token. */
module UserStore {
  import opened Wrappers
  import Router

  /** The store's `userInfo`: the user id (`null` until a sign-in supplies one), the user name
      and the session token. */
  datatype UserInfo = UserInfo(id: Option<int>, username: string, token: string)

  /** The body the sign-in endpoint answers with; a field the server left out is `None`. */
  datatype SignInResponse = SignInResponse(id: Option<int>, username: Option<string>, token: Option<string>)

  /** The state a fresh store starts from, and the one `$reset` goes back to. */
  function Initial(): (info: UserInfo)
    ensures info.id.None? && !Router.HasToken(info.token)
  {
    UserInfo(None, "", "")
  }

  function Overwrite<T>(current: T, incoming: Option<T>): T {
    if incoming.Some? then incoming.value else current
  }

  /** `$patch({ userInfo: response })`: every field present in the response replaces the stored
      one; the others keep their value. */
  function Patch(info: UserInfo, response: SignInResponse): UserInfo {
    UserInfo(
      if response.id.Some? then response.id else info.id,
      Overwrite(info.username, response.username),
      Overwrite(info.token, response.token))
  }

  /** A field the response carries ends up in the store, whatever was there before; a field it
      leaves out is untouched. */
  lemma PatchFields(info: UserInfo, response: SignInResponse)
    ensures response.id.Some? ==> Patch(info, response).id == response.id
    ensures response.id.None? ==> Patch(info, response).id == info.id
    ensures response.username.Some? ==> Patch(info, response).username == response.username.value
    ensures response.username.None? ==> Patch(info, response).username == info.username
    ensures response.token.Some? ==> Patch(info, response).token == response.token.value
    ensures response.token.None? ==> Patch(info, response).token == info.token
  {
  }

  /** Patching twice with the same response is the same as patching once. */
  lemma PatchIdempotent(info: UserInfo, response: SignInResponse)
    ensures Patch(Patch(info, response), response) == Patch(info, response)
  {
  }

  /** A complete response determines the whole state, independently of what was stored. */
  lemma CompleteResponseDetermines(a: UserInfo, b: UserInfo, response: SignInResponse)
    requires response.id.Some? && response.username.Some? && response.token.Some?
    ensures Patch(a, response) == Patch(b, response)
  {
  }

  /** The pinia store instance. */
  class Store {
    var userInfo: UserInfo

    constructor()
      ensures userInfo == Initial()
    {
      userInfo := Initial();
    }

    /** `signIn`: on success the response is patched into `userInfo` and handed back; a rejected
        request leaves the store as it was and the rejection reaches the caller. */
    method SignIn(outcome: Outcome<SignInResponse>) returns (result: Outcome<SignInResponse>)
      modifies this
      ensures result == outcome
      ensures outcome.Success? ==> userInfo == Patch(old(userInfo), outcome.value)
      ensures outcome.Failure? ==> userInfo == old(userInfo)
    {
      if outcome.Success? {
        userInfo := Patch(userInfo, outcome.value);
      }
      result := outcome;
    }

    /** `signUp`: hands back what the sign-up request produced and touches no state. */
    method SignUp(outcome: Outcome<()>) returns (result: Outcome<()>)
      ensures result == outcome
    {
      result := outcome;
    }

    /** `logout`: resets the store and reports success. Afterwards the guard sends every
        navigation to a route that needs a session to `Login`. */
    method Logout() returns (done: bool)
      modifies this
      ensures done && userInfo == Initial()
      ensures forall to: Router.Target :: !to.noAuth ==>
        Router.BeforeEach(to, userInfo.token) == Router.RedirectToName(Router.LoginName)
    {
      userInfo := Initial();
      done := true;
    }
  }

  /** Signed out, the guard redirects exactly the navigations to routes that need a session, and
      always to `Login`. */
  lemma SignedOutGuard(to: Router.Target)
    ensures Router.BeforeEach(to, Initial().token) != Router.Proceed <==> !to.noAuth
    ensures !to.noAuth ==> Router.BeforeEach(to, Initial().token) == Router.RedirectToName(Router.LoginName)
  {
  }

  /** After a sign-in whose response carries a non-empty token, every route of the shipped table
      but `Login` is reachable, and `Login` sends the user on to `/`. */
  lemma SignedInGuard(info: UserInfo, response: SignInResponse, name: string)
    requires response.token.Some? && response.token.value != ""
    requires Router.Resolve(name).Some?
    ensures var decision := Router.BeforeEach(Router.Resolve(name).value, Patch(info, response).token);
      && (name != Router.LoginName ==> decision == Router.Proceed)
      && (name == Router.LoginName ==> decision == Router.RedirectToPath(Router.HomePath))
  {
    var t := Router.Resolve(name).value;
    assert t.name == name;
  }
}
