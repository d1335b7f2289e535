/**
 * The auth coordinator: the login and register flows with their form
 * checks, and the sync of local favorites that a login triggers.
 */
module Auth {
  import opened Wrappers
  import Api
  import Favorites

  const FILL_ALL := "Preencha todos os campos"
  const SHORT_PASSWORD := "Senha deve ter no mínimo 6 caracteres"
  const LOGIN_FAILED := "Erro ao fazer login"
  const REGISTER_FAILED := "Erro ao criar conta"
  const MIN_PASSWORD: nat := 6

  /** `handleLogin`'s field check: both fields must be filled. */
  function LoginFormError(email: string, password: string): (error: Option<string>)
    ensures error.None? <==> email != "" && password != ""
    ensures error.Some? ==> error.value == FILL_ALL
  {
    if email == "" || password == "" then Some(FILL_ALL) else None
  }

  /**
   * `handleRegister`'s field checks: all three fields filled, checked
   * first, then a password of at least six characters.
   */
  function RegisterFormError(name: string, email: string, password: string): (error: Option<string>)
    ensures error.None? <==> name != "" && email != "" && password != "" && |password| >= MIN_PASSWORD
    ensures name == "" || email == "" || password == "" ==> error == Some(FILL_ALL)
    ensures error == Some(SHORT_PASSWORD) <==>
              name != "" && email != "" && password != "" && |password| < MIN_PASSWORD
  {
    if name == "" || email == "" || password == "" then Some(FILL_ALL)
    else if |password| < MIN_PASSWORD then Some(SHORT_PASSWORD)
    else None
  }

  /** What `login` and `register` resolve to; they never throw. */
  datatype AuthResult = Success(user: Option<string>) | Failure(error: string)

  /**
   * The session after the first `count` `saveVehicle` calls of a sync,
   * `network(i)` answering the i-th: each call may refresh the tokens or
   * log out, as any authenticated `_fetch` may.
   */
  function SyncedState(t: Api.TokenState, count: nat, network: nat -> Api.Script): (r: Api.TokenState)
    ensures Api.OthersKept(r.storage, t.storage)
    ensures Api.MirroredState(t) ==> Api.MirroredState(r)
  {
    if count == 0 then t else Api.AfterFetch(SyncedState(t, count - 1, network), true, network(count - 1))
  }

  /** The session after `syncFavorites`: one call per favorite, and none at all when logged out. */
  function AfterSync(t: Api.TokenState, favorites: seq<string>, network: nat -> Api.Script): (r: Api.TokenState)
    ensures !Api.Truthy(t.accessToken) || favorites == [] ==> r == t
    ensures Api.OthersKept(r.storage, t.storage)
    ensures Api.MirroredState(t) ==> Api.MirroredState(r)
  {
    if Api.Truthy(t.accessToken) then SyncedState(t, |favorites|, network) else t
  }

  /**
   * `syncFavorites`: when logged in, one `saveVehicle` per local favorite,
   * in list order; each failure is caught on its own and the loop goes on.
   * The local list is only read. `network(i)` answers the i-th call.
   */
  method SyncFavorites(api: Api.ApiClient, favorites: Favorites.FavoritesManager, network: nat -> Api.Script)
    returns (attempted: seq<string>, calls: seq<Api.Request>)
    modifies api
    ensures attempted == if old(api.IsLoggedIn()) then favorites.List() else []
    ensures favorites.List() == old(favorites.List())
    ensures |calls| == |attempted|
    ensures forall k :: 0 <= k < |calls| ==>
              calls[k].verb == "POST" && calls[k].url == api.baseUrl + "/interactions" &&
              calls[k].body == Some(Api.SavedBody(attempted[k]))
    ensures attempted == [] ==> unchanged(api)
    ensures api.State() == AfterSync(old(api.State()), favorites.List(), network)
    ensures old(api.Mirrored()) ==> api.Mirrored()
  {
    if !api.IsLoggedIn() {
      return [], [];
    }
    var localFavorites := favorites.List();
    if |localFavorites| == 0 {
      return [], [];
    }
    attempted, calls := [], [];
    for i := 0 to |localFavorites|
      invariant attempted == localFavorites[..i]
      invariant |calls| == i
      invariant forall k :: 0 <= k < i ==>
                  calls[k].verb == "POST" && calls[k].url == api.baseUrl + "/interactions" &&
                  calls[k].body == Some(Api.SavedBody(localFavorites[k]))
      invariant api.State() == SyncedState(old(api.State()), i, network)
      invariant old(api.Mirrored()) ==> api.Mirrored()
    {
      var _, sent := api.SaveVehicle(localFavorites[i], network(i));
      attempted := attempted + [localFavorites[i]];
      calls := calls + [sent[0]];
    }
    assert localFavorites[..|localFavorites|] == localFavorites;
  }

  /** `onAuthChange`: only a login starts the favorites sync (the UI refresh and the event are not modelled). */
  method OnAuthChange(isLoggedIn: bool, api: Api.ApiClient, favorites: Favorites.FavoritesManager,
                      network: nat -> Api.Script)
    returns (attempted: seq<string>)
    modifies api
    ensures !isLoggedIn ==> attempted == [] && unchanged(api)
    ensures isLoggedIn ==> attempted == if old(api.IsLoggedIn()) then favorites.List() else []
    ensures attempted == [] ==> unchanged(api)
    ensures isLoggedIn ==> api.State() == AfterSync(old(api.State()), favorites.List(), network)
    ensures favorites.List() == old(favorites.List())
    ensures old(api.Mirrored()) ==> api.Mirrored()
  {
    attempted := [];
    if isLoggedIn {
      var calls;
      attempted, calls := SyncFavorites(api, favorites, network);
    }
  }

  /** The part `login` and `register` share once the backend has answered. */
  method Conclude(response: Result<Api.Json>, api: Api.ApiClient, favorites: Favorites.FavoritesManager,
                  network: nat -> Api.Script)
    returns (result: AuthResult, attempted: seq<string>)
    modifies api
    ensures response.Err? ==> result == Failure(response.message) && attempted == [] && unchanged(api)
    ensures response.Ok? ==> result == Success(Api.Prop(response.value, "user"))
    ensures response.Ok? ==> attempted == if old(api.IsLoggedIn()) then favorites.List() else []
    ensures attempted == [] ==> unchanged(api)
    ensures response.Ok? ==> api.State() == AfterSync(old(api.State()), favorites.List(), network)
    ensures favorites.List() == old(favorites.List())
    ensures old(api.Mirrored()) ==> api.Mirrored()
  {
    if response.Err? {
      return Failure(response.message), [];
    }
    attempted := OnAuthChange(true, api, favorites, network);
    result := Success(Api.Prop(response.value, "user"));
  }

  /**
   * `login`: a rejected login becomes `{success: false, error}` and changes
   * nothing; an accepted one saves the tokens, then syncs the favorites
   * when a token was received.
   */
  method Login(api: Api.ApiClient, favorites: Favorites.FavoritesManager, email: string, password: string,
               script: Api.Script, network: nat -> Api.Script)
    returns (result: AuthResult, attempted: seq<string>)
    modifies api
    ensures result.Success? <==> Api.Authenticated(script.first).Ok?
    ensures result.Failure? ==> result.error == Api.Authenticated(script.first).message && attempted == [] && unchanged(api)
    ensures result.Success? && Api.Truthy(Api.Prop(Api.Authenticated(script.first).value, "accessToken")) ==>
              attempted == favorites.List()
    ensures result.Success? ==>
              api.State() == AfterSync(Api.Saved(old(api.State()), Api.Authenticated(script.first).value).value,
                                       favorites.List(), network)
    ensures result.Success? && attempted == [] ==>
              api.State() == Api.Saved(old(api.State()), Api.Authenticated(script.first).value).value
    ensures favorites.List() == old(favorites.List())
    ensures old(api.Mirrored()) ==> api.Mirrored()
  {
    var response, sent := api.Login(email, password, script);
    result, attempted := Conclude(response, api, favorites, network);
  }

  /** `register`: the same wrapping around the register call. */
  method Register(api: Api.ApiClient, favorites: Favorites.FavoritesManager, email: string, password: string,
                  name: string, script: Api.Script, network: nat -> Api.Script)
    returns (result: AuthResult, attempted: seq<string>)
    modifies api
    ensures result.Success? <==> Api.Authenticated(script.first).Ok?
    ensures result.Failure? ==> result.error == Api.Authenticated(script.first).message && attempted == [] && unchanged(api)
    ensures result.Success? && Api.Truthy(Api.Prop(Api.Authenticated(script.first).value, "accessToken")) ==>
              attempted == favorites.List()
    ensures result.Success? ==>
              api.State() == AfterSync(Api.Saved(old(api.State()), Api.Authenticated(script.first).value).value,
                                       favorites.List(), network)
    ensures result.Success? && attempted == [] ==>
              api.State() == Api.Saved(old(api.State()), Api.Authenticated(script.first).value).value
    ensures favorites.List() == old(favorites.List())
    ensures old(api.Mirrored()) ==> api.Mirrored()
  {
    var response, sent := api.Register(email, password, name, script);
    result, attempted := Conclude(response, api, favorites, network);
  }

  /** `logout`: clears the session; `onAuthChange(false)` never syncs. */
  method Logout(api: Api.ApiClient)
    modifies api
    ensures api.State() == Api.LoggedOutOf(old(api.State()))
    ensures api.LoggedOut() && !api.IsLoggedIn()
  {
    api.Logout();
  }

  /**
   * `handleLogin`: an incomplete form shows its message without calling
   * the backend; a failed login shows the error, or a generic one.
   */
  method HandleLogin(api: Api.ApiClient, favorites: Favorites.FavoritesManager, email: string, password: string,
                     script: Api.Script, network: nat -> Api.Script)
    returns (shown: Option<string>, called: bool)
    modifies api
    ensures called <==> LoginFormError(email, password).None?
    ensures !called ==> shown == LoginFormError(email, password) && unchanged(api)
    ensures called ==> (shown.None? <==> Api.Authenticated(script.first).Ok?)
    ensures called && shown.Some? ==>
              var error := Api.Authenticated(script.first).message;
              shown == Some(if error != "" then error else LOGIN_FAILED)
    ensures called && shown.Some? ==> shown.value != ""
    ensures favorites.List() == old(favorites.List())
  {
    var check := LoginFormError(email, password);
    if check.Some? {
      return check, false;
    }
    var result, attempted := Login(api, favorites, email, password, script, network);
    if result.Success? {
      return None, true;
    }
    return Some(if result.error != "" then result.error else LOGIN_FAILED), true;
  }

  /**
   * `handleRegister`: both field checks run before any backend call; a
   * failed registration shows the error, or a generic one.
   */
  method HandleRegister(api: Api.ApiClient, favorites: Favorites.FavoritesManager, name: string, email: string,
                        password: string, script: Api.Script, network: nat -> Api.Script)
    returns (shown: Option<string>, called: bool)
    modifies api
    ensures called <==> RegisterFormError(name, email, password).None?
    ensures !called ==> shown == RegisterFormError(name, email, password) && unchanged(api)
    ensures called ==> (shown.None? <==> Api.Authenticated(script.first).Ok?)
    ensures called && shown.Some? ==>
              var error := Api.Authenticated(script.first).message;
              shown == Some(if error != "" then error else REGISTER_FAILED)
    ensures called && shown.Some? ==> shown.value != ""
    ensures favorites.List() == old(favorites.List())
  {
    var check := RegisterFormError(name, email, password);
    if check.Some? {
      return check, false;
    }
    var result, attempted := Register(api, favorites, email, password, name, script, network);
    if result.Success? {
      return None, true;
    }
    return Some(if result.error != "" then result.error else REGISTER_FAILED), true;
  }
}
