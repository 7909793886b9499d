/**
 * The `auth` route middleware guarding every page but the login page.
 * The application runs with server-side rendering off, so `process.client`
 * is always true and the cached session is loaded on every page but `/`.
 */
module AuthMiddleware {
  import opened Wrappers
  import opened JsValues
  import opened AuthStorage
  import opened Routes

  /** The decision and the store state the middleware produces on a navigation to `path`. */
  function AuthChecked(path: string, s: Session, reply: SessionReply,
                       parse: string -> Option<Value>, stringify: Value -> string): (Decision, Session)
  {
    if path == LoginPath then (Proceed, s)
    else
      var fetched := Fetched(Loaded(s, parse), reply, stringify);
      if reply.Threw? then (Redirect(LoginPath), Cleared(fetched))
      else if !Truthy(fetched.profile) then (Redirect(LoginPath), fetched)
      else (Proceed, fetched)
  }

  /** The middleware on a navigation to `path`, where `api.getSession()` settles as `reply`. */
  method AuthGuard(auth: AuthStore, path: string, reply: SessionReply) returns (decision: Decision)
    modifies auth
    ensures (decision, auth.State()) == AuthChecked(path, old(auth.State()), reply, auth.parse, auth.stringify)
    ensures auth.sessionRequests == old(auth.sessionRequests) + (if path == LoginPath then 0 else 1)
  {
    if path == LoginPath {
      return Proceed;
    }
    auth.Load();
    var outcome := auth.FetchSession(reply);
    if outcome.Threw? {
      auth.Clear();
      return Redirect(LoginPath);
    }
    if !Truthy(auth.userProfile) {
      return Redirect(LoginPath);
    }
    return Proceed;
  }

  /** The login page itself is let through untouched. */
  lemma AuthGuardSkipsLogin(s: Session, reply: SessionReply,
                            parse: string -> Option<Value>, stringify: Value -> string)
    ensures AuthChecked(LoginPath, s, reply, parse, stringify) == (Proceed, s)
  {
  }

  /**
   * On any other page the server decides: a rejected session check, or one
   * that answers with a falsy profile, signs the user out and sends them to
   * the login page; a truthy profile lets them through, signed in as that
   * profile and with it stored.
   */
  lemma AuthGuardFollowsServer(path: string, s: Session, reply: SessionReply,
                               parse: string -> Option<Value>, stringify: Value -> string)
    requires path != LoginPath
    ensures reply.Threw? || !Truthy(reply.profile) ==>
      AuthChecked(path, s, reply, parse, stringify) == (Redirect(LoginPath), Cleared(s))
    ensures reply.Returned? && Truthy(reply.profile) ==>
      AuthChecked(path, s, reply, parse, stringify)
        == (Proceed, Session(s.storage[ProfileKey := stringify(reply.profile)], reply.profile))
  {
    var loaded := Loaded(s, parse);
    assert loaded.storage == s.storage || loaded.storage == s.storage - {ProfileKey};
    assert Cleared(loaded) == Cleared(s);
    match reply {
      case Threw(_) =>
        assert Cleared(Cleared(loaded)) == Cleared(s);
      case Returned(profile) =>
        if Truthy(profile) {
          assert loaded.storage[ProfileKey := stringify(profile)] == s.storage[ProfileKey := stringify(profile)];
        } else {
          assert Fetched(loaded, reply, stringify) == Cleared(s);
        }
    }
  }

  /** Nobody gets past the guard to a protected page without a profile. */
  lemma AuthGuardNeverAdmitsAnonymous(path: string, s: Session, reply: SessionReply,
                                      parse: string -> Option<Value>, stringify: Value -> string)
    requires AuthChecked(path, s, reply, parse, stringify).0 == Proceed
    ensures path == LoginPath || Truthy(AuthChecked(path, s, reply, parse, stringify).1.profile)
  {
  }

  /**
   * The cached session never sways the guard: two stores that differ only in
   * their cached profile (in memory and in storage) end in the same decision
   * and the same state.
   */
  lemma AuthGuardIgnoresCache(path: string, s1: Session, s2: Session, reply: SessionReply,
                              parse: string -> Option<Value>, stringify: Value -> string)
    requires path != LoginPath
    requires s1.storage - {ProfileKey} == s2.storage - {ProfileKey}
    ensures AuthChecked(path, s1, reply, parse, stringify) == AuthChecked(path, s2, reply, parse, stringify)
  {
    AuthGuardFollowsServer(path, s1, reply, parse, stringify);
    AuthGuardFollowsServer(path, s2, reply, parse, stringify);
    if reply.Returned? && Truthy(reply.profile) {
      var entry := stringify(reply.profile);
      MapUpdateIgnoresOldEntry(s1.storage, s2.storage, ProfileKey, entry);
    }
  }

  lemma MapUpdateIgnoresOldEntry(m1: map<string, string>, m2: map<string, string>, k: string, v: string)
    requires m1 - {k} == m2 - {k}
    ensures m1[k := v] == m2[k := v]
  {
    assert m1[k := v] == (m1 - {k})[k := v];
    assert m2[k := v] == (m2 - {k})[k := v];
  }

  /**
   * The scenario of an expired session: user 7 is cached, the server answers
   * 401 on a protected page, and the user ends up signed out on the login page.
   */
  method ExpiredSessionScenario(parse: string -> Option<Value>, stringify: Value -> string)
    requires parse("cached") == Some(Obj(Some(7), "name"))
  {
    var auth := new AuthStore(parse, stringify, map[ProfileKey := "cached", "theme" := "dark"]);
    var decision := AuthGuard(auth, "/issue/42", Threw(Some(401)));
    assert decision == Redirect(LoginPath);
    assert auth.userProfile == Null && auth.sessionRequests == 1;
    assert auth.storage == map["theme" := "dark"];
  }
}
