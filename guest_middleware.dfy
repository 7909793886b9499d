/**
 * The `guest` route middleware on pages meant for signed-out users: it
 * reads the cached session only, without asking the server.
 */
module GuestMiddleware {
  import opened Wrappers
  import opened JsValues
  import opened AuthStorage
  import opened Routes
  import AuthMiddleware

  /** The decision and the store state the middleware produces on a navigation to `path`. */
  function GuestChecked(path: string, s: Session, parse: string -> Option<Value>): (Decision, Session) {
    if path == IssuePath then (Proceed, s)
    else
      var loaded := Loaded(s, parse);
      if Truthy(loaded.profile) then (Redirect(IssuePath), loaded) else (Proceed, loaded)
  }

  /** The middleware on a navigation to `path`. */
  method GuestGuard(auth: AuthStore, path: string) returns (decision: Decision)
    modifies auth
    ensures (decision, auth.State()) == GuestChecked(path, old(auth.State()), auth.parse)
    ensures auth.sessionRequests == old(auth.sessionRequests)
  {
    if path == IssuePath {
      return Proceed;
    }
    auth.Load();
    if Truthy(auth.userProfile) {
      return Redirect(IssuePath);
    }
    return Proceed;
  }

  /** The issue page itself is let through without loading anything. */
  lemma GuestGuardSkipsIssues(s: Session, parse: string -> Option<Value>)
    ensures GuestChecked(IssuePath, s, parse) == (Proceed, s)
  {
  }

  /**
   * A stored entry that parses to a truthy profile sends the user on to the
   * issue page; a missing, empty, "undefined" or unparsable entry lets the
   * user through and is purged.
   */
  lemma GuestGuardFollowsStorage(path: string, s: Session, parse: string -> Option<Value>)
    requires path != IssuePath
    ensures ProfileKey in s.storage && s.storage[ProfileKey] !in {"", "undefined"}
            && parse(s.storage[ProfileKey]).Some? && Truthy(parse(s.storage[ProfileKey]).value)
        ==> GuestChecked(path, s, parse) == (Redirect(IssuePath), Session(s.storage, parse(s.storage[ProfileKey]).value))
    ensures ProfileKey !in s.storage || s.storage[ProfileKey] in {"", "undefined"}
            || parse(s.storage[ProfileKey]).None?
        ==> GuestChecked(path, s, parse) == (Proceed, Cleared(s))
  {
  }

  /** The outcome depends on the storage contents alone, never on the in-memory profile. */
  lemma GuestGuardReadsStorageOnly(path: string, s1: Session, s2: Session, parse: string -> Option<Value>)
    requires path != IssuePath
    requires s1.storage == s2.storage
    ensures GuestChecked(path, s1, parse) == GuestChecked(path, s2, parse)
  {
  }

  /**
   * Once the auth middleware has let a user through to a protected page,
   * the guest middleware sends them from any guest page to the issue page.
   */
  lemma AdmittedUserSkipsGuestPages(path: string, guestPath: string, s: Session, reply: SessionReply,
                                    parse: string -> Option<Value>, stringify: Value -> string)
    requires JsonRoundTrip(parse, stringify)
    requires path != LoginPath && guestPath != IssuePath
    requires AuthMiddleware.AuthChecked(path, s, reply, parse, stringify).0 == Proceed
    ensures var after := AuthMiddleware.AuthChecked(path, s, reply, parse, stringify).1;
            GuestChecked(guestPath, after, parse) == (Redirect(IssuePath), after)
  {
    AuthMiddleware.AuthGuardFollowsServer(path, s, reply, parse, stringify);
    var after := AuthMiddleware.AuthChecked(path, s, reply, parse, stringify).1;
    assert reply.Returned? && Truthy(reply.profile);
    assert after == Saved(s, reply.profile, stringify);
    SaveThenLoad(s, reply.profile, parse, stringify);
  }
}
