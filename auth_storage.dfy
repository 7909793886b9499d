/**
 * The session store (`useAuthStorage`): the signed-in user's profile, kept
 * both in the shared `userProfile` state and, serialised as JSON, under the
 * key "userProfile" in sessionStorage.
 *
 * The functions on `Session` specify each operation; the `AuthStore` class
 * performs them on its fields and is proved against them.
 */
module AuthStorage {
  import opened Wrappers
  import opened JsValues

  /** The sessionStorage key of the serialised profile. */
  const ProfileKey: string := "userProfile"

  /** Everything the store owns: the sessionStorage contents and the `userProfile` state. */
  datatype Session = Session(storage: map<string, string>, profile: Value)

  /** What `fetchSession` sees of `api.getSession()`: the resolved profile or the thrown error's status. */
  datatype SessionReply = Returned(profile: Value) | Threw(status: Option<int>)

  /**
   * What the store relies on of `JSON.parse` (None where it throws) and
   * `JSON.stringify`: neither "" nor "undefined" parses, and a truthy value
   * survives a round trip.
   */
  ghost predicate JsonRoundTrip(parse: string -> Option<Value>, stringify: Value -> string) {
    parse("") == None && parse("undefined") == None
    && forall v :: Truthy(v) ==> parse(stringify(v)) == Some(v)
  }

  /** The stored entry is one `load` accepts, and it parses to the in-memory profile; no entry means no profile. */
  ghost predicate Synced(s: Session, parse: string -> Option<Value>) {
    if ProfileKey in s.storage then
      var raw := s.storage[ProfileKey];
      raw != "" && raw != "undefined" && parse(raw) == Some(s.profile)
    else
      s.profile == Null
  }

  /** `clear()`. */
  function Cleared(s: Session): Session {
    Session(s.storage - {ProfileKey}, Null)
  }

  /** `save(profile)`. */
  function Saved(s: Session, profile: Value, stringify: Value -> string): Session {
    if !Truthy(profile) then Cleared(s)
    else Session(s.storage[ProfileKey := stringify(profile)], profile)
  }

  /** `load()`. */
  function Loaded(s: Session, parse: string -> Option<Value>): Session {
    if ProfileKey !in s.storage || s.storage[ProfileKey] == "" || s.storage[ProfileKey] == "undefined" then
      Session(s.storage - {ProfileKey}, Null)
    else
      match parse(s.storage[ProfileKey])
      case None => Session(s.storage - {ProfileKey}, Null)
      case Some(v) => Session(s.storage, v)
  }

  /** The state `fetchSession()` leaves once `api.getSession()` has settled as `reply`. */
  function Fetched(s: Session, reply: SessionReply, stringify: Value -> string): Session {
    match reply
    case Returned(profile) => Saved(s, profile, stringify)
    case Threw(_) => Cleared(s)
  }

  /** The store shared by the route guards and the lock coordinator. */
  class AuthStore {
    const parse: string -> Option<Value>
    const stringify: Value -> string
    var storage: map<string, string>
    var userProfile: Value
    /** How many times `api.getSession()` has been called. */
    ghost var sessionRequests: nat

    function State(): Session
      reads this
    {
      Session(storage, userProfile)
    }

    /** A store over sessionStorage holding `storage`; the shared state starts out null. */
    constructor (parse: string -> Option<Value>, stringify: Value -> string, storage: map<string, string>)
      ensures this.parse == parse && this.stringify == stringify
      ensures State() == Session(storage, Null) && sessionRequests == 0
    {
      this.parse := parse;
      this.stringify := stringify;
      this.storage := storage;
      userProfile := Null;
      sessionRequests := 0;
    }

    method Save(profile: Value)
      modifies this
      ensures State() == Saved(old(State()), profile, stringify)
      ensures sessionRequests == old(sessionRequests)
    {
      if !Truthy(profile) {
        Clear();
        return;
      }
      storage := storage[ProfileKey := stringify(profile)];
      userProfile := profile;
    }

    method Load()
      modifies this
      ensures State() == Loaded(old(State()), parse)
      ensures sessionRequests == old(sessionRequests)
    {
      if ProfileKey !in storage || storage[ProfileKey] == "" || storage[ProfileKey] == "undefined" {
        storage := storage - {ProfileKey};
        userProfile := Null;
        return;
      }
      var parsed := parse(storage[ProfileKey]);
      if parsed.None? {
        storage := storage - {ProfileKey};
        userProfile := Null;
      } else {
        userProfile := parsed.value;
      }
    }

    method Clear()
      modifies this
      ensures State() == Cleared(old(State()))
      ensures sessionRequests == old(sessionRequests)
    {
      storage := storage - {ProfileKey};
      userProfile := Null;
    }

    /**
     * `fetchSession()`, given how `api.getSession()` settles: it resolves with
     * the profile it received or rethrows the error it caught (401 or not).
     */
    method FetchSession(reply: SessionReply) returns (outcome: SessionReply)
      modifies this
      ensures outcome == reply
      ensures State() == Fetched(old(State()), reply, stringify)
      ensures sessionRequests == old(sessionRequests) + 1
    {
      sessionRequests := sessionRequests + 1;
      match reply {
        case Returned(profile) =>
          Save(profile);
        case Threw(status) =>
          if status == Some(401) {
            Clear();
          } else {
            Clear();
          }
      }
      outcome := reply;
    }
  }

  /** `clear` removes the profile entry only, and clearing twice is clearing once. */
  lemma ClearOnlyDropsProfile(s: Session)
    ensures Cleared(s).profile == Null && ProfileKey !in Cleared(s).storage
    ensures forall k :: k != ProfileKey ==> Lookup(Cleared(s).storage, k) == Lookup(s.storage, k)
    ensures Cleared(Cleared(s)) == Cleared(s)
  {
  }

  function Lookup(m: map<string, string>, k: string): Option<string> {
    if k in m then Some(m[k]) else None
  }

  /** Saving a falsy profile is clearing. */
  lemma SaveFalsyClears(s: Session, profile: Value, stringify: Value -> string)
    requires !Truthy(profile)
    ensures Saved(s, profile, stringify) == Cleared(s)
  {
  }

  /**
   * A missing, empty, "undefined" or unparsable entry leaves nobody signed
   * in and is purged; any other entry that parses to `v` makes `v` the
   * profile, whatever `v` is, and leaves storage as it was. Conversely,
   * `load` signs somebody in only from an entry that parses to them.
   */
  lemma LoadRejectsBadEntry(s: Session, parse: string -> Option<Value>)
    ensures ProfileKey !in s.storage || s.storage[ProfileKey] in {"", "undefined"}
            || parse(s.storage[ProfileKey]).None?
        ==> Loaded(s, parse) == Cleared(s)
    ensures ProfileKey in s.storage && s.storage[ProfileKey] !in {"", "undefined"}
            && parse(s.storage[ProfileKey]).Some?
        ==> Loaded(s, parse) == Session(s.storage, parse(s.storage[ProfileKey]).value)
    ensures Loaded(s, parse).profile != Null ==>
      Loaded(s, parse).storage == s.storage && parse(s.storage[ProfileKey]) == Some(Loaded(s, parse).profile)
  {
  }

  /** Whatever storage holds, `load` leaves the store in sync. */
  lemma LoadSyncs(s: Session, parse: string -> Option<Value>)
    ensures Synced(Loaded(s, parse), parse)
  {
  }

  /** On a store in sync, `load` changes nothing. */
  lemma LoadOfSynced(s: Session, parse: string -> Option<Value>)
    requires Synced(s, parse)
    ensures Loaded(s, parse) == s
  {
    if ProfileKey !in s.storage {
      assert s.storage - {ProfileKey} == s.storage;
    }
  }

  /** `load` is idempotent. */
  lemma LoadIdempotent(s: Session, parse: string -> Option<Value>)
    ensures Loaded(Loaded(s, parse), parse) == Loaded(s, parse)
  {
    LoadSyncs(s, parse);
    LoadOfSynced(Loaded(s, parse), parse);
  }

  /** `clear`, `save` and `fetchSession` leave the store in sync. */
  lemma OperationsSync(s: Session, profile: Value, reply: SessionReply,
                       parse: string -> Option<Value>, stringify: Value -> string)
    requires JsonRoundTrip(parse, stringify)
    ensures Synced(Cleared(s), parse)
    ensures Synced(Saved(s, profile, stringify), parse)
    ensures Synced(Fetched(s, reply, stringify), parse)
  {
    if Truthy(profile) {
      assert parse(stringify(profile)) == Some(profile);
    }
    if reply.Returned? && Truthy(reply.profile) {
      assert parse(stringify(reply.profile)) == Some(reply.profile);
    }
  }

  /** `save(p)` then `load()` gives `p` back. */
  lemma SaveThenLoad(s: Session, profile: Value, parse: string -> Option<Value>, stringify: Value -> string)
    requires JsonRoundTrip(parse, stringify)
    requires Truthy(profile)
    ensures Loaded(Saved(s, profile, stringify), parse) == Saved(s, profile, stringify)
    ensures Loaded(Saved(s, profile, stringify), parse).profile == profile
  {
    OperationsSync(s, profile, Threw(None), parse, stringify);
    LoadOfSynced(Saved(s, profile, stringify), parse);
  }
}
