/**
 * The edit-lock coordinator of one issue (`useIssueLock`). It caches the
 * server's view of the issue's lock, asks for the lock, renews it with a
 * periodic heartbeat while the signed-in user holds it, and gives it back.
 *
 * Each call to a lock endpoint is an awaited request whose settlement is
 * passed in as a `Reply`; the ghost `calls` log records which endpoints
 * were called, in order. A firing of the heartbeat interval is the explicit
 * `Tick` step.
 */
module IssueLock {
  import opened Wrappers
  import opened JsValues
  import opened AuthStorage

  /** The user holding a lock, as the lock endpoints report it. */
  datatype Holder = Holder(userId: int, username: string)

  /** The cached view of the issue's lock (`LockStatus`). */
  datatype LockStatus = LockStatus(isLocked: bool, lockedBy: Option<Holder>, lockedAt: Option<string>)

  /** The status the coordinator starts with and falls back to. */
  const Unlocked: LockStatus := LockStatus(false, None, None)

  /** The body of a lock-status reply; any field may be missing (null or undefined). */
  datatype StatusBody = StatusBody(isLocked: Option<bool>, lockedBy: Option<Holder>, lockedAt: Option<string>)

  /**
   * How an awaited endpoint call settles: resolved with a body, rejected with
   * an error whose `data` may carry a lock status, or rejected with no data.
   */
  datatype Reply<T> = Ok(body: T) | Err(data: Option<LockStatus>) | Fail

  /** The lock endpoints. */
  datatype Call = GetIssueLockStatus | LockIssue | UnlockIssue | HeartbeatIssue

  /** The handle `setInterval` returns; browsers hand out positive ids, so a handle is always truthy. */
  type TimerId = n: int | n > 0 witness 1

  /** `lockedBy?.userId`. */
  function HolderId(status: LockStatus): Option<int> {
    if status.lockedBy.Some? then Some(status.lockedBy.value.userId) else None
  }

  /** `isEditable`: the issue is unlocked, or its holder's id is the signed-in profile's `UserId`. */
  predicate IsEditable(status: LockStatus, profile: Value) {
    !status.isLocked || HolderId(status) == UserIdOf(profile)
  }

  /** The heartbeat's guard: the cached status shows the lock held under the profile's `UserId`. */
  predicate HoldsLock(status: LockStatus, profile: Value) {
    status.isLocked && HolderId(status) == UserIdOf(profile)
  }

  /** The status `checkLockStatus` caches once the status request settles as `reply`. */
  function Checked(reply: Reply<StatusBody>): LockStatus {
    match reply
    case Ok(body) => LockStatus(body.isLocked.GetOr(false), body.lockedBy, body.lockedAt)
    case _ => Unlocked
  }

  /** `err?.data?.isLocked`: the lock request was refused because someone holds the lock. */
  predicate IsConflict(reply: Reply<()>) {
    reply.Err? && reply.data.Some? && reply.data.value.isLocked
  }

  /** The status `acquireLock` caches: the conflict's payload, or else a fresh status read. */
  function Acquired(lockReply: Reply<()>, statusReply: Reply<StatusBody>): LockStatus {
    if IsConflict(lockReply) then lockReply.data.value else Checked(statusReply)
  }

  /** The endpoints `acquireLock` calls. */
  function AcquireCalls(lockReply: Reply<()>): seq<Call> {
    if IsConflict(lockReply) then [LockIssue] else [LockIssue, GetIssueLockStatus]
  }

  class LockCoordinator {
    const issueId: int
    /** The session store, read for the signed-in profile and never written. */
    const auth: AuthStore
    var lockStatus: LockStatus
    /** `heartbeatInterval`: the active heartbeat timer, if any. */
    var heartbeat: Option<TimerId>
    ghost var calls: seq<Call>

    constructor (issueId: int, auth: AuthStore)
      ensures this.issueId == issueId && this.auth == auth
      ensures lockStatus == Unlocked && heartbeat == None && calls == []
    {
      this.issueId := issueId;
      this.auth := auth;
      lockStatus := Unlocked;
      heartbeat := None;
      calls := [];
    }

    /** `checkLockStatus()`: replaces the cached status wholesale; any failure resets it to unlocked. */
    method CheckLockStatus(reply: Reply<StatusBody>)
      modifies this
      ensures lockStatus == Checked(reply)
      ensures heartbeat == old(heartbeat) && calls == old(calls) + [GetIssueLockStatus]
    {
      calls := calls + [GetIssueLockStatus];
      match reply {
        case Ok(body) =>
          lockStatus := LockStatus(body.isLocked.GetOr(false), body.lockedBy, body.lockedAt);
        case _ =>
          lockStatus := Unlocked;
      }
    }

    /**
     * `acquireLock()`: asks for the lock, then re-reads the status; a refusal
     * that names the holder is cached as it is, any other refusal re-reads.
     * `statusReply` is how that re-read settles, when it happens.
     */
    method AcquireLock(lockReply: Reply<()>, statusReply: Reply<StatusBody>)
      modifies this
      ensures lockStatus == Acquired(lockReply, statusReply)
      ensures heartbeat == old(heartbeat) && calls == old(calls) + AcquireCalls(lockReply)
    {
      calls := calls + [LockIssue];
      if lockReply.Ok? {
        CheckLockStatus(statusReply);
      } else if IsConflict(lockReply) {
        lockStatus := lockReply.data.value;
      } else {
        CheckLockStatus(statusReply);
      }
    }

    /** `releaseLock()`: asks to drop the lock; whatever the answer, nothing else happens. */
    method ReleaseLock(reply: Reply<()>)
      modifies this
      ensures lockStatus == old(lockStatus) && heartbeat == old(heartbeat)
      ensures calls == old(calls) + [UnlockIssue]
    {
      calls := calls + [UnlockIssue];
    }

    /** `startHeartbeat()`: starts the interval, whose handle is `timer`, unless one is running. */
    method StartHeartbeat(timer: TimerId)
      modifies this
      ensures heartbeat == if old(heartbeat).Some? then old(heartbeat) else Some(timer)
      ensures lockStatus == old(lockStatus) && calls == old(calls)
    {
      if heartbeat.Some? {
        return;
      }
      heartbeat := Some(timer);
    }

    /** One firing of the heartbeat interval; with no interval running, nothing fires. */
    method Tick(reply: Reply<()>)
      modifies this
      ensures lockStatus == old(lockStatus) && heartbeat == old(heartbeat)
      ensures calls == old(calls) + (if heartbeat.Some? && HoldsLock(lockStatus, auth.userProfile)
                                     then [HeartbeatIssue] else [])
    {
      if heartbeat.Some? && lockStatus.isLocked && HolderId(lockStatus) == UserIdOf(auth.userProfile) {
        calls := calls + [HeartbeatIssue];
      }
    }

    /** `stopHeartbeat()`: cancels the interval if one is running. */
    method StopHeartbeat()
      modifies this
      ensures heartbeat == None
      ensures lockStatus == old(lockStatus) && calls == old(calls)
    {
      if heartbeat.Some? {
        heartbeat := None;
      }
    }

    /**
     * `initLock()`: reads the status, asks for the lock only if the issue is
     * unlocked, then starts the heartbeat. `first` is how the first status
     * read settles, `lockReply` and `second` how acquisition settles.
     */
    method InitLock(first: Reply<StatusBody>, lockReply: Reply<()>, second: Reply<StatusBody>, timer: TimerId)
      modifies this
      ensures heartbeat == if old(heartbeat).Some? then old(heartbeat) else Some(timer)
      ensures Checked(first).isLocked ==>
        lockStatus == Checked(first) && calls == old(calls) + [GetIssueLockStatus]
      ensures !Checked(first).isLocked ==>
        lockStatus == Acquired(lockReply, second)
        && calls == old(calls) + [GetIssueLockStatus] + AcquireCalls(lockReply)
    {
      CheckLockStatus(first);
      if !lockStatus.isLocked {
        AcquireLock(lockReply, second);
      }
      StartHeartbeat(timer);
    }

    /** `cleanup()`: stops the heartbeat, then asks once to drop the lock. */
    method Cleanup(reply: Reply<()>)
      modifies this
      ensures heartbeat == None && lockStatus == old(lockStatus)
      ensures calls == old(calls) + [UnlockIssue]
    {
      StopHeartbeat();
      ReleaseLock(reply);
    }
  }

  /**
   * `isEditable` over every combination: an unlocked issue is editable; a
   * locked one is editable exactly when the holder's id equals the profile's
   * `UserId`, where a missing holder and a missing `UserId` count as equal.
   */
  lemma EditableCases(status: LockStatus, profile: Value)
    ensures !status.isLocked ==> IsEditable(status, profile)
    ensures status.isLocked && status.lockedBy.Some? && profile.Obj? && profile.userId.Some? ==>
      (IsEditable(status, profile) <==> status.lockedBy.value.userId == profile.userId.value)
    ensures status.isLocked && status.lockedBy.Some? && UserIdOf(profile).None? ==> !IsEditable(status, profile)
    ensures status.isLocked && status.lockedBy.None? ==> (IsEditable(status, profile) <==> UserIdOf(profile).None?)
  {
  }

  /** The heartbeat is sent exactly when the issue is locked and editable, so never under someone else's lock. */
  lemma HeartbeatOnlyForOwnLock(status: LockStatus, profile: Value)
    ensures HoldsLock(status, profile) <==> status.isLocked && IsEditable(status, profile)
  {
  }

  /**
   * After a successful status read, the issue is editable exactly when the
   * server did not report it locked, or reported it held under the profile's
   * `UserId`; the heartbeat goes out exactly when the server reported it
   * locked and held under that `UserId`.
   */
  lemma CheckedShowsServerView(body: StatusBody, profile: Value)
    ensures IsEditable(Checked(Ok(body)), profile) <==>
      body.isLocked != Some(true)
      || (if body.lockedBy.Some? then Some(body.lockedBy.value.userId) else None) == UserIdOf(profile)
    ensures HoldsLock(Checked(Ok(body)), profile) <==>
      body.isLocked == Some(true)
      && (if body.lockedBy.Some? then Some(body.lockedBy.value.userId) else None) == UserIdOf(profile)
  {
  }

  /** A status read that fails shows the issue as editable (the coordinator fails open). */
  lemma FailedCheckFailsOpen(reply: Reply<StatusBody>, profile: Value)
    requires !reply.Ok?
    ensures IsEditable(Checked(reply), profile) && !HoldsLock(Checked(reply), profile)
  {
  }

  /**
   * After `acquireLock`, the cached status is never the optimistic "mine": a
   * granted lock is shown as the following status read reports it, and a
   * conflict shows the holder named in the refusal.
   */
  lemma AcquireShowsServerView(lockReply: Reply<()>, statusReply: Reply<StatusBody>, profile: Value)
    ensures lockReply.Ok? ==> Acquired(lockReply, statusReply) == Checked(statusReply)
    ensures IsConflict(lockReply) && HolderId(lockReply.data.value) != UserIdOf(profile) ==>
      !IsEditable(Acquired(lockReply, statusReply), profile)
  {
  }

  /** The scenario of a free issue: user 7 opens issue 42, takes the lock, keeps it alive, then leaves. */
  method FreeIssueScenario(parse: string -> Option<Value>, stringify: Value -> string)
  {
    var auth := new AuthStore(parse, stringify, map[]);
    auth.Save(Obj(Some(7), "name"));
    var coordinator := new LockCoordinator(42, auth);
    var mine := StatusBody(Some(true), Some(Holder(7, "seven")), Some("now"));
    coordinator.InitLock(Ok(StatusBody(Some(false), None, None)), Ok(()), Ok(mine), 1);
    assert coordinator.calls == [GetIssueLockStatus, LockIssue, GetIssueLockStatus];
    assert coordinator.heartbeat.Some?;
    assert IsEditable(coordinator.lockStatus, auth.userProfile);
    coordinator.Tick(Fail);
    assert coordinator.calls == [GetIssueLockStatus, LockIssue, GetIssueLockStatus, HeartbeatIssue];
    coordinator.Cleanup(Ok(()));
    coordinator.Tick(Ok(()));
    assert coordinator.calls == [GetIssueLockStatus, LockIssue, GetIssueLockStatus, HeartbeatIssue, UnlockIssue];
  }

  /** The scenario of an issue held by user 9 when user 7 opens it: no lock request and no heartbeat. */
  method HeldIssueScenario(parse: string -> Option<Value>, stringify: Value -> string)
  {
    var auth := new AuthStore(parse, stringify, map[]);
    auth.Save(Obj(Some(7), "name"));
    var coordinator := new LockCoordinator(42, auth);
    var theirs := StatusBody(Some(true), Some(Holder(9, "nine")), Some("earlier"));
    coordinator.InitLock(Ok(theirs), Ok(()), Ok(theirs), 1);
    assert coordinator.calls == [GetIssueLockStatus];
    assert !IsEditable(coordinator.lockStatus, auth.userProfile);
    coordinator.Tick(Ok(()));
    coordinator.Tick(Ok(()));
    assert coordinator.calls == [GetIssueLockStatus] && coordinator.heartbeat.Some?;
  }
}
