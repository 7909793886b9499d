# Session guard, edit lock and numeric input filters of the issue tracker front end

This Dafny project models the client-side decision and state code of a Nuxt
issue-tracking front end:

- **Session store** (`useAuthStorage`, module `AuthStorage`): the signed-in
  profile, held in the shared `userProfile` state and, as JSON, under the
  sessionStorage key `"userProfile"`. `AuthStore` is a class whose fields are the
  storage map and the profile; its `Save`, `Load`, `Clear` and `FetchSession`
  methods are proved against the functions `Saved`, `Loaded`, `Cleared` and
  `Fetched` on a `Session` value. The lemmas about those functions state what
  the store promises: a bad entry is purged, `load` is idempotent, `save` then
  `load` gives the profile back, and every operation leaves storage and
  memory in sync.
- **Route guards** (`auth` and `guest` middleware, modules `AuthMiddleware` and
  `GuestMiddleware`): methods that run the middleware's steps on the store
  and return `Proceed` or `Redirect(path)`. Each is proved against a function
  (`AuthChecked`, `GuestChecked`). The lemmas say that the server alone decides
  admission to protected pages, that nobody reaches one without a profile, and
  that the guest guard reads storage only.
- **Edit-lock coordinator** (`useIssueLock`, module `IssueLock`): the class
  `LockCoordinator`, with the cached `lockStatus`, the heartbeat timer handle,
  and a ghost log of the lock endpoints it calls. Every endpoint reply is a
  method parameter, and a firing of the heartbeat interval is the `Tick`
  method. `isEditable` is the pure predicate `IsEditable`.
- **Numeric input filters** (`useInputRestriction`, module `InputRestriction`):
  each keypress and paste handler is a function answering "is the event
  prevented?". `validateMaxPage` is a method that rewrites an `InputElement`'s
  value and is proved against the function `Clamped`. JavaScript's `parseInt`
  and integer `toString` are modelled in `JsNumbers`, with `parseInt`
  inverting `toString` on every integer.

Modelling choices:

- The application sets `ssr: false` (nuxt.config.ts:34), so `process.client`
  is taken as true, and each guard calls `load` on every path except the one
  it skips.
- `JSON.parse` and `JSON.stringify` are the `parse` and `stringify` constants
  of an `AuthStore`. `parse` returns `None` where the real function throws.
  Lemmas that need the round trip assume `JsonRoundTrip`: neither `""` nor
  `"undefined"` parses, and `parse(stringify(v)) == Some(v)` for every truthy `v`.
- A profile is a JavaScript `Value`. Its `UserId` is read as `UserIdOf`, which
  is absent for anything that is not an object carrying that property.
  Truthiness (`Truthy`) follows JavaScript.
- The keypress filter with a maximum appends the typed digit at the end of
  the field, whatever the caret position. The paste filter with a maximum
  checks the pasted text alone, not the field it lands in. Both are modelled
  as written.
- With `maxPage <= 0`, `validateMaxPage` is not idempotent. At `maxPage == 0`,
  for instance, `"5"` becomes `"0"`, then `"1"`, then `"0"` again
  (`ClampedCyclesWithoutPages`). The
  in-range and idempotence lemmas therefore require `maxPage >= 1`.
- Being signed in means a truthy `userProfile`; the store keeps nothing else
  about the session.

## Model

| member | source | states |
|---|---|---|
| `JsNumbers.ParseInt` | app/composables/useInputRestriction.ts:64 | JavaScript `parseInt` on decimal text (leading whitespace, an optional sign, the leading digits; `None` for NaN); what it computes is stated by `ParseIntOfDigits`, `ParseIntStopsAtNonDigit` and `ParseIntOfDecimal` |
| `JsNumbers.ToDecimalString` | app/composables/useInputRestriction.ts:67 | `maxPage.toString()` for an integer; `ParseIntOfDecimal` proves `ParseInt` inverts it |
| `InputRestriction.AllowOnlyNumbers` | app/composables/useInputRestriction.ts:7-12 | whether the keypress is prevented; `AllowOnlyNumbersAdmitsDigits` and `AllowedKeyKeepsDigits` state which keys pass |
| `InputRestriction.NumbersOnlyOnPaste` | app/composables/useInputRestriction.ts:14-19 | whether the paste is prevented; `NumbersOnlyOnPasteAdmitsNumerals` states which pastes pass |
| `InputRestriction.AllowOnlyNumbersWithMax` | app/composables/useInputRestriction.ts:22-42 | whether the keypress is prevented, given the field's current text; `AllowOnlyNumbersWithMaxBound` states which keys pass |
| `InputRestriction.NumbersOnlyOnPasteWithMax` | app/composables/useInputRestriction.ts:45-58 | whether the paste is prevented; `NumbersOnlyOnPasteWithMaxAdmits` states which pastes pass |
| `InputRestriction.Clamped` | app/composables/useInputRestriction.ts:64-70 | the value `validateMaxPage` leaves in the field; `ClampedFixes`, `ClampedInRange`, `ClampedIdempotent` and `ClampedCyclesWithoutPages` state its promises |
| `AuthStorage.Cleared` | app/composables/useAuthStorage.ts:33-36 | the state `clear` leaves; `ClearOnlyDropsProfile` states it |
| `AuthStorage.Saved` | app/composables/useAuthStorage.ts:5-13 | the state `save` leaves; `SaveFalsyClears`, `OperationsSync` and `SaveThenLoad` state it |
| `AuthStorage.Loaded` | app/composables/useAuthStorage.ts:15-31 | the state `load` leaves; `LoadRejectsBadEntry`, `LoadSyncs`, `LoadOfSynced` and `LoadIdempotent` state it |
| `AuthStorage.Fetched` | app/composables/useAuthStorage.ts:38-53 | the state `fetchSession` leaves once the session request settles; `OperationsSync` states it |
| `AuthMiddleware.AuthChecked` | app/middleware/auth.ts:2-29 | the auth guard's decision and final state; `AuthGuardSkipsLogin`, `AuthGuardFollowsServer`, `AuthGuardNeverAdmitsAnonymous` and `AuthGuardIgnoresCache` state it |
| `GuestMiddleware.GuestChecked` | app/middleware/guest.ts:2-18 | the guest guard's decision and final state; `GuestGuardSkipsIssues`, `GuestGuardFollowsStorage`, `GuestGuardReadsStorageOnly` and `AdmittedUserSkipsGuestPages` state it |
| `IssueLock.IsEditable` | app/composables/useIssueLock.ts:18-22 | `isEditable`; `EditableCases` states it case by case and `FailedCheckFailsOpen` and `AcquireShowsServerView` use it |
| `IssueLock.HoldsLock` | app/composables/useIssueLock.ts:66-69 | the heartbeat's guard; `HeartbeatOnlyForOwnLock` states it is "locked and editable", and `Tick` calls the endpoint iff it holds |
| `IssueLock.Acquired` | app/composables/useIssueLock.ts:38-50 | the status `acquireLock` leaves; `AcquireShowsServerView` states it, and `AcquireLock` is proved against it |
| `IssueLock.AcquireCalls` | app/composables/useIssueLock.ts:38-50 | the endpoints `acquireLock` calls, in order; `AcquireLock` and `InitLock` are proved against it |
| `JsNumbers.ParseIntOfDigits` | app/composables/useInputRestriction.ts:54 | a non-empty run of ASCII digits parses to its decimal value |
| `JsNumbers.ParseIntStopsAtNonDigit` | app/composables/useInputRestriction.ts:38 | `parseInt` reads the leading digits and ignores whatever follows a non-digit |
| `JsNumbers.ParseIntOfDecimal` | app/composables/useInputRestriction.ts:64-67 | `parseInt(n.toString()) == n` for every integer `n`, negative ones included |
| `InputRestriction.CodeChar` | app/composables/useInputRestriction.ts:35 | `String.fromCharCode` of an accepted key code is the ASCII digit with value `code - 48` |
| `InputRestriction.AllowOnlyNumbersAdmitsDigits` | app/composables/useInputRestriction.ts:7-12 | a key is let through iff its effective code (`charCode`, or `keyCode` when `charCode` is 0) is the code of an ASCII digit |
| `InputRestriction.AllowedKeyKeepsDigits` | app/composables/useInputRestriction.ts:7-12 | a key that gets through keeps a field of digits a field of digits |
| `InputRestriction.NumbersOnlyOnPasteAdmitsNumerals` | app/composables/useInputRestriction.ts:14-19 | a paste gets through iff the clipboard exists and holds a non-empty run of digits, and `parseInt` then reads its full value; a missing clipboard is prevented |
| `InputRestriction.AllowOnlyNumbersWithMaxBound` | app/composables/useInputRestriction.ts:22-42 | every non-digit key is prevented; a digit typed after a field of digits is prevented iff the resulting number exceeds `maxPage` |
| `InputRestriction.NumbersOnlyOnPasteWithMaxAdmits` | app/composables/useInputRestriction.ts:45-58 | a paste gets through iff it is a non-empty run of digits whose value is at most `maxPage` |
| `InputRestriction.ValidateMaxPage` | app/composables/useInputRestriction.ts:61-71 | rewrites the target's value in place to `Clamped(maxPage, old value)` |
| `InputRestriction.ClampedFixes` | app/composables/useInputRestriction.ts:64-70 | text that `parseInt` cannot read (the empty string included), or that reads as a number in 1..maxPage, is left unchanged |
| `InputRestriction.ClampedInRange` | app/composables/useInputRestriction.ts:61-71 | for `maxPage >= 1`, any readable text ends up reading as a number in 1..maxPage; unreadable text is unchanged |
| `InputRestriction.ClampedIdempotent` | app/composables/useInputRestriction.ts:64-70 | for `maxPage >= 1`, a second run of `validateMaxPage` changes nothing |
| `InputRestriction.ClampedCyclesWithoutPages` | app/composables/useInputRestriction.ts:64-70 | with `maxPage == 0`, `"5"` becomes `"0"`, `"0"` becomes `"1"` and `"1"` becomes `"0"` again |
| `AuthStorage.AuthStore.constructor` | app/composables/useAuthStorage.ts:3 | the shared profile state starts out null over the given storage |
| `AuthStorage.AuthStore.Save` | app/composables/useAuthStorage.ts:5-13 | the new storage and profile are `Saved(old state, profile)`, and the session endpoint is not called |
| `AuthStorage.AuthStore.Load` | app/composables/useAuthStorage.ts:15-31 | the new storage and profile are `Loaded(old state)`, and nothing is raised |
| `AuthStorage.AuthStore.Clear` | app/composables/useAuthStorage.ts:33-36 | the new storage and profile are `Cleared(old state)` |
| `AuthStorage.AuthStore.FetchSession` | app/composables/useAuthStorage.ts:38-53 | calls the session endpoint once; on success saves the profile and returns it; on any error, 401 or not, clears and rethrows that error |
| `AuthStorage.ClearOnlyDropsProfile` | app/composables/useAuthStorage.ts:33-36 | `clear` removes the `"userProfile"` entry, nulls the profile, leaves every other key alone, and is idempotent |
| `AuthStorage.SaveFalsyClears` | app/composables/useAuthStorage.ts:5-9 | saving a falsy profile is exactly clearing |
| `AuthStorage.LoadRejectsBadEntry` | app/composables/useAuthStorage.ts:15-31 | a missing, empty, `"undefined"` or unparsable entry is purged and leaves the profile null; any other entry that parses to `v` makes `v` the profile, falsy values included, with storage untouched; conversely a non-null profile comes only from an entry that parses to it |
| `AuthStorage.LoadSyncs` | app/composables/useAuthStorage.ts:15-31 | whatever storage holds, after `load` the stored entry (if any) parses to the in-memory profile |
| `AuthStorage.LoadOfSynced` | app/composables/useAuthStorage.ts:15-31 | on a store whose entry and profile agree, `load` changes nothing |
| `AuthStorage.LoadIdempotent` | app/composables/useAuthStorage.ts:15-31 | `load` twice is `load` once |
| `AuthStorage.OperationsSync` | app/composables/useAuthStorage.ts:5-53 | under the JSON round trip, `clear`, `save` and `fetchSession` leave the stored entry and the profile in agreement |
| `AuthStorage.SaveThenLoad` | app/composables/useAuthStorage.ts:11-25 | under the JSON round trip, `save(p)` for a truthy `p` and then `load` yields `p` and the same state |
| `AuthMiddleware.AuthGuard` | app/middleware/auth.ts:2-29 | the decision and store state are `AuthChecked(path, old state, reply)`; the session endpoint is called once on every path but `/` |
| `AuthMiddleware.AuthGuardSkipsLogin` | app/middleware/auth.ts:6-8 | on `/` the guard lets the navigation through and changes nothing |
| `AuthMiddleware.AuthGuardFollowsServer` | app/middleware/auth.ts:10-29 | elsewhere, an error or a falsy profile from the server ends signed out (entry removed, profile null) with a redirect to `/`; a truthy profile is let through, stored and signed in |
| `AuthMiddleware.AuthGuardNeverAdmitsAnonymous` | app/middleware/auth.ts:25-28 | the guard never lets a navigation to a page other than `/` through with a falsy profile |
| `AuthMiddleware.AuthGuardIgnoresCache` | app/middleware/auth.ts:10-18 | the cached profile, in memory or in storage, has no influence on the decision or on the final state |
| `GuestMiddleware.GuestGuard` | app/middleware/guest.ts:2-18 | the decision and store state are `GuestChecked(path, old state)`; the session endpoint is never called |
| `GuestMiddleware.GuestGuardSkipsIssues` | app/middleware/guest.ts:6-8 | on `/issue` the guard lets the navigation through without loading |
| `GuestMiddleware.GuestGuardFollowsStorage` | app/middleware/guest.ts:10-17 | a stored entry parsing to a truthy profile redirects to `/issue`; a missing, empty, `"undefined"` or unparsable entry is purged and the navigation goes through |
| `GuestMiddleware.GuestGuardReadsStorageOnly` | app/middleware/guest.ts:10-17 | the outcome depends on the storage contents alone |
| `GuestMiddleware.AdmittedUserSkipsGuestPages` | app/middleware/guest.ts:14-17 | once the auth guard has let a user through, the guest guard sends them from any guest page to `/issue` |
| `IssueLock.Checked` | app/composables/useIssueLock.ts:24-36 | the status `checkLockStatus` caches once the read settles; `CheckedShowsServerView` states what a successful read shows and `FailedCheckFailsOpen` what a failed one shows |
| `IssueLock.CheckedShowsServerView` | app/composables/useIssueLock.ts:24-31 | after a successful status read the issue is editable iff the server did not report it locked (a missing `isLocked` read as false) or reported it held under the profile's `UserId`; the heartbeat goes out iff the server reported it locked and held under that `UserId` |
| `IssueLock.LockCoordinator.constructor` | app/composables/useIssueLock.ts:12-16 | starts unlocked, with no heartbeat and no endpoint called |
| `IssueLock.LockCoordinator.CheckLockStatus` | app/composables/useIssueLock.ts:24-36 | the cached status becomes `Checked(reply)`; one status request; the heartbeat is untouched |
| `IssueLock.LockCoordinator.AcquireLock` | app/composables/useIssueLock.ts:38-50 | requests the lock; a refusal whose data says locked is cached as it is, with no status read; success or any other failure re-reads the status |
| `IssueLock.LockCoordinator.ReleaseLock` | app/composables/useIssueLock.ts:52-58 | one unlock request, whatever its outcome; status and heartbeat unchanged, no error returned |
| `IssueLock.LockCoordinator.StartHeartbeat` | app/composables/useIssueLock.ts:62-77 | a running heartbeat is kept as it is, otherwise the new one starts; afterwards one is running |
| `IssueLock.LockCoordinator.Tick` | app/composables/useIssueLock.ts:65-76 | a heartbeat request is made iff a heartbeat is running and the cached status shows the lock held under the profile's `UserId`; the status never changes, even when the heartbeat fails |
| `IssueLock.LockCoordinator.StopHeartbeat` | app/composables/useIssueLock.ts:79-84 | afterwards no heartbeat is running; nothing else changes |
| `IssueLock.LockCoordinator.InitLock` | app/composables/useIssueLock.ts:87-96 | reads the status first, requests the lock only if that read shows the issue unlocked, and leaves a heartbeat running: the one already running, or else the new one |
| `IssueLock.LockCoordinator.Cleanup` | app/composables/useIssueLock.ts:99-102 | stops the heartbeat, then makes exactly one unlock request |
| `IssueLock.EditableCases` | app/composables/useIssueLock.ts:18-22 | unlocked is editable; locked is editable iff the holder's id equals the profile's `UserId`, a missing holder and a missing `UserId` comparing equal |
| `IssueLock.HeartbeatOnlyForOwnLock` | app/composables/useIssueLock.ts:65-69 | the heartbeat guard holds iff the issue is locked and editable, so never under another user's lock |
| `IssueLock.FailedCheckFailsOpen` | app/composables/useIssueLock.ts:32-35 | after a failed status read the issue shows as editable, and no heartbeat is sent for it |
| `IssueLock.AcquireShowsServerView` | app/composables/useIssueLock.ts:38-50 | a granted lock is shown as the following status read reports it; a conflict naming another holder shows the issue as not editable |

## Left out

- The route-change and tab-close listeners (app/composables/useIssueLock.ts:105-114) are not modelled. Each of them only calls `releaseLock`, which is `ReleaseLock`.
- Timers: `setInterval`, `clearInterval` and the 30-second period are not modelled. A firing is the explicit `Tick`, and a tick with no running heartbeat does nothing.
- Concurrency is not modelled: overlapping ticks, the un-awaited `releaseLock()` in `cleanup`, and state changes between the awaits of `initLock`. Every operation runs to completion in turn.
- `JSON.parse` and `JSON.stringify` internals are left out. They are abstract functions, and the round trip is assumed where it is stated.
- `console.error` logging is left out.
- Vue reactivity (`ref`, `computed`, `useState`) is left out. `isEditable` is recomputed from the current status and profile.
- The HTTP layer (`useApi.ts`) is not part of this model, and neither is the rest of nuxt.config.ts. The lock and session endpoints are abstract replies passed as parameters, and the issue id is carried but not interpreted.
- `parseInt`: the `0x` hexadecimal prefix and floating-point precision are left out. The model reads decimal digits into an unbounded integer.
- Numbers are integers. A fractional `maxPage`, the exponent notation `toString` uses from 1e21 up, and NaN as a profile value are not modelled.
- `UserId` is modelled as a number or absent. A `UserId` of another type, which `===` would never match, is not modelled.
- `IssueLock.Checked`: a status reply whose body is null makes the source throw inside its `try` and reset to unlocked. The model has no null body; that case is the `Fail` reply, which gives the same result.
- `IssueLock.LockCoordinator.AcquireLock`: the conflict payload is cached as a `LockStatus`. The source copies `err.data` verbatim, so a payload missing `lockedBy` or `lockedAt` would hold `undefined` there, not `null`. The model does not tell the two apart.
