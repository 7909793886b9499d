/**
 * The JavaScript values that flow through the session and lock code: the
 * profile returned by the session endpoint and read back from storage is
 * typed `any`, so the model keeps every shape a JSON payload can take and
 * only interprets the `UserId` field of an object.
 */
module JsValues {
  import opened Wrappers

  /**
   * A JavaScript value. `Num` carries an integer (fractions and NaN are not
   * modelled). `Obj` is any object, arrays included: `userId` is its
   * numeric `UserId` property (None when the property is absent) and `rest`
   * stands for every other attribute, which the core passes through unread.
   */
  datatype Value =
    | Undefined
    | Null
    | Bool(b: bool)
    | Num(n: int)
    | Str(s: string)
    | Obj(userId: Option<int>, rest: string)

  /** JavaScript truthiness, as used by `if (!profile)` and `if (auth.userProfile.value)`. */
  predicate Truthy(v: Value) {
    match v
    case Undefined => false
    case Null => false
    case Bool(b) => b
    case Num(n) => n != 0
    case Str(s) => s != ""
    case Obj(_, _) => true
  }

  /** `v?.UserId`: absent (undefined) unless `v` is an object carrying the property. */
  function UserIdOf(v: Value): (id: Option<int>)
    ensures id.Some? ==> v.Obj? && Truthy(v)
  {
    if v.Obj? then v.userId else None
  }
}
