/** Small value wrappers shared by every module of the model. */
module Common {

  /** A value that may be missing: TypeScript's `T | null`. */
  datatype Option<T> = None | Some(value: T) {
    /** The value, or `default` when there is none. */
    function GetOr(default: T): T {
      match this
      case Some(v) => v
      case None => default
    }
  }

  /** A key that an insert or update object may leave out: TypeScript's `key?: T`. */
  datatype Field<T> = Omitted | Given(value: T)

  /** The value a column holds after an update object with field `f` is applied to `current`. */
  function Patch<T>(current: T, f: Field<T>): (r: T)
    ensures f.Omitted? ==> r == current
    ensures f.Given? ==> r == f.value
  {
    match f
    case Omitted => current
    case Given(v) => v
  }

  /** `s || null`: the empty string is stored as null. */
  function OrNull(s: string): (r: Option<string>)
    ensures r.None? <==> s == ""
    ensures r.Some? ==> r.value == s
  {
    if s == "" then None else Some(s)
  }

  /** Reading a column stored with `OrNull` back with `|| ''` gives the original text. */
  lemma OrNullRoundTrip(s: string)
    ensures OrNull(s).GetOr("") == s
  {
  }

  function Min(a: int, b: int): (r: int)
    ensures r <= a && r <= b && (r == a || r == b)
  {
    if a <= b then a else b
  }
  /** The two dashboards the pages navigate to. */
  const EmployerDashboardPath := "/employer/dashboard"
  const DeveloperDashboardPath := "/developer/dashboard"

  const UnauthorizedAlert := "Unauthorized"

  /** How a page's load of a guarded record ended. */
  datatype Fetched = QueryFailed | Unauthorized(alert: string, redirect: string) | Loaded

  /**
   * What an event handler does to the browser and the database: the write it
   * issues, the `alert` it raises, and the page it navigates to.
   */
  datatype Effects<W> = Effects(write: Option<W>, alert: Option<string>, redirect: Option<string>)

  /** A handler that stops at a validation guard: one alert, nothing else. */
  function Refuse<W>(message: string): (e: Effects<W>)
    ensures e.write.None? && e.alert == Some(message) && e.redirect.None?
  {
    Effects(None, Some(message), None)
  }

  /**
   * A handler that issues `w`: on success it alerts `success` and navigates to
   * `target`, on failure it alerts `failure` and stays.
   */
  function AfterWrite<W>(w: W, ok: bool, success: string, failure: string, target: string): (e: Effects<W>)
    ensures e.write == Some(w)
    ensures e.redirect.Some? <==> ok
    ensures e.redirect.Some? ==> e.redirect.value == target
    ensures e.alert == Some(if ok then success else failure)
  {
    Effects(Some(w), Some(if ok then success else failure), if ok then Some(target) else None)
  }
}
