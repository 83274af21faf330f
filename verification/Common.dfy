/** Types shared by the SmartGate models. */
module Common {

  datatype Option<+T> = None | Some(value: T) {
    function GetOr(default: T): T {
      if Some? then value else default
    }
  }

  datatype Result<+T, +E> = Ok(value: T) | Err(error: E)

  /** A request body value, after parsing. Object keys are unordered. */
  datatype Json =
    | JNull
    | JBool(b: bool)
    | JNum(n: real)
    | JStr(s: string)
    | JArr(items: seq<Json>)
    | JObj(fields: map<string, Json>)
  {
    /** Field lookup: absent on anything that is not an object. */
    function Get(key: string): Option<Json> {
      if JObj? && key in fields then Some(fields[key]) else None
    }
  }

  /** Monotonic clocks count nanoseconds. */
  const SECOND: nat := 1_000_000_000

  /** Elapsed time saturates at zero. */
  function Since(now: nat, t: nat): nat {
    if t <= now then now - t else 0
  }

  function Pow2(n: nat): nat {
    if n == 0 then 1 else 2 * Pow2(n - 1)
  }
}
