/** Values that cross the HTTP boundary: the optional value of TypeScript's
    `T | undefined` and the JSON documents that request bodies, query strings
    and response bodies are made of. */
module Wire {

  /** `None` stands for JavaScript's `undefined` (an absent key or argument). */
  datatype Option<+T> = None | Some(value: T)

  /** A JSON value as Express's body parser hands it to the middleware.
      Numbers are JavaScript numbers; they are modelled as reals, without
      the floating-point range and rounding. */
  datatype Json =
    | JNull
    | JBool(b: bool)
    | JNum(n: real)
    | JStr(s: string)
    | JArr(items: seq<Json>)
    | JObj(fields: map<string, Json>)

  /** The value stored under `key`, or `undefined`. */
  function Lookup<K, V>(m: map<K, V>, key: K): (v: Option<V>)
    ensures v.Some? <==> key in m
    ensures v.Some? ==> v.value == m[key]
  {
    if key in m then Some(m[key]) else None
  }

  /** `Number.isInteger` on a finite number. */
  predicate IsInteger(n: real) {
    n.Floor as real == n
  }
}
