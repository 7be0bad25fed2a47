/** Externally supplied configuration: strategy parameters as parsed JSON, and the strategy registry. */
module Config {
  import opened Seqs

  /** A JSON value as `json.load` returns it (objects nested inside parameters are not modelled). */
  datatype Json = JStr(s: string) | JNum(n: real) | JBool(b: bool) | JNull | JList(items: seq<Json>)

  /** One strategy's parameter object: `{"denoise_strategy": "simple", "global_signal": "basic", ...}`. */
  type Params = map<string, Json>

  /**
   * The contents of the strategies file: a JSON object, so its names are distinct and keep
   * the order they were written in.
   */
  datatype Registry = Registry(names: seq<string>, params: map<string, Params>)
  {
    ghost predicate Valid()
    {
      Distinct(names) && (forall n :: n in params <==> n in names)
    }
  }

  /** `{k: v for k, v in p.items() if k in keys}` */
  function Restrict(p: Params, keys: set<string>): (r: Params)
    ensures r.Keys == p.Keys * keys
    ensures forall k :: k in r ==> r[k] == p[k]
  {
    map k | k in p && k in keys :: p[k]
  }
}
