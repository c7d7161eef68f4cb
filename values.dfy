/** Python-level values shared by every provider: decoded JSON, dicts, exceptions
    and the conversions (`float()`, truthiness, `dict.get`) the providers apply. */
module Values {

  datatype Option<T> = None | Some(value: T)

  /** The exceptions the modelled code raises, catches or lets through. */
  datatype PyError =
    | RuntimeError(message: string)
    | ValueError(message: string)
    | TypeError
    | AttributeError
    | NetworkError   // an httpx timeout / connection failure, or a body that is not a JSON object
    | ParseError     // xml.etree.ElementTree could not parse the feed
    | UpstreamError  // anything yfinance raises while fetching

  /** A computation that returns a value or raises. */
  datatype Result<T> = Ok(value: T) | Err(error: PyError) {
    predicate IsFailure() { Err? }
    function PropagateFailure<U>(): Result<U> requires Err? { Err(error) }
    function Extract(): T requires Ok? { value }
  }

  /** A provider call: what it returned or raised, and the URLs it requested, in order. */
  datatype Attempt<T> = Attempt(outcome: Result<T>, requests: seq<string>)

  /** A decoded JSON value, or a Python value built by the providers.
      Python's `int` and `float` are both `Num`. */
  datatype Value =
    | Null
    | Bool(b: bool)
    | Num(n: real)
    | Str(s: string)
    | List(elems: seq<Value>)
    | Object(fields: map<string, Value>)

  type Dict = map<string, Value>

  /** Python truthiness: `None`, `False`, zero and empty containers are false. */
  predicate Truthy(v: Value) {
    match v
    case Null => false
    case Bool(b) => b
    case Num(n) => n != 0.0
    case Str(s) => s != ""
    case List(xs) => xs != []
    case Object(m) => m != map[]
  }

  /** `d.get(key, default)` */
  function Get(d: Dict, key: string, default: Value): Value {
    if key in d then d[key] else default
  }

  /** `v or w` */
  function Or(v: Value, w: Value): Value {
    if Truthy(v) then v else w
  }

  /** `float(v)`; `parse` is Python's conversion of a string, `None` where it raises. */
  function ToFloat(v: Value, parse: string -> Option<real>): (r: Result<real>)
    ensures v.Num? ==> r == Ok(v.n)
    ensures v.Null? || v.List? || v.Object? ==> r == Err(TypeError)
  {
    match v
    case Null => Err(TypeError)
    case Bool(b) => Ok(if b then 1.0 else 0.0)
    case Num(n) => Ok(n)
    case Str(s) =>
      (match parse(s)
       case Some(x) => Ok(x)
       case None => Err(ValueError("could not convert string to float")))
    case List(_) => Err(TypeError)
    case Object(_) => Err(TypeError)
  }

  /** `float(d.get(key, 0))`, the conversion both stock providers apply to a numeric field. */
  function Field(d: Dict, key: string, parse: string -> Option<real>): Result<real> {
    ToFloat(Get(d, key, Num(0.0)), parse)
  }

  /** The six keys of the `raw_quote` every stock provider builds. */
  const QuoteKeys: set<string> := {"symbol", "price", "pe", "market_cap", "eps_growth", "rev_growth"}

  /** A provider result the analyzer can score: a non-empty `raw_quote` object whose
      growth rates and market capitalisation are numbers. */
  predicate NumericQuote(d: Dict) {
    "raw_quote" in d && d["raw_quote"].Object? && Truthy(d["raw_quote"]) &&
    var q := d["raw_quote"].fields;
    "eps_growth" in q && q["eps_growth"].Num? &&
    "rev_growth" in q && q["rev_growth"].Num? &&
    "market_cap" in q && q["market_cap"].Num?
  }

  /** `os.getenv(name, default)` given what the environment holds for `name`. */
  function EnvOr(env: Option<string>, default: string): string {
    match env
    case Some(v) => v
    case None => default
  }
}
