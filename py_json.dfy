/** A decoded JSON document as Python holds it (dict, list, str, number,
    bool, None), and the two ways the backend reads one: subscription
    `v[k]` and `dict.get(k, default)`, each with the exception Python
    raises when the value has the wrong shape. */
module PyJson {
  import opened Wrappers

  /** Numbers carry an integer: nothing here depends on a number's value,
      only on its type. */
  datatype Json =
    | JNull
    | JBool(b: bool)
    | JNumber(n: int)
    | JStr(s: string)
    | JArr(items: seq<Json>)
    | JObj(fields: map<string, Json>)

  /** The exceptions a subscription or `.get` can raise. */
  datatype PyError = TypeError | AttributeError | KeyError | IndexError

  /** A subscript: a string key or an integer index. */
  datatype Key = KStr(name: string) | KInt(index: int)

  /** A value that cannot be subscripted and has no `.get`. */
  predicate Scalar(v: Json) {
    v.JNull? || v.JBool? || v.JNumber?
  }

  /** The empty dict `{}`. */
  const EmptyObject: Json := JObj(map[])

  /** Python's index normalisation: an index `i` of a sequence of length
      `n` is in range when `-n <= i < n`; a negative one counts from the
      end. */
  function Position(i: int, n: nat): (p: Option<nat>)
    ensures p.Some? <==> 0 <= i + n && i < n
    ensures p.Some? ==> p.value < n && (p.value == i || p.value == i + n)
  {
    if 0 <= i < n then Some(i) else if 0 <= i + n && i < 0 then Some(i + n) else None
  }

  /** `v[k]`. A dict looks the key up (an integer key is never among the
      string keys of a decoded JSON object); a list or a string takes an
      integer index; anything else, or a string key on a list or string,
      is a type error. */
  function Subscript(v: Json, k: Key): (r: Result<Json, PyError>)
    ensures r.Failure? && r.error == TypeError <==>
              !(v.JObj? || ((v.JArr? || v.JStr?) && k.KInt?))
    ensures r.Failure? ==> r.error != AttributeError
    ensures v.JObj? && k.KStr? ==>
              if k.name in v.fields then r == Success(v.fields[k.name]) else r == Failure(KeyError)
    ensures v.JObj? && k.KInt? ==> r == Failure(KeyError)
    ensures v.JArr? && k.KInt? ==>
              var p := Position(k.index, |v.items|);
              if p.Some? then r == Success(v.items[p.value]) else r == Failure(IndexError)
    ensures v.JStr? && k.KInt? ==>
              var p := Position(k.index, |v.s|);
              if p.Some? then r == Success(JStr([v.s[p.value]])) else r == Failure(IndexError)
  {
    match v
    case JObj(fields) =>
      (match k
       case KStr(name) => if name in fields then Success(fields[name]) else Failure(KeyError)
       case KInt(_) => Failure(KeyError))
    case JArr(items) =>
      (match k
       case KInt(i) =>
         (match Position(i, |items|)
          case Some(p) => Success(items[p])
          case None => Failure(IndexError))
       case KStr(_) => Failure(TypeError))
    case JStr(s) =>
      (match k
       case KInt(i) =>
         (match Position(i, |s|)
          case Some(p) => Success(JStr([s[p]]))
          case None => Failure(IndexError))
       case KStr(_) => Failure(TypeError))
    case _ => Failure(TypeError)
  }

  /** `v.get(key, default)`: only a dict has `.get`; on anything else the
      attribute lookup fails. */
  function Get(v: Json, key: string, default: Json): (r: Result<Json, PyError>)
    ensures r.Failure? <==> !v.JObj?
    ensures r.Failure? ==> r.error == AttributeError
    ensures v.JObj? && key !in v.fields ==> r == Success(default)
    ensures v.JObj? && key in v.fields ==> r == Success(v.fields[key])
  {
    match v
    case JObj(fields) => Success(if key in fields then fields[key] else default)
    case _ => Failure(AttributeError)
  }
}
