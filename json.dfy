/** JSON-like values, the shape of everything stored in the shared context. */
module Json {
  import opened Wrappers

  datatype Json =
    | Null
    | Bool(b: bool)
    | Num(n: real)
    | Str(s: string)
    | Arr(items: seq<Json>)
    | Obj(fields: map<string, Json>)

  /** `d.get(key, default)` on a dictionary. */
  function GetOr(d: map<string, Json>, key: string, default: Json): Json {
    if key in d then d[key] else default
  }

  /** Python truthiness of a value. */
  predicate Truthy(j: Json) {
    match j
    case Null => false
    case Bool(b) => b
    case Num(n) => n != 0.0
    case Str(s) => s != ""
    case Arr(items) => items != []
    case Obj(fields) => fields != map[]
  }

  function Nums(xs: seq<real>): (r: seq<Json>)
    ensures |r| == |xs|
    ensures forall i :: 0 <= i < |xs| ==> r[i] == Num(xs[i])
  {
    if xs == [] then [] else [Num(xs[0])] + Nums(xs[1..])
  }

  function Strs(xs: seq<string>): (r: seq<Json>)
    ensures |r| == |xs|
    ensures forall i :: 0 <= i < |xs| ==> r[i] == Str(xs[i])
  {
    if xs == [] then [] else [Str(xs[0])] + Strs(xs[1..])
  }

  function AsNum(j: Json): Option<real> {
    if j.Num? then Some(j.n) else None
  }

  function AsStr(j: Json): Option<string> {
    if j.Str? then Some(j.s) else None
  }

  /** Reads back a list of numbers; `None` when some item is not a number. */
  function AsNums(js: seq<Json>): Option<seq<real>> {
    DecodeEach(js, AsNum)
  }

  /** Reads back a list of strings; `None` when some item is not a string. */
  function AsStrs(js: seq<Json>): Option<seq<string>> {
    DecodeEach(js, AsStr)
  }

  /** Decodes every element with `decode`; `None` as soon as one of them fails. */
  function DecodeEach<T>(js: seq<Json>, decode: Json -> Option<T>): (r: Option<seq<T>>)
    ensures r.Some? <==> forall i :: 0 <= i < |js| ==> decode(js[i]).Some?
    ensures r.Some? ==> |r.value| == |js| && forall i :: 0 <= i < |js| ==> decode(js[i]) == Some(r.value[i])
  {
    if js == [] then Some([])
    else match (decode(js[0]), DecodeEach(js[1..], decode))
      case (Some(x), Some(rest)) =>
        assert forall i :: 1 <= i < |js| ==> js[i] == js[1..][i - 1];
        Some([x] + rest)
      case (None, _) => None
      case (Some(_), None) =>
        assert forall i :: 0 <= i < |js[1..]| ==> js[1..][i] == js[i + 1];
        None
  }

  lemma AsNumsOfNums(xs: seq<real>)
    ensures AsNums(Nums(xs)) == Some(xs)
  {
    var decoded := AsNums(Nums(xs));
    assert decoded.Some?;
    assert decoded.value == xs;
  }

  lemma AsStrsOfStrs(xs: seq<string>)
    ensures AsStrs(Strs(xs)) == Some(xs)
  {
    var decoded := AsStrs(Strs(xs));
    assert decoded.Some?;
    assert decoded.value == xs;
  }
}
