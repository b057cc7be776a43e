/** The JSON-compatible wire form produced by the serializer, the errors the
    decoders raise, and the two-field `{__var, __type}` envelope. */
module Wire {

  datatype Option<+T> = None | Some(value: T)

  /** What the source raises, by Python exception class. */
  datatype Error =
    | KeyError(key: string)                 // a required key or attribute is absent
    | TypeError(what: string)               // a value of the wrong shape
    | ValueError(what: string)
    | AttributeError(what: string)          // an attribute or method the value does not have
    | UnknownTag(tag: Wire)                 // `__type` outside the closed tag set
    | UnsupportedVersion(found: Option<Wire>)
    | SchemaViolation
    | SchemaNotSet

  datatype Result<+T> = Ok(value: T) | Err(error: Error) {
    predicate IsFailure() { Err? }
    function PropagateFailure<U>(): Result<U>
      requires Err?
    {
      Err(error)
    }
    function Extract(): T
      requires Ok?
    {
      value
    }
  }

  function Need<T>(o: Option<T>, e: Error): (r: Result<T>)
    ensures r.Ok? <==> o.Some?
    ensures o.Some? ==> r.value == o.value
  {
    if o.Some? then Ok(o.value) else Err(e)
  }

  /** A JSON value: null, boolean, integer number, string, array or object.
      An object keeps its keys in insertion order, like a Python dict. */
  datatype Wire =
    | WNull
    | WBool(b: bool)
    | WInt(i: int)
    | WStr(s: string)
    | WList(items: seq<Wire>)
    | WObj(fields: seq<WField>)

  datatype WField = WField(key: string, val: Wire)

  function Keys(fs: seq<WField>): set<string>
  {
    if fs == [] then {} else {fs[0].key} + Keys(fs[1..])
  }

  lemma {:induction false} KeysAppend(a: seq<WField>, b: seq<WField>)
    ensures Keys(a + b) == Keys(a) + Keys(b)
  {
    if a != [] {
      KeysAppend(a[1..], b);
      assert (a + b)[0] == a[0];
      assert (a + b)[1..] == a[1..] + b;
    } else {
      assert a + b == b;
    }
  }

  /** No key occurs twice, as in every dict the encoder builds. */
  ghost predicate DistinctKeys(fs: seq<WField>) {
    fs == [] || (fs[0].key !in Keys(fs[1..]) && DistinctKeys(fs[1..]))
  }

  /** `d[k]` / `d.get(k)`: the value stored under `k`, if any. */
  function Lookup(fs: seq<WField>, k: string): (r: Option<Wire>)
    ensures r.Some? <==> k in Keys(fs)
    ensures r.Some? ==> WField(k, r.value) in fs
  {
    if fs == [] then None
    else if fs[0].key == k then Some(fs[0].val)
    else Lookup(fs[1..], k)
  }

  /** `d[k] = v` on a Python dict: an existing key keeps its position and
      takes the new value, a new key goes to the end. */
  function Put(fs: seq<WField>, k: string, v: Wire): (r: seq<WField>)
    ensures Keys(r) == Keys(fs) + {k}
    ensures Lookup(r, k) == Some(v)
    ensures forall k' :: k' != k ==> Lookup(r, k') == Lookup(fs, k')
    ensures k !in Keys(fs) ==> r == fs + [WField(k, v)]
    ensures |r| == |fs| || r == fs + [WField(k, v)]
  {
    if fs == [] then [WField(k, v)]
    else if fs[0].key == k then [WField(k, v)] + fs[1..]
    else [fs[0]] + Put(fs[1..], k, v)
  }

  lemma {:induction false} PutDistinct(fs: seq<WField>, k: string, v: Wire)
    requires DistinctKeys(fs)
    ensures DistinctKeys(Put(fs, k, v))
  {
    if fs != [] && fs[0].key != k {
      PutDistinct(fs[1..], k, v);
      assert Put(fs, k, v)[1..] == Put(fs[1..], k, v);
    } else if fs != [] {
      assert Put(fs, k, v)[1..] == fs[1..];
    }
  }

  const VAR := "__var"
  const TYPE := "__type"

  /** The closed set of type tags an envelope may carry. */
  datatype Tag = TDag | TOp | TDateTime | TTimeDelta | TTimeZone | TRelDelta | TDict | TSet | TTuple

  /** The string each tag is written as on the wire. */
  function TagName(t: Tag): string {
    match t
    case TDag => "dag"
    case TOp => "operator"
    case TDateTime => "datetime"
    case TTimeDelta => "timedelta"
    case TTimeZone => "timezone"
    case TRelDelta => "relativedelta"
    case TDict => "dict"
    case TSet => "set"
    case TTuple => "tuple"
  }

  /** Which tag, if any, a `__type` value denotes (`type_ == DAT.X`). */
  function ParseTag(w: Wire): (r: Option<Tag>)
    ensures forall t :: r == Some(t) <==> w == WStr(TagName(t))
  {
    if w == WStr("dag") then Some(TDag)
    else if w == WStr("operator") then Some(TOp)
    else if w == WStr("datetime") then Some(TDateTime)
    else if w == WStr("timedelta") then Some(TTimeDelta)
    else if w == WStr("timezone") then Some(TTimeZone)
    else if w == WStr("relativedelta") then Some(TRelDelta)
    else if w == WStr("dict") then Some(TDict)
    else if w == WStr("set") then Some(TSet)
    else if w == WStr("tuple") then Some(TTuple)
    else None
  }

  /** `_encode`: the two-field envelope around an encoded payload. */
  function Envelope(x: Wire, t: Tag): (r: Wire)
    ensures r.WObj? && Keys(r.fields) == {VAR, TYPE} && DistinctKeys(r.fields)
    ensures Lookup(r.fields, VAR) == Some(x)
    ensures Lookup(r.fields, TYPE) == Some(WStr(TagName(t)))
  {
    var fs := [WField(VAR, x), WField(TYPE, WStr(TagName(t)))];
    assert Keys(fs[1..]) == {TYPE} by { assert fs[1..][1..] == []; }
    WObj(fs)
  }

  /** `isinstance(value, dict) and "__type" in value`. */
  predicate HasTypeKey(w: Wire) {
    w.WObj? && TYPE in Keys(w.fields)
  }

  /** The unwrapping applied to non-decorated fields: an envelope is replaced
      by its payload, anything else is kept. */
  function Unwrap(w: Wire): (r: Wire)
    ensures forall x, t :: w == Envelope(x, t) ==> r == x
    ensures !HasTypeKey(w) ==> r == w
  {
    if HasTypeKey(w) then
      match Lookup(w.fields, VAR)
      case Some(x) => x
      case None => w
    else w
  }

  /** A JSON number read as Python reads it; `True`/`False` are the ints 1/0. */
  function AsNumber(w: Wire): (r: Option<int>)
    ensures r.Some? <==> w.WInt? || w.WBool?
    ensures w.WInt? ==> r == Some(w.i)
  {
    match w
    case WInt(i) => Some(i)
    case WBool(b) => Some(if b then 1 else 0)
    case _ => None
  }
}
