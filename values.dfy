/** The Python-side values the codec reads and builds: primitives, containers,
    time values, recurrence rules, opaque objects, DAGs and operators. */
module Values {
  import opened Wire

  /** `None` and the JSON primitive types int, bool and str. */
  datatype Prim = PNone | PBool(b: bool) | PInt(i: int) | PStr(s: string)

  /** A dateutil `weekday`: a day 0..6 and an optional occurrence count
      ("the 2nd Friday"). */
  datatype Weekday = Weekday(day: int, n: Option<int>)

  /** The eight relative fields of a `relativedelta`, in attribute order. */
  const RelNames: seq<string> :=
    ["years", "months", "days", "leapdays", "hours", "minutes", "seconds", "microseconds"]
  /** The seven absolute fields of a `relativedelta`, in attribute order. */
  const AbsNames: seq<string> :=
    ["year", "month", "day", "hour", "minute", "second", "microsecond"]

  type RelFields = s: seq<int> | |s| == 8 witness [0, 0, 0, 0, 0, 0, 0, 0]
  type AbsFields = s: seq<Option<int>> | |s| == 7 witness [None, None, None, None, None, None, None]

  /** A `relativedelta`: relative offsets (0 when unset), absolute replacements
      (`None` when unset) and an optional weekday. */
  datatype RelDelta = RelDelta(relative: RelFields, absolute: AbsFields, weekday: Option<Weekday>)

  /** Objects the codec never inspects: the excluded infrastructure types and
      everything else it can only turn into a display string. */
  datatype ObjKind = Logger | Connection | Plain

  datatype Value =
    | VPrim(p: Prim)
    | VEnum(member: Prim)                         // an int/str enum member and its `.value`
    | VDict(entries: seq<Entry>)                  // insertion ordered
    | VList(items: seq<Value>)
    | VDag(dag: Dag)
    | VOp(op: Operator)
    | VDateTime(epoch: int)                       // whole seconds since the epoch
    | VTimeDelta(seconds: int)                    // whole seconds
    | VTimezone(name: string)
    | VRelDelta(rd: RelDelta)
    | VCallable(isClass: bool, source: Option<string>)  // `None`: its source cannot be produced
    | VSet(members: seq<Value>)                   // in iteration order
    | VTuple(items: seq<Value>)
    | VObject(kind: ObjKind, display: Option<string>)    // `None`: `str(var)` raises

  datatype Entry = Entry(key: Prim, val: Value)

  /** An attribute's current value; `isDefault` says it is the very object the
      constructor assigned as that parameter's default (identity, not equality). */
  datatype Slot = Slot(val: Value, isDefault: bool)

  /** One entry of an instance's `__dict__`. */
  datatype Attr = Attr(name: string, slot: Slot)

  /** A Python class, by `__name__` and `__module__`. */
  datatype OpClass = OpClass(name: string, moduleName: string)

  /** A plugin's extra operator link and the operator classes it applies to. */
  datatype ExtraLink = ExtraLink(name: string, operators: seq<OpClass>)

  /** An operator: its class, its attributes, the attributes of the DAG it
      belongs to (the `dag` back-reference, if any) and its extra links. */
  datatype Operator = Operator(cls: OpClass, attrs: seq<Attr>, dag: Option<seq<Attr>>, extraLinks: seq<ExtraLink>)

  /** One `task_dict` entry. */
  datatype Task = Task(id: Value, op: Operator)

  /** A DAG: its attributes, its `task_dict` in insertion order, and the
      attributes of its parent DAG when it is a sub-DAG. */
  datatype Dag = Dag(attrs: seq<Attr>, taskDict: seq<Task>, parentDag: Option<seq<Attr>>)

  /** The tables the codec reads per entity kind: the serialized field names
      (`get_serialized_fields()`), the names of `_CONSTRUCTOR_PARAMS` (the
      constructor parameters with a non-`None` default), and the `__dict__` a
      freshly constructed instance starts with (its default objects flagged
      `isDefault`); plus the plugin registry's extra links. */
  datatype Ctx = Ctx(
    opFields: seq<string>, opParams: set<string>, opInit: seq<Attr>,
    dagFields: seq<string>, dagParams: set<string>, dagInit: seq<Attr>,
    plugins: seq<ExtraLink>)

  const NONE: Value := VPrim(PNone)

  const OP_DECORATED: set<string> := {"executor_config"}
  const DAG_DECORATED: set<string> := {"schedule_interval", "default_args"}

  /** The class every decoded operator has. */
  const SERIALIZED_OPERATOR := OpClass("SerializedBaseOperator", "airflow.serialization.serialized_objects")

  function Names(attrs: seq<Attr>): set<string> {
    if attrs == [] then {} else {attrs[0].name} + Names(attrs[1..])
  }

  /** `getattr(obj, name)` when the attribute exists. */
  function GetAttr(attrs: seq<Attr>, name: string): (r: Option<Slot>)
    ensures r.Some? <==> name in Names(attrs)
    ensures r.Some? ==> Attr(name, r.value) in attrs
  {
    if attrs == [] then None
    else if attrs[0].name == name then Some(attrs[0].slot)
    else GetAttr(attrs[1..], name)
  }

  /** `getattr(obj, name, None)`. */
  function AttrValue(attrs: seq<Attr>, name: string): Value {
    match GetAttr(attrs, name)
    case Some(s) => s.val
    case None => NONE
  }

  /** `setattr(obj, name, value)` on an insertion-ordered `__dict__`. */
  function SetAttr(attrs: seq<Attr>, name: string, s: Slot): (r: seq<Attr>)
    ensures Names(r) == Names(attrs) + {name}
    ensures GetAttr(r, name) == Some(s)
    ensures forall n :: n != name ==> GetAttr(r, n) == GetAttr(attrs, n)
  {
    if attrs == [] then [Attr(name, s)]
    else if attrs[0].name == name then [Attr(name, s)] + attrs[1..]
    else [attrs[0]] + SetAttr(attrs[1..], name, s)
  }

  function EndsWith(s: string, suffix: string): bool {
    |suffix| <= |s| && s[|s| - |suffix|..] == suffix
  }

  function DigitString(n: nat): string
    decreases n
  {
    var d := ['0', '1', '2', '3', '4', '5', '6', '7', '8', '9'][n % 10];
    if n < 10 then [d] else DigitString(n / 10) + [d]
  }

  /** `str(k)` for a dict key. */
  function KeyString(p: Prim): string {
    match p
    case PNone => "None"
    case PBool(b) => if b then "True" else "False"
    case PInt(i) => if i < 0 then "-" + DigitString(-i) else DigitString(i)
    case PStr(s) => s
  }

  /** A primitive as it stands in JSON. */
  function PrimWire(p: Prim): Wire {
    match p
    case PNone => WNull
    case PBool(b) => WBool(b)
    case PInt(i) => WInt(i)
    case PStr(s) => WStr(s)
  }

  /** A JSON value used as it is after `json.loads`: objects become str-keyed
      dicts, arrays lists. */
  function Raw(w: Wire): Value {
    match w
    case WNull => NONE
    case WBool(b) => VPrim(PBool(b))
    case WInt(i) => VPrim(PInt(i))
    case WStr(s) => VPrim(PStr(s))
    case WList(items) => VList(RawAll(items))
    case WObj(fs) => VDict(RawFields(fs))
  }

  function RawAll(ws: seq<Wire>): (r: seq<Value>)
    ensures |r| == |ws|
  {
    if ws == [] then [] else [Raw(ws[0])] + RawAll(ws[1..])
  }

  function RawFields(fs: seq<WField>): (r: seq<Entry>)
    ensures |r| == |fs|
  {
    if fs == [] then [] else [Entry(PStr(fs[0].key), Raw(fs[0].val))] + RawFields(fs[1..])
  }

  /** The value Python's `==` and `hash` see for a dict key or set member:
      `True`/`False` are the ints 1/0 and an enum member is its value. */
  function Canon(v: Value): (r: Value)
    ensures r.VPrim? ==> !r.p.PBool?
    ensures !v.VPrim? && !v.VEnum? ==> r == v
  {
    match v
    case VPrim(PBool(b)) => VPrim(PInt(if b then 1 else 0))
    case VEnum(p) => if p.PBool? then VPrim(PInt(if p.b then 1 else 0)) else VPrim(p)
    case _ => v
  }

  /** `hash(v)` succeeds: lists, dicts and sets are unhashable, a tuple is
      hashable when its items are. */
  predicate Hashable(v: Value) {
    match v
    case VList(_) => false
    case VDict(_) => false
    case VSet(_) => false
    case VTuple(xs) => forall i :: 0 <= i < |xs| ==> Hashable(xs[i])
    case _ => true
  }

  /** What Python's `==` and `hash` see of the members of `xs`. */
  function CanonSet(xs: seq<Value>): set<Value> {
    if xs == [] then {} else CanonSet(xs[..|xs| - 1]) + {Canon(xs[|xs| - 1])}
  }

  /** `set.add(x)`: a member already present is kept, a new one is added. */
  function AddMember(xs: seq<Value>, x: Value): (r: seq<Value>)
    ensures CanonSet(r) == CanonSet(xs) + {Canon(x)}
    ensures Canon(x) in CanonSet(xs) ==> r == xs
    ensures Canon(x) !in CanonSet(xs) ==> r == xs + [x]
  {
    if Canon(x) in CanonSet(xs) then xs
    else
      assert (xs + [x])[..|xs|] == xs;
      xs + [x]
  }

  /** No two members are equal in Python's sense: the members of a set. */
  ghost predicate CanonDistinct(xs: seq<Value>) {
    xs == [] || (CanonDistinct(xs[..|xs| - 1]) && Canon(xs[|xs| - 1]) !in CanonSet(xs[..|xs| - 1]))
  }

  /** `set(xs)`, in first-occurrence order. */
  function Dedupe(xs: seq<Value>): (r: seq<Value>)
    ensures forall x :: x in r ==> x in xs
    ensures CanonSet(r) == CanonSet(xs)
    ensures CanonDistinct(r)
    ensures |r| <= |xs|
  {
    if xs == [] then []
    else
      var init := xs[..|xs| - 1];
      var rest := Dedupe(init);
      var r := AddMember(rest, xs[|xs| - 1]);
      assert r != rest ==> r[..|r| - 1] == rest;
      r
  }

  lemma {:induction false} DedupeDistinct(xs: seq<Value>)
    requires CanonDistinct(xs)
    ensures Dedupe(xs) == xs
  {
    if xs != [] {
      var init := xs[..|xs| - 1];
      DedupeDistinct(init);
      assert init + [xs[|xs| - 1]] == xs;
    }
  }

  /** `d[k] = v` on a dict from primitives: an equal key keeps its position
      (and its first spelling) and takes the new value. */
  function PutEntry(es: seq<Entry>, k: Prim, v: Value): (r: seq<Entry>)
    ensures |r| == |es| || r == es + [Entry(k, v)]
  {
    if es == [] then [Entry(k, v)]
    else if Canon(VPrim(es[0].key)) == Canon(VPrim(k)) then [Entry(es[0].key, v)] + es[1..]
    else [es[0]] + PutEntry(es[1..], k, v)
  }
}
