/** The encoder: `BaseSerialization._serialize` and, because it recurses into
    them, the DAG and operator encoders and the field-elision encoder
    `serialize_to_json`, written as one family of total functions. */
module Encode {
  import opened Wire
  import opened Values

  /** The sentinel substituted for a value whose encoding raised. */
  const FAILED := "serialization_failed"

  /** `isinstance(var, _excluded_types)`: a logger, a connection, or a class. */
  predicate IsExcludedType(v: Value) {
    (v.VObject? && v.kind != Plain) || (v.VCallable? && v.isClass)
  }

  /** `_value_is_hardcoded_default`: the attribute holds the very default
      object of a constructor parameter of that name. */
  predicate IsHardcodedDefault(params: set<string>, name: string, s: Slot) {
    name in params && s.isDefault
  }

  /** `BaseSerialization._is_excluded` on `getattr(obj, name, None)`. */
  predicate BaseExcluded(params: set<string>, name: string, s: Option<Slot>) {
    s.None? || s.value.val == NONE || IsExcludedType(s.value.val)
    || IsHardcodedDefault(params, name, s.value)
  }

  /** Python truthiness (`not var`) of the values a field can hold. */
  predicate Truthy(v: Value) {
    match v
    case VPrim(p) => p != PNone && p != PBool(false) && p != PInt(0) && p != PStr("")
    case VEnum(p) => p != PNone && p != PBool(false) && p != PInt(0) && p != PStr("")
    case VDict(es) => es != []
    case VList(xs) => xs != []
    case VSet(ms) => ms != []
    case VTuple(xs) => xs != []
    case VTimeDelta(s) => s != 0
    case VRelDelta(rd) =>
      (exists i :: 0 <= i < 8 && rd.relative[i] != 0)
      || (exists i :: 0 <= i < 7 && rd.absolute[i].Some?) || rd.weekday.Some?
    case _ => true
  }

  /** Which encoder is running: the DAG's (the base rule) or an operator's,
      which also knows the attributes of the operator's DAG, if it has one. */
  datatype Entity = DagEntity | OpEntity(dag: Option<seq<Attr>>)

  /** `_is_excluded` of the running encoder; for an operator, the overriding
      `SerializedBaseOperator._is_excluded`. */
  predicate Excluded(e: Entity, params: set<string>, name: string, s: Option<Slot>) {
    match e
    case DagEntity => BaseExcluded(params, name, s)
    case OpEntity(dag) =>
      var v := if s.Some? then s.value.val else NONE;
      (v != NONE && dag.Some? && EndsWith(name, "_date") && v == AttrValue(dag.value, name))
      || (name in {"executor_config", "params"} && !Truthy(v))
      || BaseExcluded(params, name, s)
  }

  /** `_serialize`. It never fails: a value whose text cannot be produced
      becomes the sentinel string. Only a list is written as a JSON list (a
      set or a tuple is wrapped), and a JSON object is written exactly for
      the values that are not primitives, enums, lists or text. */
  function Serialize(ctx: Ctx, v: Value): (r: Wire)
    ensures r.WList? <==> v.VList?
    ensures r.WObj? <==> !(v.VPrim? || v.VEnum? || v.VList? || v.VCallable? || v.VObject?)
    decreases v, 1
  {
    match v
    case VPrim(p) => PrimWire(p)
    case VEnum(p) => PrimWire(p)
    case VDict(es) => Envelope(WObj(SerializeEntries(ctx, [], es)), TDict)
    case VList(xs) => WList(SerializeAll(ctx, xs))
    case VDag(d) => SerializeDag(ctx, d)
    case VOp(o) => SerializeOperator(ctx, o)
    case VDateTime(t) => Envelope(WInt(t), TDateTime)
    case VTimeDelta(s) => Envelope(WInt(s), TTimeDelta)
    case VTimezone(n) => Envelope(WStr(n), TTimeZone)
    case VRelDelta(rd) => Envelope(EncodeRelDeltaAsWritten(rd), TRelDelta)
    case VCallable(_, src) => WStr(if src.Some? then src.value else FAILED)
    case VSet(ms) => Envelope(WList(SerializeAll(ctx, ms)), TSet)
    case VTuple(xs) => Envelope(WList(SerializeAll(ctx, xs)), TTuple)
    case VObject(_, d) => WStr(if d.Some? then d.value else FAILED)
  }

  function SerializeAll(ctx: Ctx, xs: seq<Value>): (r: seq<Wire>)
    ensures |r| == |xs|
    decreases xs
  {
    if xs == [] then [] else [Serialize(ctx, xs[0])] + SerializeAll(ctx, xs[1..])
  }

  /** `{str(k): _serialize(v) for k, v in var.items()}` continued from `acc`:
      keys that print alike collapse onto the first one's position with the
      last one's value. */
  function SerializeEntries(ctx: Ctx, acc: seq<WField>, es: seq<Entry>): (r: seq<WField>)
    decreases es, 0
  {
    if es == [] then acc
    else SerializeEntries(ctx, Put(acc, KeyString(es[0].key), SerializeEntry(ctx, es[0])), es[1..])
  }

  function SerializeEntry(ctx: Ctx, e: Entry): (r: Wire)
    decreases e, 0
  {
    Serialize(ctx, e.val)
  }

  /** `serialize_to_json` over the first `|keys|` serialized fields: each field
      that is not excluded is stored, decorated ones as encoded, the others
      with an envelope replaced by its payload. */
  function SerializeFields(ctx: Ctx, e: Entity, attrs: seq<Attr>, keys: seq<string>,
                           decorated: set<string>, params: set<string>): (r: seq<WField>)
    decreases attrs, |keys|
  {
    if keys == [] then []
    else
      var acc := SerializeFields(ctx, e, attrs, keys[..|keys| - 1], decorated, params);
      var key := keys[|keys| - 1];
      var s := GetAttr(attrs, key);
      if Excluded(e, params, key, s) then acc
      else
        assert Attr(key, s.value) in attrs;
        var w := Serialize(ctx, s.value.val);
        Put(acc, key, if key in decorated then w else Unwrap(w))
  }

  /** `serialize_operator`: the elided fields plus the operator's class name
      and module. */
  function SerializeOperator(ctx: Ctx, o: Operator): (r: Wire)
    ensures r.WObj?
    ensures Lookup(r.fields, "_task_type") == Some(WStr(o.cls.name))
    ensures Lookup(r.fields, "_task_module") == Some(WStr(o.cls.moduleName))
    decreases o, 0
  {
    var fs := SerializeFields(ctx, OpEntity(o.dag), o.attrs, ctx.opFields, OP_DECORATED, ctx.opParams);
    WObj(Put(Put(fs, "_task_type", WStr(o.cls.name)), "_task_module", WStr(o.cls.moduleName)))
  }

  /** `serialize_dag`: the elided fields plus `tasks`, every operator of
      `task_dict` in order. */
  function SerializeDag(ctx: Ctx, d: Dag): (r: Wire)
    ensures r.WObj?
    ensures Lookup(r.fields, "tasks").Some? && Lookup(r.fields, "tasks").value.WList?
            && |Lookup(r.fields, "tasks").value.items| == |d.taskDict|
    decreases d, 0
  {
    var fs := SerializeFields(ctx, DagEntity, d.attrs, ctx.dagFields, DAG_DECORATED, ctx.dagParams);
    WObj(Put(fs, "tasks", WList(SerializeTasks(ctx, d.taskDict))))
  }

  function SerializeTasks(ctx: Ctx, ts: seq<Task>): (r: seq<Wire>)
    ensures |r| == |ts|
    decreases ts, 0
  {
    if ts == [] then [] else [SerializeTask(ctx, ts[0])] + SerializeTasks(ctx, ts[1..])
  }

  function SerializeTask(ctx: Ctx, t: Task): (r: Wire)
    decreases t, 0
  {
    SerializeOperator(ctx, t.op)
  }

  /** The relativedelta payload `_serialize` writes: the truthy public
      attributes in attribute order, the weekday as `[weekday, n]` or
      `[weekday]`. An absolute field set to 0 (`hour=0`) is falsy and is
      dropped. */
  function EncodeRelDeltaAsWritten(rd: RelDelta): (r: Wire)
  {
    WObj(RelPart(rd.relative, 0) + AbsPart(rd.absolute, 0, true) + WeekdayPart(rd.weekday))
  }

  /** The relativedelta payload evidently intended: the nonzero relative
      offsets, every absolute field that is set (0 included) and the
      weekday. `_serialize` does not use it; it is the corrected half of the
      finding about the truthiness filter. */
  function EncodeRelDelta(rd: RelDelta): (r: Wire)
  {
    WObj(RelPart(rd.relative, 0) + AbsPart(rd.absolute, 0, false) + WeekdayPart(rd.weekday))
  }

  function RelPart(rel: RelFields, i: nat): seq<WField>
    requires i <= 8
    decreases 8 - i
  {
    if i == 8 then []
    else (if rel[i] != 0 then [WField(RelNames[i], WInt(rel[i]))] else []) + RelPart(rel, i + 1)
  }

  /** The absolute fields from position `i` on that are set and, when
      `dropZero`, not 0. */
  function AbsPart(abs: AbsFields, i: nat, dropZero: bool): seq<WField>
    requires i <= 7
    decreases 7 - i
  {
    if i == 7 then []
    else (if abs[i].Some? && (!dropZero || abs[i].value != 0) then [WField(AbsNames[i], WInt(abs[i].value))] else [])
         + AbsPart(abs, i + 1, dropZero)
  }

  function WeekdayPart(wd: Option<Weekday>): seq<WField> {
    match wd
    case None => []
    case Some(w) =>
      if w.n.Some? && w.n.value != 0 then [WField("weekday", WList([WInt(w.day), WInt(w.n.value)]))]
      else [WField("weekday", WList([WInt(w.day)]))]
  }
}
