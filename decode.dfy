/** The decoder: `BaseSerialization._deserialize` and, because it recurses
    into them, `deserialize_operator` and `deserialize_dag` with the repair of
    the task graph that follows, as total functions that return the exception
    the source raises instead of a value. */
module Decode {
  import opened Wire
  import opened Values

  const SERIALIZER_VERSION := 1

  /** The first field stored under `k`. */
  function FindField(fs: seq<WField>, k: string): (r: Option<WField>)
    ensures r.Some? <==> k in Keys(fs)
    ensures r.Some? ==> r.value in fs && r.value.key == k && Lookup(fs, k) == Some(r.value.val)
  {
    if fs == [] then None
    else if fs[0].key == k then Some(fs[0])
    else FindField(fs[1..], k)
  }

  /** The position of `k` in `names`. */
  function IndexOf(names: seq<string>, k: string): (r: Option<nat>)
    ensures r.Some? ==> r.value < |names| && names[r.value] == k
    ensures r.None? <==> k !in names
  {
    if names == [] then None
    else if names[0] == k then Some(0)
    else match IndexOf(names[1..], k)
      case Some(i) => Some(i + 1)
      case None => None
  }

  /** The one-character strings of `s`, as iterating a `str` yields them. */
  function Chars(s: string): (r: seq<Value>)
    ensures |r| == |s|
    ensures forall i :: 0 <= i < |s| ==> r[i] == VPrim(PStr([s[i]]))
  {
    if s == [] then [] else [VPrim(PStr([s[0]]))] + Chars(s[1..])
  }

  /** The keys of a decoded JSON object, as iterating a `dict` yields them. */
  function KeyValues(fs: seq<WField>): (r: seq<Value>)
    ensures |r| == |fs|
    ensures forall i :: 0 <= i < |fs| ==> r[i] == VPrim(PStr(fs[i].key))
  {
    if fs == [] then [] else [VPrim(PStr(fs[0].key))] + KeyValues(fs[1..])
  }

  /** `_deserialize`: primitives are themselves, lists are decoded element by
      element, and a dict must be an envelope. A list comes only from a JSON
      list and a primitive only from a JSON primitive. */
  function Deserialize(ctx: Ctx, w: Wire): (r: Result<Value>)
    ensures r.Ok? ==> (r.value.VList? <==> w.WList?)
    ensures r.Ok? ==> (r.value.VPrim? <==> !w.WList? && !w.WObj?)
    decreases w, 0
  {
    match w
    case WNull => Ok(NONE)
    case WBool(b) => Ok(VPrim(PBool(b)))
    case WInt(i) => Ok(VPrim(PInt(i)))
    case WStr(s) => Ok(VPrim(PStr(s)))
    case WList(items) =>
      var xs :- DeserializeAll(ctx, items);
      Ok(VList(xs))
    case WObj(fs) => DeserializeEnvelope(ctx, fs)
  }

  function DeserializeAll(ctx: Ctx, ws: seq<Wire>): (r: Result<seq<Value>>)
    ensures r.Ok? ==> |r.value| == |ws|
    decreases ws, 0
  {
    if ws == [] then Ok([])
    else
      var x :- Deserialize(ctx, ws[0]);
      var xs :- DeserializeAll(ctx, ws[1..]);
      Ok([x] + xs)
  }

  /** An envelope: `__var` is read first, then `__type`, and the tag must be
      one of the known ones. */
  function DeserializeEnvelope(ctx: Ctx, fs: seq<WField>): (r: Result<Value>)
    ensures r.Ok? ==> !r.value.VList? && !r.value.VPrim?
    decreases fs, 0
  {
    var f :- Need(FindField(fs, VAR), KeyError(VAR));
    var t :- Need(Lookup(fs, TYPE), KeyError(TYPE));
    match ParseTag(t)
    case None => Err(UnknownTag(t))
    case Some(tag) => DeserializeField(ctx, f, tag)
  }

  /** Decodes the value of field `f` by tag `tag`. */
  function DeserializeField(ctx: Ctx, f: WField, tag: Tag): (r: Result<Value>)
    ensures r.Ok? ==> !r.value.VList? && !r.value.VPrim?
    decreases f, 0
  {
    DeserializeTagged(ctx, f.val, tag)
  }

  function DeserializeTagged(ctx: Ctx, x: Wire, tag: Tag): (r: Result<Value>)
    ensures r.Ok? ==> !r.value.VList? && !r.value.VPrim?
    decreases x, 3
  {
    match tag
    case TDict =>
      if !x.WObj? then Err(AttributeError("items"))
      else
        var es :- DeserializeEntries(ctx, [], x.fields);
        Ok(VDict(es))
    case TDag =>
      var d :- DagFromPayload(ctx, x);
      Ok(VDag(d))
    case TOp =>
      var o :- OpFromPayload(ctx, x);
      Ok(VOp(o))
    case TDateTime =>
      var t :- Need(AsNumber(x), TypeError("timestamp"));
      Ok(VDateTime(t))
    case TTimeDelta =>
      var s :- Need(AsNumber(x), TypeError("seconds"));
      Ok(VTimeDelta(s))
    case TTimeZone =>
      if x.WStr? then Ok(VTimezone(x.s)) else Err(TypeError("timezone name"))
    case TRelDelta =>
      var rd :- DecodeRelDelta(x);
      Ok(VRelDelta(rd))
    case TSet =>
      var ms :- SetMembers(ctx, x);
      Ok(VSet(Dedupe(ms)))
    case TTuple =>
      var xs :- TupleItems(ctx, x);
      Ok(VTuple(xs))
  }

  /** `{k: _deserialize(v) for k, v in var.items()}` continued from `acc`. */
  function DeserializeEntries(ctx: Ctx, acc: seq<Entry>, fs: seq<WField>): (r: Result<seq<Entry>>)
    decreases fs, 0
  {
    if fs == [] then Ok(acc)
    else
      var v :- DeserializeValueOf(ctx, fs[0]);
      DeserializeEntries(ctx, PutEntry(acc, PStr(fs[0].key), v), fs[1..])
  }

  function DeserializeValueOf(ctx: Ctx, f: WField): (r: Result<Value>)
    decreases f, 0
  {
    Deserialize(ctx, f.val)
  }

  /** The members `{_deserialize(v) for v in var}` adds, in iteration order;
      each must be hashable. */
  function SetMembers(ctx: Ctx, x: Wire): (r: Result<seq<Value>>)
    ensures r.Ok? ==> forall i :: 0 <= i < |r.value| ==> Hashable(r.value[i])
    decreases x, 1
  {
    match x
    case WList(items) => DeserializeHashable(ctx, items)
    case WStr(s) => Ok(Chars(s))
    case WObj(fs) => Ok(KeyValues(fs))
    case _ => Err(TypeError("not iterable"))
  }

  function DeserializeHashable(ctx: Ctx, ws: seq<Wire>): (r: Result<seq<Value>>)
    ensures r.Ok? ==> |r.value| == |ws| && forall i :: 0 <= i < |r.value| ==> Hashable(r.value[i])
    decreases ws, 0
  {
    if ws == [] then Ok([])
    else
      var x :- Deserialize(ctx, ws[0]);
      if !Hashable(x) then Err(TypeError("unhashable"))
      else
        var xs :- DeserializeHashable(ctx, ws[1..]);
        Ok([x] + xs)
  }

  /** `tuple([_deserialize(v) for v in var])`. */
  function TupleItems(ctx: Ctx, x: Wire): (r: Result<seq<Value>>)
    decreases x, 1
  {
    match x
    case WList(items) => DeserializeAll(ctx, items)
    case WStr(s) => Ok(Chars(s))
    case WObj(fs) => Ok(KeyValues(fs))
    case _ => Err(TypeError("not iterable"))
  }

  /** `relativedelta.weekday(*var['weekday'])`. */
  function DecodeWeekday(w: Wire): (r: Result<Weekday>)
    ensures r.Ok? ==> r.value.n != Some(0)
  {
    if !w.WList? || |w.items| == 0 || |w.items| > 2 then Err(TypeError("weekday arguments"))
    else
      var day :- Need(AsNumber(w.items[0]), TypeError("weekday"));
      if |w.items| == 1 || w.items[1] == WNull then Ok(Weekday(day, None))
      else
        var n :- Need(AsNumber(w.items[1]), TypeError("weekday n"));
        if n == 0 then Err(ValueError("Can't create weekday with n==0"))
        else Ok(Weekday(day, Some(n)))
  }

  const NoRelative: RelFields := [0, 0, 0, 0, 0, 0, 0, 0]
  const NoAbsolute: AbsFields := [None, None, None, None, None, None, None]

  /** `relativedelta(**var)`, the weekday rebuilt first. */
  function DecodeRelDelta(x: Wire): (r: Result<RelDelta>)
    ensures r.Ok? ==> x.WObj? && (r.value.weekday.Some? <==> "weekday" in Keys(x.fields))
  {
    if !x.WObj? then Err(TypeError("argument after ** must be a mapping"))
    else
      var wd :- match Lookup(x.fields, "weekday")
        case None => Ok(None)
        case Some(w) =>
          var d :- DecodeWeekday(w);
          Ok(Some(d));
      RelDeltaArgs(RelDelta(NoRelative, NoAbsolute, wd), x.fields)
  }

  /** The keyword arguments of `relativedelta(...)`, one by one. */
  function RelDeltaArgs(rd: RelDelta, fs: seq<WField>): (r: Result<RelDelta>)
    ensures r.Ok? ==> r.value.weekday == rd.weekday
    decreases fs
  {
    if fs == [] then Ok(rd)
    else
      var rd' :- RelDeltaArg(rd, fs[0]);
      RelDeltaArgs(rd', fs[1..])
  }

  /** One keyword argument: a relative field needs a number, an absolute
      field a number or `None`; any other name is not a parameter. */
  function RelDeltaArg(rd: RelDelta, f: WField): (r: Result<RelDelta>)
    ensures r.Ok? ==> r.value.weekday == rd.weekday
  {
    if f.key == "weekday" then Ok(rd)
    else
      var ri, ai := IndexOf(RelNames, f.key), IndexOf(AbsNames, f.key);
      if ri.Some? then
        var n :- Need(AsNumber(f.val), TypeError(f.key));
        Ok(SetRelative(rd, ri.value, n))
      else if ai.Some? then
        if f.val == WNull then Ok(SetAbsolute(rd, ai.value, None))
        else
          var n :- Need(AsNumber(f.val), TypeError(f.key));
          Ok(SetAbsolute(rd, ai.value, Some(n)))
      else Err(TypeError("unexpected keyword argument " + f.key))
  }

  function SetRelative(rd: RelDelta, i: nat, n: int): (r: RelDelta)
    requires i < |RelNames|
    ensures r.weekday == rd.weekday
  {
    rd.(relative := rd.relative[i := n])
  }

  function SetAbsolute(rd: RelDelta, i: nat, n: Option<int>): (r: RelDelta)
    requires i < |AbsNames|
    ensures r.weekday == rd.weekday
  {
    rd.(absolute := rd.absolute[i := n])
  }

  /** `set(v)` of a JSON value used as it is. */
  function RawMembers(w: Wire): (r: Result<seq<Value>>)
    ensures r.Ok? ==> forall i :: 0 <= i < |r.value| ==> Hashable(r.value[i])
  {
    match w
    case WList(items) => RawHashable(items)
    case WStr(s) => Ok(Chars(s))
    case WObj(fs) => Ok(KeyValues(fs))
    case _ => Err(TypeError("not iterable"))
  }

  function RawHashable(ws: seq<Wire>): (r: Result<seq<Value>>)
    ensures r.Ok? ==> |r.value| == |ws| && forall i :: 0 <= i < |r.value| ==> Hashable(r.value[i])
  {
    if ws == [] then Ok([])
    else if !Hashable(Raw(ws[0])) then Err(TypeError("unhashable"))
    else
      var xs :- RawHashable(ws[1..]);
      Ok([Raw(ws[0])] + xs)
  }

  /** `setattr(obj, k, None)` for every serialized field that is neither in
      the payload nor a constructor parameter, continued from `attrs`. */
  function NullFill(attrs: seq<Attr>, fields: seq<string>, present: set<string>, params: set<string>): (r: seq<Attr>)
    ensures Names(r) == Names(attrs) + (set k | k in fields && k !in present && k !in params)
    decreases fields
  {
    if fields == [] then attrs
    else
      var k := fields[0];
      NullFill(if k !in present && k !in params then SetAttr(attrs, k, Slot(NONE, false)) else attrs,
               fields[1..], present, params)
  }

  // ---------------------------------------------------------------- operators

  /** `SerializedBaseOperator(task_id=...)`: the fresh instance's attributes,
      the task id, empty relative sets and the display type `BaseOperator`. */
  function OpShell(ctx: Ctx, id: Value): (r: seq<Attr>)
  {
    SetAttr(SetAttr(SetAttr(SetAttr(ctx.opInit,
      "task_id", Slot(id, false)),
      "_upstream_task_ids", Slot(VSet([]), false)),
      "_downstream_task_ids", Slot(VSet([]), false)),
      "_task_type", Slot(VPrim(PStr("BaseOperator")), false))
  }

  /** `op_extra_links_from_plugin.update({ope.name: ope})`: keyed by name. */
  function PutLink(ls: seq<ExtraLink>, p: ExtraLink): (r: seq<ExtraLink>)
    ensures p in r
    ensures forall l :: l in r ==> l in ls || l == p
    ensures forall l :: l in ls && l.name != p.name ==> l in r
  {
    if ls == [] then [p]
    else if ls[0].name == p.name then [p] + ls[1..]
    else [ls[0]] + PutLink(ls[1..], p)
  }

  /** The inner plugin loop over the operator classes `ops` of plugin link
      `p`: `_task_type` is read for every class, `_task_module` only when
      the name matches. */
  function MatchOperators(acc: seq<ExtraLink>, p: ExtraLink, ops: seq<OpClass>, fs: seq<WField>): (r: Result<seq<ExtraLink>>)
    ensures r.Ok? ==> forall l :: l in r.value ==> l in acc || l == p
    ensures r.Ok? ==> forall l :: l in acc && l.name != p.name ==> l in r.value
    decreases ops
  {
    if ops == [] then Ok(acc)
    else
      var tt :- Need(Lookup(fs, "_task_type"), KeyError("_task_type"));
      if WStr(ops[0].name) != tt then MatchOperators(acc, p, ops[1..], fs)
      else
        var tm :- Need(Lookup(fs, "_task_module"), KeyError("_task_module"));
        MatchOperators(if WStr(ops[0].moduleName) == tm then PutLink(acc, p) else acc, p, ops[1..], fs)
  }

  /** The outer plugin loop, continued from `acc`. */
  function PluginLinks(acc: seq<ExtraLink>, plugins: seq<ExtraLink>, fs: seq<WField>): (r: Result<seq<ExtraLink>>)
    ensures r.Ok? ==> forall l :: l in r.value ==> l in acc || l in plugins
    ensures r.Ok? ==> forall l :: l in acc && (forall q :: q in plugins ==> q.name != l.name) ==> l in r.value
    decreases plugins
  {
    if plugins == [] then Ok(acc)
    else
      var acc' :- MatchOperators(acc, plugins[0], plugins[0].operators, fs);
      PluginLinks(acc', plugins[1..], fs)
  }

  /** `deserialize_operator`. */
  function OpFromPayload(ctx: Ctx, w: Wire): (r: Result<Operator>)
    ensures r.Ok? ==> w.WObj? && "task_id" in Keys(w.fields)
    ensures r.Ok? ==> r.value.cls == SERIALIZED_OPERATOR && r.value.dag.None?
                      && forall l :: l in r.value.extraLinks ==> l in ctx.plugins
    decreases w, 1
  {
    if !w.WObj? then Err(TypeError("operator payload is not a dict"))
    else
      var id :- Need(Lookup(w.fields, "task_id"), KeyError("task_id"));
      var links :- PluginLinks([], ctx.plugins, w.fields);
      var o :- ApplyOpKeys(ctx, Operator(SERIALIZED_OPERATOR, OpShell(ctx, Raw(id)), None, links), w.fields);
      Ok(o.(attrs := NullFill(o.attrs, ctx.opFields, Keys(w.fields), ctx.opParams)))
  }

  /** The `setattr(op, k, v)` loop over the payload, continued from `o`. */
  function ApplyOpKeys(ctx: Ctx, o: Operator, fs: seq<WField>): (r: Result<Operator>)
    ensures r.Ok? ==> r.value.cls == o.cls && r.value.dag == o.dag && r.value.extraLinks == o.extraLinks
    decreases fs, 0
  {
    if fs == [] then Ok(o)
    else
      var v :- DecodeOpField(ctx, fs[0]);
      ApplyOpKeys(ctx, o.(attrs := SetAttr(o.attrs, fs[0].key, Slot(v, false))), fs[1..])
  }

  /** How `deserialize_operator` turns one payload entry into an attribute. */
  function DecodeOpField(ctx: Ctx, f: WField): (r: Result<Value>)
    decreases f, 0
  {
    var k, v := f.key, f.val;
    if k == "_downstream_task_ids" then
      var xs :- RawMembers(v);
      Ok(VSet(Dedupe(xs)))
    else if k == "subdag" then
      var d :- DagFromPayload(ctx, v);
      Ok(VDag(d))
    else if k in {"retry_delay", "execution_timeout"} then
      var s :- Need(AsNumber(v), TypeError("seconds"));
      Ok(VTimeDelta(s))
    else if EndsWith(k, "_date") then
      var t :- Need(AsNumber(v), TypeError("timestamp"));
      Ok(VDateTime(t))
    else if k in OP_DECORATED || k !in ctx.opFields then Deserialize(ctx, v)
    else Ok(Raw(v))
  }

  // --------------------------------------------------------------------- DAGs

  /** `deserialize_dag`. */
  function DagFromPayload(ctx: Ctx, w: Wire): (r: Result<Dag>)
    ensures r.Ok? ==> w.WObj? && "_dag_id" in Keys(w.fields) && r.value.parentDag.None?
    decreases w, 1
  {
    if !w.WObj? then Err(TypeError("DAG payload is not a dict"))
    else
      var id :- Need(Lookup(w.fields, "_dag_id"), KeyError("_dag_id"));
      var d :- ApplyDagKeys(ctx, Dag(SetAttr(ctx.dagInit, "_dag_id", Slot(Raw(id), false)), [], None), w.fields);
      var attrs := NullFill(d.attrs, ctx.dagFields, Keys(w.fields), ctx.dagParams);
      var loc :- Need(GetAttr(attrs, "fileloc"), AttributeError("fileloc"));
      Repair(Dag(SetAttr(attrs, "full_filepath", Slot(loc.val, false)), d.taskDict, d.parentDag), false)
  }

  /** The `setattr(dag, k, v)` loop over the payload, continued from `d`;
      `tasks` becomes `task_dict`. */
  function ApplyDagKeys(ctx: Ctx, d: Dag, fs: seq<WField>): (r: Result<Dag>)
    ensures r.Ok? ==> r.value.parentDag == d.parentDag
    decreases fs, 0
  {
    if fs == [] then Ok(d)
    else if fs[0].key == "tasks" then
      var ts :- DecodeTasksOf(ctx, fs[0]);
      ApplyDagKeys(ctx, d.(taskDict := ts), fs[1..])
    else
      var v :- DecodeDagField(ctx, fs[0]);
      ApplyDagKeys(ctx, d.(attrs := SetAttr(d.attrs, fs[0].key, Slot(v, false))), fs[1..])
  }

  /** How `deserialize_dag` turns one payload entry other than `tasks` into
      an attribute. */
  function DecodeDagField(ctx: Ctx, f: WField): (r: Result<Value>)
    decreases f, 0
  {
    var k, v := f.key, f.val;
    if k == "_downstream_task_ids" then
      var xs :- RawMembers(v);
      Ok(VSet(Dedupe(xs)))
    else if k == "timezone" then
      if v.WStr? then Ok(VTimezone(v.s)) else Err(TypeError("timezone name"))
    else if k in {"retry_delay", "execution_timeout"} then
      var s :- Need(AsNumber(v), TypeError("seconds"));
      Ok(VTimeDelta(s))
    else if EndsWith(k, "_date") then
      var t :- Need(AsNumber(v), TypeError("timestamp"));
      Ok(VDateTime(t))
    else if k in DAG_DECORATED then Deserialize(ctx, v)
    else Ok(Raw(v))
  }

  function DecodeTasksOf(ctx: Ctx, f: WField): (r: Result<seq<Task>>)
    decreases f, 0
  {
    DecodeTasks(ctx, f.val)
  }

  /** `{task["task_id"]: deserialize_operator(task) for task in v}`. Iterating
      a string or a dict yields strings, which cannot be indexed by a key. */
  function DecodeTasks(ctx: Ctx, x: Wire): (r: Result<seq<Task>>)
    decreases x, 3
  {
    match x
    case WList(items) => DecodeTaskList(ctx, [], items)
    case WStr(s) => if s == "" then Ok([]) else Err(TypeError("string indices must be integers"))
    case WObj(fs) => if fs == [] then Ok([]) else Err(TypeError("string indices must be integers"))
    case _ => Err(TypeError("not iterable"))
  }

  function DecodeTaskList(ctx: Ctx, acc: seq<Task>, items: seq<Wire>): (r: Result<seq<Task>>)
    decreases items, 0
  {
    if items == [] then Ok(acc)
    else
      var t :- DecodeTask(ctx, items[0]);
      DecodeTaskList(ctx, PutTask(acc, t), items[1..])
  }

  /** One `task_dict` entry: the raw `task_id` as key, the decoded operator
      as value. */
  function DecodeTask(ctx: Ctx, w: Wire): (r: Result<Task>)
    ensures r.Ok? ==> w.WObj? && Lookup(w.fields, "task_id").Some?
    ensures r.Ok? ==> r.value.id == Raw(Lookup(w.fields, "task_id").value) && Hashable(r.value.id)
    decreases w, 2
  {
    if !w.WObj? then Err(TypeError("task payload is not a dict"))
    else
      var id :- Need(Lookup(w.fields, "task_id"), KeyError("task_id"));
      if !Hashable(Raw(id)) then Err(TypeError("unhashable"))
      else
        var op :- OpFromPayload(ctx, w);
        Ok(Task(Raw(id), op))
  }

  /** `task_dict[id] = op`: an equal key keeps its position and first spelling. */
  function PutTask(ts: seq<Task>, t: Task): (r: seq<Task>)
    ensures |r| == |ts| || r == ts + [t]
    ensures FindTask(r, t.id).Some? && r[FindTask(r, t.id).value].op == t.op
    ensures forall j :: 0 <= j < |ts| && Canon(ts[j].id) != Canon(t.id) ==> r[j] == ts[j]
  {
    if ts == [] then [t]
    else if Canon(ts[0].id) == Canon(t.id) then [Task(ts[0].id, t.op)] + ts[1..]
    else [ts[0]] + PutTask(ts[1..], t)
  }

  /** `task_dict[id]`: the position of the task whose id equals `id`. */
  function FindTask(ts: seq<Task>, id: Value): (r: Option<nat>)
    ensures r.Some? ==> r.value < |ts| && Canon(ts[r.value].id) == Canon(id)
    ensures r.None? ==> forall j :: 0 <= j < |ts| ==> Canon(ts[j].id) != Canon(id)
  {
    if ts == [] then None
    else if Canon(ts[0].id) == Canon(id) then Some(0)
    else match FindTask(ts[1..], id)
      case Some(j) => Some(j + 1)
      case None => None
  }

  // ----------------------------------------------------------- graph repair

  /** The loop over `dag.task_dict.values()` that runs after the fields are
      set. With `intended`, the upstream set of each downstream task gains
      the current task's id instead of its own. */
  function Repair(d: Dag, intended: bool): (r: Result<Dag>)
    ensures r.Ok? ==> r.value.attrs == d.attrs && r.value.parentDag == d.parentDag
    ensures r.Ok? ==> |r.value.taskDict| == |d.taskDict|
  {
    var ts :- RepairFrom(d.attrs, d.taskDict, 0, intended);
    Ok(d.(taskDict := ts))
  }

  function RepairFrom(dagAttrs: seq<Attr>, ts: seq<Task>, i: nat, intended: bool): (r: Result<seq<Task>>)
    requires i <= |ts|
    ensures r.Ok? ==> |r.value| == |ts|
    decreases |ts| - i
  {
    if i == |ts| then Ok(ts)
    else
      var ts' :- RepairTask(dagAttrs, ts, i, intended);
      RepairFrom(dagAttrs, ts', i + 1, intended)
  }

  /** One pass of the loop body for the task at position `i`. */
  function RepairTask(dagAttrs: seq<Attr>, ts: seq<Task>, i: nat, intended: bool): (r: Result<seq<Task>>)
    requires i < |ts|
    ensures r.Ok? ==> |r.value| == |ts|
  {
    var t := ts[i];
    var t' :- PrepareTask(dagAttrs, t);
    var down :- Need(GetAttr(t'.op.attrs, "_downstream_task_ids"), AttributeError("_downstream_task_ids"));
    var ids :- Iterate(down.val);
    LinkUpstream(ts[i := t'], ids, t.id, intended)
  }

  /** The part of the loop body that touches only the task itself: dates,
      sub-DAG, and `task.dag = dag`. */
  function PrepareTask(dagAttrs: seq<Attr>, t: Task): (r: Result<Task>)
    ensures r.Ok? ==> r.value.id == t.id && r.value.op.dag == Some(dagAttrs)
  {
    var a1 :- InheritDate(t.op.attrs, dagAttrs, "start_date");
    var a2 :- InheritDate(a1, dagAttrs, "end_date");
    var sub :- Need(GetAttr(a2, "subdag"), AttributeError("subdag"));
    var a3 :- LinkSubdag(a2, sub, dagAttrs);
    Ok(Task(t.id, t.op.(attrs := a3, dag := Some(dagAttrs))))
  }

  /** A task date that is `None` takes the DAG's. */
  function InheritDate(attrs: seq<Attr>, dagAttrs: seq<Attr>, name: string): (r: Result<seq<Attr>>)
  {
    var s :- Need(GetAttr(attrs, name), AttributeError(name));
    if s.val != NONE then Ok(attrs)
    else
      var ds :- Need(GetAttr(dagAttrs, name), AttributeError(name));
      Ok(SetAttr(attrs, name, Slot(ds.val, false)))
  }

  /** A task's sub-DAG learns its parent and that it is a sub-DAG. */
  function LinkSubdag(attrs: seq<Attr>, sub: Slot, dagAttrs: seq<Attr>): (r: Result<seq<Attr>>)
  {
    match sub.val
    case VPrim(PNone) => Ok(attrs)
    case VDag(sd) =>
      var linked := sd.(parentDag := Some(dagAttrs),
                        attrs := SetAttr(sd.attrs, "is_subdag", Slot(VPrim(PBool(true)), false)));
      Ok(SetAttr(attrs, "subdag", Slot(VDag(linked), sub.isDefault)))
    case _ => Err(AttributeError("parent_dag"))
  }

  /** `for x in v`: the items a value yields when iterated. */
  function Iterate(v: Value): (r: Result<seq<Value>>)
  {
    match v
    case VSet(ms) => Ok(ms)
    case VList(xs) => Ok(xs)
    case VTuple(xs) => Ok(xs)
    case VDict(es) => Ok(EntryKeys(es))
    case VPrim(PStr(s)) => Ok(Chars(s))
    case _ => Err(TypeError("not iterable"))
  }

  function EntryKeys(es: seq<Entry>): (r: seq<Value>)
    ensures |r| == |es|
  {
    if es == [] then [] else [VPrim(es[0].key)] + EntryKeys(es[1..])
  }

  /** The inner loop: for each downstream id `d`,
      `dag.task_dict[d]._upstream_task_ids.add(...)`. As written it adds `d`;
      with `intended` it adds `cur`, the id of the task being repaired. */
  function LinkUpstream(ts: seq<Task>, ids: seq<Value>, cur: Value, intended: bool): (r: Result<seq<Task>>)
    ensures r.Ok? ==> |r.value| == |ts|
    decreases ids
  {
    if ids == [] then Ok(ts)
    else
      var j :- Need(FindTask(ts, ids[0]), KeyError("task_dict"));
      var up :- Need(GetAttr(ts[j].op.attrs, "_upstream_task_ids"), AttributeError("_upstream_task_ids"));
      if !up.val.VSet? then Err(AttributeError("add"))
      else
        var added := AddMember(up.val.members, if intended then cur else ids[0]);
        var op := ts[j].op.(attrs := SetAttr(ts[j].op.attrs, "_upstream_task_ids", Slot(VSet(added), up.isDefault)));
        LinkUpstream(ts[j := Task(ts[j].id, op)], ids[1..], cur, intended)
  }
}
