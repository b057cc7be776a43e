/** The loops of the source, as it runs them: `serialize_to_json` filling its
    dict, `deserialize_operator` and `deserialize_dag` building a shell and
    setting attributes one by one, and the repair pass over `task_dict`.
    Each method is proved to compute the function of `Encode` or `Decode`
    that specifies it. */
module Codec {
  import opened Wire
  import opened Values
  import opened Encode
  import opened Decode

  /** `serialize_to_json`. */
  method SerializeToJson(ctx: Ctx, e: Entity, attrs: seq<Attr>, keys: seq<string>,
                         decorated: set<string>, params: set<string>) returns (fs: seq<WField>)
    ensures fs == SerializeFields(ctx, e, attrs, keys, decorated, params)
  {
    fs := [];
    var i := 0;
    while i < |keys|
      invariant 0 <= i <= |keys|
      invariant fs == SerializeFields(ctx, e, attrs, keys[..i], decorated, params)
    {
      var key := keys[i];
      var value := GetAttr(attrs, key);
      if !Excluded(e, params, key, value) {
        var w := Serialize(ctx, value.value.val);
        if key in decorated {
          fs := Put(fs, key, w);
        } else {
          fs := Put(fs, key, Unwrap(w));
        }
      }
      assert fs == SerializeFields(ctx, e, attrs, keys[..i + 1], decorated, params) by {
        assert keys[..i + 1][..i] == keys[..i];
        assert keys[..i + 1][i] == key;
      }
      i := i + 1;
    }
    assert keys[..i] == keys;
  }

  /** The two plugin loops of `deserialize_operator`: every extra link whose
      operator classes include the payload's class, keyed by link name. */
  method MatchPluginLinks(plugins: seq<ExtraLink>, fs: seq<WField>) returns (r: Result<seq<ExtraLink>>)
    ensures r == PluginLinks([], plugins, fs)
  {
    var found: seq<ExtraLink> := [];
    var i := 0;
    while i < |plugins|
      invariant 0 <= i <= |plugins|
      invariant PluginLinks([], plugins, fs) == PluginLinks(found, plugins[i..], fs)
    {
      var ope := plugins[i];
      assert plugins[i..][1..] == plugins[i + 1..];
      var before := found;
      var j := 0;
      while j < |ope.operators|
        invariant 0 <= j <= |ope.operators|
        invariant MatchOperators(before, ope, ope.operators, fs) == MatchOperators(found, ope, ope.operators[j..], fs)
      {
        var operator := ope.operators[j];
        assert ope.operators[j..][1..] == ope.operators[j + 1..];
        var taskType := Lookup(fs, "_task_type");
        if taskType.None? {
          return Err(KeyError("_task_type"));
        }
        if WStr(operator.name) == taskType.value {
          var taskModule := Lookup(fs, "_task_module");
          if taskModule.None? {
            return Err(KeyError("_task_module"));
          }
          if WStr(operator.moduleName) == taskModule.value {
            found := PutLink(found, ope);
          }
        }
        j := j + 1;
      }
      i := i + 1;
    }
    r := Ok(found);
  }

  /** `deserialize_operator`. A sub-DAG in the payload is decoded by
      `DagFromPayload`, which `DeserializeDag` computes. */
  method DeserializeOperator(ctx: Ctx, encoded: Wire) returns (r: Result<Operator>)
    ensures r == OpFromPayload(ctx, encoded)
  {
    if !encoded.WObj? {
      return Err(TypeError("operator payload is not a dict"));
    }
    var fs := encoded.fields;
    var taskId := Lookup(fs, "task_id");
    if taskId.None? {
      return Err(KeyError("task_id"));
    }
    var links := MatchPluginLinks(ctx.plugins, fs);
    if links.Err? {
      return Err(links.error);
    }
    var shell := Operator(SERIALIZED_OPERATOR, OpShell(ctx, Raw(taskId.value)), None, links.value);
    var op := SetOperatorKeys(ctx, shell, fs);
    if op.Err? {
      return Err(op.error);
    }
    var attrs := NullFillLoop(op.value.attrs, ctx.opFields, Keys(fs), ctx.opParams);
    r := Ok(op.value.(attrs := attrs));
  }

  /** `for k, v in encoded_op.items(): ... setattr(op, k, v)`. */
  method SetOperatorKeys(ctx: Ctx, shell: Operator, fs: seq<WField>) returns (r: Result<Operator>)
    ensures r == ApplyOpKeys(ctx, shell, fs)
  {
    var op := shell;
    var i := 0;
    while i < |fs|
      invariant 0 <= i <= |fs|
      invariant ApplyOpKeys(ctx, shell, fs) == ApplyOpKeys(ctx, op, fs[i..])
    {
      assert fs[i..][1..] == fs[i + 1..];
      var value := DecodeOpField(ctx, fs[i]);
      if value.Err? {
        return Err(value.error);
      }
      op := op.(attrs := SetAttr(op.attrs, fs[i].key, Slot(value.value, false)));
      i := i + 1;
    }
    r := Ok(op);
  }

  /** `for k in fields - payload keys - params: setattr(obj, k, None)`, in the
      order of `fields`. */
  method NullFillLoop(attrs: seq<Attr>, fields: seq<string>, present: set<string>, params: set<string>)
    returns (r: seq<Attr>)
    ensures r == NullFill(attrs, fields, present, params)
  {
    r := attrs;
    var j := 0;
    while j < |fields|
      invariant 0 <= j <= |fields|
      invariant NullFill(attrs, fields, present, params) == NullFill(r, fields[j..], present, params)
    {
      assert fields[j..][1..] == fields[j + 1..];
      var k := fields[j];
      if k !in present && k !in params {
        r := SetAttr(r, k, Slot(NONE, false));
      }
      j := j + 1;
    }
  }

  /** `deserialize_dag`. */
  method DeserializeDag(ctx: Ctx, encoded: Wire) returns (r: Result<Dag>)
    ensures r == DagFromPayload(ctx, encoded)
  {
    if !encoded.WObj? {
      return Err(TypeError("DAG payload is not a dict"));
    }
    var fs := encoded.fields;
    var dagId := Lookup(fs, "_dag_id");
    if dagId.None? {
      return Err(KeyError("_dag_id"));
    }
    var shell := Dag(SetAttr(ctx.dagInit, "_dag_id", Slot(Raw(dagId.value), false)), [], None);
    var applied := SetDagKeys(ctx, shell, fs);
    if applied.Err? {
      return Err(applied.error);
    }
    var dag := applied.value;
    var attrs := NullFillLoop(dag.attrs, ctx.dagFields, Keys(fs), ctx.dagParams);
    var fileloc := GetAttr(attrs, "fileloc");
    if fileloc.None? {
      return Err(AttributeError("fileloc"));
    }
    attrs := SetAttr(attrs, "full_filepath", Slot(fileloc.value.val, false));
    var repaired := RepairTasks(attrs, dag.taskDict, false);
    if repaired.Err? {
      return Err(repaired.error);
    }
    r := Ok(Dag(attrs, repaired.value, dag.parentDag));
  }

  /** `for k, v in encoded_dag.items(): ... setattr(dag, k, v)`, with
      `tasks` becoming `task_dict`. */
  method SetDagKeys(ctx: Ctx, shell: Dag, fs: seq<WField>) returns (r: Result<Dag>)
    ensures r == ApplyDagKeys(ctx, shell, fs)
  {
    var dag := shell;
    var i := 0;
    while i < |fs|
      invariant 0 <= i <= |fs|
      invariant ApplyDagKeys(ctx, shell, fs) == ApplyDagKeys(ctx, dag, fs[i..])
    {
      assert fs[i..][1..] == fs[i + 1..];
      var k, v := fs[i].key, fs[i].val;
      if k == "tasks" {
        var tasks := DeserializeTasks(ctx, v);
        if tasks.Err? {
          return Err(tasks.error);
        }
        dag := dag.(taskDict := tasks.value);
      } else {
        var value := DecodeDagField(ctx, fs[i]);
        if value.Err? {
          return Err(value.error);
        }
        dag := dag.(attrs := SetAttr(dag.attrs, k, Slot(value.value, false)));
      }
      i := i + 1;
    }
    r := Ok(dag);
  }

  /** `{task["task_id"]: deserialize_operator(task) for task in v}`. */
  method DeserializeTasks(ctx: Ctx, v: Wire) returns (r: Result<seq<Task>>)
    ensures r == DecodeTasks(ctx, v)
  {
    if v.WStr? || v.WObj? {
      return if v == WStr("") || v == WObj([]) then Ok([]) else Err(TypeError("string indices must be integers"));
    }
    if !v.WList? {
      return Err(TypeError("not iterable"));
    }
    var items := v.items;
    var taskDict: seq<Task> := [];
    var i := 0;
    while i < |items|
      invariant 0 <= i <= |items|
      invariant DecodeTaskList(ctx, [], items) == DecodeTaskList(ctx, taskDict, items[i..])
    {
      assert items[i..][1..] == items[i + 1..];
      var task := items[i];
      if !task.WObj? {
        return Err(TypeError("task payload is not a dict"));
      }
      var taskId := Lookup(task.fields, "task_id");
      if taskId.None? {
        return Err(KeyError("task_id"));
      }
      if !Hashable(Raw(taskId.value)) {
        return Err(TypeError("unhashable"));
      }
      var op := DeserializeOperator(ctx, task);
      if op.Err? {
        return Err(op.error);
      }
      taskDict := PutTask(taskDict, Task(Raw(taskId.value), op.value));
      i := i + 1;
    }
    r := Ok(taskDict);
  }

  /** The repair loop over `dag.task_dict.values()`; `intended` selects the
      corrected upstream update. */
  method RepairTasks(dagAttrs: seq<Attr>, tasks: seq<Task>, intended: bool) returns (r: Result<seq<Task>>)
    ensures r == RepairFrom(dagAttrs, tasks, 0, intended)
  {
    var ts := tasks;
    var i := 0;
    while i < |ts|
      invariant 0 <= i <= |ts| && |ts| == |tasks|
      invariant RepairFrom(dagAttrs, tasks, 0, intended) == RepairFrom(dagAttrs, ts, i, intended)
    {
      var next := RepairOne(dagAttrs, ts, i, intended);
      if next.Err? {
        return Err(next.error);
      }
      ts := next.value;
      i := i + 1;
    }
    r := Ok(ts);
  }

  /** The body of the repair loop for the task at position `i`. */
  method RepairOne(dagAttrs: seq<Attr>, ts: seq<Task>, i: nat, intended: bool) returns (r: Result<seq<Task>>)
    requires i < |ts|
    ensures r == RepairTask(dagAttrs, ts, i, intended)
  {
    var task := ts[i];
    var prepared := PrepareOne(dagAttrs, task);
    if prepared.Err? {
      return Err(prepared.error);
    }
    var down := GetAttr(prepared.value.op.attrs, "_downstream_task_ids");
    if down.None? {
      return Err(AttributeError("_downstream_task_ids"));
    }
    var ids := Iterate(down.value.val);
    if ids.Err? {
      return Err(ids.error);
    }
    r := AddUpstream(ts[i := prepared.value], ids.value, task.id, intended);
  }

  /** Dates, sub-DAG and `task.dag = dag` for one task. */
  method PrepareOne(dagAttrs: seq<Attr>, task: Task) returns (r: Result<Task>)
    ensures r == PrepareTask(dagAttrs, task)
  {
    var attrs := task.op.attrs;
    var dates := ["start_date", "end_date"];
    var inherited := InheritDate(attrs, dagAttrs, dates[0]);
    if inherited.Ok? {
      inherited := InheritDate(inherited.value, dagAttrs, dates[1]);
    }
    if inherited.Err? {
      return Err(inherited.error);
    }
    attrs := inherited.value;
    var subdag := GetAttr(attrs, "subdag");
    if subdag.None? {
      return Err(AttributeError("subdag"));
    }
    var linked := LinkSubdag(attrs, subdag.value, dagAttrs);
    if linked.Err? {
      return Err(linked.error);
    }
    r := Ok(Task(task.id, task.op.(attrs := linked.value, dag := Some(dagAttrs))));
  }

  /** `for task_id in downstream_task_ids:
      dag.task_dict[task_id]._upstream_task_ids.add(...)`. */
  method AddUpstream(tasks: seq<Task>, ids: seq<Value>, cur: Value, intended: bool) returns (r: Result<seq<Task>>)
    ensures r == LinkUpstream(tasks, ids, cur, intended)
  {
    var ts := tasks;
    var k := 0;
    while k < |ids|
      invariant 0 <= k <= |ids|
      invariant LinkUpstream(tasks, ids, cur, intended) == LinkUpstream(ts, ids[k..], cur, intended)
    {
      LinkUpstreamFails(ts, ids, k, cur, intended);
      var taskId := ids[k];
      var j := FindTask(ts, taskId);
      if j.None? {
        return Err(KeyError("task_dict"));
      }
      var up := GetAttr(ts[j.value].op.attrs, "_upstream_task_ids");
      if up.None? {
        return Err(AttributeError("_upstream_task_ids"));
      }
      if !up.value.val.VSet? {
        return Err(AttributeError("add"));
      }
      var members := AddMember(up.value.val.members, if intended then cur else taskId);
      var op := ts[j.value].op;
      var ts' := ts[j.value := Task(ts[j.value].id, op.(attrs := SetAttr(op.attrs, "_upstream_task_ids", Slot(VSet(members), up.value.isDefault))))];
      LinkUpstreamStep(ts, ids, k, cur, intended, ts');
      ts := ts';
      k := k + 1;
    }
    r := Ok(ts);
  }

  /** The ways one turn of the upstream loop fails: a missing task, a task
      without an upstream set, or one whose upstream value is not a set. */
  lemma LinkUpstreamFails(ts: seq<Task>, ids: seq<Value>, k: nat, cur: Value, intended: bool)
    requires k < |ids|
    ensures FindTask(ts, ids[k]).None? ==> LinkUpstream(ts, ids[k..], cur, intended) == Err(KeyError("task_dict"))
    ensures FindTask(ts, ids[k]).Some? && GetAttr(ts[FindTask(ts, ids[k]).value].op.attrs, "_upstream_task_ids").None?
            ==> LinkUpstream(ts, ids[k..], cur, intended) == Err(AttributeError("_upstream_task_ids"))
    ensures FindTask(ts, ids[k]).Some? && GetAttr(ts[FindTask(ts, ids[k]).value].op.attrs, "_upstream_task_ids").Some?
            && !GetAttr(ts[FindTask(ts, ids[k]).value].op.attrs, "_upstream_task_ids").value.val.VSet?
            ==> LinkUpstream(ts, ids[k..], cur, intended) == Err(AttributeError("add"))
  {
    assert ids[k..][0] == ids[k];
  }

  /** One turn of the upstream loop: linking `ids[k]` and then the rest is
      linking from `ids[k]` on. */
  lemma LinkUpstreamStep(ts: seq<Task>, ids: seq<Value>, k: nat, cur: Value, intended: bool, ts': seq<Task>)
    requires k < |ids| && FindTask(ts, ids[k]).Some?
    requires var j := FindTask(ts, ids[k]).value;
             var up := GetAttr(ts[j].op.attrs, "_upstream_task_ids");
             up.Some? && up.value.val.VSet?
             && ts' == ts[j := Task(ts[j].id, ts[j].op.(attrs := SetAttr(ts[j].op.attrs, "_upstream_task_ids",
                          Slot(VSet(AddMember(up.value.val.members, if intended then cur else ids[k])), up.value.isDefault))))]
    ensures LinkUpstream(ts, ids[k..], cur, intended) == LinkUpstream(ts', ids[k + 1..], cur, intended)
  {
    assert ids[k..][0] == ids[k] && ids[k..][1..] == ids[k + 1..];
  }
}
