/** What `deserialize_operator` and `deserialize_dag` promise about the
    object they rebuild: every payload entry becomes the attribute of that
    name, every serialized field missing from the payload (and not a
    constructor parameter) is `None`, `tasks` becomes `task_dict` keyed by
    task id, and the plugin links are those registered for the payload's
    class. */
module DecodeLaws {
  import opened Wire
  import opened Values
  import opened Decode

  // -------------------------------------------------------------- null fill

  /** After the second loop a field is `None` iff it is serialized, absent
      from the payload and not a constructor parameter; every other
      attribute is untouched. */
  lemma {:induction false} NullFillSpec(attrs: seq<Attr>, fields: seq<string>, present: set<string>,
                                        params: set<string>, k: string)
    ensures GetAttr(NullFill(attrs, fields, present, params), k)
         == if k in fields && k !in present && k !in params then Some(Slot(NONE, false)) else GetAttr(attrs, k)
    decreases fields
  {
    if fields != [] {
      var k0 := fields[0];
      var next := if k0 !in present && k0 !in params then SetAttr(attrs, k0, Slot(NONE, false)) else attrs;
      NullFillSpec(next, fields[1..], present, params, k);
      assert k in fields <==> k == k0 || k in fields[1..];
    }
  }

  // ------------------------------------------------------- setattr loops

  /** Each payload entry is set as the attribute of its name, decoded as
      `DecodeOpField` says; other attributes are untouched. */
  lemma {:induction false} ApplyOpKeysSpec(ctx: Ctx, o: Operator, fs: seq<WField>, k: string)
    requires DistinctKeys(fs) && ApplyOpKeys(ctx, o, fs).Ok?
    ensures var r := ApplyOpKeys(ctx, o, fs).value;
            (k in Keys(fs) ==> (DecodeOpField(ctx, WField(k, Lookup(fs, k).value)).Ok?
                                && GetAttr(r.attrs, k) == Some(Slot(DecodeOpField(ctx, WField(k, Lookup(fs, k).value)).value, false))))
            && (k !in Keys(fs) ==> GetAttr(r.attrs, k) == GetAttr(o.attrs, k))
    decreases fs
  {
    if fs != [] {
      var v := DecodeOpField(ctx, fs[0]).value;
      var o' := o.(attrs := SetAttr(o.attrs, fs[0].key, Slot(v, false)));
      assert ApplyOpKeys(ctx, o, fs) == ApplyOpKeys(ctx, o', fs[1..]);
      ApplyOpKeysSpec(ctx, o', fs[1..], k);
      assert fs[0] == WField(fs[0].key, fs[0].val);
    }
  }

  /** The `setattr` loop fails iff one of the entries cannot be decoded. */
  lemma {:induction false} ApplyOpKeysOk(ctx: Ctx, o: Operator, fs: seq<WField>)
    ensures ApplyOpKeys(ctx, o, fs).Ok? <==> forall i :: 0 <= i < |fs| ==> DecodeOpField(ctx, fs[i]).Ok?
    decreases fs
  {
    if fs != [] && DecodeOpField(ctx, fs[0]).Ok? {
      var o' := o.(attrs := SetAttr(o.attrs, fs[0].key, Slot(DecodeOpField(ctx, fs[0]).value, false)));
      ApplyOpKeysOk(ctx, o', fs[1..]);
      assert forall i :: 1 <= i < |fs| ==> fs[i] == fs[1..][i - 1];
    }
  }

  /** `deserialize_operator` rebuilds a `SerializedBaseOperator` whose
      attributes are the decoded payload entries, `None` for every other
      serialized field that is not a constructor parameter, and the fresh
      instance's attributes otherwise. */
  lemma OperatorDecoded(ctx: Ctx, w: Wire, k: string)
    requires w.WObj? && DistinctKeys(w.fields) && OpFromPayload(ctx, w).Ok?
    ensures var o := OpFromPayload(ctx, w).value;
            var fs := w.fields;
            o.cls == SERIALIZED_OPERATOR && o.dag == None
            && "task_id" in Keys(fs)
            && PluginLinks([], ctx.plugins, fs) == Ok(o.extraLinks)
            && (k in Keys(fs) ==> (DecodeOpField(ctx, WField(k, Lookup(fs, k).value)).Ok?
                                   && GetAttr(o.attrs, k) == Some(Slot(DecodeOpField(ctx, WField(k, Lookup(fs, k).value)).value, false))))
            && (k !in Keys(fs) && k in ctx.opFields && k !in ctx.opParams ==> GetAttr(o.attrs, k) == Some(Slot(NONE, false)))
            && (k !in Keys(fs) && !(k in ctx.opFields && k !in ctx.opParams)
                ==> GetAttr(o.attrs, k) == GetAttr(OpShell(ctx, Raw(Lookup(fs, "task_id").value)), k))
  {
    var fs := w.fields;
    var id := Lookup(fs, "task_id").value;
    var links := PluginLinks([], ctx.plugins, fs).value;
    var shell := Operator(SERIALIZED_OPERATOR, OpShell(ctx, Raw(id)), None, links);
    var o := ApplyOpKeys(ctx, shell, fs).value;
    ApplyOpKeysSpec(ctx, shell, fs, k);
    NullFillSpec(o.attrs, ctx.opFields, Keys(fs), ctx.opParams, k);
  }

  /** Each payload entry other than `tasks` is set as the DAG attribute of
      its name; `tasks` replaces `task_dict`. */
  lemma {:induction false} ApplyDagKeysSpec(ctx: Ctx, d: Dag, fs: seq<WField>, k: string)
    requires DistinctKeys(fs) && ApplyDagKeys(ctx, d, fs).Ok?
    ensures var r := ApplyDagKeys(ctx, d, fs).value;
            (k in Keys(fs) && k != "tasks" ==> (DecodeDagField(ctx, WField(k, Lookup(fs, k).value)).Ok?
                                                && GetAttr(r.attrs, k) == Some(Slot(DecodeDagField(ctx, WField(k, Lookup(fs, k).value)).value, false))))
            && (k !in Keys(fs) || k == "tasks" ==> GetAttr(r.attrs, k) == GetAttr(d.attrs, k))
            && ("tasks" in Keys(fs) ==> DecodeTasks(ctx, Lookup(fs, "tasks").value) == Ok(r.taskDict))
            && ("tasks" !in Keys(fs) ==> r.taskDict == d.taskDict)
    decreases fs
  {
    if fs != [] {
      assert fs[0] == WField(fs[0].key, fs[0].val);
      if fs[0].key == "tasks" {
        var d' := d.(taskDict := DecodeTasksOf(ctx, fs[0]).value);
        assert ApplyDagKeys(ctx, d, fs) == ApplyDagKeys(ctx, d', fs[1..]);
        ApplyDagKeysSpec(ctx, d', fs[1..], k);
      } else {
        var d' := d.(attrs := SetAttr(d.attrs, fs[0].key, Slot(DecodeDagField(ctx, fs[0]).value, false)));
        assert ApplyDagKeys(ctx, d, fs) == ApplyDagKeys(ctx, d', fs[1..]);
        ApplyDagKeysSpec(ctx, d', fs[1..], k);
      }
    }
  }

  /** `deserialize_dag`: attributes from the payload, and `None` for the
      missing serialized fields that are not constructor parameters. */
  lemma DagDecoded(ctx: Ctx, w: Wire, d: Dag, k: string)
    requires w.WObj? && DistinctKeys(w.fields) && DagFromPayload(ctx, w) == Ok(d)
    requires k != "full_filepath"
    ensures var fs := w.fields;
            "_dag_id" in Keys(fs)
            && (k in Keys(fs) && k != "tasks" ==> (DecodeDagField(ctx, WField(k, Lookup(fs, k).value)).Ok?
                                                   && GetAttr(d.attrs, k) == Some(Slot(DecodeDagField(ctx, WField(k, Lookup(fs, k).value)).value, false))))
            && (k !in Keys(fs) && k in ctx.dagFields && k !in ctx.dagParams ==> GetAttr(d.attrs, k) == Some(Slot(NONE, false)))
  {
    var fs := w.fields;
    DagFromPayloadSteps(ctx, w);
    var id := Lookup(fs, "_dag_id").value;
    var shell := Dag(SetAttr(ctx.dagInit, "_dag_id", Slot(Raw(id), false)), [], None);
    var d0 := ApplyDagKeys(ctx, shell, fs).value;
    ApplyDagKeysSpec(ctx, shell, fs, k);
    NullFillSpec(d0.attrs, ctx.dagFields, Keys(fs), ctx.dagParams, k);
  }

  /** `deserialize_dag` sets `full_filepath` to `fileloc`, and `task_dict`
      holds one task per distinct id of `tasks`. */
  lemma DagFilepathAndTasks(ctx: Ctx, w: Wire, d: Dag)
    requires w.WObj? && DistinctKeys(w.fields) && DagFromPayload(ctx, w) == Ok(d)
    ensures GetAttr(d.attrs, "fileloc").Some?
    ensures GetAttr(d.attrs, "full_filepath") == Some(Slot(GetAttr(d.attrs, "fileloc").value.val, false))
    ensures "tasks" in Keys(w.fields) ==> (DecodeTasks(ctx, Lookup(w.fields, "tasks").value).Ok?
                                           && |d.taskDict| == |DecodeTasks(ctx, Lookup(w.fields, "tasks").value).value|)
    ensures "tasks" !in Keys(w.fields) ==> d.taskDict == []
  {
    var fs := w.fields;
    DagFromPayloadSteps(ctx, w);
    var id := Lookup(fs, "_dag_id").value;
    var shell := Dag(SetAttr(ctx.dagInit, "_dag_id", Slot(Raw(id), false)), [], None);
    ApplyDagKeysSpec(ctx, shell, fs, "tasks");
  }

  /** The steps of `deserialize_dag` a successful run went through. */
  lemma DagFromPayloadSteps(ctx: Ctx, w: Wire)
    requires w.WObj? && DagFromPayload(ctx, w).Ok?
    ensures Lookup(w.fields, "_dag_id").Some?
    ensures var shell := Dag(SetAttr(ctx.dagInit, "_dag_id", Slot(Raw(Lookup(w.fields, "_dag_id").value), false)), [], None);
            ApplyDagKeys(ctx, shell, w.fields).Ok?
            && var d0 := ApplyDagKeys(ctx, shell, w.fields).value;
               var attrs := NullFill(d0.attrs, ctx.dagFields, Keys(w.fields), ctx.dagParams);
               GetAttr(attrs, "fileloc").Some?
               && DagFromPayload(ctx, w)
                  == Repair(Dag(SetAttr(attrs, "full_filepath", Slot(GetAttr(attrs, "fileloc").value.val, false)),
                                d0.taskDict, d0.parentDag), false)
  {
  }

  // ------------------------------------------------------------- task_dict

  /** No two tasks have ids Python's `==` equates. */
  ghost predicate TaskIdsDistinct(ts: seq<Task>) {
    forall i, j :: 0 <= i < j < |ts| ==> Canon(ts[i].id) != Canon(ts[j].id)
  }

  lemma {:induction false} PutTaskShape(ts: seq<Task>, t: Task)
    ensures var r := PutTask(ts, t);
            |r| >= |ts| && (forall j :: 0 <= j < |ts| ==> r[j].id == ts[j].id)
            && (FindTask(ts, t.id).None? ==> r == ts + [t])
            && (FindTask(ts, t.id).Some? ==> |r| == |ts|)
  {
    if ts != [] && Canon(ts[0].id) != Canon(t.id) {
      PutTaskShape(ts[1..], t);
    }
  }

  /** A task found among the first `|ts|` ids is found at the same place in
      any list that keeps those ids. */
  lemma {:induction false} FindTaskPrefix(ts: seq<Task>, r: seq<Task>, id: Value)
    requires |ts| <= |r| && forall j :: 0 <= j < |ts| ==> r[j].id == ts[j].id
    requires FindTask(ts, id).Some?
    ensures FindTask(r, id) == FindTask(ts, id)
  {
    if Canon(ts[0].id) != Canon(id) {
      FindTaskPrefix(ts[1..], r[1..], id);
    }
  }

  /** `task_dict[id] = op` on distinct ids: they stay distinct, every id
      already present stays where it was, and only the entry under `id`
      changes. */
  lemma PutTaskKeeps(ts: seq<Task>, t: Task)
    requires TaskIdsDistinct(ts)
    ensures var r := PutTask(ts, t);
            TaskIdsDistinct(r) && FindTask(r, t.id).Some?
            && (forall id :: FindTask(ts, id).Some? ==> FindTask(r, id) == FindTask(ts, id))
            && forall j :: 0 <= j < |ts| && j != FindTask(r, t.id).value ==> r[j] == ts[j]
  {
    var r := PutTask(ts, t);
    PutTaskShape(ts, t);
    forall id | FindTask(ts, id).Some? ensures FindTask(r, id) == FindTask(ts, id) {
      FindTaskPrefix(ts, r, id);
    }
  }

  /** Every payload task decodes. */
  ghost predicate Decodes(ctx: Ctx, items: seq<Wire>) {
    forall i :: 0 <= i < |items| ==> DecodeTask(ctx, items[i]).Ok?
  }

  /** No payload task that decodes has an id equal to `id`. */
  ghost predicate Unclaimed(ctx: Ctx, items: seq<Wire>, id: Value) {
    forall i :: 0 <= i < |items| ==>
      DecodeTask(ctx, items[i]).Ok? ==> Canon(DecodeTask(ctx, items[i]).value.id) != Canon(id)
  }

  /** Building `task_dict` succeeds only if every payload task decodes. */
  lemma {:induction false} TaskListDecodes(ctx: Ctx, acc: seq<Task>, items: seq<Wire>)
    requires DecodeTaskList(ctx, acc, items).Ok?
    ensures Decodes(ctx, items)
    decreases items
  {
    if items != [] {
      DecodeTaskListStep(ctx, acc, items);
      var acc' := PutTask(acc, DecodeTask(ctx, items[0]).value);
      TaskListDecodes(ctx, acc', items[1..]);
      assert Decodes(ctx, items[1..]);
      forall i | 1 <= i < |items| ensures DecodeTask(ctx, items[i]).Ok? {
        assert items[i] == items[1..][i - 1];
      }
    }
  }

  /** Building `task_dict` over `acc`: the tasks of `acc` keep their ids and
      places, and a task of `acc` that no payload task claims is untouched. */
  lemma {:induction false} TaskListFrame(ctx: Ctx, acc: seq<Task>, items: seq<Wire>)
    requires DecodeTaskList(ctx, acc, items).Ok?
    ensures var ts := DecodeTaskList(ctx, acc, items).value;
            |acc| <= |ts|
            && (forall p :: 0 <= p < |acc| ==> ts[p].id == acc[p].id)
            && (forall p :: 0 <= p < |acc| && Unclaimed(ctx, items, acc[p].id) ==> ts[p] == acc[p])
    decreases items
  {
    if items != [] {
      DecodeTaskListStep(ctx, acc, items);
      var t := DecodeTask(ctx, items[0]).value;
      var acc' := PutTask(acc, t);
      PutTaskShape(acc, t);
      TaskListFrame(ctx, acc', items[1..]);
      var ts := DecodeTaskList(ctx, acc', items[1..]).value;
      forall p | 0 <= p < |acc| && Unclaimed(ctx, items, acc[p].id)
        ensures ts[p] == acc[p]
      {
        assert DecodeTask(ctx, items[0]).Ok?;
        forall i | 0 <= i < |items[1..]| && DecodeTask(ctx, items[1..][i]).Ok?
          ensures Canon(DecodeTask(ctx, items[1..][i]).value.id) != Canon(acc'[p].id)
        {
          assert items[1..][i] == items[i + 1];
        }
      }
    }
  }

  /** Every task past `acc` carries the id of a payload task: `task_dict`
      holds no other tasks. */
  lemma {:induction false} TaskListNoStrays(ctx: Ctx, acc: seq<Task>, items: seq<Wire>)
    requires DecodeTaskList(ctx, acc, items).Ok?
    ensures Decodes(ctx, items)
    ensures var ts := DecodeTaskList(ctx, acc, items).value;
            forall p :: |acc| <= p < |ts| ==>
              exists i :: 0 <= i < |items| && Canon(ts[p].id) == Canon(DecodeTask(ctx, items[i]).value.id)
    decreases items
  {
    TaskListDecodes(ctx, acc, items);
    if items != [] {
      DecodeTaskListStep(ctx, acc, items);
      var t := DecodeTask(ctx, items[0]).value;
      var acc' := PutTask(acc, t);
      PutTaskShape(acc, t);
      TaskListNoStrays(ctx, acc', items[1..]);
      TaskListFrame(ctx, acc', items[1..]);
      var ts := DecodeTaskList(ctx, acc', items[1..]).value;
      forall p | |acc| <= p < |ts|
        ensures exists i :: 0 <= i < |items| && Canon(ts[p].id) == Canon(DecodeTask(ctx, items[i]).value.id)
      {
        if p < |acc'| {
          assert ts[p].id == t.id;
          assert Canon(ts[p].id) == Canon(DecodeTask(ctx, items[0]).value.id);
        } else {
          var i :| 0 <= i < |items[1..]| && Canon(ts[p].id) == Canon(DecodeTask(ctx, items[1..][i]).value.id);
          assert items[1..][i] == items[i + 1];
        }
      }
    }
  }

  /** `{task["task_id"]: ... for task in v}`: every task of the payload is
      found under its id, ids are distinct, and earlier entries keep their
      place. */
  lemma {:induction false} TaskListKeyed(ctx: Ctx, acc: seq<Task>, items: seq<Wire>)
    requires TaskIdsDistinct(acc) && DecodeTaskList(ctx, acc, items).Ok?
    ensures var ts := DecodeTaskList(ctx, acc, items).value;
            TaskIdsDistinct(ts) && |ts| <= |acc| + |items|
            && (forall id :: FindTask(acc, id).Some? ==> FindTask(ts, id) == FindTask(acc, id))
            && forall i :: 0 <= i < |items| ==>
                 items[i].WObj? && Lookup(items[i].fields, "task_id").Some?
                 && FindTask(ts, Raw(Lookup(items[i].fields, "task_id").value)).Some?
    decreases items
  {
    if items != [] {
      DecodeTaskListStep(ctx, acc, items);
      var t := DecodeTask(ctx, items[0]).value;
      var acc' := PutTask(acc, t);
      PutTaskKeeps(acc, t);
      PutTaskShape(acc, t);
      TaskListKeyed(ctx, acc', items[1..]);
      var ts := DecodeTaskList(ctx, acc', items[1..]).value;
      forall i | 0 <= i < |items|
        ensures items[i].WObj? && Lookup(items[i].fields, "task_id").Some?
             && FindTask(ts, Raw(Lookup(items[i].fields, "task_id").value)).Some?
      {
        if i > 0 {
          assert items[i] == items[1..][i - 1];
        }
      }
    }
  }

  /** The value `task_dict` keeps under a payload id is the operator of the
      last payload task with that id. */
  lemma {:induction false} TaskListLastWins(ctx: Ctx, acc: seq<Task>, items: seq<Wire>)
    requires TaskIdsDistinct(acc) && DecodeTaskList(ctx, acc, items).Ok?
    ensures Decodes(ctx, items)
    ensures var ts := DecodeTaskList(ctx, acc, items).value;
            forall i :: 0 <= i < |items| && Unclaimed(ctx, items[i + 1..], DecodeTask(ctx, items[i]).value.id) ==>
              FindTask(ts, DecodeTask(ctx, items[i]).value.id).Some?
              && ts[FindTask(ts, DecodeTask(ctx, items[i]).value.id).value].op == DecodeTask(ctx, items[i]).value.op
    decreases items
  {
    TaskListDecodes(ctx, acc, items);
    if items != [] {
      DecodeTaskListStep(ctx, acc, items);
      var t := DecodeTask(ctx, items[0]).value;
      var acc' := PutTask(acc, t);
      PutTaskKeeps(acc, t);
      TaskListLastWins(ctx, acc', items[1..]);
      TaskListKeyed(ctx, acc', items[1..]);
      TaskListFrame(ctx, acc', items[1..]);
      var ts := DecodeTaskList(ctx, acc', items[1..]).value;
      forall i | 0 <= i < |items| && Unclaimed(ctx, items[i + 1..], DecodeTask(ctx, items[i]).value.id)
        ensures FindTask(ts, DecodeTask(ctx, items[i]).value.id).Some?
             && ts[FindTask(ts, DecodeTask(ctx, items[i]).value.id).value].op == DecodeTask(ctx, items[i]).value.op
      {
        if i > 0 {
          assert items[i] == items[1..][i - 1];
          assert items[i + 1..] == items[1..][i - 1 + 1..];
        } else {
          var f := FindTask(acc', t.id).value;
          assert items[1..] == items[i + 1..];
          assert Unclaimed(ctx, items[1..], acc'[f].id);
        }
      }
    }
  }

  lemma DecodeTaskListStep(ctx: Ctx, acc: seq<Task>, items: seq<Wire>)
    requires items != [] && DecodeTaskList(ctx, acc, items).Ok?
    ensures DecodeTask(ctx, items[0]).Ok?
    ensures DecodeTaskList(ctx, acc, items) == DecodeTaskList(ctx, PutTask(acc, DecodeTask(ctx, items[0]).value), items[1..])
  {
  }

  // ----------------------------------------------------------- plugin links

  /** The links registered for the payload's class: a link is attached iff
      one of its operator classes has the payload's `_task_type` and
      `_task_module`. */
  lemma {:induction false} MatchOperatorsSpec(acc: seq<ExtraLink>, p: ExtraLink, ops: seq<OpClass>, fs: seq<WField>)
    requires Lookup(fs, "_task_type").Some? && Lookup(fs, "_task_module").Some?
    ensures MatchOperators(acc, p, ops, fs)
         == Ok(if exists i :: 0 <= i < |ops| && ClassMatches(ops[i], fs) then PutLink(acc, p) else acc)
    decreases ops
  {
    if ops != [] {
      var hit := ClassMatches(ops[0], fs);
      var acc' := if hit then PutLink(acc, p) else acc;
      MatchOperatorsSpec(acc', p, ops[1..], fs);
      assert forall i :: 1 <= i < |ops| ==> ops[i] == ops[1..][i - 1];
      if hit {
        PutLinkTwice(acc, p);
      }
    }
  }

  /** The operator class the payload names. */
  predicate ClassMatches(c: OpClass, fs: seq<WField>) {
    Lookup(fs, "_task_type") == Some(WStr(c.name)) && Lookup(fs, "_task_module") == Some(WStr(c.moduleName))
  }

  lemma {:induction false} PutLinkTwice(ls: seq<ExtraLink>, p: ExtraLink)
    ensures PutLink(PutLink(ls, p), p) == PutLink(ls, p)
  {
    if ls != [] && ls[0].name != p.name {
      PutLinkTwice(ls[1..], p);
    }
  }

  /** Without `_task_type` in a payload, any registered link class makes
      `deserialize_operator` fail with `KeyError`. */
  lemma MissingTaskTypeFails(acc: seq<ExtraLink>, p: ExtraLink, ops: seq<OpClass>, fs: seq<WField>)
    requires ops != [] && "_task_type" !in Keys(fs)
    ensures MatchOperators(acc, p, ops, fs) == Err(KeyError("_task_type"))
  {
  }
}
