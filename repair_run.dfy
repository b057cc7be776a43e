/** The repair pass of `deserialize_dag` as a run of its loop: the task
    lists it goes through, one turn at a time, and what the whole pass
    promises about the DAG it returns. */
module RepairRun {
  import opened Wire
  import opened Values
  import opened Decode
  import opened RepairLaws
  import DecodeLaws

  /** `ts1` is `ts` after the turn at position `i`, taken as one fact: the
      lemmas below pass it on without opening it. */
  ghost predicate Step(dagAttrs: seq<Attr>, ts: seq<Task>, i: nat, intended: bool, ts1: seq<Task>) {
    TurnEffect(dagAttrs, ts, i, intended, ts1)
  }

  /** `s` is a trace of the loop from position `i` on: `s[m]` is the task
      list before the turn at position `m` (the entries before `i` are of no
      interest). From `i = 0` it is a run of the whole loop over `s[0]`. */
  ghost predicate Trace(dagAttrs: seq<Attr>, intended: bool, s: seq<seq<Task>>, i: nat) {
    TurnsFrom(dagAttrs, intended, s, i)
  }

  /** `s` is the run of the loop over `ts` from position `i` on, ending
      with `r`, taken as one fact. */
  ghost predicate Runs(dagAttrs: seq<Attr>, intended: bool, ts: seq<Task>, i: nat, r: seq<Task>, s: seq<seq<Task>>) {
    RunFrom(dagAttrs, intended, ts, i, r, s)
  }

  /** The loop from position `i` on, as a run. */
  lemma {:induction false} RepairFromTrace(dagAttrs: seq<Attr>, ts: seq<Task>, i: nat, intended: bool, r: seq<Task>)
    returns (s: seq<seq<Task>>)
    requires i <= |ts| && RepairFrom(dagAttrs, ts, i, intended) == Ok(r)
    ensures Runs(dagAttrs, intended, ts, i, r, s)
    decreases |ts| - i, 1
  {
    if i == |ts| {
      s := seq(|ts| + 1, _ => ts);
    } else {
      var ts1, rest := RepairFromTurn(dagAttrs, ts, i, intended, r);
      s := TraceExtends(dagAttrs, intended, ts, i, ts1, r, rest);
    }
  }

  /** The first turn of the loop from position `i`, and the run of the loop
      after it. */
  lemma {:induction false} RepairFromTurn(dagAttrs: seq<Attr>, ts: seq<Task>, i: nat, intended: bool, r: seq<Task>)
    returns (ts1: seq<Task>, rest: seq<seq<Task>>)
    requires i < |ts| && RepairFrom(dagAttrs, ts, i, intended) == Ok(r)
    ensures Step(dagAttrs, ts, i, intended, ts1) && Runs(dagAttrs, intended, ts1, i + 1, r, rest)
    decreases |ts| - i, 0
  {
    ts1 := RepairFromOnce(dagAttrs, ts, i, intended, r);
    rest := RepairFromTrace(dagAttrs, ts1, i + 1, intended, r);
  }

  /** The turn at position `i` of the loop that returns `r`, and the loop
      that still returns `r` after it. */
  lemma RepairFromOnce(dagAttrs: seq<Attr>, ts: seq<Task>, i: nat, intended: bool, r: seq<Task>)
    returns (ts1: seq<Task>)
    requires i < |ts| && RepairFrom(dagAttrs, ts, i, intended) == Ok(r)
    ensures Step(dagAttrs, ts, i, intended, ts1) && i + 1 <= |ts1|
    ensures RepairFrom(dagAttrs, ts1, i + 1, intended) == Ok(r)
  {
    ts1 := RepairTask(dagAttrs, ts, i, intended).value;
    RepairTaskLaws(dagAttrs, ts, i, intended, ts1);
  }

  /** A turn at `i` followed by a run from `i + 1` is a run from `i`. */
  lemma TraceExtends(dagAttrs: seq<Attr>, intended: bool, ts: seq<Task>, i: nat, ts1: seq<Task>, r: seq<Task>,
                     rest: seq<seq<Task>>)
    returns (s: seq<seq<Task>>)
    requires i < |ts| && Step(dagAttrs, ts, i, intended, ts1) && Runs(dagAttrs, intended, ts1, i + 1, r, rest)
    ensures Runs(dagAttrs, intended, ts, i, r, s)
  {
    s := rest[i := ts];
    forall m | i <= m < |s| ensures |s[m]| == |s| - 1 {
      if m > i {
        assert s[m] == rest[m];
      }
    }
    forall m | i <= m < |s| - 1 ensures Step(dagAttrs, s[m], m, intended, s[m + 1]) {
      assert s[m + 1] == rest[m + 1];
      if m > i {
        assert s[m] == rest[m];
        assert Step(dagAttrs, rest[m], m, intended, rest[m + 1]);
      }
    }
  }

  /** The pass, seen as a run from the DAG's task list to the repaired one. */
  lemma RepairRun(d: Dag, intended: bool, d': Dag) returns (s: seq<seq<Task>>)
    requires Repair(d, intended) == Ok(d')
    ensures Trace(d.attrs, intended, s, 0) && s[0] == d.taskDict && s[|s| - 1] == d'.taskDict
  {
    RepairUnfold(d, intended, d');
    s := RepairFromTrace(d.attrs, d.taskDict, 0, intended, d'.taskDict);
  }

  /** Along a run ids stay where they are and upstream sets only grow. */
  lemma {:induction false} RunKeeps(dagAttrs: seq<Attr>, intended: bool, s: seq<seq<Task>>, j: nat, m1: nat, m2: nat)
    requires Trace(dagAttrs, intended, s, 0) && m1 <= m2 < |s| && j < |s[0]|
    ensures s[m2][j].id == s[m1][j].id && UpSet(s[m1][j]) <= UpSet(s[m2][j])
    decreases m2
  {
    if m1 < m2 {
      RunKeeps(dagAttrs, intended, s, j, m1, m2 - 1);
      assert Step(dagAttrs, s[m2 - 1], m2 - 1, intended, s[m2]);
    }
  }

  /** Along a run no task moves: `task_dict` lookups give the same answer. */
  lemma RunFinds(dagAttrs: seq<Attr>, intended: bool, s: seq<seq<Task>>, m: nat, x: Value)
    requires Trace(dagAttrs, intended, s, 0) && m < |s|
    ensures FindTask(s[m], x) == FindTask(s[0], x)
  {
    forall j | 0 <= j < |s[0]| ensures s[m][j].id == s[0][j].id {
      RunKeeps(dagAttrs, intended, s, j, 0, m);
    }
    FindTaskSameIds(s[m], s[0], x);
  }

  /** The turns at positions `m1` to `m2 - 1` change the task at `j`, which
      is not among them, only in its upstream set. */
  lemma {:induction false} RunUntouched(dagAttrs: seq<Attr>, intended: bool, s: seq<seq<Task>>, j: nat, m1: nat, m2: nat)
    requires Trace(dagAttrs, intended, s, 0) && m1 <= m2 < |s| && j < |s[0]| && (j < m1 || m2 <= j)
    ensures SameButUp(s[m2][j], s[m1][j])
    decreases m2
  {
    if m1 < m2 {
      RunUntouched(dagAttrs, intended, s, j, m1, m2 - 1);
      assert Step(dagAttrs, s[m2 - 1], m2 - 1, intended, s[m2]);
      SameButUpTrans(s[m2][j], s[m2 - 1][j], s[m1][j]);
    }
  }

  /** After a run every task keeps its id and is repaired. */
  lemma RunRepairs(dagAttrs: seq<Attr>, intended: bool, s: seq<seq<Task>>, j: nat)
    requires Trace(dagAttrs, intended, s, 0) && j < |s[0]|
    ensures s[|s| - 1][j].id == s[0][j].id
    ensures Repaired(s[0][j], s[|s| - 1][j], dagAttrs)
  {
    var n := |s| - 1;
    RunKeeps(dagAttrs, intended, s, j, 0, n);
    RunUntouched(dagAttrs, intended, s, j, 0, j);
    assert Step(dagAttrs, s[j], j, intended, s[j + 1]);
    RunUntouched(dagAttrs, intended, s, j, j + 1, n);
    SameThenRepaired(s[0][j], s[j][j], s[j + 1][j], dagAttrs);
    RepairedThenSame(s[0][j], s[j + 1][j], s[n][j], dagAttrs);
  }

  /** After a run every downstream edge of every task is mirrored: its
      target exists and its upstream set holds the id the inner loop adds. */
  lemma RunMirrors(dagAttrs: seq<Attr>, intended: bool, s: seq<seq<Task>>, j: nat, k: nat)
    requires Trace(dagAttrs, intended, s, 0) && j < |s[0]| && k < |Downstream(s[0][j])|
    ensures Mirrored(s[0], s[|s| - 1], Downstream(s[0][j])[k], Added(s[0][j], k, intended))
  {
    var x := Downstream(s[0][j])[k];
    var src := Added(s[0][j], k, intended);
    RunTurnMirrors(dagAttrs, intended, s, j, k);
    var b := FindTask(s[0], x).value;
    assert Canon(src) in UpSet(s[j + 1][b]);
    RunKeeps(dagAttrs, intended, s, b, j + 1, |s| - 1);
  }

  /** The turn at position `j` mirrors the downstream edges of the task at `j`. */
  lemma RunTurnMirrors(dagAttrs: seq<Attr>, intended: bool, s: seq<seq<Task>>, j: nat, k: nat)
    requires Trace(dagAttrs, intended, s, 0) && j < |s[0]| && k < |Downstream(s[0][j])|
    ensures Mirrored(s[0], s[j + 1], Downstream(s[0][j])[k], Added(s[0][j], k, intended))
  {
    var x := Downstream(s[0][j])[k];
    RunUntouched(dagAttrs, intended, s, j, 0, j);
    assert GetAttr(s[j][j].op.attrs, DOWN) == GetAttr(s[0][j].op.attrs, DOWN);
    assert Downstream(s[j][j]) == Downstream(s[0][j]) && Added(s[j][j], k, intended) == Added(s[0][j], k, intended);
    assert Step(dagAttrs, s[j], j, intended, s[j + 1]);
    RunFinds(dagAttrs, intended, s, j, x);
  }

  // -------------------------------------------------------- the whole pass

  lemma RepairUnfold(d: Dag, intended: bool, d': Dag)
    requires Repair(d, intended) == Ok(d')
    ensures RepairFrom(d.attrs, d.taskDict, 0, intended) == Ok(d'.taskDict)
  {
  }

  /** After the pass every task points back at the DAG, has its dates
      inherited and its sub-DAG linked, keeps its id, and every id in a
      downstream set names a task (otherwise `task_dict[d]` raises). */
  lemma RepairedDag(d: Dag, intended: bool, d': Dag)
    requires Repair(d, intended) == Ok(d')
    ensures SameIds(d'.taskDict, d.taskDict)
    ensures forall j :: 0 <= j < |d.taskDict| ==> Repaired(d.taskDict[j], d'.taskDict[j], d.attrs)
    ensures forall j, k :: 0 <= j < |d.taskDict| && 0 <= k < |Downstream(d.taskDict[j])| ==>
              FindTask(d'.taskDict, Downstream(d.taskDict[j])[k]).Some?
  {
    var s := RepairRun(d, intended, d');
    forall j | 0 <= j < |d.taskDict|
      ensures d'.taskDict[j].id == d.taskDict[j].id && Repaired(d.taskDict[j], d'.taskDict[j], d.attrs)
    {
      RunRepairs(d.attrs, intended, s, j);
    }
    forall j, k | 0 <= j < |d.taskDict| && 0 <= k < |Downstream(d.taskDict[j])|
      ensures FindTask(d'.taskDict, Downstream(d.taskDict[j])[k]).Some?
    {
      RunMirrors(d.attrs, intended, s, j, k);
      RunFinds(d.attrs, intended, s, |s| - 1, Downstream(d.taskDict[j])[k]);
    }
  }

  /** The intended behaviour: if `b` is downstream of `a`, then after the
      pass `a` is upstream of `b`. */
  lemma UpstreamMirrorsDownstream(d: Dag, d': Dag, a: nat, k: nat)
    requires Repair(d, true) == Ok(d')
    requires a < |d.taskDict| && k < |Downstream(d.taskDict[a])|
    ensures var b := FindTask(d'.taskDict, Downstream(d.taskDict[a])[k]);
            b.Some? && Canon(d.taskDict[a].id) in UpSet(d'.taskDict[b.value])
  {
    var s := RepairRun(d, true, d');
    RunMirrors(d.attrs, true, s, a, k);
    RunFinds(d.attrs, true, s, |s| - 1, Downstream(d.taskDict[a])[k]);
  }

  /** The loop as written: if `b` is downstream of any task, then after the
      pass `b` lists itself as upstream. */
  lemma UpstreamAsWrittenSelfLoop(d: Dag, d': Dag, a: nat, k: nat)
    requires Repair(d, false) == Ok(d')
    requires a < |d.taskDict| && k < |Downstream(d.taskDict[a])|
    ensures var b := FindTask(d'.taskDict, Downstream(d.taskDict[a])[k]);
            b.Some? && Canon(d'.taskDict[b.value].id) in UpSet(d'.taskDict[b.value])
  {
    var s := RepairRun(d, false, d');
    var x := Downstream(d.taskDict[a])[k];
    RunMirrors(d.attrs, false, s, a, k);
    RunFinds(d.attrs, false, s, |s| - 1, x);
    var b := FindTask(d.taskDict, x).value;
    RunKeeps(d.attrs, false, s, b, 0, |s| - 1);
  }

  /** A downstream id that names no task makes the pass fail. */
  lemma MissingDownstreamFails(d: Dag, intended: bool, a: nat, k: nat)
    requires a < |d.taskDict| && k < |Downstream(d.taskDict[a])|
    requires FindTask(d.taskDict, Downstream(d.taskDict[a])[k]).None?
    ensures Repair(d, intended).Err?
  {
    if Repair(d, intended).Ok? {
      var s := RepairRun(d, intended, Repair(d, intended).value);
      RunMirrors(d.attrs, intended, s, a, k);
      assert false;
    }
  }

  /** The DAG `deserialize_dag` returns: every task points back at it, a
      task date is `None` only where the DAG's is, and every downstream id
      of a task names a task that, as the loop is written, lists itself as
      upstream. */
  lemma DecodedDagConsistent(ctx: Ctx, w: Wire, d: Dag, a: nat)
    requires w.WObj? && DagFromPayload(ctx, w) == Ok(d) && a < |d.taskDict|
    ensures d.taskDict[a].op.dag == Some(d.attrs)
    ensures AttrValue(d.taskDict[a].op.attrs, "start_date") == NONE ==> AttrValue(d.attrs, "start_date") == NONE
    ensures AttrValue(d.taskDict[a].op.attrs, "end_date") == NONE ==> AttrValue(d.attrs, "end_date") == NONE
    ensures forall k :: 0 <= k < |Downstream(d.taskDict[a])| ==>
              FindTask(d.taskDict, Downstream(d.taskDict[a])[k]).Some?
              && var b := FindTask(d.taskDict, Downstream(d.taskDict[a])[k]).value;
                 Canon(d.taskDict[b].id) in UpSet(d.taskDict[b])
  {
    var d0 := RepairInput(ctx, w);
    RepairInputRepairs(ctx, w, d);
    var s := RepairRun(d0, false, d);
    DecodedTaskRepaired(d0, d, s, a);
    DecodedEdgesSelfLoop(d0, d, s, a);
  }

  /** After the repair pass a task points back at the DAG and has its
      dates filled from it. */
  lemma DecodedTaskRepaired(d0: Dag, d: Dag, s: seq<seq<Task>>, a: nat)
    requires Trace(d0.attrs, false, s, 0) && s[0] == d0.taskDict && s[|s| - 1] == d.taskDict
    requires d.attrs == d0.attrs && a < |d.taskDict|
    ensures d.taskDict[a].op.dag == Some(d.attrs)
    ensures AttrValue(d.taskDict[a].op.attrs, "start_date") == NONE ==> AttrValue(d.attrs, "start_date") == NONE
    ensures AttrValue(d.taskDict[a].op.attrs, "end_date") == NONE ==> AttrValue(d.attrs, "end_date") == NONE
  {
    RunRepairs(d0.attrs, false, s, a);
  }

  /** After the repair pass as written, every downstream id of a task names
      a task whose upstream set holds that task's own id. */
  lemma DecodedEdgesSelfLoop(d0: Dag, d: Dag, s: seq<seq<Task>>, a: nat)
    requires Trace(d0.attrs, false, s, 0) && s[0] == d0.taskDict && s[|s| - 1] == d.taskDict
    requires a < |d.taskDict|
    ensures forall k :: 0 <= k < |Downstream(d.taskDict[a])| ==>
              FindTask(d.taskDict, Downstream(d.taskDict[a])[k]).Some?
              && var b := FindTask(d.taskDict, Downstream(d.taskDict[a])[k]).value;
                 Canon(d.taskDict[b].id) in UpSet(d.taskDict[b])
  {
    RunRepairs(d0.attrs, false, s, a);
    assert GetAttr(d.taskDict[a].op.attrs, DOWN) == GetAttr(d0.taskDict[a].op.attrs, DOWN);
    assert Downstream(d.taskDict[a]) == Downstream(d0.taskDict[a]);
    forall k | 0 <= k < |Downstream(d.taskDict[a])|
      ensures FindTask(d.taskDict, Downstream(d.taskDict[a])[k]).Some?
              && var b := FindTask(d.taskDict, Downstream(d.taskDict[a])[k]).value;
                 Canon(d.taskDict[b].id) in UpSet(d.taskDict[b])
    {
      RunMirrors(d0.attrs, false, s, a, k);
      RunFinds(d0.attrs, false, s, |s| - 1, Downstream(d0.taskDict[a])[k]);
    }
  }

  /** The repair pass of `deserialize_dag` turns `RepairInput` into the
      decoded DAG. */
  lemma RepairInputRepairs(ctx: Ctx, w: Wire, d: Dag)
    requires w.WObj? && DagFromPayload(ctx, w) == Ok(d)
    ensures Repair(RepairInput(ctx, w), false) == Ok(d)
  {
    DecodeLaws.DagFromPayloadSteps(ctx, w);
  }

  /** The DAG `deserialize_dag` hands to the repair pass (the empty DAG when
      decoding fails before it). */
  ghost function RepairInput(ctx: Ctx, w: Wire): Dag
  {
    if !w.WObj? || Lookup(w.fields, "_dag_id").None? then Dag([], [], None)
    else
      var shell := Dag(SetAttr(ctx.dagInit, "_dag_id", Slot(Raw(Lookup(w.fields, "_dag_id").value), false)), [], None);
      var r := ApplyDagKeys(ctx, shell, w.fields);
      if r.Err? then Dag([], [], None)
      else
        var d0 := r.value;
        var attrs := NullFill(d0.attrs, ctx.dagFields, Keys(w.fields), ctx.dagParams);
        if GetAttr(attrs, "fileloc").Some? then
          Dag(SetAttr(attrs, "full_filepath", Slot(GetAttr(attrs, "fileloc").value.val, false)), d0.taskDict, d0.parentDag)
        else d0
  }
}
