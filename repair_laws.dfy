/** What the repair pass of `deserialize_dag` promises. Every task points
    back at the DAG and takes the DAG's dates where its own are `None`. A
    sub-DAG learns its parent. Every downstream edge is mirrored in an
    upstream set: as written, the set of the downstream task gains that
    task's own id; as intended, it gains the id of the task the edge leaves. */
module RepairLaws {
  import opened Wire
  import opened Values
  import opened Decode
  import DecodeLaws

  const UP := "_upstream_task_ids"
  const DOWN := "_downstream_task_ids"

  /** The members of a task's upstream set, as Python's `==` sees them. */
  function UpSet(t: Task): set<Value> {
    match GetAttr(t.op.attrs, UP)
    case Some(s) => if s.val.VSet? then CanonSet(s.val.members) else {}
    case None => {}
  }

  /** The ids the repair loop reads from a task's downstream set. */
  function Downstream(t: Task): seq<Value> {
    match GetAttr(t.op.attrs, DOWN)
    case Some(s) => (match Iterate(s.val) case Ok(xs) => xs case Err(_) => [])
    case None => []
  }

  /** A task's date after the repair: its own, or the DAG's when its own is `None`. */
  function Inherited(attrs: seq<Attr>, dagAttrs: seq<Attr>, name: string): Value {
    if AttrValue(attrs, name) == NONE then AttrValue(dagAttrs, name) else AttrValue(attrs, name)
  }

  /** Two versions of a task that differ at most in the upstream set. */
  ghost predicate SameButUp(a: Task, b: Task) {
    a.id == b.id && a.op.cls == b.op.cls && a.op.dag == b.op.dag && a.op.extraLinks == b.op.extraLinks
    && forall n :: n != UP ==> GetAttr(a.op.attrs, n) == GetAttr(b.op.attrs, n)
  }

  ghost predicate SameIds(a: seq<Task>, b: seq<Task>) {
    |a| == |b| && forall j :: 0 <= j < |a| ==> a[j].id == b[j].id
  }

  /** `sd` after `subdag.parent_dag = dag` and `subdag.is_subdag = True`. */
  ghost predicate LinkedTo(sd: Dag, linked: Dag, dagAttrs: seq<Attr>) {
    linked.parentDag == Some(dagAttrs) && linked.taskDict == sd.taskDict
    && AttrValue(linked.attrs, "is_subdag") == VPrim(PBool(true))
    && forall n :: n != "is_subdag" ==> GetAttr(linked.attrs, n) == GetAttr(sd.attrs, n)
  }

  /** The loop body's effect on the task it visits, the upstream set aside. */
  ghost predicate Repaired(before: Task, after: Task, dagAttrs: seq<Attr>) {
    after.id == before.id && after.op.cls == before.op.cls && after.op.extraLinks == before.op.extraLinks
    && after.op.dag == Some(dagAttrs)
    && AttrsRepaired(before.op.attrs, after.op.attrs, dagAttrs)
  }

  /** The attributes of a task after the repair: dates inherited, sub-DAG
      linked, the others (but the upstream set) untouched. */
  ghost predicate AttrsRepaired(before: seq<Attr>, after: seq<Attr>, dagAttrs: seq<Attr>) {
    AttrValue(after, "start_date") == Inherited(before, dagAttrs, "start_date")
    && AttrValue(after, "end_date") == Inherited(before, dagAttrs, "end_date")
    && (AttrValue(before, "subdag") == NONE ==> AttrValue(after, "subdag") == NONE)
    && (AttrValue(before, "subdag").VDag? ==>
          AttrValue(after, "subdag").VDag?
          && LinkedTo(AttrValue(before, "subdag").dag, AttrValue(after, "subdag").dag, dagAttrs))
    && forall n :: n != UP && n != "start_date" && n != "end_date" && n != "subdag" ==>
         GetAttr(after, n) == GetAttr(before, n)
  }

  lemma {:induction false} FindTaskSameIds(a: seq<Task>, b: seq<Task>, id: Value)
    requires SameIds(a, b)
    ensures FindTask(a, id) == FindTask(b, id)
  {
    if a != [] && Canon(a[0].id) != Canon(id) {
      FindTaskSameIds(a[1..], b[1..], id);
    }
  }

  // ------------------------------------------------------------ the steps

  /** `task_dict[d]._upstream_task_ids.add(...)` for every `d` in `ids`:
      only upstream sets change, they only grow, and each target gains the
      id `LinkUpstream` adds. */
  lemma {:induction false} LinkUpstreamLaws(ts: seq<Task>, ids: seq<Value>, cur: Value, intended: bool, r: seq<Task>)
    requires LinkUpstream(ts, ids, cur, intended) == Ok(r)
    ensures SameIds(r, ts)
    ensures forall j :: 0 <= j < |ts| ==> SameButUp(r[j], ts[j]) && UpSet(ts[j]) <= UpSet(r[j])
    ensures forall k :: 0 <= k < |ids| ==>
              FindTask(ts, ids[k]).Some?
              && Canon(if intended then cur else ids[k]) in UpSet(r[FindTask(ts, ids[k]).value])
    decreases ids
  {
    if ids != [] {
      var ts1 := LinkUpstreamNext(ts, ids, cur, intended, r);
      LinkUpstreamLaws(ts1, ids[1..], cur, intended, r);
      forall j | 0 <= j < |ts| ensures SameButUp(r[j], ts[j]) {
        SameButUpTrans(r[j], ts1[j], ts[j]);
      }
      forall k | 0 <= k < |ids|
        ensures FindTask(ts, ids[k]).Some? && Canon(if intended then cur else ids[k]) in UpSet(r[FindTask(ts, ids[k]).value])
      {
        if k > 0 {
          assert ids[k] == ids[1..][k - 1];
          FindTaskSameIds(ts1, ts, ids[k]);
        }
      }
    }
  }

  /** One turn of the inner loop, and the rest of it. */
  lemma LinkUpstreamNext(ts: seq<Task>, ids: seq<Value>, cur: Value, intended: bool, r: seq<Task>) returns (ts1: seq<Task>)
    requires ids != [] && LinkUpstream(ts, ids, cur, intended) == Ok(r)
    ensures LinkUpstream(ts1, ids[1..], cur, intended) == Ok(r)
    ensures SameIds(ts1, ts)
    ensures forall j :: 0 <= j < |ts| ==> SameButUp(ts1[j], ts[j]) && UpSet(ts[j]) <= UpSet(ts1[j])
    ensures FindTask(ts, ids[0]).Some?
            && Canon(if intended then cur else ids[0]) in UpSet(ts1[FindTask(ts, ids[0]).value])
  {
    LinkUpstreamHead(ts, ids, cur, intended);
    var j := FindTask(ts, ids[0]).value;
    ts1 := AddUpstream(ts, j, if intended then cur else ids[0]);
    AddUpstreamLaws(ts, j, if intended then cur else ids[0]);
  }

  /** `task_dict[j]._upstream_task_ids.add(x)`. */
  ghost function AddUpstream(ts: seq<Task>, j: nat, x: Value): seq<Task>
    requires j < |ts| && GetAttr(ts[j].op.attrs, UP).Some? && GetAttr(ts[j].op.attrs, UP).value.val.VSet?
  {
    var up := GetAttr(ts[j].op.attrs, UP).value;
    ts[j := Task(ts[j].id, ts[j].op.(attrs := SetAttr(ts[j].op.attrs, UP, Slot(VSet(AddMember(up.val.members, x)), up.isDefault))))]
  }

  /** The inner loop, when it succeeds, first adds to the upstream set of
      the task `ids[0]` names. */
  lemma LinkUpstreamHead(ts: seq<Task>, ids: seq<Value>, cur: Value, intended: bool)
    requires ids != [] && LinkUpstream(ts, ids, cur, intended).Ok?
    ensures FindTask(ts, ids[0]).Some?
    ensures var j := FindTask(ts, ids[0]).value;
            GetAttr(ts[j].op.attrs, UP).Some? && GetAttr(ts[j].op.attrs, UP).value.val.VSet?
            && LinkUpstream(ts, ids, cur, intended)
               == LinkUpstream(AddUpstream(ts, j, if intended then cur else ids[0]), ids[1..], cur, intended)
  {
  }

  /** Adding to one upstream set changes nothing else and adds the member. */
  lemma AddUpstreamLaws(ts: seq<Task>, j: nat, x: Value)
    requires j < |ts| && GetAttr(ts[j].op.attrs, UP).Some? && GetAttr(ts[j].op.attrs, UP).value.val.VSet?
    ensures var ts1 := AddUpstream(ts, j, x);
            SameIds(ts1, ts)
            && (forall i :: 0 <= i < |ts| ==> SameButUp(ts1[i], ts[i]) && UpSet(ts[i]) <= UpSet(ts1[i]))
            && Canon(x) in UpSet(ts1[j])
  {
    var ts1 := AddUpstream(ts, j, x);
    var up := GetAttr(ts[j].op.attrs, UP).value;
    var added := AddMember(up.val.members, x);
    assert GetAttr(ts1[j].op.attrs, UP) == Some(Slot(VSet(added), up.isDefault));
    assert UpSet(ts1[j]) == UpSet(ts[j]) + {Canon(x)};
    assert SameButUp(ts1[j], ts[j]);
    forall i | 0 <= i < |ts| && i != j ensures SameButUp(ts1[i], ts[i]) {
      assert ts1[i] == ts[i];
    }
  }

  lemma InheritDateLaws(attrs: seq<Attr>, dagAttrs: seq<Attr>, name: string, a: seq<Attr>)
    requires InheritDate(attrs, dagAttrs, name) == Ok(a)
    ensures AttrValue(a, name) == Inherited(attrs, dagAttrs, name)
    ensures forall n :: n != name ==> GetAttr(a, n) == GetAttr(attrs, n)
  {
  }

  lemma LinkSubdagLaws(attrs: seq<Attr>, sub: Slot, dagAttrs: seq<Attr>, a: seq<Attr>)
    requires GetAttr(attrs, "subdag") == Some(sub) && LinkSubdag(attrs, sub, dagAttrs) == Ok(a)
    ensures sub.val == NONE ==> AttrValue(a, "subdag") == NONE
    ensures sub.val.VDag? ==> AttrValue(a, "subdag").VDag? && LinkedTo(sub.val.dag, AttrValue(a, "subdag").dag, dagAttrs)
    ensures forall n :: n != "subdag" ==> GetAttr(a, n) == GetAttr(attrs, n)
  {
  }

  /** Dates, sub-DAG and `task.dag`, the upstream set and the downstream
      ids untouched. */
  lemma PrepareTaskLaws(dagAttrs: seq<Attr>, t: Task, t': Task)
    requires PrepareTask(dagAttrs, t) == Ok(t')
    ensures Repaired(t, t', dagAttrs) && UpSet(t') == UpSet(t)
    ensures GetAttr(t'.op.attrs, DOWN) == GetAttr(t.op.attrs, DOWN)
  {
    var a1 := InheritDate(t.op.attrs, dagAttrs, "start_date").value;
    var a2 := InheritDate(a1, dagAttrs, "end_date").value;
    var sub := GetAttr(a2, "subdag").value;
    var a3 := LinkSubdag(a2, sub, dagAttrs).value;
    assert t' == Task(t.id, t.op.(attrs := a3, dag := Some(dagAttrs)));
    PreparedAttrs(t.op.attrs, dagAttrs, a1, a2, sub, a3);
  }

  /** The three attribute updates of `PrepareTask`, one after the other. */
  lemma PreparedAttrs(attrs: seq<Attr>, dagAttrs: seq<Attr>, a1: seq<Attr>, a2: seq<Attr>, sub: Slot, a3: seq<Attr>)
    requires InheritDate(attrs, dagAttrs, "start_date") == Ok(a1)
    requires InheritDate(a1, dagAttrs, "end_date") == Ok(a2)
    requires GetAttr(a2, "subdag") == Some(sub) && LinkSubdag(a2, sub, dagAttrs) == Ok(a3)
    ensures AttrsRepaired(attrs, a3, dagAttrs)
    ensures GetAttr(a3, UP) == GetAttr(attrs, UP) && GetAttr(a3, DOWN) == GetAttr(attrs, DOWN)
  {
    InheritDateLaws(attrs, dagAttrs, "start_date", a1);
    InheritDateLaws(a1, dagAttrs, "end_date", a2);
    LinkSubdagLaws(a2, sub, dagAttrs, a3);
    assert AttrValue(a2, "start_date") == AttrValue(a1, "start_date");
    assert AttrValue(a2, "subdag") == AttrValue(attrs, "subdag");
    assert AttrValue(a3, "start_date") == AttrValue(a2, "start_date");
    assert AttrValue(a3, "end_date") == AttrValue(a2, "end_date");
    assert Inherited(a1, dagAttrs, "end_date") == Inherited(attrs, dagAttrs, "end_date");
  }

  /** One turn of the loop, for the task at position `i`. */
  lemma RepairTaskLaws(dagAttrs: seq<Attr>, ts: seq<Task>, i: nat, intended: bool, r: seq<Task>)
    requires i < |ts| && RepairTask(dagAttrs, ts, i, intended) == Ok(r)
    ensures TurnEffect(dagAttrs, ts, i, intended, r)
  {
    RepairTaskUnfold(dagAttrs, ts, i, intended);
    var t' := PrepareTask(dagAttrs, ts[i]).value;
    LinkUpstreamLaws(ts[i := t'], Downstream(ts[i]), ts[i].id, intended, r);
    StepOfLink(dagAttrs, ts, i, intended, t', r);
  }

  /** A turn has the effect `TurnEffect` when the task at `i` was prepared
      into `t'` and the inner loop then linked its downstream ids. */
  lemma StepOfLink(dagAttrs: seq<Attr>, ts: seq<Task>, i: nat, intended: bool, t': Task, r: seq<Task>)
    requires i < |ts| && Repaired(ts[i], t', dagAttrs) && UpSet(t') == UpSet(ts[i])
    requires SameIds(r, ts[i := t'])
    requires forall j :: 0 <= j < |ts[i := t']| ==> SameButUp(r[j], ts[i := t'][j]) && UpSet(ts[i := t'][j]) <= UpSet(r[j])
    requires forall k :: 0 <= k < |Downstream(ts[i])| ==>
               FindTask(ts[i := t'], Downstream(ts[i])[k]).Some?
               && Canon(if intended then ts[i].id else Downstream(ts[i])[k])
                  in UpSet(r[FindTask(ts[i := t'], Downstream(ts[i])[k]).value])
    ensures TurnEffect(dagAttrs, ts, i, intended, r)
  {
    var ts0 := ts[i := t'];
    LinkKeepsOthers(ts, i, ts0, r);
    RepairedThenSame(ts[i], t', r[i], dagAttrs);
    LinkMirrors(ts, i, intended, ts0, r);
  }

  /** After the inner loop, ids stay where they were, upstream sets only
      grew, and tasks other than the one at `i` changed at most in their
      upstream sets. */
  lemma LinkKeepsOthers(ts: seq<Task>, i: nat, ts0: seq<Task>, r: seq<Task>)
    requires i < |ts| && |ts0| == |ts| && UpSet(ts0[i]) == UpSet(ts[i])
    requires forall j :: 0 <= j < |ts| && j != i ==> ts0[j] == ts[j]
    requires ts0[i].id == ts[i].id && SameIds(r, ts0)
    requires forall j :: 0 <= j < |ts0| ==> SameButUp(r[j], ts0[j]) && UpSet(ts0[j]) <= UpSet(r[j])
    ensures |r| == |ts| && SameButUp(r[i], ts0[i])
    ensures forall j :: 0 <= j < |ts| ==> r[j].id == ts[j].id && UpSet(ts[j]) <= UpSet(r[j])
    ensures forall j :: 0 <= j < |ts| && j != i ==> SameButUp(r[j], ts[j])
  {
    forall j | 0 <= j < |ts| ensures r[j].id == ts[j].id && UpSet(ts[j]) <= UpSet(r[j]) {
      if j != i {
        assert ts0[j] == ts[j];
      }
    }
  }

  /** Every downstream id of the task at `i` is mirrored once the inner
      loop has linked it. */
  lemma LinkMirrors(ts: seq<Task>, i: nat, intended: bool, ts0: seq<Task>, r: seq<Task>)
    requires i < |ts| && SameIds(ts0, ts) && |r| == |ts0|
    requires forall k :: 0 <= k < |Downstream(ts[i])| ==>
               FindTask(ts0, Downstream(ts[i])[k]).Some?
               && Canon(if intended then ts[i].id else Downstream(ts[i])[k])
                  in UpSet(r[FindTask(ts0, Downstream(ts[i])[k]).value])
    ensures forall k :: 0 <= k < |Downstream(ts[i])| ==> Mirrored(ts, r, Downstream(ts[i])[k], Added(ts[i], k, intended))
  {
    forall k | 0 <= k < |Downstream(ts[i])|
      ensures Mirrored(ts, r, Downstream(ts[i])[k], Added(ts[i], k, intended))
    {
      FindTaskSameIds(ts0, ts, Downstream(ts[i])[k]);
    }
  }

  lemma RepairTaskUnfold(dagAttrs: seq<Attr>, ts: seq<Task>, i: nat, intended: bool)
    requires i < |ts|
    ensures RepairTask(dagAttrs, ts, i, intended).Ok? ==>
              PrepareTask(dagAttrs, ts[i]).Ok?
              && Repaired(ts[i], PrepareTask(dagAttrs, ts[i]).value, dagAttrs)
              && UpSet(PrepareTask(dagAttrs, ts[i]).value) == UpSet(ts[i])
              && RepairTask(dagAttrs, ts, i, intended)
                 == LinkUpstream(ts[i := PrepareTask(dagAttrs, ts[i]).value], Downstream(ts[i]), ts[i].id, intended)
  {
    if RepairTask(dagAttrs, ts, i, intended).Ok? {
      PrepareTaskLaws(dagAttrs, ts[i], PrepareTask(dagAttrs, ts[i]).value);
    }
  }

  lemma SameButUpTrans(a: Task, b: Task, c: Task)
    requires SameButUp(a, b) && SameButUp(b, c)
    ensures SameButUp(a, c)
  {
    forall n | n != UP ensures GetAttr(a.op.attrs, n) == GetAttr(c.op.attrs, n) {
      assert GetAttr(a.op.attrs, n) == GetAttr(b.op.attrs, n);
    }
  }

  lemma SameThenRepaired(a: Task, b: Task, c: Task, dagAttrs: seq<Attr>)
    requires SameButUp(b, a) && Repaired(b, c, dagAttrs)
    ensures Repaired(a, c, dagAttrs)
  {
    assert AttrValue(b.op.attrs, "start_date") == AttrValue(a.op.attrs, "start_date");
    assert AttrValue(b.op.attrs, "end_date") == AttrValue(a.op.attrs, "end_date");
    assert AttrValue(b.op.attrs, "subdag") == AttrValue(a.op.attrs, "subdag");
  }

  lemma RepairedThenSame(a: Task, b: Task, c: Task, dagAttrs: seq<Attr>)
    requires Repaired(a, b, dagAttrs) && SameButUp(c, b)
    ensures Repaired(a, c, dagAttrs)
  {
    assert AttrValue(c.op.attrs, "start_date") == AttrValue(b.op.attrs, "start_date");
    assert AttrValue(c.op.attrs, "end_date") == AttrValue(b.op.attrs, "end_date");
    assert AttrValue(c.op.attrs, "subdag") == AttrValue(b.op.attrs, "subdag");
  }

  // ----------------------------------------------------------- one turn

  /** What one turn of the loop, at position `i`, does to the task list:
      ids stay where they are, upstream sets only grow, the task at `i` is
      repaired, the others change at most in their upstream sets, and every
      downstream edge of the task at `i` is mirrored. */
  ghost predicate TurnEffect(dagAttrs: seq<Attr>, ts: seq<Task>, i: nat, intended: bool, ts1: seq<Task>) {
    i < |ts| && |ts1| == |ts|
    && (forall j :: 0 <= j < |ts| ==> ts1[j].id == ts[j].id && UpSet(ts[j]) <= UpSet(ts1[j]))
    && (forall j :: 0 <= j < |ts| && j != i ==> SameButUp(ts1[j], ts[j]))
    && Repaired(ts[i], ts1[i], dagAttrs)
    && forall k :: 0 <= k < |Downstream(ts[i])| ==> Mirrored(ts, ts1, Downstream(ts[i])[k], Added(ts[i], k, intended))
  }

  /** From position `i` on, `s[m + 1]` is `s[m]` after the turn at position
      `m`, and every list has one entry per task. */
  ghost predicate TurnsFrom(dagAttrs: seq<Attr>, intended: bool, s: seq<seq<Task>>, i: nat) {
    i < |s|
    && (forall m :: i <= m < |s| ==> |s[m]| == |s| - 1)
    && forall m :: i <= m < |s| - 1 ==> TurnEffect(dagAttrs, s[m], m, intended, s[m + 1])
  }

  /** `s` is the run of the loop over `ts` from position `i` on, and the
      loop ends with the task list `r`. */
  ghost predicate RunFrom(dagAttrs: seq<Attr>, intended: bool, ts: seq<Task>, i: nat, r: seq<Task>, s: seq<seq<Task>>) {
    i <= |ts| && |s| == |ts| + 1 && s[i] == ts && s[|ts|] == r && TurnsFrom(dagAttrs, intended, s, i)
  }

  /** The id the inner loop adds for the `k`-th downstream id of `t`. */
  function Added(t: Task, k: nat, intended: bool): Value
    requires k < |Downstream(t)|
  {
    if intended then t.id else Downstream(t)[k]
  }

  /** `task_dict[x]` exists and its upstream set in `r` holds `src`. */
  ghost predicate Mirrored(ts: seq<Task>, r: seq<Task>, x: Value, src: Value) {
    FindTask(ts, x).Some? && FindTask(ts, x).value < |r| && Canon(src) in UpSet(r[FindTask(ts, x).value])
  }

  // ------------------------------------------------- a concrete edge a >> b

  function StrId(s: string): Value {
    VPrim(PStr(s))
  }

  function Fresh(id: string, ups: seq<Value>): Task {
    Task(StrId(id), Operator(SERIALIZED_OPERATOR, [Attr(UP, Slot(VSet(ups), false))], None, []))
  }

  /** The inner loop for task `a` with downstream `{"b"}`: as written, `b`'s
      upstream set becomes `{"b"}`; as intended, `{"a"}`. */
  lemma UpstreamEdgeExample()
    ensures LinkUpstream([Fresh("a", []), Fresh("b", [])], [StrId("b")], StrId("a"), false)
         == Ok([Fresh("a", []), Fresh("b", [StrId("b")])])
    ensures LinkUpstream([Fresh("a", []), Fresh("b", [])], [StrId("b")], StrId("a"), true)
         == Ok([Fresh("a", []), Fresh("b", [StrId("a")])])
  {
    var ts := [Fresh("a", []), Fresh("b", [])];
    assert FindTask(ts, StrId("b")) == Some(1) by {
      assert Canon(StrId("a")) == StrId("a") && Canon(StrId("b")) == StrId("b");
      assert ts[1..] == [Fresh("b", [])];
    }
    LinkOne(ts, StrId("b"), StrId("a"), false, 1, StrId("b"));
    LinkOne(ts, StrId("b"), StrId("a"), true, 1, StrId("a"));
    assert ts[1 := Task(ts[1].id, ts[1].op.(attrs := [Attr(UP, Slot(VSet([StrId("b")]), false))]))]
        == [Fresh("a", []), Fresh("b", [StrId("b")])];
    assert ts[1 := Task(ts[1].id, ts[1].op.(attrs := [Attr(UP, Slot(VSet([StrId("a")]), false))]))]
        == [Fresh("a", []), Fresh("b", [StrId("a")])];
  }

  /** `LinkUpstream` over one id whose task has an empty upstream set. */
  lemma LinkOne(ts: seq<Task>, id: Value, cur: Value, intended: bool, j: nat, added: Value)
    requires FindTask(ts, id) == Some(j)
    requires ts[j].op.attrs == [Attr(UP, Slot(VSet([]), false))]
    requires added == if intended then cur else id
    ensures LinkUpstream(ts, [id], cur, intended)
         == Ok(ts[j := Task(ts[j].id, ts[j].op.(attrs := [Attr(UP, Slot(VSet([added]), false))]))])
  {
    assert AddMember([], added) == [added];
    assert SetAttr(ts[j].op.attrs, UP, Slot(VSet([added]), false)) == [Attr(UP, Slot(VSet([added]), false))];
    assert [id][1..] == [];
  }
}
