/** What the field-elision encoder promises: exactly the listed fields that
    are not excluded are written, each once, decorated ones as encoded and
    the others with their envelope removed; an operator always records its
    class and module and drops dates it shares with its DAG and empty
    `params` / `executor_config`; a DAG lists every task's operator. */
module FieldLaws {
  import opened Wire
  import opened Values
  import opened Encode

  /** What `serialize_to_json` stores for a field that is kept. */
  function FieldWire(ctx: Ctx, decorated: set<string>, key: string, v: Value): Wire {
    if key in decorated then Serialize(ctx, v) else Unwrap(Serialize(ctx, v))
  }

  /** The entry `serialize_to_json` writes for `k`, if any. */
  function Stored(ctx: Ctx, e: Entity, attrs: seq<Attr>, keys: seq<string>,
                  decorated: set<string>, params: set<string>, k: string): Option<Wire>
  {
    var s := GetAttr(attrs, k);
    if k in keys && s.Some? && !Excluded(e, params, k, s) then Some(FieldWire(ctx, decorated, k, s.value.val))
    else None
  }

  /** A field is written iff it is listed and not excluded, with the value
      `FieldWire` gives it; no other key is written. */
  lemma {:induction false} SerializeFieldsLookup(ctx: Ctx, e: Entity, attrs: seq<Attr>, keys: seq<string>,
                                                 decorated: set<string>, params: set<string>, k: string)
    ensures Lookup(SerializeFields(ctx, e, attrs, keys, decorated, params), k)
         == Stored(ctx, e, attrs, keys, decorated, params, k)
    decreases |keys|
  {
    if keys != [] {
      var prefix := keys[..|keys| - 1];
      var last := keys[|keys| - 1];
      assert keys == prefix + [last];
      SerializeFieldsLookup(ctx, e, attrs, prefix, decorated, params, k);
      SerializeFieldsStep(ctx, e, attrs, keys, decorated, params);
      ExcludedWhenMissing(e, params, k, GetAttr(attrs, k));
    }
  }

  /** One more listed key: it is skipped or stored. */
  lemma SerializeFieldsStep(ctx: Ctx, e: Entity, attrs: seq<Attr>, keys: seq<string>,
                            decorated: set<string>, params: set<string>)
    requires keys != []
    ensures var acc := SerializeFields(ctx, e, attrs, keys[..|keys| - 1], decorated, params);
            var key := keys[|keys| - 1];
            var s := GetAttr(attrs, key);
            SerializeFields(ctx, e, attrs, keys, decorated, params)
            == if Excluded(e, params, key, s) then acc
               else Put(acc, key, FieldWire(ctx, decorated, key, s.value.val))
  {
  }

  lemma ExcludedWhenMissing(e: Entity, params: set<string>, name: string, s: Option<Slot>)
    ensures !Excluded(e, params, name, s) ==> s.Some?
  {
  }

  /** Every key of the encoded object occurs once. */
  lemma {:induction false} SerializeFieldsDistinct(ctx: Ctx, e: Entity, attrs: seq<Attr>, keys: seq<string>,
                                                   decorated: set<string>, params: set<string>)
    ensures DistinctKeys(SerializeFields(ctx, e, attrs, keys, decorated, params))
    decreases |keys|
  {
    if keys != [] {
      var prefix := keys[..|keys| - 1];
      SerializeFieldsDistinct(ctx, e, attrs, prefix, decorated, params);
      var acc := SerializeFields(ctx, e, attrs, prefix, decorated, params);
      var key := keys[|keys| - 1];
      var s := GetAttr(attrs, key);
      SerializeFieldsStep(ctx, e, attrs, keys, decorated, params);
      if !Excluded(e, params, key, s) {
        PutDistinct(acc, key, FieldWire(ctx, decorated, key, s.value.val));
      }
    }
  }

  /** The base rule of `_is_excluded`: a DAG field is left out iff it is
      unset, `None`, of an excluded type, or the very default object of its
      constructor parameter. */
  lemma DagFieldElided(ctx: Ctx, d: Dag, k: string)
    requires k != "tasks"
    ensures var fs := SerializeDag(ctx, d).fields;
            var s := GetAttr(d.attrs, k);
            Lookup(fs, k)
            == if k in ctx.dagFields && s.Some? && s.value.val != NONE && !IsExcludedType(s.value.val)
                  && !IsHardcodedDefault(ctx.dagParams, k, s.value)
               then Some(FieldWire(ctx, DAG_DECORATED, k, s.value.val))
               else None
  {
    SerializeFieldsLookup(ctx, DagEntity, d.attrs, ctx.dagFields, DAG_DECORATED, ctx.dagParams, k);
  }

  /** The default test is `is`, not `==`: a DAG field the user set, even to
      a value equal to the constructor default, is written. */
  lemma ExplicitDefaultWritten(ctx: Ctx, d: Dag, k: string, v: Value)
    requires k != "tasks" && k in ctx.dagFields && GetAttr(d.attrs, k) == Some(Slot(v, false))
    requires v != NONE && !IsExcludedType(v)
    ensures Lookup(SerializeDag(ctx, d).fields, k) == Some(FieldWire(ctx, DAG_DECORATED, k, v))
  {
    DagFieldElided(ctx, d, k);
  }

  /** An operator's `_is_excluded` ends in `super()._is_excluded`: it leaves
      out everything the base rule does, and the DAG uses the base rule. */
  lemma OperatorExcludesBase(dag: Option<seq<Attr>>, params: set<string>, name: string, s: Option<Slot>)
    ensures BaseExcluded(params, name, s) ==> Excluded(OpEntity(dag), params, name, s)
    ensures Excluded(DagEntity, params, name, s) <==> BaseExcluded(params, name, s)
  {
  }

  /** `serialize_dag` writes every task's operator under `tasks`, in order. */
  lemma DagTasksListed(ctx: Ctx, d: Dag)
    ensures var fs := SerializeDag(ctx, d).fields;
            Lookup(fs, "tasks").Some? && Lookup(fs, "tasks").value.WList?
            && |Lookup(fs, "tasks").value.items| == |d.taskDict|
            && forall i :: 0 <= i < |d.taskDict| ==>
                 Lookup(fs, "tasks").value.items[i] == SerializeTask(ctx, d.taskDict[i])
  {
    SerializeTasksAt(ctx, d.taskDict);
  }

  lemma {:induction false} SerializeTasksAt(ctx: Ctx, ts: seq<Task>)
    ensures forall i :: 0 <= i < |ts| ==> SerializeTasks(ctx, ts)[i] == SerializeTask(ctx, ts[i])
  {
    if ts != [] {
      SerializeTasksAt(ctx, ts[1..]);
      forall i | 0 <= i < |ts| ensures SerializeTasks(ctx, ts)[i] == SerializeTask(ctx, ts[i]) {
        if i > 0 {
          assert ts[1..][i - 1] == ts[i];
        }
      }
    }
  }

  /** The serialized operator always names its class and module, and every
      other key is a field `serialize_to_json` kept. */
  lemma OperatorFields(ctx: Ctx, o: Operator, k: string)
    ensures var fs := SerializeOperator(ctx, o).fields;
            Lookup(fs, "_task_type") == Some(WStr(o.cls.name))
            && Lookup(fs, "_task_module") == Some(WStr(o.cls.moduleName))
            && (k != "_task_type" && k != "_task_module" ==>
                Lookup(fs, k) == Stored(ctx, OpEntity(o.dag), o.attrs, ctx.opFields, OP_DECORATED, ctx.opParams, k))
  {
    SerializeFieldsLookup(ctx, OpEntity(o.dag), o.attrs, ctx.opFields, OP_DECORATED, ctx.opParams, k);
  }

  /** A date an operator shares with its DAG is not written. */
  lemma OperatorSharedDateOmitted(ctx: Ctx, o: Operator, name: string)
    requires EndsWith(name, "_date") && o.dag.Some?
    requires AttrValue(o.attrs, name) != NONE && AttrValue(o.attrs, name) == AttrValue(o.dag.value, name)
    ensures Lookup(SerializeOperator(ctx, o).fields, name) == None
  {
    NotIdentityKey(name);
    OperatorFields(ctx, o, name);
  }

  /** Empty `params` and `executor_config` are not written. */
  lemma OperatorFalsyOmitted(ctx: Ctx, o: Operator, name: string)
    requires name == "params" || name == "executor_config"
    requires !Truthy(AttrValue(o.attrs, name))
    ensures Lookup(SerializeOperator(ctx, o).fields, name) == None
  {
    OperatorFields(ctx, o, name);
  }

  lemma NotIdentityKey(name: string)
    requires EndsWith(name, "_date")
    ensures name != "_task_type" && name != "_task_module"
  {
    assert "_task_type"[5..] == "_type";
    assert "_task_module"[7..] == "_module"[2..];
  }
}
