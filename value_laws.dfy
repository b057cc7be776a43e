/** What the value codec promises: primitives and lists pass through without
    an envelope, every tagged value is decoded back to itself, unknown tags
    are refused, and the encoder never fails. */
module ValueLaws {
  import opened Wire
  import opened Values
  import opened Encode
  import opened Decode
  import opened RelDeltaLaws
  import FieldLaws

  /** The values the codec gives back unchanged: primitives, lists, tuples,
      sets of hashable members, dicts with distinct string keys, times,
      durations, zones and relativedeltas whose weekday, if any, has
      `n != 0`, as `weekday(...)` demands, and whose absolute fields are not
      0 (the encoder drops a zero field; `RoundTripRelDelta` says what comes
      back then). Enums come back as their value, and callables and
      other objects as their text or the failure sentinel. DAGs and
      operators are written without an envelope, so `_deserialize` cannot
      read them back (`DagValueNotDecodable`, `OperatorValueNotDecodable`). */
  ghost predicate Restorable(v: Value)
    decreases v, 1
  {
    match v
    case VPrim(_) => true
    case VList(xs) => AllRestorable(xs)
    case VTuple(xs) => AllRestorable(xs)
    case VSet(ms) => AllRestorable(ms) && AllHashable(ms) && CanonDistinct(ms)
    case VDict(es) => EntriesRestorable(es) && StrKeys(es)
    case VDateTime(_) => true
    case VTimeDelta(_) => true
    case VTimezone(_) => true
    case VRelDelta(rd) => ValidWeekday(rd.weekday) && NoZeroField(rd)
    case _ => false
  }

  ghost predicate AllRestorable(xs: seq<Value>)
    decreases xs, 0
  {
    xs == [] || (Restorable(xs[0]) && AllRestorable(xs[1..]))
  }

  ghost predicate EntriesRestorable(es: seq<Entry>)
    decreases es, 0
  {
    es == [] || (EntryRestorable(es[0]) && EntriesRestorable(es[1..]))
  }

  ghost predicate EntryRestorable(e: Entry)
    decreases e, 0
  {
    Restorable(e.val)
  }

  ghost predicate AllHashable(xs: seq<Value>) {
    forall i :: 0 <= i < |xs| ==> Hashable(xs[i])
  }

  /** Keys that are strings, pairwise distinct. */
  ghost predicate StrKeys(es: seq<Entry>) {
    (forall i :: 0 <= i < |es| ==> es[i].key.PStr?)
    && (forall i, j :: 0 <= i < j < |es| ==> es[i].key != es[j].key)
  }

  // ------------------------------------------------------------ pass-through

  /** `_serialize` writes a DAG as its bare field object, with no `__var`
      key, so `_deserialize` of it raises `KeyError` on `__var`. */
  lemma DagValueNotDecodable(ctx: Ctx, d: Dag)
    requires VAR !in ctx.dagFields && VAR != "tasks"
    ensures Deserialize(ctx, Serialize(ctx, VDag(d))) == Err(KeyError(VAR))
  {
    FieldLaws.SerializeFieldsLookup(ctx, DagEntity, d.attrs, ctx.dagFields, DAG_DECORATED, ctx.dagParams, VAR);
  }

  /** The same holds for an operator: its object carries its fields,
      `_task_type` and `_task_module`, but no `__var`. */
  lemma OperatorValueNotDecodable(ctx: Ctx, o: Operator)
    requires VAR !in ctx.opFields
    ensures Deserialize(ctx, Serialize(ctx, VOp(o))) == Err(KeyError(VAR))
  {
    FieldLaws.SerializeFieldsLookup(ctx, OpEntity(o.dag), o.attrs, ctx.opFields, OP_DECORATED, ctx.opParams, VAR);
  }

  /** `None`, bools, ints and strings are their own encoding and decoding;
      an enum member is encoded as its value. */
  lemma PrimitivePassThrough(ctx: Ctx, p: Prim)
    ensures Serialize(ctx, VPrim(p)) == PrimWire(p) && Serialize(ctx, VEnum(p)) == PrimWire(p)
    ensures !HasTypeKey(PrimWire(p))
    ensures Deserialize(ctx, PrimWire(p)) == Ok(VPrim(p))
  {
  }

  /** A list is encoded element by element as a plain list, with no
      envelope. */
  lemma {:induction false} ListPassThrough(ctx: Ctx, xs: seq<Value>)
    ensures Serialize(ctx, VList(xs)).WList? && !HasTypeKey(Serialize(ctx, VList(xs)))
    ensures |Serialize(ctx, VList(xs)).items| == |xs|
    ensures forall i :: 0 <= i < |xs| ==> Serialize(ctx, VList(xs)).items[i] == Serialize(ctx, xs[i])
  {
    SerializeAllAt(ctx, xs);
  }

  lemma {:induction false} SerializeAllAt(ctx: Ctx, xs: seq<Value>)
    ensures forall i :: 0 <= i < |xs| ==> SerializeAll(ctx, xs)[i] == Serialize(ctx, xs[i])
  {
    if xs != [] {
      SerializeAllAt(ctx, xs[1..]);
      assert forall i :: 1 <= i < |xs| ==> SerializeAll(ctx, xs)[i] == SerializeAll(ctx, xs[1..])[i - 1];
    }
  }

  /** A JSON array is decoded element by element into a list; it fails
      exactly when an element fails. */
  lemma {:induction false} ListDecodes(ctx: Ctx, ws: seq<Wire>)
    ensures Deserialize(ctx, WList(ws)).Ok? <==> forall i :: 0 <= i < |ws| ==> Deserialize(ctx, ws[i]).Ok?
    ensures Deserialize(ctx, WList(ws)).Ok? ==>
      Deserialize(ctx, WList(ws)).value.VList?
      && |Deserialize(ctx, WList(ws)).value.items| == |ws|
      && forall i :: 0 <= i < |ws| ==> Deserialize(ctx, WList(ws)).value.items[i] == Deserialize(ctx, ws[i]).value
  {
    DeserializeAllAt(ctx, ws);
  }

  lemma {:induction false} DeserializeAllAt(ctx: Ctx, ws: seq<Wire>)
    ensures DeserializeAll(ctx, ws).Ok? <==> forall i :: 0 <= i < |ws| ==> Deserialize(ctx, ws[i]).Ok?
    ensures DeserializeAll(ctx, ws).Ok? ==>
      forall i :: 0 <= i < |ws| ==> DeserializeAll(ctx, ws).value[i] == Deserialize(ctx, ws[i]).value
  {
    if ws != [] {
      DeserializeAllAt(ctx, ws[1..]);
      assert forall i :: 1 <= i < |ws| ==> ws[1..][i - 1] == ws[i];
    }
  }

  /** `_serialize` never raises: a callable whose source or an object whose
      text cannot be produced becomes the sentinel string. */
  lemma SerializeFallsBackToSentinel(ctx: Ctx, v: Value)
    requires (v.VCallable? && v.source.None?) || (v.VObject? && v.display.None?)
    ensures Serialize(ctx, v) == WStr(FAILED) && FAILED == "serialization_failed"
  {
  }

  // ---------------------------------------------------------------- envelopes

  /** Decoding an envelope dispatches on its tag. */
  lemma EnvelopeOpens(ctx: Ctx, x: Wire, t: Tag)
    ensures Deserialize(ctx, Envelope(x, t)) == DeserializeTagged(ctx, x, t)
  {
    var fs := Envelope(x, t).fields;
    assert FindField(fs, VAR) == Some(WField(VAR, x));
    assert Lookup(fs, TYPE) == Some(WStr(TagName(t)));
    assert ParseTag(WStr(TagName(t))) == Some(t);
    assert DeserializeEnvelope(ctx, fs) == DeserializeField(ctx, WField(VAR, x), t);
  }

  /** A dict whose `__type` is not one of the known tags is refused with
      that tag. */
  lemma UnknownTagRejected(ctx: Ctx, fs: seq<WField>, t: Wire)
    requires VAR in Keys(fs) && Lookup(fs, TYPE) == Some(t)
    requires forall tag :: t != WStr(TagName(tag))
    ensures Deserialize(ctx, WObj(fs)) == Err(UnknownTag(t))
  {
  }

  /** A dict decodes only when it is an envelope with a known tag. */
  lemma EnvelopeRequired(ctx: Ctx, fs: seq<WField>)
    requires Deserialize(ctx, WObj(fs)).Ok?
    ensures VAR in Keys(fs) && TYPE in Keys(fs)
    ensures exists tag :: Lookup(fs, TYPE) == Some(WStr(TagName(tag)))
  {
    var t := Lookup(fs, TYPE).value;
    assert ParseTag(t).Some?;
    assert t == WStr(TagName(ParseTag(t).value));
  }

  // -------------------------------------------------------------- round trip

  /** `_deserialize(_serialize(v)) == v` for every restorable value. */
  lemma {:induction false} RoundTrip(ctx: Ctx, v: Value)
    requires Restorable(v)
    ensures Deserialize(ctx, Serialize(ctx, v)) == Ok(v)
    decreases v, 1
  {
    match v
    case VPrim(p) =>
    case VList(xs) =>
      RoundTripAll(ctx, xs);
    case VTuple(xs) =>
      RoundTripTuple(ctx, xs);
    case VSet(ms) =>
      RoundTripSet(ctx, ms);
    case VDict(es) =>
      RoundTripDict(ctx, es);
    case VDateTime(t) =>
      RoundTripDateTime(ctx, t);
    case VTimeDelta(s) =>
      RoundTripTimeDelta(ctx, s);
    case VTimezone(n) =>
      RoundTripTimezone(ctx, n);
    case VRelDelta(rd) =>
      RoundTripRelDelta(ctx, rd);
      NormalizedFixes(rd);
  }

  lemma RoundTripDateTime(ctx: Ctx, t: int)
    ensures Deserialize(ctx, Serialize(ctx, VDateTime(t))) == Ok(VDateTime(t))
  {
    EnvelopeOpens(ctx, WInt(t), TDateTime);
  }

  lemma RoundTripTimeDelta(ctx: Ctx, s: int)
    ensures Deserialize(ctx, Serialize(ctx, VTimeDelta(s))) == Ok(VTimeDelta(s))
  {
    EnvelopeOpens(ctx, WInt(s), TTimeDelta);
  }

  lemma RoundTripTimezone(ctx: Ctx, n: string)
    ensures Deserialize(ctx, Serialize(ctx, VTimezone(n))) == Ok(VTimezone(n))
  {
    EnvelopeOpens(ctx, WStr(n), TTimeZone);
  }

  /** A `relativedelta` comes back with its zero absolute fields unset. */
  lemma RoundTripRelDelta(ctx: Ctx, rd: RelDelta)
    requires ValidWeekday(rd.weekday)
    ensures Deserialize(ctx, Serialize(ctx, VRelDelta(rd))) == Ok(VRelDelta(Normalized(rd)))
  {
    var w := EncodeRelDeltaAsWritten(rd);
    RelDeltaEnvelope(ctx, rd);
    EnvelopeOpens(ctx, w, TRelDelta);
    RelDeltaNormalizes(rd);
    TaggedRelDelta(ctx, w, Normalized(rd));
  }

  lemma RelDeltaEnvelope(ctx: Ctx, rd: RelDelta)
    ensures Serialize(ctx, VRelDelta(rd)) == Envelope(EncodeRelDeltaAsWritten(rd), TRelDelta)
  {
  }

  lemma TaggedRelDelta(ctx: Ctx, w: Wire, rd: RelDelta)
    requires DecodeRelDelta(w) == Ok(rd)
    ensures DeserializeTagged(ctx, w, TRelDelta) == Ok(VRelDelta(rd))
  {
  }

  lemma {:induction false} RoundTripTuple(ctx: Ctx, xs: seq<Value>)
    requires AllRestorable(xs)
    ensures Deserialize(ctx, Serialize(ctx, VTuple(xs))) == Ok(VTuple(xs))
    decreases xs, 1
  {
    var w := WList(SerializeAll(ctx, xs));
    TupleEnvelope(ctx, xs);
    EnvelopeOpens(ctx, w, TTuple);
    assert TupleItems(ctx, w) == Ok(xs) by {
      RoundTripAll(ctx, xs);
    }
    TaggedTuple(ctx, w, xs);
  }

  lemma TupleEnvelope(ctx: Ctx, xs: seq<Value>)
    ensures Serialize(ctx, VTuple(xs)) == Envelope(WList(SerializeAll(ctx, xs)), TTuple)
  {
  }

  lemma TaggedTuple(ctx: Ctx, w: Wire, xs: seq<Value>)
    requires TupleItems(ctx, w) == Ok(xs)
    ensures DeserializeTagged(ctx, w, TTuple) == Ok(VTuple(xs))
  {
  }

  lemma {:induction false} RoundTripSet(ctx: Ctx, ms: seq<Value>)
    requires AllRestorable(ms) && AllHashable(ms) && CanonDistinct(ms)
    ensures Deserialize(ctx, Serialize(ctx, VSet(ms))) == Ok(VSet(ms))
    decreases ms, 1
  {
    var w := WList(SerializeAll(ctx, ms));
    SetEnvelope(ctx, ms);
    EnvelopeOpens(ctx, w, TSet);
    assert SetMembers(ctx, w) == Ok(ms) by {
      RoundTripMembers(ctx, ms);
    }
    DedupeDistinct(ms);
    TaggedSet(ctx, w, ms);
  }

  lemma SetEnvelope(ctx: Ctx, ms: seq<Value>)
    ensures Serialize(ctx, VSet(ms)) == Envelope(WList(SerializeAll(ctx, ms)), TSet)
  {
  }

  lemma TaggedSet(ctx: Ctx, w: Wire, ms: seq<Value>)
    requires SetMembers(ctx, w) == Ok(ms) && Dedupe(ms) == ms
    ensures DeserializeTagged(ctx, w, TSet) == Ok(VSet(ms))
  {
  }

  lemma {:induction false} RoundTripDict(ctx: Ctx, es: seq<Entry>)
    requires EntriesRestorable(es) && StrKeys(es)
    ensures Deserialize(ctx, Serialize(ctx, VDict(es))) == Ok(VDict(es))
    decreases es, 1
  {
    var fs := SerializeEntries(ctx, [], es);
    DictEnvelope(ctx, es);
    EnvelopeOpens(ctx, WObj(fs), TDict);
    assert DeserializeEntries(ctx, [], fs) == Ok(es) by {
      SerializeEntriesAppend(ctx, [], es);
      assert fs == EntryFields(ctx, es) by { assert [] + EntryFields(ctx, es) == EntryFields(ctx, es); }
      RoundTripEntries(ctx, [], es);
      assert [] + es == es;
    }
    TaggedDict(ctx, fs, es);
  }

  lemma DictEnvelope(ctx: Ctx, es: seq<Entry>)
    ensures Serialize(ctx, VDict(es)) == Envelope(WObj(SerializeEntries(ctx, [], es)), TDict)
  {
  }

  lemma TaggedDict(ctx: Ctx, fs: seq<WField>, es: seq<Entry>)
    requires DeserializeEntries(ctx, [], fs) == Ok(es)
    ensures DeserializeTagged(ctx, WObj(fs), TDict) == Ok(VDict(es))
  {
  }

  lemma {:induction false} RoundTripAll(ctx: Ctx, xs: seq<Value>)
    requires AllRestorable(xs)
    ensures DeserializeAll(ctx, SerializeAll(ctx, xs)) == Ok(xs)
    decreases xs, 0
  {
    if xs != [] {
      RoundTrip(ctx, xs[0]);
      RoundTripAll(ctx, xs[1..]);
      var ws := SerializeAll(ctx, xs);
      assert ws[0] == Serialize(ctx, xs[0]) && ws[1..] == SerializeAll(ctx, xs[1..]);
      assert [xs[0]] + xs[1..] == xs;
    }
  }

  lemma {:induction false} RoundTripMembers(ctx: Ctx, ms: seq<Value>)
    requires AllRestorable(ms) && AllHashable(ms)
    ensures DeserializeHashable(ctx, SerializeAll(ctx, ms)) == Ok(ms)
    decreases ms, 0
  {
    if ms != [] {
      RoundTrip(ctx, ms[0]);
      assert Hashable(ms[0]);
      assert AllHashable(ms[1..]) by {
        forall i | 0 <= i < |ms[1..]| ensures Hashable(ms[1..][i]) { assert ms[1..][i] == ms[i + 1]; }
      }
      RoundTripMembers(ctx, ms[1..]);
      var ws := SerializeAll(ctx, ms);
      assert ws[0] == Serialize(ctx, ms[0]) && ws[1..] == SerializeAll(ctx, ms[1..]);
      assert [ms[0]] + ms[1..] == ms;
    }
  }

  /** The fields of the encoded dict: one per entry, in order. */
  function EntryFields(ctx: Ctx, es: seq<Entry>): (r: seq<WField>)
    ensures |r| == |es|
  {
    if es == [] then [] else [WField(KeyString(es[0].key), SerializeEntry(ctx, es[0]))] + EntryFields(ctx, es[1..])
  }

  lemma {:induction false} EntryFieldsKeys(ctx: Ctx, es: seq<Entry>)
    requires forall i :: 0 <= i < |es| ==> es[i].key.PStr?
    ensures Keys(EntryFields(ctx, es)) == set i | 0 <= i < |es| :: es[i].key.s
  {
    if es != [] {
      EntryFieldsKeys(ctx, es[1..]);
      assert forall i :: 1 <= i < |es| ==> es[1..][i - 1] == es[i];
      assert (set i | 0 <= i < |es| :: es[i].key.s)
          == {es[0].key.s} + (set i | 0 <= i < |es[1..]| :: es[1..][i].key.s);
    }
  }

  /** With distinct string keys no entry collapses onto another. */
  lemma {:induction false} SerializeEntriesAppend(ctx: Ctx, acc: seq<WField>, es: seq<Entry>)
    requires StrKeys(es)
    requires forall i :: 0 <= i < |es| ==> es[i].key.s !in Keys(acc)
    ensures SerializeEntries(ctx, acc, es) == acc + EntryFields(ctx, es)
    decreases es
  {
    if es != [] {
      var f := WField(es[0].key.s, SerializeEntry(ctx, es[0]));
      SerializeEntriesStep(ctx, acc, es);
      StrKeysTail(es);
      KeysAppend(acc, [f]);
      assert Keys([f]) == {f.key} by { assert [f][1..] == []; }
      SerializeEntriesAppend(ctx, acc + [f], es[1..]);
      EntryFieldsStep(ctx, acc, es);
    } else {
      assert acc + EntryFields(ctx, es) == acc;
    }
  }

  lemma SerializeEntriesStep(ctx: Ctx, acc: seq<WField>, es: seq<Entry>)
    requires es != [] && es[0].key.PStr? && es[0].key.s !in Keys(acc)
    ensures SerializeEntries(ctx, acc, es)
         == SerializeEntries(ctx, acc + [WField(es[0].key.s, SerializeEntry(ctx, es[0]))], es[1..])
  {
    assert KeyString(es[0].key) == es[0].key.s;
  }

  lemma EntryFieldsStep(ctx: Ctx, acc: seq<WField>, es: seq<Entry>)
    requires es != [] && es[0].key.PStr?
    ensures acc + [WField(es[0].key.s, SerializeEntry(ctx, es[0]))] + EntryFields(ctx, es[1..])
         == acc + EntryFields(ctx, es)
  {
    assert KeyString(es[0].key) == es[0].key.s;
  }

  lemma StrKeysTail(es: seq<Entry>)
    requires es != [] && StrKeys(es)
    ensures StrKeys(es[1..])
    ensures forall i :: 0 <= i < |es[1..]| ==> es[1..][i].key.s != es[0].key.s
  {
    forall i | 0 <= i < |es[1..]| ensures es[1..][i].key.s != es[0].key.s {
      assert es[1..][i] == es[i + 1];
      assert es[0].key != es[i + 1].key;
    }
  }

  /** Decoding the encoded fields gives back the entries. */
  lemma {:induction false} RoundTripEntries(ctx: Ctx, acc: seq<Entry>, es: seq<Entry>)
    requires EntriesRestorable(es) && StrKeys(es)
    requires forall i, j :: 0 <= i < |acc| && 0 <= j < |es| ==> Canon(VPrim(acc[i].key)) != Canon(VPrim(es[j].key))
    ensures DeserializeEntries(ctx, acc, EntryFields(ctx, es)) == Ok(acc + es)
    decreases es, 0
  {
    if es != [] {
      var e := es[0];
      RoundTripEntry(ctx, e, e.key.s);
      EntryFieldsHead(ctx, es);
      var fs := EntryFields(ctx, es);
      DeserializeEntriesStep(ctx, acc, fs, e.val);
      PutEntryAppends(acc, e.key, e.val);
      var acc' := acc + [e];
      RoundTripEntriesTail(acc, es);
      RoundTripEntries(ctx, acc', es[1..]);
      calc {
        DeserializeEntries(ctx, acc, fs);
        DeserializeEntries(ctx, PutEntry(acc, e.key, e.val), fs[1..]);
        DeserializeEntries(ctx, acc', EntryFields(ctx, es[1..]));
        Ok(acc' + es[1..]);
        { assert acc' + es[1..] == acc + es; }
        Ok(acc + es);
      }
    } else {
      assert acc + es == acc;
    }
  }

  lemma EntryFieldsHead(ctx: Ctx, es: seq<Entry>)
    requires es != [] && es[0].key.PStr?
    ensures EntryFields(ctx, es)[0] == WField(es[0].key.s, SerializeEntry(ctx, es[0]))
    ensures EntryFields(ctx, es)[1..] == EntryFields(ctx, es[1..])
    ensures PStr(EntryFields(ctx, es)[0].key) == es[0].key
  {
    assert KeyString(es[0].key) == es[0].key.s;
  }

  lemma RoundTripEntriesTail(acc: seq<Entry>, es: seq<Entry>)
    requires es != [] && EntriesRestorable(es) && StrKeys(es)
    requires forall i, j :: 0 <= i < |acc| && 0 <= j < |es| ==> Canon(VPrim(acc[i].key)) != Canon(VPrim(es[j].key))
    ensures EntriesRestorable(es[1..]) && StrKeys(es[1..])
    ensures forall i, j :: 0 <= i < |acc + [es[0]]| && 0 <= j < |es[1..]| ==> Canon(VPrim((acc + [es[0]])[i].key)) != Canon(VPrim(es[1..][j].key))
  {
    StrKeysTail(es);
    assert forall j :: 0 <= j < |es[1..]| ==> es[1..][j] == es[j + 1];
    forall i, j | 0 <= i < |acc + [es[0]]| && 0 <= j < |es[1..]|
      ensures Canon(VPrim((acc + [es[0]])[i].key)) != Canon(VPrim(es[1..][j].key))
    {
      if i == |acc| {
        assert es[0].key.s != es[j + 1].key.s;
      }
    }
  }

  lemma DeserializeEntriesStep(ctx: Ctx, acc: seq<Entry>, fs: seq<WField>, v: Value)
    requires fs != [] && DeserializeValueOf(ctx, fs[0]) == Ok(v)
    ensures DeserializeEntries(ctx, acc, fs) == DeserializeEntries(ctx, PutEntry(acc, PStr(fs[0].key), v), fs[1..])
  {
  }

  lemma {:induction false} RoundTripEntry(ctx: Ctx, e: Entry, k: string)
    requires EntryRestorable(e)
    ensures DeserializeValueOf(ctx, WField(k, SerializeEntry(ctx, e))) == Ok(e.val)
    decreases e, 0
  {
    RoundTrip(ctx, e.val);
  }

  lemma {:induction false} PutEntryAppends(es: seq<Entry>, k: Prim, v: Value)
    requires forall i :: 0 <= i < |es| ==> Canon(VPrim(es[i].key)) != Canon(VPrim(k))
    ensures PutEntry(es, k, v) == es + [Entry(k, v)]
  {
    if es != [] {
      PutEntryAppends(es[1..], k, v);
    }
  }
}
