/** What the `relativedelta` payload promises. Every relative offset, every
    absolute field that survives the encoder's truthiness filter, and the
    weekday are read back by `relativedelta(**var)`. An absolute field set to
    0 is dropped by the filter and comes back unset. */
module RelDeltaLaws {
  import opened Wire
  import opened Values
  import opened Encode
  import opened Decode

  /** An absolute field as a payload built with `dropZero` keeps it. */
  function Kept(a: Option<int>, dropZero: bool): Option<int> {
    if a.Some? && (!dropZero || a.value != 0) then a else None
  }

  function Filtered(abs: AbsFields, dropZero: bool): AbsFields {
    seq(7, i requires 0 <= i < 7 => Kept(abs[i], dropZero))
  }

  /** The `relativedelta` a decoder rebuilds from the as-written payload:
      an absolute field equal to 0 is unset. */
  function Normalized(rd: RelDelta): (r: RelDelta)
    ensures r.relative == rd.relative && r.weekday == rd.weekday
    ensures forall i :: 0 <= i < 7 ==> r.absolute[i] == (if rd.absolute[i] == Some(0) then None else rd.absolute[i])
  {
    rd.(absolute := Filtered(rd.absolute, true))
  }

  /** No absolute field is set to 0, so the truthiness filter drops none. */
  ghost predicate NoZeroField(rd: RelDelta) {
    forall i :: 0 <= i < 7 ==> rd.absolute[i] != Some(0)
  }

  /** Normalizing changes exactly the `relativedelta`s with a zero absolute
      field. */
  lemma NormalizedFixes(rd: RelDelta)
    ensures Normalized(rd) == rd <==> NoZeroField(rd)
  {
    if Normalized(rd) == rd {
      forall i | 0 <= i < 7
        ensures rd.absolute[i] != Some(0)
      {
        assert Normalized(rd).absolute[i] == rd.absolute[i];
      }
    }
    if NoZeroField(rd) {
      assert Normalized(rd).absolute == rd.absolute;
    }
  }

  /** What `_serialize` writes for a `relativedelta`: an object in which
      every nonzero offset and every nonzero absolute field appears under its
      keyword, and no field holds 0. */
  lemma AsWrittenPayload(rd: RelDelta)
    ensures EncodeRelDeltaAsWritten(rd).WObj?
    ensures WritesNoZero(EncodeRelDeltaAsWritten(rd).fields)
    ensures WritesOffsets(rd.relative, EncodeRelDeltaAsWritten(rd).fields)
    ensures WritesFields(rd.absolute, true, EncodeRelDeltaAsWritten(rd).fields)
  {
    RelPartWrites(rd.relative, 0);
    AbsPartWrites(rd.absolute, 0, true);
  }

  /** What the corrected encoder writes: every nonzero offset and every
      absolute field that is set, 0 included, under its keyword. */
  lemma IntendedPayload(rd: RelDelta)
    ensures EncodeRelDelta(rd).WObj?
    ensures WritesOffsets(rd.relative, EncodeRelDelta(rd).fields)
    ensures WritesFields(rd.absolute, false, EncodeRelDelta(rd).fields)
  {
    RelPartWrites(rd.relative, 0);
    AbsPartWrites(rd.absolute, 0, false);
  }

  /** No field of the payload holds 0. */
  ghost predicate WritesNoZero(fs: seq<WField>) {
    forall f :: f in fs ==> f.val != WInt(0)
  }

  /** Every nonzero relative offset is written under its keyword. */
  ghost predicate WritesOffsets(rel: RelFields, fs: seq<WField>) {
    forall j :: 0 <= j < 8 && rel[j] != 0 ==> WField(RelNames[j], WInt(rel[j])) in fs
  }

  /** Every absolute field that is set (and, when `dropZero`, not 0) is
      written under its keyword. */
  ghost predicate WritesFields(abs: AbsFields, dropZero: bool, fs: seq<WField>) {
    forall j :: 0 <= j < 7 && abs[j].Some? && (!dropZero || abs[j].value != 0) ==>
      WField(AbsNames[j], WInt(abs[j].value)) in fs
  }

  lemma {:induction false} RelPartWrites(rel: RelFields, i: nat)
    requires i <= 8
    ensures forall f :: f in RelPart(rel, i) ==> f.val != WInt(0)
    ensures forall j :: i <= j < 8 && rel[j] != 0 ==> WField(RelNames[j], WInt(rel[j])) in RelPart(rel, i)
    decreases 8 - i
  {
    if i < 8 {
      RelPartWrites(rel, i + 1);
    }
  }

  lemma {:induction false} AbsPartWrites(abs: AbsFields, i: nat, dropZero: bool)
    requires i <= 7
    ensures dropZero ==> forall f :: f in AbsPart(abs, i, dropZero) ==> f.val != WInt(0)
    ensures forall j :: i <= j < 7 && abs[j].Some? && (!dropZero || abs[j].value != 0) ==>
              WField(AbsNames[j], WInt(abs[j].value)) in AbsPart(abs, i, dropZero)
    decreases 7 - i
  {
    if i < 7 {
      AbsPartWrites(abs, i + 1, dropZero);
    }
  }

  /** The weekday was built by `weekday(...)`, which refuses `n == 0`. */
  ghost predicate ValidWeekday(wd: Option<Weekday>) {
    wd.Some? ==> wd.value.n != Some(0)
  }

  // ----------------------------------------------------------- field names

  lemma NamesDistinct()
    ensures forall i, j :: 0 <= i < j < 8 ==> RelNames[i] != RelNames[j]
    ensures forall i, j :: 0 <= i < j < 7 ==> AbsNames[i] != AbsNames[j]
    ensures forall i :: 0 <= i < 7 ==> AbsNames[i] !in RelNames
    ensures "weekday" !in RelNames && "weekday" !in AbsNames
  {
  }

  lemma IndexOfDistinct(names: seq<string>, i: nat)
    requires i < |names|
    requires forall a, b :: 0 <= a < b < |names| ==> names[a] != names[b]
    ensures IndexOf(names, names[i]) == Some(i)
  {
  }

  // ------------------------------------------------------ keyword arguments

  /** Applying keyword arguments in two batches is applying them at once. */
  lemma {:induction false} ArgsAppend(rd: RelDelta, a: seq<WField>, b: seq<WField>)
    requires RelDeltaArgs(rd, a).Ok?
    ensures RelDeltaArgs(rd, a + b) == RelDeltaArgs(RelDeltaArgs(rd, a).value, b)
    decreases a
  {
    if a == [] {
      assert a + b == b;
    } else {
      assert (a + b)[0] == a[0];
      assert (a + b)[1..] == a[1..] + b;
      ArgsAppend(RelDeltaArg(rd, a[0]).value, a[1..], b);
    }
  }

  lemma RelArg(rd: RelDelta, i: nat, n: int)
    requires i < 8
    ensures RelDeltaArg(rd, WField(RelNames[i], WInt(n))) == Ok(SetRelative(rd, i, n))
  {
    NamesDistinct();
    IndexOfDistinct(RelNames, i);
  }

  lemma AbsArg(rd: RelDelta, i: nat, n: int)
    requires i < 7
    ensures RelDeltaArg(rd, WField(AbsNames[i], WInt(n))) == Ok(SetAbsolute(rd, i, Some(n)))
  {
    NamesDistinct();
    IndexOfDistinct(AbsNames, i);
    assert IndexOf(RelNames, AbsNames[i]).None?;
  }

  /** The relative part from position `i` on sets exactly those offsets. */
  lemma {:induction false} RelPartArgs(rd: RelDelta, rel: RelFields, i: nat)
    requires i <= 8
    requires forall j :: i <= j < 8 ==> rd.relative[j] == 0
    ensures RelDeltaArgs(rd, RelPart(rel, i)) == Ok(rd.(relative := rd.relative[..i] + rel[i..]))
    decreases 8 - i
  {
    if i == 8 {
      assert rd.relative[..8] + rel[8..] == rd.relative;
      assert rd.(relative := rd.relative) == rd;
    } else {
      var head := if rel[i] != 0 then [WField(RelNames[i], WInt(rel[i]))] else [];
      var rd' := if rel[i] != 0 then SetRelative(rd, i, rel[i]) else rd;
      assert RelDeltaArgs(rd, head) == Ok(rd') by {
        if rel[i] != 0 {
          RelArg(rd, i, rel[i]);
          assert head[1..] == [];
        }
      }
      assert RelPart(rel, i) == head + RelPart(rel, i + 1);
      ArgsAppend(rd, head, RelPart(rel, i + 1));
      RelPartArgs(rd', rel, i + 1);
      assert rd'.relative[..i + 1] + rel[i + 1..] == rd.relative[..i] + rel[i..];
    }
  }

  /** The absolute part from position `i` on sets exactly the kept fields. */
  lemma {:induction false} AbsPartArgs(rd: RelDelta, abs: AbsFields, i: nat, dropZero: bool)
    requires i <= 7
    requires forall j :: i <= j < 7 ==> rd.absolute[j] == None
    ensures RelDeltaArgs(rd, AbsPart(abs, i, dropZero))
         == Ok(rd.(absolute := rd.absolute[..i] + Filtered(abs, dropZero)[i..]))
    decreases 7 - i
  {
    var kept := Filtered(abs, dropZero);
    if i == 7 {
      assert rd.absolute[..7] + kept[7..] == rd.absolute;
      assert rd.(absolute := rd.absolute) == rd;
    } else {
      var rd' := rd.(absolute := rd.absolute[i := kept[i]]);
      AbsHeadArgs(rd, abs, i, dropZero);
      ArgsAppend(rd, AbsHead(abs, i, dropZero), AbsPart(abs, i + 1, dropZero));
      AbsPartArgs(rd', abs, i + 1, dropZero);
      KeptShift(rd.absolute, kept, i);
    }
  }

  function AbsHead(abs: AbsFields, i: nat, dropZero: bool): seq<WField>
    requires i < 7
  {
    if abs[i].Some? && (!dropZero || abs[i].value != 0) then [WField(AbsNames[i], WInt(abs[i].value))] else []
  }

  lemma AbsHeadArgs(rd: RelDelta, abs: AbsFields, i: nat, dropZero: bool)
    requires i < 7 && rd.absolute[i] == None
    ensures AbsPart(abs, i, dropZero) == AbsHead(abs, i, dropZero) + AbsPart(abs, i + 1, dropZero)
    ensures RelDeltaArgs(rd, AbsHead(abs, i, dropZero))
         == Ok(rd.(absolute := rd.absolute[i := Filtered(abs, dropZero)[i]]))
  {
    var head := AbsHead(abs, i, dropZero);
    assert Filtered(abs, dropZero)[i] == Kept(abs[i], dropZero);
    if head != [] {
      AbsArg(rd, i, abs[i].value);
      assert head[1..] == [];
    } else {
      assert rd.absolute[i := None] == rd.absolute;
    }
  }

  lemma KeptShift(cur: AbsFields, kept: AbsFields, i: nat)
    requires i < 7
    ensures cur[i := kept[i]][..i + 1] + kept[i + 1..] == cur[..i] + kept[i..]
  {
  }

  lemma WeekdayArgs(rd: RelDelta, wd: Option<Weekday>)
    ensures RelDeltaArgs(rd, WeekdayPart(wd)) == Ok(rd)
  {
    if wd.Some? {
      assert WeekdayPart(wd)[1..] == [];
    }
  }

  // ------------------------------------------------------------- the weekday

  lemma {:induction false} RelPartKeys(rel: RelFields, i: nat)
    requires i <= 8
    ensures forall k :: k in Keys(RelPart(rel, i)) ==> k in RelNames
    decreases 8 - i
  {
    if i < 8 {
      var head := if rel[i] != 0 then [WField(RelNames[i], WInt(rel[i]))] else [];
      assert RelPart(rel, i) == head + RelPart(rel, i + 1);
      KeysAppend(head, RelPart(rel, i + 1));
      RelPartKeys(rel, i + 1);
      if rel[i] != 0 {
        assert head[1..] == [];
      }
    }
  }

  lemma {:induction false} AbsPartKeys(abs: AbsFields, i: nat, dropZero: bool)
    requires i <= 7
    ensures forall k :: k in Keys(AbsPart(abs, i, dropZero)) ==> k in AbsNames
    decreases 7 - i
  {
    if i < 7 {
      var keep := abs[i].Some? && (!dropZero || abs[i].value != 0);
      var head := if keep then [WField(AbsNames[i], WInt(abs[i].value))] else [];
      assert AbsPart(abs, i, dropZero) == head + AbsPart(abs, i + 1, dropZero);
      KeysAppend(head, AbsPart(abs, i + 1, dropZero));
      AbsPartKeys(abs, i + 1, dropZero);
      if keep {
        assert head[1..] == [];
      }
    }
  }

  lemma {:induction false} LookupSkip(a: seq<WField>, b: seq<WField>, k: string)
    requires k !in Keys(a)
    ensures Lookup(a + b, k) == Lookup(b, k)
  {
    if a == [] {
      assert a + b == b;
    } else {
      assert (a + b)[0] == a[0];
      assert (a + b)[1..] == a[1..] + b;
      LookupSkip(a[1..], b, k);
    }
  }

  /** `weekday(*var['weekday'])` rebuilds the weekday the encoder wrote. */
  lemma WeekdayDecodes(wd: Option<Weekday>)
    requires ValidWeekday(wd)
    ensures wd.None? ==> Lookup(WeekdayPart(wd), "weekday") == None
    ensures wd.Some? ==> (Lookup(WeekdayPart(wd), "weekday").Some?
                          && DecodeWeekday(Lookup(WeekdayPart(wd), "weekday").value) == Ok(wd.value))
  {
  }

  // ------------------------------------------------------------ round trips

  /** Decoding a payload built with `dropZero` gives back the offsets, the
      kept absolute fields and the weekday. */
  lemma PayloadDecodes(rd: RelDelta, dropZero: bool)
    requires ValidWeekday(rd.weekday)
    ensures DecodeRelDelta(WObj(RelPart(rd.relative, 0) + AbsPart(rd.absolute, 0, dropZero) + WeekdayPart(rd.weekday)))
         == Ok(rd.(absolute := Filtered(rd.absolute, dropZero)))
  {
    WeekdayFound(rd, dropZero);
    WeekdayDecodes(rd.weekday);
    PayloadArgs(rd, dropZero);
  }

  lemma WeekdayFound(rd: RelDelta, dropZero: bool)
    ensures Lookup(RelPart(rd.relative, 0) + AbsPart(rd.absolute, 0, dropZero) + WeekdayPart(rd.weekday), "weekday")
         == Lookup(WeekdayPart(rd.weekday), "weekday")
  {
    var rp, ap := RelPart(rd.relative, 0), AbsPart(rd.absolute, 0, dropZero);
    NamesDistinct();
    RelPartKeys(rd.relative, 0);
    AbsPartKeys(rd.absolute, 0, dropZero);
    KeysAppend(rp, ap);
    LookupSkip(rp + ap, WeekdayPart(rd.weekday), "weekday");
  }

  /** The keyword arguments of the payload, applied to `relativedelta()`
      with the weekday already in place. */
  lemma PayloadArgs(rd: RelDelta, dropZero: bool)
    ensures RelDeltaArgs(RelDelta(NoRelative, NoAbsolute, rd.weekday),
                         RelPart(rd.relative, 0) + AbsPart(rd.absolute, 0, dropZero) + WeekdayPart(rd.weekday))
         == Ok(rd.(absolute := Filtered(rd.absolute, dropZero)))
  {
    var rp, ap, wp := RelPart(rd.relative, 0), AbsPart(rd.absolute, 0, dropZero), WeekdayPart(rd.weekday);
    var start := RelDelta(NoRelative, NoAbsolute, rd.weekday);
    var afterAbs := rd.(absolute := Filtered(rd.absolute, dropZero));
    OffsetsAndFieldsArgs(rd, dropZero);
    ArgsAppend(start, rp + ap, wp);
    WeekdayArgs(afterAbs, rd.weekday);
  }

  /** The offsets and absolute fields of the payload set exactly those
      fields. */
  lemma OffsetsAndFieldsArgs(rd: RelDelta, dropZero: bool)
    ensures RelDeltaArgs(RelDelta(NoRelative, NoAbsolute, rd.weekday),
                         RelPart(rd.relative, 0) + AbsPart(rd.absolute, 0, dropZero))
         == Ok(rd.(absolute := Filtered(rd.absolute, dropZero)))
  {
    var rp, ap := RelPart(rd.relative, 0), AbsPart(rd.absolute, 0, dropZero);
    var start := RelDelta(NoRelative, NoAbsolute, rd.weekday);
    var afterRel := start.(relative := rd.relative);
    var afterAbs := afterRel.(absolute := Filtered(rd.absolute, dropZero));
    AllOffsetsArgs(start, rd.relative);
    AllFieldsArgs(afterRel, rd.absolute, dropZero);
    ArgsAppend(start, rp, ap);
  }

  /** All eight offsets, applied to a `relativedelta` without any. */
  lemma AllOffsetsArgs(rd: RelDelta, rel: RelFields)
    requires rd.relative == NoRelative
    ensures RelDeltaArgs(rd, RelPart(rel, 0)) == Ok(rd.(relative := rel))
  {
    RelPartArgs(rd, rel, 0);
    assert rd.relative[..0] + rel[0..] == rel;
  }

  /** All kept absolute fields, applied to a `relativedelta` without any. */
  lemma AllFieldsArgs(rd: RelDelta, abs: AbsFields, dropZero: bool)
    requires rd.absolute == NoAbsolute
    ensures RelDeltaArgs(rd, AbsPart(abs, 0, dropZero)) == Ok(rd.(absolute := Filtered(abs, dropZero)))
  {
    AbsPartArgs(rd, abs, 0, dropZero);
    assert rd.absolute[..0] + Filtered(abs, dropZero)[0..] == Filtered(abs, dropZero);
  }

  /** The encoder as written: a `relativedelta` comes back with its absolute
      zeros unset. */
  lemma RelDeltaNormalizes(rd: RelDelta)
    requires ValidWeekday(rd.weekday)
    ensures DecodeRelDelta(EncodeRelDeltaAsWritten(rd)) == Ok(Normalized(rd))
  {
    PayloadDecodes(rd, true);
  }

  /** `relativedelta(hour=0)` ("at midnight") comes back as `relativedelta()`,
      which leaves the hour alone. */
  lemma MidnightLost()
    ensures var rd := RelDelta(NoRelative, NoAbsolute[3 := Some(0)], None);
            EncodeRelDeltaAsWritten(rd) == WObj([])
            && DecodeRelDelta(EncodeRelDeltaAsWritten(rd)) == Ok(RelDelta(NoRelative, NoAbsolute, None))
            && DecodeRelDelta(EncodeRelDeltaAsWritten(rd)) != Ok(rd)
  {
    var rd := RelDelta(NoRelative, NoAbsolute[3 := Some(0)], None);
    RelDeltaNormalizes(rd);
    assert Filtered(rd.absolute, true) == NoAbsolute;
    assert NoAbsolute != rd.absolute by { assert NoAbsolute[3] != rd.absolute[3]; }
    assert AbsPart(rd.absolute, 0, true) == [] by { AbsPartEmpty(rd.absolute, 0); }
    assert RelPart(NoRelative, 0) == [] by { RelPartEmpty(NoRelative, 0); }
  }

  lemma {:induction false} RelPartEmpty(rel: RelFields, i: nat)
    requires i <= 8 && forall j :: i <= j < 8 ==> rel[j] == 0
    ensures RelPart(rel, i) == []
    decreases 8 - i
  {
    if i < 8 {
      RelPartEmpty(rel, i + 1);
    }
  }

  lemma {:induction false} AbsPartEmpty(abs: AbsFields, i: nat)
    requires i <= 7 && forall j :: i <= j < 7 ==> abs[j].None? || abs[j] == Some(0)
    ensures AbsPart(abs, i, true) == []
    decreases 7 - i
  {
    if i < 7 {
      AbsPartEmpty(abs, i + 1);
    }
  }

  /** With every set absolute field written out, 0 included, every
      `relativedelta` survives the round trip. */
  lemma RelDeltaRoundTrip(rd: RelDelta)
    requires ValidWeekday(rd.weekday)
    ensures DecodeRelDelta(EncodeRelDelta(rd)) == Ok(rd)
  {
    PayloadDecodes(rd, false);
    assert Filtered(rd.absolute, false) == rd.absolute;
  }
}
