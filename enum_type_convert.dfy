/**
 * The label tables of utils/enumTypeConvert.ts and the three functions that
 * render a flag mask as a comma-separated list of Turkish labels.
 *
 * A table lists (flag, label) pairs in ascending flag order, which is the
 * order `Object.keys` yields for integer keys. The enum values are single
 * bits in declaration order (1, 2, 4, ...), with None = 0.
 */
module EnumTypeConvert {
  import opened Common
  import opened Text
  import opened Seqs
  import opened Flags

  type LabelTable = seq<(bv32, string)>

  const NotSpecified := "Belirtilmedi"
  const Separator := ", "

  const JobTypeLabels: LabelTable :=
    [(1, "Saatlik"), (2, "Günlük"), (4, "Tam Zamanlı"), (8, "Yarı Zamanlı"), (16, "Stajyer")]

  const EducationLevelLabels: LabelTable :=
    [(1, "İlkokul"), (2, "Ortaokul"), (4, "Lise"), (8, "Lisans"), (16, "Yüksek Lisans"),
     (32, "Doktora ve Üzeri")]

  const WeekDayLabels: LabelTable :=
    [(1, "Pazartesi"), (2, "Salı"), (4, "Çarşamba"), (8, "Perşembe"), (16, "Cuma"),
     (32, "Cumartesi"), (64, "Pazar")]

  /** The labels of a table, in table order. */
  function Labels(t: LabelTable): (r: seq<string>)
    ensures |r| == |t|
  {
    seq(|t|, i requires 0 <= i < |t| => t[i].1)
  }

  /** Every flag is a single bit, and no label contains a comma or reads "Belirtilmedi". */
  predicate EntriesClean(t: LabelTable)
  {
    forall i :: 0 <= i < |t| ==> SingleBit(t[i].0) && ',' !in t[i].1 && t[i].1 != NotSpecified
  }

  /** Flags strictly ascend and labels are distinct. */
  predicate EntriesApart(t: LabelTable)
  {
    (forall i, j :: 0 <= i < j < |t| ==> t[i].0 < t[j].0) &&
    (forall i, j :: 0 <= i < j < |t| ==> t[i].1 != t[j].1)
  }

  /** What the formatters rely on in a table. */
  predicate WellFormed(t: LabelTable)
  {
    EntriesClean(t) && EntriesApart(t)
  }

  lemma JobTypeLabelsWellFormed()
    ensures WellFormed(JobTypeLabels)
  {
    JobTypeLabelsClean();
    JobTypeLabelsApart();
  }

  lemma JobTypeLabelsClean()
    ensures forall i :: 0 <= i < |JobTypeLabels| ==>
              SingleBit(JobTypeLabels[i].0) && ',' !in JobTypeLabels[i].1 && JobTypeLabels[i].1 != NotSpecified
  {
  }

  lemma JobTypeLabelsApart()
    ensures forall i, j :: 0 <= i < j < |JobTypeLabels| ==> JobTypeLabels[i].0 < JobTypeLabels[j].0
    ensures forall i, j :: 0 <= i < j < |JobTypeLabels| ==> JobTypeLabels[i].1 != JobTypeLabels[j].1
  {
  }

  lemma EducationLevelLabelsWellFormed()
    ensures WellFormed(EducationLevelLabels)
  {
    EducationLevelLabelsClean();
    EducationLevelLabelsApart();
  }

  lemma EducationLevelLabelsClean()
    ensures forall i :: 0 <= i < |EducationLevelLabels| ==>
              SingleBit(EducationLevelLabels[i].0) && ',' !in EducationLevelLabels[i].1 && EducationLevelLabels[i].1 != NotSpecified
  {
  }

  lemma EducationLevelLabelsApart()
    ensures forall i, j :: 0 <= i < j < |EducationLevelLabels| ==> EducationLevelLabels[i].0 < EducationLevelLabels[j].0
    ensures forall i, j :: 0 <= i < j < |EducationLevelLabels| ==> EducationLevelLabels[i].1 != EducationLevelLabels[j].1
  {
  }

  lemma WeekDayLabelsWellFormed()
    ensures WellFormed(WeekDayLabels)
  {
    WeekDayLabelsClean();
    WeekDayLabelsApart();
  }

  lemma WeekDayLabelsClean()
    ensures forall i :: 0 <= i < |WeekDayLabels| ==>
              SingleBit(WeekDayLabels[i].0) && ',' !in WeekDayLabels[i].1 && WeekDayLabels[i].1 != NotSpecified
  {
  }

  lemma WeekDayLabelsApart()
    ensures forall i, j :: 0 <= i < j < |WeekDayLabels| ==> WeekDayLabels[i].0 < WeekDayLabels[j].0
    ensures forall i, j :: 0 <= i < j < |WeekDayLabels| ==> WeekDayLabels[i].1 != WeekDayLabels[j].1
  {
  }

  /**
   * The labels of the table entries whose flag is set in the mask, in table
   * order (lines 52-54 of each formatter).
   */
  function SelectedLabels(t: LabelTable, mask: bv32): (r: seq<string>)
    ensures IsSubseq(r, Labels(t))
    decreases |t|
  {
    if t == [] then []
    else
      var rest := SelectedLabels(t[1..], mask);
      assert Labels(t)[1..] == Labels(t[1..]);
      if IsChecked(mask, t[0].0) then [t[0].1] + rest
      else rest
  }

  /** A zero mask selects nothing. */
  lemma {:induction false} SelectedOfZero(t: LabelTable)
    ensures SelectedLabels(t, 0) == []
    decreases |t|
  {
    if t != [] {
      SelectedOfZero(t[1..]);
    }
  }

  /** Selected labels inherit the table's freedom from commas and from "Belirtilmedi". */
  lemma {:induction false} SelectedLabelsClean(t: LabelTable, mask: bv32)
    requires WellFormed(t)
    ensures forall k :: 0 <= k < |SelectedLabels(t, mask)| ==>
      ',' !in SelectedLabels(t, mask)[k] && SelectedLabels(t, mask)[k] != NotSpecified
    decreases |t|
  {
    if t != [] {
      SelectedLabelsClean(t[1..], mask);
    }
  }

  /** An entry's label is listed exactly when its flag is set in the mask. */
  lemma {:induction false} SelectedIff(t: LabelTable, mask: bv32, i: int)
    requires WellFormed(t) && 0 <= i < |t|
    ensures t[i].1 in SelectedLabels(t, mask) <==> IsChecked(mask, t[i].0)
    decreases |t|
  {
    var rest := SelectedLabels(t[1..], mask);
    SubseqMembers(rest, Labels(t[1..]));
    if i == 0 {
      assert t[0].1 !in Labels(t[1..]);
    } else {
      SelectedIff(t[1..], mask, i - 1);
      assert t[i].1 != t[0].1;
    }
  }

  /** A mask that contains another lists every label the smaller one lists, in the same order. */
  lemma {:induction false} SelectedMonotone(t: LabelTable, a: bv32, b: bv32)
    requires a & !b == 0
    ensures IsSubseq(SelectedLabels(t, a), SelectedLabels(t, b))
    decreases |t|
  {
    if t != [] {
      SelectedMonotone(t[1..], a, b);
      var ra := SelectedLabels(t[1..], a);
      var rb := SelectedLabels(t[1..], b);
      if IsChecked(a, t[0].0) {
        assert IsChecked(b, t[0].0);
        assert ([t[0].1] + ra)[1..] == ra;
      } else if IsChecked(b, t[0].0) {
        assert ([t[0].1] + rb)[1..] == rb;
      }
    }
  }

  /** A join of labels free of commas never reads "Belirtilmedi". */
  lemma JoinIsNotNotSpecified(ls: seq<string>)
    requires ls != []
    requires forall k :: 0 <= k < |ls| ==> ',' !in ls[k] && ls[k] != NotSpecified
    ensures Join(ls, Separator) != NotSpecified
  {
    if |ls| > 1 {
      var j := Join(ls, Separator);
      assert j == ls[0] + (Separator + Join(ls[1..], Separator));
      assert j[|ls[0]|] == ',';
      assert ',' !in NotSpecified;
    }
  }

  /**
   * The shared body of the three formatters: "Belirtilmedi" for a missing or
   * zero mask, otherwise the selected labels joined by ", ", or
   * "Belirtilmedi" when none is selected.
   */
  function FormatFlags(t: LabelTable, mask: Option<bv32>): (r: string)
    requires WellFormed(t)
    ensures r == NotSpecified <==> mask.None? || SelectedLabels(t, mask.value) == []
    ensures r != NotSpecified ==> r == Join(SelectedLabels(t, mask.value), Separator)
  {
    if mask.None? || mask.value == 0 then
      if mask.Some? then SelectedOfZero(t); NotSpecified else NotSpecified
    else
      var labels := SelectedLabels(t, mask.value);
      if |labels| > 0 then
        SelectedLabelsClean(t, mask.value);
        JoinIsNotNotSpecified(labels);
        Join(labels, Separator)
      else NotSpecified
  }

  /** formatOffDaysEnum. */
  function FormatOffDays(offDays: Option<bv32>): (r: string)
    ensures r == NotSpecified <==> offDays.None? || SelectedLabels(WeekDayLabels, offDays.value) == []
    ensures forall i :: 0 <= i < |WeekDayLabels| && offDays.Some? ==>
      IsChecked(offDays.value, WeekDayLabels[i].0) ==> Includes(r, WeekDayLabels[i].1)
  {
    WeekDayLabelsWellFormed();
    var r := FormatFlags(WeekDayLabels, offDays);
    ListedLabelsAppear(WeekDayLabels, offDays);
    r
  }

  /** formatEducationLevelsEnum. */
  function FormatEducationLevels(levels: Option<bv32>): (r: string)
    ensures r == NotSpecified <==> levels.None? || SelectedLabels(EducationLevelLabels, levels.value) == []
    ensures forall i :: 0 <= i < |EducationLevelLabels| && levels.Some? ==>
      IsChecked(levels.value, EducationLevelLabels[i].0) ==> Includes(r, EducationLevelLabels[i].1)
  {
    EducationLevelLabelsWellFormed();
    var r := FormatFlags(EducationLevelLabels, levels);
    ListedLabelsAppear(EducationLevelLabels, levels);
    r
  }

  /** formatWeekDaysEnum: the same rendering as formatOffDaysEnum. */
  function FormatWeekDays(days: Option<bv32>): (r: string)
    ensures r == FormatOffDays(days)
  {
    WeekDayLabelsWellFormed();
    FormatFlags(WeekDayLabels, days)
  }

  /** Every label of a set flag appears in the rendered text. */
  lemma ListedLabelsAppear(t: LabelTable, mask: Option<bv32>)
    requires WellFormed(t)
    ensures forall i :: 0 <= i < |t| && mask.Some? && IsChecked(mask.value, t[i].0) ==>
      Includes(FormatFlags(t, mask), t[i].1)
  {
    forall i | 0 <= i < |t| && mask.Some? && IsChecked(mask.value, t[i].0)
      ensures Includes(FormatFlags(t, mask), t[i].1)
    {
      var labels := SelectedLabels(t, mask.value);
      SelectedIff(t, mask.value, i);
      JoinIncludesParts(labels, t[i].1);
    }
  }

  lemma {:induction false} JoinIncludesParts(ls: seq<string>, l: string)
    requires l in ls
    ensures Includes(Join(ls, Separator), l)
    decreases |ls|
  {
    var j := Join(ls, Separator);
    if l == ls[0] {
      assert OccursAt(l, j, 0);
    } else {
      var tail := Join(ls[1..], Separator);
      JoinIncludesParts(ls[1..], l);
      var k :| 0 <= k <= |tail| && OccursAt(l, tail, k);
      var off := |ls[0]| + |Separator|;
      assert j == (ls[0] + Separator) + tail;
      assert j[off + k..off + k + |l|] == tail[k..k + |l|];
      assert OccursAt(l, j, off + k);
    }
  }
}
