/**
 * Sections as the project manager sees them: the serialisation filter that
 * drops empty beats, the beat labels of a bar (`wrapSection`'s
 * `beatLabels`) and the upgrade of the legacy `audioTrackStart` field.
 */
module SectionFormat {
  import opened Common
  import opened Text

  datatype TimeSignature = TimeSignature(top: int, bottom: int)

  /** A stored sound; its inner fields play no part here. */
  type SoundData = string

  /** One beat of a track section as `rawData()` yields it. */
  datatype BeatData = BeatData(data: seq<SoundData>, subdivision: int, meta: Option<map<string, string>>)

  /** A section: its settings and, per track id, the raw beats of that track. An unset name is "". */
  datatype Section = Section(
    id: int, name: string, timeSignature: TimeSignature, bpm: int, length: int,
    barSubdivision: Option<string>, tracks: map<string, seq<BeatData>>)

  /** What `serializeSection` writes: the settings and the filtered beats of the project's tracks. */
  datatype SerializedSection = SerializedSection(
    name: string, timeSignature: TimeSignature, length: int, bpm: int,
    barSubdivision: Option<string>, tracks: map<string, seq<BeatData>>)

  /** A beat worth storing: it has sounds, a subdivision other than 4, or non-empty metadata. */
  predicate KeepBeat(b: BeatData)
  {
    |b.data| > 0 || b.subdivision != 4 || (b.meta.Some? && |b.meta.value| > 0)
  }

  /** The beats of one track as serialised. */
  function SerializeBeats(beats: seq<BeatData>): (r: seq<BeatData>)
    ensures forall b | b in beats :: b in r <==> KeepBeat(b)
    ensures forall b | b in r :: b in beats
  {
    Filter(beats, KeepBeat)
  }

  /** All sounds of a list of beats, beat after beat. */
  function Sounds(beats: seq<BeatData>): seq<SoundData>
  {
    if beats == [] then [] else beats[0].data + Sounds(beats[1..])
  }

  /** Serialising keeps beat order: the stored beats are a subsequence of the section's. */
  lemma SerializeBeatsKeepsOrder(beats: seq<BeatData>)
    ensures IsSubsequence(SerializeBeats(beats), beats)
  {
    FilterIsSubsequence(beats, KeepBeat);
  }

  /** Serialising loses no sound: only beats without sounds are dropped. */
  lemma {:induction false} SerializeBeatsKeepsSounds(beats: seq<BeatData>)
    ensures Sounds(SerializeBeats(beats)) == Sounds(beats)
  {
    if beats != [] {
      var rest := SerializeBeats(beats[1..]);
      SerializeBeatsKeepsSounds(beats[1..]);
      assert SerializeBeats(beats) == (if KeepBeat(beats[0]) then [beats[0]] else []) + rest;
      if KeepBeat(beats[0]) {
        assert ([beats[0]] + rest)[1..] == rest;
      } else {
        assert beats[0].data == [] && SerializeBeats(beats) == rest;
      }
    }
  }

  // ----- beat labels -----

  function Max(a: int, b: int): int { if a < b then b else a }

  /** `1, 2, …, n`. */
  function Counting(n: nat): (r: seq<int>)
    ensures |r| == n && forall i | 0 <= i < n :: r[i] == i + 1
  {
    seq(n, i => i + 1)
  }

  /**
   * The labels array as slots: slot 0 and every slot past the values are
   * empty, slot k holds `values[k-1]`; the array has at least 13 slots.
   */
  function Sparse(values: seq<int>): seq<Option<int>>
  {
    seq(Max(13, |values| + 1), k requires 0 <= k => if 1 <= k <= |values| then Some(values[k - 1]) else None)
  }

  lemma SparseSlots(values: seq<int>)
    ensures |Sparse(values)| == Max(13, |values| + 1)
    ensures Sparse(values)[0] == None
    ensures forall k | 1 <= k <= |values| :: Sparse(values)[k] == Some(values[k - 1])
    ensures forall k | |values| < k < |Sparse(values)| :: Sparse(values)[k] == None
  {
  }

  /** A fresh `new Array(13)`. */
  lemma SparseEmpty()
    ensures Sparse([]) == seq(13, _ => None)
  {
  }

  /** `labels[index] = v` on a JavaScript array: slots up to `index` are created empty when needed. */
  function Store(labels: seq<Option<int>>, index: nat, v: int): (r: seq<Option<int>>)
    ensures |r| == Max(|labels|, index + 1) && r[index] == Some(v)
    ensures forall k | 0 <= k < |r| && k != index :: r[k] == if k < |labels| then labels[k] else None
  {
    if index < |labels| then labels[index := Some(v)]
    else labels + seq(index - |labels|, _ => None) + [Some(v)]
  }

  lemma StoreNext(values: seq<int>, v: int)
    ensures Store(Sparse(values), |values| + 1, v) == Sparse(values + [v])
  {
    SparseSlots(values);
    SparseSlots(values + [v]);
    var a := Store(Sparse(values), |values| + 1, v);
    var b := Sparse(values + [v]);
    assert |a| == |b|;
    forall k | 0 <= k < |a|
      ensures a[k] == b[k]
    {
      if 1 <= k <= |values| {
        assert (values + [v])[k - 1] == values[k - 1];
      }
    }
  }

  /** `Number(part)` used as a loop count: a number that is not a plain digit string never counts down. */
  function Count(part: string): nat
  {
    match ToNumber(part)
    case Num(v) => v
    case NaN => 0
  }

  function Counts(parts: seq<string>): (r: seq<nat>)
    ensures |r| == |parts| && forall i | 0 <= i < |parts| :: r[i] == Count(parts[i])
  {
    seq(|parts|, i requires 0 <= i < |parts| => Count(parts[i]))
  }

  /** The labels of a bar split into groups of the given sizes: `1..c1`, then `1..c2`, … */
  function LabelsOf(counts: seq<nat>): (r: seq<int>)
    ensures |r| == Sum(counts)
  {
    if counts == [] then [] else Counting(counts[0]) + LabelsOf(counts[1..])
  }

  function Sum(counts: seq<nat>): nat
  {
    if counts == [] then 0 else counts[0] + Sum(counts[1..])
  }

  /** Where group `i` starts: the sizes of the groups before it, added up. */
  function GroupStart(counts: seq<nat>, i: nat): (s: nat)
    requires i < |counts|
    ensures s + counts[i] <= Sum(counts)
  {
    if i == 0 then 0 else counts[0] + GroupStart(counts[1..], i - 1)
  }

  lemma {:induction false} LabelsOfSnoc(counts: seq<nat>, c: nat)
    ensures LabelsOf(counts + [c]) == LabelsOf(counts) + Counting(c)
  {
    if counts == [] {
      assert [c][1..] == [];
    } else {
      assert (counts + [c])[1..] == counts[1..] + [c];
      LabelsOfSnoc(counts[1..], c);
    }
  }

  /** Group `i` (from 0) occupies the labels from its start on, numbered `1..counts[i]`. */
  lemma {:induction false} LabelsOfGroup(counts: seq<nat>, i: nat)
    requires i < |counts|
    ensures LabelsOf(counts)[GroupStart(counts, i)..GroupStart(counts, i) + counts[i]] == Counting(counts[i])
  {
    var all := LabelsOf(counts);
    assert all == Counting(counts[0]) + LabelsOf(counts[1..]);
    if i == 0 {
      assert all[0..counts[0]] == Counting(counts[0]);
    } else {
      LabelsOfGroup(counts[1..], i - 1);
      var g := GroupStart(counts[1..], i - 1);
      assert counts[1..][i - 1] == counts[i];
      assert all[counts[0] + g..counts[0] + g + counts[i]] == LabelsOf(counts[1..])[g..g + counts[i]];
    }
  }

  /**
   * In the labels array of a subdivided bar, the `j`-th beat of group `i`
   * sits in slot `GroupStart + j` and carries `j`; the slots after the last
   * group are empty.
   */
  lemma GroupLabel(counts: seq<nat>, i: nat, j: nat)
    requires i < |counts| && 1 <= j <= counts[i]
    ensures Sparse(LabelsOf(counts))[GroupStart(counts, i) + j] == Some(j)
    ensures forall k | Sum(counts) < k < |Sparse(LabelsOf(counts))| :: Sparse(LabelsOf(counts))[k] == None
  {
    LabelsOfGroup(counts, i);
    SparseSlots(LabelsOf(counts));
    var g := GroupStart(counts, i);
    assert LabelsOf(counts)[g..g + counts[i]][j - 1] == Counting(counts[i])[j - 1];
  }

  /** One more label in the current group: the array gains exactly the next slot. */
  lemma GroupStep(done: seq<int>, iBeat: nat)
    requires 1 <= iBeat
    ensures Store(Sparse(done + Counting(iBeat - 1)), |done| + iBeat, iBeat) == Sparse(done + Counting(iBeat))
  {
    StoreNext(done + Counting(iBeat - 1), iBeat);
    assert Counting(iBeat) == Counting(iBeat - 1) + [iBeat];
    assert done + Counting(iBeat) == done + Counting(iBeat - 1) + [iBeat];
  }

  /** A finished group: the labels so far are those of one more part. */
  lemma PartStep(parts: seq<string>, i: nat)
    requires i < |parts|
    ensures LabelsOf(Counts(parts[..i])) + Counting(Count(parts[i])) == LabelsOf(Counts(parts[..i + 1]))
  {
    assert Counts(parts[..i + 1]) == Counts(parts[..i]) + [Count(parts[i])];
    LabelsOfSnoc(Counts(parts[..i]), Count(parts[i]));
  }

  /**
   * `wrapSection`'s `beatLabels()`: with a bar subdivision "c1+c2+…" the
   * slots from 1 on number each group from 1; otherwise slot i holds i for
   * 1 <= i <= top.
   */
  method BeatLabels(barSubdivision: Option<string>, top: int) returns (labels: seq<Option<int>>)
    ensures barSubdivision.Some? && barSubdivision.value != "" ==>
      labels == Sparse(LabelsOf(Counts(Split(barSubdivision.value, '+'))))
    ensures !(barSubdivision.Some? && barSubdivision.value != "") ==>
      labels == Sparse(Counting(if top > 0 then top else 0))
  {
    if barSubdivision.Some? && barSubdivision.value != "" {
      labels := GroupedLabels(Split(barSubdivision.value, '+'));
    } else {
      labels := CountedLabels(top);
    }
  }

  /** The subdivided branch of `beatLabels()`: each part's beats numbered from 1, one slot after another from slot 1. */
  method GroupedLabels(parts: seq<string>) returns (labels: seq<Option<int>>)
    ensures labels == Sparse(LabelsOf(Counts(parts)))
  {
    labels := seq(13, _ => None);
    SparseEmpty();
    var index := 1;
    var i := 0;
    while i < |parts|
      invariant 0 <= i <= |parts|
      invariant labels == Sparse(LabelsOf(Counts(parts[..i])))
      invariant index == |LabelsOf(Counts(parts[..i]))| + 1
    {
      ghost var done := LabelsOf(Counts(parts[..i]));
      var iBeat := 1;
      var count := Count(parts[i]);
      while count > 0
        invariant 1 <= iBeat && count + iBeat - 1 == Count(parts[i])
        invariant labels == Sparse(done + Counting(iBeat - 1))
        invariant index == |done| + iBeat
      {
        GroupStep(done, iBeat);
        labels := Store(labels, index, iBeat);
        index := index + 1;
        iBeat := iBeat + 1;
        count := count - 1;
      }
      PartStep(parts, i);
      i := i + 1;
    }
    assert parts[..i] == parts;
  }

  /** The plain branch of `beatLabels()`: slot i holds i for 1 <= i <= top. */
  method CountedLabels(top: int) returns (labels: seq<Option<int>>)
    ensures labels == Sparse(Counting(if top > 0 then top else 0))
  {
    labels := seq(13, _ => None);
    SparseEmpty();
    var i := 1;
    while i <= top
      invariant 1 <= i <= (if top > 0 then top else 0) + 1
      invariant labels == Sparse(Counting(i - 1))
    {
      GroupStep([], i);
      assert [] + Counting(i - 1) == Counting(i - 1) && [] + Counting(i) == Counting(i);
      labels := Store(labels, i, i);
      i := i + 1;
    }
  }

  // ----- legacy audio track start -----

  /** The stored `audioTrackStart` of sections saved by older versions. */
  datatype LegacyStart = NoLegacyStart | TextStart(text: string) | ListStart(values: seq<JsNumber>)

  /** The audio fields of a stored section: the legacy start and the current `audioTrack.start`. */
  datatype AudioFields = AudioFields(audioTrackStart: LegacyStart, audioTrackStartList: Option<seq<JsNumber>>)

  /** `Number` applied to each piece. */
  function ToNumbers(parts: seq<string>): (r: seq<JsNumber>)
    ensures |r| == |parts| && forall i | 0 <= i < |parts| :: r[i] == ToNumber(parts[i])
  {
    seq(|parts|, i requires 0 <= i < |parts| => ToNumber(parts[i]))
  }

  /**
   * The backward-compatible load step: a text start "a:b:c" becomes the list
   * of its numbers, and any legacy start becomes `audioTrack.start` and is
   * removed; without one the fields are left as they are.
   */
  function UpgradeAudioTrackStart(f: AudioFields): (r: AudioFields)
    ensures r.audioTrackStart == NoLegacyStart
    ensures f.audioTrackStart == NoLegacyStart ==> r == f
    ensures f.audioTrackStart.ListStart? ==> r.audioTrackStartList == Some(f.audioTrackStart.values)
    ensures f.audioTrackStart.TextStart? ==>
      var pieces := Split(f.audioTrackStart.text, ':');
      && r.audioTrackStartList.Some? && |r.audioTrackStartList.value| == |pieces|
      && forall i | 0 <= i < |pieces| :: r.audioTrackStartList.value[i] == ToNumber(pieces[i])
  {
    match f.audioTrackStart
    case NoLegacyStart => f
    case TextStart(text) => AudioFields(NoLegacyStart, Some(ToNumbers(Split(text, ':'))))
    case ListStart(values) => AudioFields(NoLegacyStart, Some(values))
  }

  function NatStrings(ns: seq<nat>): (r: seq<string>)
    ensures |r| == |ns| && forall i | 0 <= i < |ns| :: r[i] == NatToString(ns[i])
  {
    seq(|ns|, i requires 0 <= i < |ns| => NatToString(ns[i]))
  }

  /** A start written as "a:b:…" from natural numbers is read back as exactly those numbers. */
  lemma LegacyTextStartRoundTrip(ns: seq<nat>, audioTrack: Option<seq<JsNumber>>)
    requires |ns| >= 1
    ensures UpgradeAudioTrackStart(AudioFields(TextStart(Join(NatStrings(ns), ':')), audioTrack)).audioTrackStartList
      == Some(seq(|ns|, i requires 0 <= i < |ns| => Num(ns[i])))
  {
    var parts := NatStrings(ns);
    forall i | 0 <= i < |parts|
      ensures ':' !in parts[i]
    {
      assert IsDigits(parts[i]);
    }
    SplitJoin(parts, ':');
    forall i | 0 <= i < |ns|
      ensures ToNumber(parts[i]) == Num(ns[i])
    {
      DigitsValueOfNatToString(ns[i]);
    }
    assert ToNumbers(Split(Join(parts, ':'), ':')) == seq(|ns|, i requires 0 <= i < |ns| => Num(ns[i]));
  }
}
