/**
 * The chord/active-region resolver of the fretboard viewer, apart from the
 * marking itself: the range of a chord marker, the walk over a track
 * section's beats that collects the sounds in that range, the identifiers
 * those sounds make active, and the beat-synchronisation lookup.
 *
 * A track section is a sequence of beats; `nextBeat(beat)` is the next beat
 * of the sequence and `beat(bar, beat)` the first beat at that position.
 */
module ChordRegion {
  import opened Common
  import opened FretboardTiming
  import opened Diagram

  /** The note type of a sound as the resolver distinguishes it. */
  datatype NoteKind = Ghost | Slide(endName: string, endOctave: int) | Plain

  /** A sound of a beat: its string, its start within the beat (0 to 1) and its note. */
  datatype ChordSound = ChordSound(str: string, start: real, kind: NoteKind, name: string, octave: int)

  datatype Beat = Beat(bar: int, beat: int, subdivision: int, sounds: seq<ChordSound>)

  /** A marker position `[bar, beat, subbeat?]`. */
  datatype ChordStart = ChordStart(bar: int, beat: int, subbeat: Option<int>)

  /** A chord marker of a section's meta data: its start and its root note on a string. */
  datatype Chord = Chord(start: ChordStart, root: string, str: string, octave: int)

  /** The end of a range; NaN when it was computed from an absent subbeat. */
  datatype Bound = Key(value: int) | NaN

  /** `x || 1` for an optional subbeat: absent and 0 both read as 1. */
  function SubbeatOrOne(subbeat: Option<int>): int {
    if subbeat.None? || subbeat.value == 0 then 1 else subbeat.value
  }

  /** Key of a beat's own position (subbeat 0). */
  function BeatKey(b: Beat): int {
    PositionKey(b.bar, b.beat, 0)
  }

  /** Position of a sound: beat key + start * subdivision + 1. */
  function SoundPosition(b: Beat, s: ChordSound): real {
    BeatKey(b) as real + s.start * b.subdivision as real + 1.0
  }

  predicate InRange(b: Beat, s: ChordSound, lo: int, hi: int) {
    lo as real <= SoundPosition(b, s) < hi as real
  }

  /** `startRange` of a marker: its key, with the subbeat defaulting to 1. */
  function StartRange(c: Chord): int {
    PositionKey(c.start.bar, c.start.beat, SubbeatOrOne(c.start.subbeat))
  }

  /**
   * `endRange` of the marker at `pos` (the `indexOf` result, -1 when absent):
   * the next marker's start with its subbeat taken as it is, or
   * `[length + 1, 1, 1]` after the last marker.
   */
  function EndRange(chords: seq<Chord>, pos: int, length: int): (r: Bound)
    requires -1 <= pos < |chords|
    ensures pos + 1 == |chords| ==> r == Key(PositionKey(length + 1, 1, 1))
    ensures pos + 1 < |chords| ==> (r.NaN? <==> chords[pos + 1].start.subbeat.None?)
    ensures pos + 1 < |chords| && chords[pos + 1].start.subbeat.Some? ==>
      var next := chords[pos + 1].start;
      r == Key(PositionKey(next.bar, next.beat, next.subbeat.value))
  {
    if pos + 1 < |chords| then
      var next := chords[pos + 1].start;
      if next.subbeat.None? then NaN else Key(PositionKey(next.bar, next.beat, next.subbeat.value))
    else
      Key(PositionKey(length + 1, 1, 1))
  }

  /** When the next marker gives its subbeat (and it is not 0), a region ends exactly where the next begins. */
  lemma RegionsAdjacent(chords: seq<Chord>, pos: int, length: int)
    requires 0 <= pos && pos + 1 < |chords|
    requires chords[pos + 1].start.subbeat.Some? && chords[pos + 1].start.subbeat.value != 0
    ensures EndRange(chords, pos, length) == Key(StartRange(chords[pos + 1]))
  {
  }

  /**
   * An explicit subbeat 0 on the next marker is read as 1 where that marker's
   * region starts, but as 0 where this region ends: the position with key
   * `next key + 0` belongs to neither region.
   */
  lemma ZeroSubbeatLeavesGap(chords: seq<Chord>, pos: int, length: int)
    requires 0 <= pos && pos + 1 < |chords| && chords[pos + 1].start.subbeat == Some(0)
    ensures EndRange(chords, pos, length) == Key(StartRange(chords[pos + 1]) - 1)
  {
  }

  /** `trackSection.beat(bar, beat)`: the first beat at that position, if any. */
  function FindBeat(beats: seq<Beat>, bar: int, beat: int): (r: Option<nat>)
    ensures r.Some? ==> r.value < |beats| && beats[r.value].bar == bar && beats[r.value].beat == beat
    ensures r.Some? ==> forall j | 0 <= j < r.value :: !(beats[j].bar == bar && beats[j].beat == beat)
    ensures r.None? ==> forall j | 0 <= j < |beats| :: !(beats[j].bar == bar && beats[j].beat == beat)
  {
    if beats == [] then None
    else if beats[0].bar == bar && beats[0].beat == beat then Some(0)
    else match FindBeat(beats[1..], bar, beat)
      case None => None
      case Some(k) => Some(k + 1)
  }

  /** The sounds of beat `b` that lie in `[lo, hi)`, in order (the `filter` of the walk). */
  function InRangeSounds(b: Beat, lo: int, hi: int): (r: seq<ChordSound>)
    ensures forall x :: x in r <==> x in b.sounds && InRange(b, x, lo, hi)
  {
    Filter(b.sounds, s => InRange(b, s, lo, hi))
  }

  /** Index of the first beat from `i` on whose key reaches `hi`, or the end of the section. */
  function WalkEnd(beats: seq<Beat>, i: nat, hi: int): (r: nat)
    requires i <= |beats|
    ensures i <= r <= |beats|
    ensures forall j | i <= j < r :: BeatKey(beats[j]) < hi
    ensures r < |beats| ==> BeatKey(beats[r]) >= hi
    decreases |beats| - i
  {
    if i == |beats| || BeatKey(beats[i]) >= hi then i else WalkEnd(beats, i + 1, hi)
  }

  /** The sounds the walk from beat `i` collects for the range `[lo, hi)`. */
  function Collected(beats: seq<Beat>, i: nat, lo: int, hi: Bound): seq<ChordSound>
    requires i <= |beats|
    decreases |beats| - i
  {
    if i == |beats| || hi.NaN? || BeatKey(beats[i]) >= hi.value then []
    else InRangeSounds(beats[i], lo, hi.value) + Collected(beats, i + 1, lo, hi)
  }

  /** All sounds of the beats the walk visits, in order. */
  function WalkedSounds(beats: seq<Beat>, i: nat, hi: int): seq<ChordSound>
    requires i <= |beats|
    decreases |beats| - i
  {
    if i == |beats| || BeatKey(beats[i]) >= hi then [] else beats[i].sounds + WalkedSounds(beats, i + 1, hi)
  }

  /**
   * A sound is collected iff it belongs to a beat the walk visits (from `i` up to
   * the first beat whose key reaches `hi`) and its position lies in `[lo, hi)`;
   * with a NaN end nothing is collected.
   */
  lemma {:induction false} CollectedMembership(beats: seq<Beat>, i: nat, lo: int, hi: Bound, x: ChordSound)
    requires i <= |beats|
    ensures hi.NaN? ==> Collected(beats, i, lo, hi) == []
    ensures hi.Key? ==>
              (x in Collected(beats, i, lo, hi) <==>
               exists j | i <= j < WalkEnd(beats, i, hi.value) :: x in beats[j].sounds && InRange(beats[j], x, lo, hi.value))
    decreases |beats| - i
  {
    if hi.Key? && i < |beats| && BeatKey(beats[i]) < hi.value {
      CollectedMembership(beats, i + 1, lo, hi, x);
      var rest := Collected(beats, i + 1, lo, hi);
      var here := InRangeSounds(beats[i], lo, hi.value);
      assert Collected(beats, i, lo, hi) == here + rest;
      if x in here + rest {
        if x in here {
          assert x in beats[i].sounds && InRange(beats[i], x, lo, hi.value);
        }
      }
    }
  }

  /** Collection keeps beat order and, within a beat, sound order. */
  lemma {:induction false} CollectedInOrder(beats: seq<Beat>, i: nat, lo: int, hi: int)
    requires i <= |beats|
    ensures IsSubsequence(Collected(beats, i, lo, Key(hi)), WalkedSounds(beats, i, hi))
    decreases |beats| - i
  {
    if i < |beats| && BeatKey(beats[i]) < hi {
      CollectedInOrder(beats, i + 1, lo, hi);
      FilterIsSubsequence(beats[i].sounds, s => InRange(beats[i], s, lo, hi));
      SubsequenceConcat(InRangeSounds(beats[i], lo, hi), beats[i].sounds,
                        Collected(beats, i + 1, lo, Key(hi)), WalkedSounds(beats, i + 1, hi));
    }
  }

  /**
   * The walk of `setChord`: start at `beat(bar, beat)` and, while there is a
   * beat whose key is below `hi`, append its in-range sounds and move on.
   */
  method CollectChordSounds(beats: seq<Beat>, bar: int, beat: int, lo: int, hi: Bound)
    returns (sounds: seq<ChordSound>)
    ensures FindBeat(beats, bar, beat).None? ==> sounds == []
    ensures FindBeat(beats, bar, beat).Some? ==> sounds == Collected(beats, FindBeat(beats, bar, beat).value, lo, hi)
  {
    sounds := [];
    var first := FindBeat(beats, bar, beat);
    if first.None? {
      return;
    }
    var i: nat := first.value;
    while i < |beats| && hi.Key? && BeatKey(beats[i]) < hi.value
      invariant first.value <= i <= |beats|
      invariant sounds + Collected(beats, i, lo, hi) == Collected(beats, first.value, lo, hi)
      decreases |beats| - i
    {
      sounds := sounds + InRangeSounds(beats[i], lo, hi.value);
      i := i + 1;
    }
  }

  /** The part of a section `setChord` reads: its length in bars and its track sections by track id. */
  datatype ChordSection = ChordSection(length: int, tracks: map<string, seq<Beat>>)

  /**
   * The sounds of the region of `chord` (at index `pos` of `chords`, -1 when it
   * is not there): the walk from the marker's beat over `[StartRange, EndRange)`.
   */
  function RegionSounds(beats: seq<Beat>, chord: Chord, chords: seq<Chord>, pos: int, length: int): seq<ChordSound>
    requires -1 <= pos < |chords|
  {
    match FindBeat(beats, chord.start.bar, chord.start.beat)
    case None => []
    case Some(i) => Collected(beats, i, StartRange(chord), EndRange(chords, pos, length))
  }

  /** A marker whose next marker has no subbeat gets a NaN end, and its region is empty. */
  lemma MissingNextSubbeatCollectsNothing(beats: seq<Beat>, chord: Chord, chords: seq<Chord>, pos: int, length: int)
    requires -1 <= pos && pos + 1 < |chords| && chords[pos + 1].start.subbeat.None?
    ensures RegionSounds(beats, chord, chords, pos, length) == []
  {
  }

  /** `#<string>_<name><octave>` of a sound's note. */
  function NoteId(s: ChordSound): Loc {
    NoteLoc(s.str, s.name, s.octave)
  }

  /** `#<string>_<name><octave>` of a slide's end note. */
  function SlideEndId(s: ChordSound): Loc
    requires s.kind.Slide?
  {
    NoteLoc(s.str, s.kind.endName, s.kind.endOctave)
  }

  /** The identifiers a chord region marks active: every non-ghost sound's note, and every slide's end note. */
  function ActiveIds(sounds: seq<ChordSound>): set<Loc> {
    (set s | s in sounds && !s.kind.Ghost? :: NoteId(s)) + (set s | s in sounds && s.kind.Slide? :: SlideEndId(s))
  }

  /** The `ids` set of `setChord`, built one sound at a time. */
  method ActiveIdSet(sounds: seq<ChordSound>) returns (ids: set<Loc>)
    ensures ids == ActiveIds(sounds)
  {
    ids := {};
    for k := 0 to |sounds|
      invariant ids == ActiveIds(sounds[..k])
    {
      var s := sounds[k];
      assert sounds[..k + 1] == sounds[..k] + [s];
      if !s.kind.Ghost? {
        ids := ids + {NoteId(s)};
      }
      if s.kind.Slide? {
        ids := ids + {SlideEndId(s)};
      }
    }
    assert sounds[..|sounds|] == sounds;
  }

  /** The marker starts at this bar and beat. */
  predicate StartsAt(c: Chord, bar: int, beat: int) {
    c.start.bar == bar && c.start.beat == beat
  }

  /** `chords.find(...)` from index `i`: the first marker at this bar and beat. */
  function FindChord(chords: seq<Chord>, bar: int, beat: int, i: nat): (r: Option<nat>)
    requires i <= |chords|
    ensures r.Some? ==> i <= r.value < |chords| && StartsAt(chords[r.value], bar, beat)
    ensures r.Some? ==> forall j | i <= j < r.value :: !StartsAt(chords[j], bar, beat)
    ensures r.None? ==> forall j | i <= j < |chords| :: !StartsAt(chords[j], bar, beat)
    decreases |chords| - i
  {
    if i == |chords| then None
    else if StartsAt(chords[i], bar, beat) then Some(i)
    else FindChord(chords, bar, beat, i + 1)
  }

  /** A beat-boundary playback event: the section's markers (if it has any), the beat and its times. */
  datatype BeatEvent = BeatEvent(chords: Option<seq<Chord>>, bar: int, beat: int,
                                 startTime: real, eventTime: real, duration: real)

  /** The update `beatSync` schedules: `setChord` for the marker at `index` after `delayMs`. */
  datatype ChordUpdate = ChordUpdate(index: nat, delayMs: int)

  /** Seconds from the event to the marker's subbeat, one subbeat being a quarter of the beat. */
  function SyncTime(evt: BeatEvent, c: Chord): real {
    (evt.startTime - evt.eventTime) + (SubbeatOrOne(c.start.subbeat) - 1) as real * evt.duration / 4.0
  }

  /**
   * `beatSync`: when the section has markers and one starts at the event's bar
   * and beat, the first such marker is set `parseInt(time*1000) - 10` ms later.
   */
  function BeatSync(evt: BeatEvent): (r: Option<ChordUpdate>)
    ensures r.None? <==> evt.chords.None? ||
                         forall j | 0 <= j < |evt.chords.value| :: !StartsAt(evt.chords.value[j], evt.bar, evt.beat)
    ensures r.Some? ==> var i := r.value.index;
              && i < |evt.chords.value| && StartsAt(evt.chords.value[i], evt.bar, evt.beat)
              && (forall j | 0 <= j < i :: !StartsAt(evt.chords.value[j], evt.bar, evt.beat))
              && r.value.delayMs == Truncate(SyncTime(evt, evt.chords.value[i]) * 1000.0) - 10
  {
    if evt.chords.None? then None
    else match FindChord(evt.chords.value, evt.bar, evt.beat, 0)
      case None => None
      case Some(i) => Some(ChordUpdate(i, Truncate(SyncTime(evt, evt.chords.value[i]) * 1000.0) - 10))
  }
}
