/**
 * The fretboard viewer's playback-highlight scheduler and chord marking.
 *
 * The viewer keeps, for each string, the note it last highlighted
 * (`stringsMap`) and the ghost band it last highlighted (`ghostMap`), the fret
 * of the last single note (`lastPlayedFret`, initially 5) and the attached
 * diagram (`diagramElem`). When a sound is scheduled the viewer does not act at
 * once: it hands back explicit task records, one per `setTimeout` callback or
 * `onended` handler, and each record is carried out later by the handler
 * method of its kind, in whatever order the timer and the audio source fire
 * them. The visible outputs are the class marks on diagram elements and the
 * list of blinks.
 */
module FretboardViewer {
  import opened Common
  import opened FretboardTiming
  import opened Diagram
  import opened ChordRegion

  /** What `stringsMap[string]` records: the note's start time, its element and, once ended, the end time. */
  datatype StringState = StringState(start: real, elem: Elem, end: Option<real>)

  /** What `ghostMap[string]` records: the ghost's start time and the first fret of its band. */
  datatype GhostState = GhostState(start: real, fret: int)

  /** A note of a sequence; `name` is empty when only its fret is known. */
  datatype SubNote = SubNote(name: string, octave: int, fret: int, startTime: real, duration: real)

  /** The sound of a scheduled audio event, by type; other types schedule nothing. */
  datatype Sound =
    | Single(str: string, name: string, octave: int, fret: int, startTime: real)
    | Sequence(str: string, notes: seq<SubNote>)
    | GhostNote(str: string, explicitFret: Option<int>, startTime: real)
    | OtherSound

  /** The deferred work of one callback. */
  datatype Task =
    | SingleOn(str: string, elem: Elem, start: real, fret: int)
    | SingleEnded(str: string, elem: Elem, start: real)
    | StepOn(elems: set<Elem>, prev: set<Elem>)
    | StepsOff(elems: set<Elem>)
    | GhostOn(str: string, band: set<Elem>, start: real, fret: int)
    | GhostEnded(str: string, band: set<Elem>, start: real, fret: int)

  /** When a task runs: after a timer delay in ms, or when the sound's audio source ends. */
  datatype Trigger = After(delayMs: int) | SourceEnded

  datatype Scheduled = Scheduled(trigger: Trigger, task: Task)

  /** A note restarting on the same element less than this many seconds after it ended blinks. */
  const RetriggerWindow: real := 0.012

  /** `lastPlayedFret` before any single note was highlighted. */
  const InitialFret: int := 5

  /** The trailing clear of a sequence runs this many ms before its last note ends. */
  const SequenceLeadMs: int := 5

  /** The elements a sequence note selects: by note id when it has a name, else by string and fret. */
  function SubElems(d: DiagramId, str: string, n: SubNote): set<Elem> {
    if n.name != "" then {Elem(d, NoteLoc(str, n.name, n.octave))} else {Elem(d, FretLoc(str, n.fret))}
  }

  /** The three fret labels `fret`, `fret+1`, `fret+2` of a string. */
  function GhostBand(d: DiagramId, str: string, fret: int): (band: set<Elem>)
    ensures forall e :: e in band <==>
              e.diagram == d && e.loc.FretLoc? && e.loc.str == str && fret <= e.loc.fret <= fret + 2
  {
    {Elem(d, FretLoc(str, fret)), Elem(d, FretLoc(str, fret + 1)), Elem(d, FretLoc(str, fret + 2))}
  }

  /** The start of a single note on the same element blinks when the previous note ended less than 12 ms earlier. */
  predicate Retrigger(prev: map<string, StringState>, str: string, elem: Elem, now: real) {
    && str in prev
    && prev[str].elem == elem
    && prev[str].end.Some?
    && prev[str].end.value != 0.0  // the source tests `end` for truthiness
    && now - prev[str].end.value < RetriggerWindow
  }

  /** The timer task of note k of a sequence: highlight it, unhighlighting note k-1 first. */
  function StepTask(d: DiagramId, str: string, notes: seq<SubNote>, k: nat, now: real): Scheduled
    requires k < |notes|
  {
    Scheduled(After(DelayTime(notes[k].startTime, now)),
              StepOn(SubElems(d, str, notes[k]), if k == 0 then {} else SubElems(d, str, notes[k - 1])))
  }

  /** Marks after one step of a sequence: the previous note's elements lose `highlight`, then this note's gain it. */
  function StepMarks(marks: set<Mark>, elems: set<Elem>, prev: set<Elem>): set<Mark> {
    WithClass(WithoutClass(marks, prev, Highlight), elems, Highlight)
  }

  /** Marks after the step tasks 0..k of one sequence have fired in order. */
  function StepsFired(marks: set<Mark>, d: DiagramId, str: string, notes: seq<SubNote>, k: nat): set<Mark>
    requires k < |notes|
  {
    if k == 0 then StepMarks(marks, SubElems(d, str, notes[0]), {})
    else StepMarks(StepsFired(marks, d, str, notes, k - 1), SubElems(d, str, notes[k]), SubElems(d, str, notes[k - 1]))
  }

  /**
   * Firing a sequence's steps in order never highlights two of its notes at
   * once: after step k exactly the elements of note k are highlighted among the
   * sequence's elements, and after the trailing clear none is.
   */
  lemma {:induction false} SequenceHighlightsOneNote(marks: set<Mark>, d: DiagramId, str: string, notes: seq<SubNote>, k: nat)
    requires k < |notes|
    requires forall j, e | 0 <= j < |notes| && e in SubElems(d, str, notes[j]) :: Mark(e, Highlight) !in marks
    ensures forall j, e | 0 <= j < |notes| && e in SubElems(d, str, notes[j]) ::
              Mark(e, Highlight) in StepsFired(marks, d, str, notes, k) <==> e in SubElems(d, str, notes[k])
    ensures k == |notes| - 1 ==>
              forall j, e | 0 <= j < |notes| && e in SubElems(d, str, notes[j]) ::
                Mark(e, Highlight) !in WithoutClass(StepsFired(marks, d, str, notes, k), SubElems(d, str, notes[k]), Highlight)
  {
    if k > 0 {
      SequenceHighlightsOneNote(marks, d, str, notes, k - 1);
    }
  }

  /**
   * What `setChord` leaves on diagram `d`: the active chord cleared, `root`
   * marked as the root and the elements with the given ids as active; the
   * marks of other diagrams and other classes are untouched.
   */
  lemma ShowChord(before: set<Mark>, d: DiagramId, root: Elem, ids: set<Loc>)
    requires root.diagram == d
    ensures var r := WithClass(WithClass(Cleared(before, d, {Active, Root}), {root}, Root), set l | l in ids :: Elem(d, l), Active);
      && (forall m: Mark | !(m.elem.diagram == d && m.cls in {Active, Root}) :: m in r <==> m in before)
      && (forall e: Elem | e.diagram == d :: Mark(e, Root) in r <==> e == root)
      && (forall e: Elem | e.diagram == d :: Mark(e, Active) in r <==> e.loc in ids)
  {
    var r := WithClass(WithClass(Cleared(before, d, {Active, Root}), {root}, Root), set l | l in ids :: Elem(d, l), Active);
    forall e: Elem | e.diagram == d && e.loc in ids
      ensures Mark(e, Active) in r
    {
      assert e == Elem(d, e.loc);
    }
  }

  class Viewer {
    var diagramElem: Option<DiagramId>
    var lastPlayedFret: int
    var stringsMap: map<string, StringState>
    var ghostMap: map<string, GhostState>
    /** The class marks of every diagram element. */
    var marks: set<Mark>
    /** The blinks shown so far, in order. */
    var blinks: seq<Blink>

    /** Only one element of a diagram is ever marked as the chord root. */
    ghost predicate Valid()
      reads this
    {
      OneRootPerDiagram(marks)
    }

    constructor ()
      ensures Valid()
      ensures diagramElem == None && lastPlayedFret == InitialFret
      ensures stringsMap == map[] && ghostMap == map[] && marks == {} && blinks == []
    {
      diagramElem := None;
      lastPlayedFret := InitialFret;
      stringsMap := map[];
      ghostMap := map[];
      marks := {};
      blinks := [];
    }

    /** `activate(containerElem)`: attach a diagram, or detach with `None`. */
    method Activate(d: Option<DiagramId>)
      modifies this`diagramElem
      ensures diagramElem == d
    {
      diagramElem := d;
    }

    /**
     * `_bassSoundScheduled`: the callbacks a sound on track `trackId` sets up at
     * audio time `now`, as task records. Nothing is scheduled without an
     * attached diagram or for another track than the current one.
     */
    method Schedule(trackId: string, currentTrackId: string, sound: Sound, now: real) returns (tasks: seq<Scheduled>)
      ensures diagramElem.None? || trackId != currentTrackId || sound.OtherSound? ==> tasks == []
      ensures diagramElem.Some? && trackId == currentTrackId && sound.Single? ==>
                var elem := Elem(diagramElem.value, NoteLoc(sound.str, sound.name, sound.octave));
                tasks == [Scheduled(After(DelayTime(sound.startTime, now)), SingleOn(sound.str, elem, sound.startTime, sound.fret)),
                          Scheduled(SourceEnded, SingleEnded(sound.str, elem, sound.startTime))]
      ensures diagramElem.Some? && trackId == currentTrackId && sound.GhostNote? ==>
                var fret := if sound.explicitFret.Some? then sound.explicitFret.value else lastPlayedFret;
                var band := GhostBand(diagramElem.value, sound.str, fret);
                tasks == [Scheduled(After(DelayTime(sound.startTime, now)), GhostOn(sound.str, band, sound.startTime, fret)),
                          Scheduled(SourceEnded, GhostEnded(sound.str, band, sound.startTime, fret))]
      ensures diagramElem.Some? && trackId == currentTrackId && sound.Sequence? && sound.notes == [] ==> tasks == []
      ensures diagramElem.Some? && trackId == currentTrackId && sound.Sequence? && sound.notes != [] ==>
                var d, notes := diagramElem.value, sound.notes;
                var last := notes[|notes| - 1];
                && |tasks| == |notes| + 1
                && (forall k | 0 <= k < |notes| :: tasks[k] == StepTask(d, sound.str, notes, k, now))
                && tasks[|notes|] == Scheduled(After(DelayTime(last.startTime + last.duration, now) - SequenceLeadMs),
                                               StepsOff(SubElems(d, sound.str, last)))
    {
      tasks := [];
      if diagramElem.None? || trackId != currentTrackId {
        return;
      }
      var d := diagramElem.value;
      match sound {
        case Single(str, name, octave, fret, startTime) =>
          var elem := Elem(d, NoteLoc(str, name, octave));
          tasks := [Scheduled(After(DelayTime(startTime, now)), SingleOn(str, elem, startTime, fret)),
                    Scheduled(SourceEnded, SingleEnded(str, elem, startTime))];
        case Sequence(str, notes) =>
          var prevElems: set<Elem> := {};
          for k := 0 to |notes|
            invariant |tasks| == k
            invariant forall j | 0 <= j < k :: tasks[j] == StepTask(d, str, notes, j, now)
            invariant prevElems == if k == 0 then {} else SubElems(d, str, notes[k - 1])
          {
            var elems := SubElems(d, str, notes[k]);
            tasks := tasks + [Scheduled(After(DelayTime(notes[k].startTime, now)), StepOn(elems, prevElems))];
            prevElems := elems;
          }
          if notes == [] {
            // `lastNote` is undefined and the handler throws before the trailing clear
            return;
          }
          var last := notes[|notes| - 1];
          var steps := tasks;
          tasks := steps + [Scheduled(After(DelayTime(last.startTime + last.duration, now) - SequenceLeadMs),
                                      StepsOff(prevElems))];
          assert forall k | 0 <= k < |notes| :: tasks[k] == steps[k];
        case GhostNote(str, explicitFret, startTime) =>
          var fret := if explicitFret.Some? then explicitFret.value else lastPlayedFret;
          var band := GhostBand(d, str, fret);
          tasks := [Scheduled(After(DelayTime(startTime, now)), GhostOn(str, band, startTime, fret)),
                    Scheduled(SourceEnded, GhostEnded(str, band, startTime, fret))];
        case OtherSound =>
      }
    }

    /**
     * Timer callback of a single note: blink on a quick retrigger of the same
     * element, then record `{start, elem}` (dropping any end time), highlight the
     * element and remember its fret.
     */
    method OnSingleStart(str: string, elem: Elem, start: real, fret: int, now: real)
      requires Valid()
      modifies this`stringsMap, this`marks, this`blinks, this`lastPlayedFret
      ensures Valid()
      ensures stringsMap == old(stringsMap)[str := StringState(start, elem, None)]
      ensures marks == WithClass(old(marks), {elem}, Highlight)
      ensures lastPlayedFret == fret
      ensures blinks == old(blinks) + if Retrigger(old(stringsMap), str, elem, now) then [Blink({elem})] else []
    {
      if Retrigger(stringsMap, str, elem, now) {
        blinks := blinks + [Blink({elem})];
      }
      stringsMap := stringsMap[str := StringState(start, elem, None)];
      marks := WithClass(marks, {elem}, Highlight);
      lastPlayedFret := fret;
    }

    /**
     * `onended` of a single note. The end time is recorded only if this note is
     * still the string's latest; the highlight is removed if so or if the string
     * has moved to another element; otherwise a newer start of the same element
     * owns the highlight and this stale end only blinks it. Without a record for
     * the string the handler throws and changes nothing.
     */
    method OnSingleEnded(str: string, elem: Elem, start: real, now: real)
      requires Valid()
      modifies this`stringsMap, this`marks, this`blinks
      ensures Valid()
      ensures str !in old(stringsMap) ==>
                stringsMap == old(stringsMap) && marks == old(marks) && blinks == old(blinks)
      ensures str in old(stringsMap) ==>
                var rec := old(stringsMap)[str];
                && stringsMap == (if start == rec.start then old(stringsMap)[str := rec.(end := Some(now))] else old(stringsMap))
                && (start == rec.start || elem != rec.elem ==>
                      marks == WithoutClass(old(marks), {elem}, Highlight) && blinks == old(blinks))
                && (start != rec.start && elem == rec.elem ==>
                      marks == old(marks) && blinks == old(blinks) + [Blink({elem})])
    {
      if str !in stringsMap {
        return;
      }
      var rec := stringsMap[str];
      if start == rec.start {
        stringsMap := stringsMap[str := rec.(end := Some(now))];
      }
      if start == rec.start || elem != rec.elem {
        marks := WithoutClass(marks, {elem}, Highlight);
      } else {
        blinks := blinks + [Blink({elem})];
      }
    }

    /** Timer callback of a sequence note: unhighlight the previous note's elements, then highlight this one's. */
    method OnSequenceStep(elems: set<Elem>, prev: set<Elem>)
      requires Valid()
      modifies this`marks
      ensures Valid()
      ensures marks == StepMarks(old(marks), elems, prev)
    {
      marks := WithoutClass(marks, prev, Highlight);
      marks := WithClass(marks, elems, Highlight);
    }

    /** Trailing timer callback of a sequence: unhighlight its last note's elements. */
    method OnSequenceEnd(elems: set<Elem>)
      requires Valid()
      modifies this`marks
      ensures Valid()
      ensures marks == WithoutClass(old(marks), elems, Highlight)
    {
      marks := WithoutClass(marks, elems, Highlight);
    }

    /** Timer callback of a ghost note: mark its band `highlight` and `x` and record `{start, fret}`. */
    method OnGhostStart(str: string, band: set<Elem>, start: real, fret: int)
      requires Valid()
      modifies this`marks, this`ghostMap
      ensures Valid()
      ensures marks == WithClass(WithClass(old(marks), band, Highlight), band, X)
      ensures ghostMap == old(ghostMap)[str := GhostState(start, fret)]
      ensures stringsMap == old(stringsMap) && lastPlayedFret == old(lastPlayedFret)
    {
      marks := WithClass(WithClass(marks, band, Highlight), band, X);
      ghostMap := ghostMap[str := GhostState(start, fret)];
    }

    /**
     * `onended` of a ghost note: clear `highlight` and `x` from its band when it
     * is still the string's latest ghost or the latest ghost has another fret;
     * otherwise only blink the band. Without a record for the string the handler
     * throws and changes nothing.
     */
    method OnGhostEnded(str: string, band: set<Elem>, start: real, fret: int)
      requires Valid()
      modifies this`marks, this`blinks
      ensures Valid()
      ensures ghostMap == old(ghostMap) && stringsMap == old(stringsMap) && lastPlayedFret == old(lastPlayedFret)
      ensures str !in ghostMap ==> marks == old(marks) && blinks == old(blinks)
      ensures str in ghostMap ==>
                var g := ghostMap[str];
                && (start == g.start || fret != g.fret ==>
                      marks == WithoutClass(WithoutClass(old(marks), band, Highlight), band, X) && blinks == old(blinks))
                && (start != g.start && fret == g.fret ==>
                      marks == old(marks) && blinks == old(blinks) + [Blink(band)])
    {
      if str !in ghostMap {
        return;
      }
      var g := ghostMap[str];
      if start == g.start || fret != g.fret {
        marks := WithoutClass(WithoutClass(marks, band, Highlight), band, X);
      } else {
        blinks := blinks + [Blink(band)];
      }
    }

    /**
     * Carries out one scheduled task, whenever its trigger fires: the
     * handler of its kind does the work. The attached diagram plays no part,
     * since the record already names the elements it acts on.
     */
    method Run(task: Task, now: real)
      requires Valid()
      modifies this`stringsMap, this`ghostMap, this`marks, this`blinks, this`lastPlayedFret
      ensures Valid()
      ensures diagramElem == old(diagramElem)
      ensures task.SingleOn? ==>
        && stringsMap == old(stringsMap)[task.str := StringState(task.start, task.elem, None)]
        && marks == WithClass(old(marks), {task.elem}, Highlight) && lastPlayedFret == task.fret
        && blinks == old(blinks) + (if Retrigger(old(stringsMap), task.str, task.elem, now) then [Blink({task.elem})] else [])
        && ghostMap == old(ghostMap)
      ensures task.SingleEnded? ==>
        && ghostMap == old(ghostMap) && lastPlayedFret == old(lastPlayedFret)
        && (task.str !in old(stringsMap) ==>
              stringsMap == old(stringsMap) && marks == old(marks) && blinks == old(blinks))
        && (task.str in old(stringsMap) ==>
              var rec := old(stringsMap)[task.str];
              && stringsMap == (if task.start == rec.start then old(stringsMap)[task.str := rec.(end := Some(now))] else old(stringsMap))
              && (task.start == rec.start || task.elem != rec.elem ==>
                    marks == WithoutClass(old(marks), {task.elem}, Highlight) && blinks == old(blinks))
              && (task.start != rec.start && task.elem == rec.elem ==>
                    marks == old(marks) && blinks == old(blinks) + [Blink({task.elem})]))
      ensures task.StepOn? || task.StepsOff? ==>
        && stringsMap == old(stringsMap) && ghostMap == old(ghostMap)
        && lastPlayedFret == old(lastPlayedFret) && blinks == old(blinks)
      ensures task.StepOn? ==> marks == StepMarks(old(marks), task.elems, task.prev)
      ensures task.StepsOff? ==> marks == WithoutClass(old(marks), task.elems, Highlight)
      ensures task.GhostOn? ==>
        && marks == WithClass(WithClass(old(marks), task.band, Highlight), task.band, X)
        && ghostMap == old(ghostMap)[task.str := GhostState(task.start, task.fret)]
        && stringsMap == old(stringsMap) && lastPlayedFret == old(lastPlayedFret) && blinks == old(blinks)
      ensures task.GhostEnded? ==>
        && ghostMap == old(ghostMap) && stringsMap == old(stringsMap) && lastPlayedFret == old(lastPlayedFret)
        && (task.str !in old(ghostMap) ==> marks == old(marks) && blinks == old(blinks))
        && (task.str in old(ghostMap) ==>
              var g := old(ghostMap)[task.str];
              && (task.start == g.start || task.fret != g.fret ==>
                    marks == WithoutClass(WithoutClass(old(marks), task.band, Highlight), task.band, X) && blinks == old(blinks))
              && (task.start != g.start && task.fret == g.fret ==>
                    marks == old(marks) && blinks == old(blinks) + [Blink(task.band)]))
    {
      match task {
        case SingleOn(str, elem, start, fret) => OnSingleStart(str, elem, start, fret, now);
        case SingleEnded(str, elem, start) => OnSingleEnded(str, elem, start, now);
        case StepOn(elems, prev) => OnSequenceStep(elems, prev);
        case StepsOff(elems) => OnSequenceEnd(elems);
        case GhostOn(str, band, start, fret) => OnGhostStart(str, band, start, fret);
        case GhostEnded(str, band, start, fret) => OnGhostEnded(str, band, start, fret);
      }
    }

    /** `clearActiveChord`: with a diagram attached, no element of it keeps `active` or `root`. */
    method ClearActiveChord()
      requires Valid()
      modifies this`marks
      ensures Valid()
      ensures diagramElem.None? ==> marks == old(marks)
      ensures diagramElem.Some? ==> marks == Cleared(old(marks), diagramElem.value, {Active, Root})
    {
      if diagramElem.None? {
        return;
      }
      // `querySelector('.root')` finds the one root element Valid() allows
      marks := Cleared(marks, diagramElem.value, {Active, Root});
    }

    /** `clearDiagram`: with a diagram attached, no element of it keeps `active`, `root` or `highlight`. */
    method ClearDiagram()
      requires Valid()
      modifies this`marks
      ensures Valid()
      ensures diagramElem.None? ==> marks == old(marks)
      ensures diagramElem.Some? ==> marks == Cleared(old(marks), diagramElem.value, {Active, Root, Highlight})
      ensures diagramElem.Some? ==>
                forall m | m in marks :: !(m.elem.diagram == diagramElem.value && m.cls in {Active, Root, Highlight})
    {
      if diagramElem.None? {
        return;
      }
      ClearActiveChord();
      marks := Cleared(marks, diagramElem.value, {Highlight});
    }

    /**
     * `setChord`: clear the active chord; then, with a diagram attached and a
     * root named, mark the root element `root` and every element whose id the
     * marker's region makes active `active`. The region's sounds come from the
     * walk over the track's beats from the marker's start to the next marker.
     */
    method SetChord(section: ChordSection, trackId: string, chords: seq<Chord>, pos: int, chord: Chord)
      requires Valid()
      requires -1 <= pos < |chords|
      requires 0 <= pos ==> chords[pos] == chord
      modifies this`marks
      ensures Valid()
      ensures diagramElem.None? ==> marks == old(marks)
      ensures diagramElem.Some? ==>
                var d := diagramElem.value;
                var root := Elem(d, NoteLoc(chord.str, chord.root, chord.octave));
                && (forall m: Mark | !(m.elem.diagram == d && m.cls in {Active, Root}) :: m in marks <==> m in old(marks))
                && (forall e: Elem | e.diagram == d :: Mark(e, Root) in marks <==> chord.root != "" && e == root)
                && (forall e: Elem | e.diagram == d ::
                      Mark(e, Active) in marks <==>
                        && chord.root != ""
                        && trackId in section.tracks
                        && e.loc in ActiveIds(RegionSounds(section.tracks[trackId], chord, chords, pos, section.length)))
    {
      ClearActiveChord();
      if diagramElem.None? || chord.root == "" {
        return;
      }
      var d := diagramElem.value;
      var root := Elem(d, NoteLoc(chord.str, chord.root, chord.octave));
      marks := WithClass(marks, {root}, Root);
      if trackId !in section.tracks {
        // `trackSection.beat` throws on the missing track section
        ShowChord(old(marks), d, root, {});
        assert WithClass(marks, set l | l in {} :: Elem(d, l), Active) == marks;
        return;
      }
      var sounds := CollectChordSounds(section.tracks[trackId], chord.start.bar, chord.start.beat,
                                       StartRange(chord), EndRange(chords, pos, section.length));
      var ids := ActiveIdSet(sounds);
      ShowChord(old(marks), d, root, ids);
      if ids != {} {
        marks := WithClass(marks, set l | l in ids :: Elem(d, l), Active);
      } else {
        assert WithClass(marks, set l | l in ids :: Elem(d, l), Active) == marks;
      }
    }
  }
}
