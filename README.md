# bass-app: fretboard viewer and project bookkeeping, modelled in Dafny

This project models two parts of the bass-app web application and proves
properties of them.

**The fretboard viewer** (`src/js/app/fretboard-viewer.service.js`) highlights
the notes being played on a fretboard diagram. When a sound is scheduled
(`_bassSoundScheduled`) the viewer does not act at once. It sets up timer
callbacks and `onended` handlers. These callbacks keep per-string records:
- `stringsMap`: the last note highlighted on each string;
- `ghostMap`: the last ghost band highlighted on each string;
- `lastPlayedFret`: the fret of the last single note, initially 5.

The callbacks also add and remove the CSS classes `highlight`, `x`, `active`
and `root` on diagram elements, and make elements "blink".

In the model, `Viewer.Schedule` returns these callbacks as task records. Each
record says when it runs (after a delay in ms, or when the audio source
ends). A handler method per kind of task carries it out. The verifier
therefore covers every order in which the timer and the audio fire them.

The chord resolver has two parts:
- `setChord` marks the root of a chord marker and every note sounding in the
  marker's region. It walks the track section's beats over a half-open range
  of position keys `bar*1000 + beat*10 + subbeat`.
- `beatSync` finds the marker that starts at a beat and computes when to set it.

**The project manager** (`src/js/app/project-manager.service.js`) keeps the
open project's tracks, sections and playlists. `ProjectLocalStore` saves
them under keys of the form `bd.projects`, `bd.project.P`, `bd.playlists.P`
and `bd.section.P.S`.

The store is modelled as a map from a key datatype to parsed values. The key
texts are proved to read back to their keys, so distinct keys never share a
text.

The model covers:
- fresh ids (`generateItemId`);
- moving the opened project to the front of the index;
- track insertion grouped by type, with per-type id counters;
- track, section and playlist removal;
- the store's maintenance of the sections index;
- section serialisation and `_filterProjectTracks`;
- the beat labels of a bar;
- playlist renumbering;
- the stream-format choice (`findBestStream`);
- the upgrade of the legacy `audioTrackStart` field.

Behaviour of the code that the model keeps exactly as written:
- `removeTrack` and `deleteSection` splice at `findIndex(...)` without checking for -1. An unknown id therefore removes the LAST element (`ProjectLists.SpliceOutMissingDropsLast`). `deletePlaylist` does check.
- `removeTrack` deletes `this.section[trackId]` before deleting the `tracksMap` entry. Without an open section this throws after the splice, so `tracksMap` keeps the id.
- In `setChord` the start subbeat defaults to 1, but the end subbeat is taken as it is from the next marker. A next marker without a subbeat gives a NaN end range, and then nothing is collected (`ChordRegion.MissingNextSubbeatCollectsNothing`). A next marker with subbeat 0 ends the region at subbeat 0 while the next region starts at subbeat 1, so the position between is in no region (`ChordRegion.ZeroSubbeatLeavesGap`).
- The single-note retrigger blink tests the previous `end` for truthiness, so an end time of exactly 0 counts as no end.
- A handler that would throw (for example `onended` for a string with no record) is modelled as changing nothing.
- A new manager has no project (`this.project` is unset) until `createProject` or a successful `loadProject`. Until then every operation that reads the project throws, and the model keeps only what happened before the throw. `addTrack` has by then set an unset type counter to 0. `deleteSection` has by then dropped the section's saved data when the store has a project open. The other operations change nothing, and the ones that return a value return none.
- `loadProject` resets the per-type id counters before it reads the project. When the project has no saved configuration, `getProject` throws. Only the counters have been reset at that point, and the model keeps that.
- Where the code and the specification differ on callbacks after a diagram is detached, the model follows the code. The code checks `diagramElem` only when it schedules. A callback scheduled earlier still acts on the elements it captured, even after `activate` switched or detached the diagram. Element values carry the diagram they belong to, so this is visible in the model.
- A failed `loadProject` keeps the old tracks but resets the counters. The next `addTrack` of a type whose first id is still in use issues that id again (`ProjectManager.ResetCountersReissue`). The manager's invariant therefore does not hold after a failed load, and `LoadProject` does not promise it on that path.
- The id counters `idCouter` are module-level in the source. The model holds them as a field of the manager, which is the only object using them.

Modules, in dependency order:
- `Common`: `Option`, first index, filter, subsequence.
- `Text`: `String(n)`, `Number(s)`, `split`/`join`.
- `FretboardTiming`, `Diagram`, `ChordRegion`, `FretboardViewer`.
- `ProjectLists`: `byId`, `generateItemId`, `splice`.
- `SectionFormat`, `StreamSelection`.
- `ProjectStore`: class `ProjectLocalStore`.
- `ProjectManager`: class `Manager`.

## Model

| member | source | states |
|---|---|---|
| FretboardTiming.Truncate | src/js/app/fretboard-viewer.service.js:77-79 | `parseInt` of a number truncates toward zero: the result is within 1 of the input, on the side of zero |
| FretboardTiming.DelayTime | src/js/app/fretboard-viewer.service.js:77-79 | `delayTime` is the whole number of ms to the event, truncated toward zero: non-negative for future events, non-positive for past ones, within 1 ms of the exact delay |
| FretboardTiming.TruncateMonotonic | src/js/app/fretboard-viewer.service.js:78 | truncation preserves order |
| FretboardTiming.DelayTimeMonotonic | src/js/app/fretboard-viewer.service.js:77-79 | a later event never gets a shorter delay |
| FretboardTiming.DelayTimeZero | src/js/app/fretboard-viewer.service.js:77-79 | the delay is 0 exactly when the event is less than 1 ms away in either direction |
| FretboardTiming.PositionKeyOrder | src/js/app/fretboard-viewer.service.js:280-281 | within beats 0..99 and subbeats 0..9, comparing position keys is comparing (bar, beat, subbeat) lexicographically, in both directions |
| FretboardTiming.PositionKeyRadixLimit | src/js/app/fretboard-viewer.service.js:280-281 | beyond the radix, distinct positions share a key (beat 100 of a bar is beat 0 of the next) |
| Diagram.WithClass | src/js/app/fretboard-viewer.service.js:141-143 | `classList.add` over elements: exactly the old marks plus that class on those elements |
| Diagram.WithoutClass | src/js/app/fretboard-viewer.service.js:135-137 | `classList.remove` over elements: exactly the old marks minus that class on those elements |
| Diagram.Cleared | src/js/app/fretboard-viewer.service.js:233-253 | removing classes from every element of one diagram: a mark survives iff it is on another diagram or of another class |
| Diagram.ClearedIdempotent | src/js/app/fretboard-viewer.service.js:245-253 | clearing twice equals clearing once |
| FretboardViewer.GhostBand | src/js/app/fretboard-viewer.service.js:166-169 | the ghost band is exactly the fret labels `f`, `f+1`, `f+2` of the string on the diagram |
| FretboardViewer.SequenceHighlightsOneNote | src/js/app/fretboard-viewer.service.js:125-152 | steps of a sequence fired in order leave exactly the current sub-note's elements highlighted among the sequence's elements; after the trailing clear none is |
| FretboardViewer.ShowChord | src/js/app/fretboard-viewer.service.js:255-315 | after `setChord`, on the diagram: `root` is on exactly the root element, `active` on exactly the elements with active ids; marks of other diagrams and classes are untouched |
| FretboardViewer.Viewer.constructor | src/js/app/fretboard-viewer.service.js:62-65 | no diagram, `lastPlayedFret` 5, empty string and ghost maps |
| FretboardViewer.Viewer.Activate | src/js/app/fretboard-viewer.service.js:229-231 | attaching or detaching sets the diagram and nothing else |
| FretboardViewer.Viewer.Schedule | src/js/app/fretboard-viewer.service.js:70-225 | nothing is scheduled without a diagram or for another track; a single or ghost note gets a start timer at `delayTime(startTime)` and an `onended` task; a ghost's fret is the explicit one or `lastPlayedFret`; a sequence gets one step per sub-note (each unhighlighting the previous sub-note) and a final clear of the last sub-note at `delayTime(last.startTime + last.duration) - 5` |
| FretboardViewer.Viewer.Run | src/js/app/fretboard-viewer.service.js:80-207 | any scheduled task, run whenever its trigger fires, has exactly its handler's effect: for each task kind, the new string and ghost records, highlights, blinks and last played fret, including the no-record, stale-start and other-element/other-fret paths of `onended`; the attached diagram is left alone and the invariant holds |
| FretboardViewer.Viewer.OnSingleStart | src/js/app/fretboard-viewer.service.js:85-105 | the string's record becomes exactly `{start, elem}`, the element gets `highlight`, `lastPlayedFret` becomes the fret; it blinks iff the previous record had the same element and a truthy end less than 0.012 s before now |
| FretboardViewer.Viewer.OnSingleEnded | src/js/app/fretboard-viewer.service.js:107-121 | the end is recorded only when the start matches the record; `highlight` is removed iff the start matches or the element differs, otherwise the element only blinks; with no record nothing changes |
| FretboardViewer.Viewer.OnSequenceStep | src/js/app/fretboard-viewer.service.js:134-144 | the previous sub-note's elements lose `highlight` before this sub-note's gain it |
| FretboardViewer.Viewer.OnSequenceEnd | src/js/app/fretboard-viewer.service.js:148-152 | the final clear removes `highlight` from the last sub-note's elements only |
| FretboardViewer.Viewer.OnGhostStart | src/js/app/fretboard-viewer.service.js:171-181 | the band gets `highlight` and `x`; `ghostMap[string]` becomes `{start, fret}`; `stringsMap` and `lastPlayedFret` are untouched |
| FretboardViewer.Viewer.OnGhostEnded | src/js/app/fretboard-viewer.service.js:183-207 | `highlight` and `x` leave the band iff the start matches the record or the fret differs, otherwise the band only blinks; ghost maps, string maps and `lastPlayedFret` are untouched |
| FretboardViewer.Viewer.ClearActiveChord | src/js/app/fretboard-viewer.service.js:233-243 | with a diagram, no element of it keeps `active` or `root`; without one nothing changes |
| FretboardViewer.Viewer.ClearDiagram | src/js/app/fretboard-viewer.service.js:245-253 | with a diagram, no element of it keeps `active`, `root` or `highlight`; without one nothing changes |
| FretboardViewer.Viewer.SetChord | src/js/app/fretboard-viewer.service.js:255-315 | without a diagram nothing changes; with one, marks of other classes and diagrams are kept, `root` is on exactly the root element (if the chord names a root), `active` on exactly the elements whose ids the region's sounds give |
| ChordRegion.EndRange | src/js/app/fretboard-viewer.service.js:271-281 | the end is `[length+1, 1, 1]` after the last marker; otherwise it is NaN iff the next marker has no subbeat, and when it has one it is the key of the next marker's bar, beat and raw subbeat |
| ChordRegion.ZeroSubbeatLeavesGap | src/js/app/fretboard-viewer.service.js:267-281 | a next marker with subbeat 0 ends this region one key before the next region starts, so the position between belongs to neither |
| ChordRegion.RegionsAdjacent | src/js/app/fretboard-viewer.service.js:267-281 | when the next marker gives a non-zero subbeat, a region ends exactly where the next one starts |
| ChordRegion.FindBeat | src/js/app/fretboard-viewer.service.js:285 | `beat(bar, beat)` is the first beat at that position, or none when there is none |
| ChordRegion.InRangeSounds | src/js/app/fretboard-viewer.service.js:289-293 | a beat's sound is kept iff its position lies in `[startRange, endRange)` |
| ChordRegion.WalkEnd | src/js/app/fretboard-viewer.service.js:286 | the walk stops at the end of the section or at the first beat whose key reaches the end |
| ChordRegion.CollectedMembership | src/js/app/fretboard-viewer.service.js:284-296 | a sound is collected iff it belongs to a beat the walk visits and its position lies in the range; with a NaN end nothing is collected |
| ChordRegion.CollectedInOrder | src/js/app/fretboard-viewer.service.js:284-296 | collection keeps beat order and sound order |
| ChordRegion.CollectChordSounds | src/js/app/fretboard-viewer.service.js:284-296 | the while loop computes the collection from the marker's beat (nothing when the beat is missing) |
| ChordRegion.MissingNextSubbeatCollectsNothing | src/js/app/fretboard-viewer.service.js:278-292 | a next marker without a subbeat makes the region empty |
| ChordRegion.ActiveIdSet | src/js/app/fretboard-viewer.service.js:298-308 | the id set holds each non-ghost sound's note and each slide's end note, duplicates collapsed |
| ChordRegion.FindChord | src/js/app/fretboard-viewer.service.js:321-323 | `find` returns the first marker starting at the bar and beat, or none |
| ChordRegion.BeatSync | src/js/app/fretboard-viewer.service.js:317-333 | nothing is scheduled iff there are no markers or none starts at the beat; otherwise the first such marker is set after `parseInt(time*1000) - 10` ms, the subbeat defaulting to 1 |
| Common.FirstWhere | src/js/app/project-manager.service.js:244-248 | `findIndex`: the first index satisfying the predicate, or -1 iff none does |
| Common.Filter | src/js/app/project-manager.service.js:629-632 | `filter`: exactly the elements satisfying the predicate, no longer than the input |
| Common.FilterMultiplicity | src/js/app/project-manager.service.js:629-632 | `filter` keeps every occurrence of a satisfying element and no occurrence of any other |
| Common.FirstWhereFilter | src/js/app/project-manager.service.js:329-337 | `find` on a filtered list finds what `find` with both conditions finds on the whole list |
| Common.FilterIsSubsequence | src/js/app/project-manager.service.js:629-632 | a filter keeps the input's order |
| Text.NatToString | src/js/app/project-manager.service.js:268 | `String(n)` is a non-empty digit string, one digit iff n < 10, starting with '0' only for 0 (no leading zeros) |
| Text.DigitsValueOfNatToString | src/js/app/project-manager.service.js:268 | reading the numeral of n back gives n |
| Text.NatToStringInjective | src/js/app/project-manager.service.js:268 | distinct numbers have distinct numerals |
| Text.ToNumber | src/js/app/project-manager.service.js:752 | `Number(s)` is a number iff `s` is a digit string (other texts are NaN here) |
| Text.Split | src/js/app/project-manager.service.js:801 | `split` gives at least one piece and no piece holds the separator |
| Text.JoinSplit | src/js/app/project-manager.service.js:801 | joining the pieces of a split gives the text back |
| Text.SplitJoin | src/js/app/project-manager.service.js:44-52 | splitting a join of separator-free pieces gives the pieces back |
| Text.NumeralAfterSeparator | src/js/app/project-manager.service.js:268 | a prefix, a non-digit separator and a numeral are read back uniquely |
| ProjectLists.GenerateItemId | src/js/app/project-manager.service.js:236-242 | the id is at least 1, above every id of the list, hence unused, and is 1 or one more than an id of the list |
| ProjectLists.IdFold | src/js/app/project-manager.service.js:237-241 | the reduce never goes below its start, ends above every id, and ends at its start or one past an id |
| ProjectLists.SpliceIndex | src/js/app/project-manager.service.js:320-321 | `splice` counts a negative start from the end and clamps it |
| ProjectLists.SpliceOutFound | src/js/app/project-manager.service.js:605-606 | splicing out a found element keeps the others in order and removes exactly that element (multiset) |
| ProjectLists.SpliceOutMissingDropsLast | src/js/app/project-manager.service.js:320-321 | splicing at a missed `findIndex` removes the last element |
| ProjectLists.SpliceOutKeepsUnique | src/js/app/project-manager.service.js:605-606 | a one-element splice keeps ids unique and adds no element |
| ProjectLists.SpliceOutIsSubsequence | src/js/app/project-manager.service.js:605-606 | a one-element splice keeps the others in order |
| ProjectLists.SpliceOutRemovesId | src/js/app/project-manager.service.js:831-834 | with unique ids, splicing at `findIndex(byId(id))` leaves no element with that id |
| ProjectLists.MoveToFrontKeeps | src/js/app/project-manager.service.js:69-77 | moving an element to the front keeps the multiset and unique ids |
| ProjectStore.KeyPieces | src/js/app/project-manager.service.js:44-52 | every key's text is the dot-separated pieces `bd`, a kind, and its ids |
| ProjectStore.ParseKeyText | src/js/app/project-manager.service.js:44-52 | every key is read back from its text |
| ProjectStore.KeyTextInjective | src/js/app/project-manager.service.js:44-52 | distinct keys have distinct texts |
| ProjectStore.KeepSaved | src/js/app/project-manager.service.js:130-134 | the saved sections index keeps, in the given order, exactly the given records whose id is already in the project |
| ProjectStore.KeepSavedLacks | src/js/app/project-manager.service.js:130-134 | saving an index without an id never brings that id back |
| ProjectStore.WithoutProject | src/js/app/project-manager.service.js:153-163 | deleting a project with a saved configuration removes exactly the keys of its configuration, its playlists and its sections; every other key, the index included, keeps its value; without a saved configuration nothing is removed |
| ProjectStore.IndexWithoutRemoves | src/js/app/project-manager.service.js:165-172 | an indexed project's entry is dropped and the others keep their order; an unindexed id changes nothing; with unique ids no entry for it remains |
| ProjectStore.ProjectLocalStore.constructor | src/js/app/project-manager.service.js:38-42 | the projects list is the saved index |
| ProjectStore.ProjectLocalStore.UpdateProjectsOrder | src/js/app/project-manager.service.js:69-77 | the project moves to index 0, the others keep their order (`MovedToFront`), the multiset and unique ids are kept and the index is saved; an absent id changes and saves nothing |
| ProjectStore.ProjectLocalStore.GetProject | src/js/app/project-manager.service.js:84-99 | opens the saved configuration under the requested id with its playlists (default none); the index becomes `MovedToFront` (the project first, the others in order), and storage changes only at the index key and only when the project is indexed; without a configuration nothing changes |
| ProjectStore.ProjectLocalStore.CreateProject | src/js/app/project-manager.service.js:101-122 | a new empty project under a fresh id is opened and put first in the saved index |
| ProjectStore.ProjectLocalStore.SaveProjectConfig | src/js/app/project-manager.service.js:124-146 | records the tracks and the filtered sections index and saves the configuration; without an open project nothing changes |
| ProjectStore.ProjectLocalStore.DeleteProject | src/js/app/project-manager.service.js:148-173 | deleting the open project changes nothing; otherwise its keys go and its index entry is removed, the others kept in order |
| ProjectStore.ProjectLocalStore.SaveSection | src/js/app/project-manager.service.js:175-189 | saves the data and appends an index record only when none has that id; afterwards the id is indexed and ids stay unique |
| ProjectStore.ProjectLocalStore.DeleteSection | src/js/app/project-manager.service.js:203-206 | forgets exactly the section's key |
| SectionFormat.SerializeBeats | src/js/app/project-manager.service.js:629-632 | a beat is kept iff it has sounds, a subdivision other than 4, or non-empty metadata |
| SectionFormat.SerializeBeatsKeepsOrder | src/js/app/project-manager.service.js:629-632 | serialising keeps beat order |
| SectionFormat.SerializeBeatsKeepsSounds | src/js/app/project-manager.service.js:629-632 | serialising loses no sound |
| SectionFormat.BeatLabels | src/js/app/project-manager.service.js:749-769 | with a subdivision "c1+c2+…" the labels from slot 1 are `1..c1, 1..c2, …`; without one slot i holds i for 1 <= i <= top; all other slots are empty and there are at least 13 |
| SectionFormat.Counting | src/js/app/project-manager.service.js:763-766 | the labels of a bar without a subdivision are 1..n in order |
| SectionFormat.GroupedLabels | src/js/app/project-manager.service.js:753-762 | the nested loops fill the labels of the groups one after another |
| SectionFormat.CountedLabels | src/js/app/project-manager.service.js:763-766 | the plain loop fills slot i with i |
| SectionFormat.LabelsOfGroup | src/js/app/project-manager.service.js:753-762 | group i occupies the slots after the earlier groups and is numbered from 1 |
| SectionFormat.GroupLabel | src/js/app/project-manager.service.js:753-762 | beat j of group i sits in slot (start of group i) + j and carries j; slots after the sum of the counts are empty |
| SectionFormat.Store | src/js/app/project-manager.service.js:759 | an array write sets that slot, creates empty slots up to it and changes nothing else |
| SectionFormat.UpgradeAudioTrackStart | src/js/app/project-manager.service.js:799-808 | a legacy start is removed and becomes `audioTrack.start`: a list as it is, a text as its `:`-separated pieces, piece i read as `Number` of piece i |
| SectionFormat.LegacyTextStartRoundTrip | src/js/app/project-manager.service.js:799-808 | a start written as "a:b:…" from numbers is read back as exactly those numbers |
| StreamSelection.Candidates | src/js/app/project-manager.service.js:327-354 | the candidates are the https formats, restricted to WebM/Opus/Vorbis ones when the browser plays Ogg and any is offered |
| StreamSelection.FindBestStream | src/js/app/project-manager.service.js:327-354 | only https formats; none iff none is https; with mp4 support the FIRST https format 140 of the list wins; otherwise a candidate, with a good bit rate (40 mobile, 60 else) if any has one, else the first candidate |
| StreamSelection.FirstGoodCandidate | src/js/app/project-manager.service.js:341-353 | the choice is the first candidate with a good bit rate |
| ProjectManager.NewTrack | src/js/app/project-manager.service.js:264-273 | the track's id is `type_n`; the kit 'Standard' is renamed 'Drums' and names the track |
| ProjectManager.TrackIdInjective | src/js/app/project-manager.service.js:268 | different (type, counter) pairs give different ids |
| ProjectManager.AfterLastOfKind | src/js/app/project-manager.service.js:306-311 | the forEach gives the position right after the last track of the type, or the default when there is none |
| ProjectManager.InsertionIndex | src/js/app/project-manager.service.js:306-311 | the insertion point lies within the list |
| ProjectManager.InsertKeepsGrouped | src/js/app/project-manager.service.js:306-312 | inserting after the last track of its type keeps same-type tracks contiguous |
| ProjectManager.SpliceOutKeepsGrouped | src/js/app/project-manager.service.js:319-324 | removing a track keeps same-type tracks contiguous |
| ProjectManager.InsertIssued | src/js/app/project-manager.service.js:264-316 | inserting a new track anywhere keeps ids unique, issued by the per-type counters (the type's counter advanced) and registered in `tracksMap` |
| ProjectManager.NextIdIsFresh | src/js/app/project-manager.service.js:265-268 | the next id of a type's counter is not taken |
| ProjectManager.AddedTrackKeeps | src/js/app/project-manager.service.js:264-316 | after `addTrack` the tracks stay grouped with unique, counter-issued and registered ids |
| ProjectManager.RemovedTrackKeeps | src/js/app/project-manager.service.js:319-324 | after `removeTrack` no track has the id and the invariant holds, whether or not the id is forgotten |
| ProjectManager.ResetCountersReissue | src/js/app/project-manager.service.js:527-529 | after a failed `loadProject` the counters restart with the old tracks kept, so the next `addTrack` of a type whose first id is taken duplicates that id |
| ProjectManager.AddAllKeeps | src/js/app/project-manager.service.js:522 | adding specs in turn keeps the track invariant and adds one track per spec |
| ProjectManager.SpecsOf | src/js/app/project-manager.service.js:538 | `loadProject` hands each saved track, in order, to `addTrack` unchanged |
| ProjectManager.LoadsAtEnd | src/js/app/project-manager.service.js:306-311 | in saved tracks grouped by type, the next saved track of a loaded prefix is inserted at the end |
| ProjectManager.ReloadStep | src/js/app/project-manager.service.js:538 | adding the next saved track to a loaded prefix extends the loaded configurations by exactly that track |
| ProjectManager.ReloadPrefix | src/js/app/project-manager.service.js:538 | loading grouped saved tracks without a 'Standard' kit rebuilds exactly those configurations, in order |
| ProjectManager.SaveLoadRoundTrip | src/js/app/project-manager.service.js:654-686 | the track configurations `saveProjectConfig` writes for valid tracks are rebuilt exactly, in order, by `loadProject` (ids are issued afresh) |
| ProjectManager.TrackConfigs | src/js/app/project-manager.service.js:653-666 | the saved tracks are the tracks without their ids, in order |
| ProjectManager.PlaylistsData | src/js/app/project-manager.service.js:837-845 | the saved playlists are the playlists without their ids, in order: entry i holds playlist i's name, items and backing track |
| ProjectManager.Numbered | src/js/app/project-manager.service.js:547-551 | loaded playlists are numbered 1..n in order: playlist i gets id i+1 and entry i's name, items and backing track |
| ProjectManager.NumberPlaylists | src/js/app/project-manager.service.js:547-551 | the renumbering loop gives exactly the numbered playlists |
| ProjectManager.PlaylistsRoundTrip | src/js/app/project-manager.service.js:547-551 | saving then loading gives the data back with ids 1..n (unique); playlists numbered by position survive the round trip |
| ProjectManager.Manager.constructor | src/js/app/project-manager.service.js:255-261 | a manager over the store with no project yet (`this.project` unset) and no current section |
| ProjectManager.Manager.AddTrack | src/js/app/project-manager.service.js:264-316 | with a project, the track gets the unused id `type_counter`, goes right after the last track of its type (or last), is registered, and the counter goes up, exactly one `AddOne` step; with no project, only an unset counter of the type is set to 0 before the source throws; the invariant holds either way |
| ProjectManager.Manager.AddToProject | src/js/app/project-manager.service.js:264-316 | once the project is set: the unused id `type_counter`, inserted right after the last track of its type (or last), registered, the counter advanced; tracks stay grouped with unique ids |
| ProjectManager.Manager.InsertionIndexOf | src/js/app/project-manager.service.js:306-311 | the forEach finds the insertion point |
| ProjectManager.Manager.AddTracks | src/js/app/project-manager.service.js:522 | the loop adds each spec in turn: tracks, counters and id map become exactly `AddAll` of the old ones and the specs, with one track more per spec; the invariant holds |
| ProjectManager.Manager.RemoveTrack | src/js/app/project-manager.service.js:319-324 | with a project, the found track, or the LAST track for an unknown id, is spliced out; the id is forgotten in `tracksMap` only when a section is open; no track keeps the id; with no project nothing changes |
| ProjectManager.Manager.CreateSection | src/js/app/project-manager.service.js:560-579 | with a project, a section with a fresh id, 4/4 time, 80 bpm and 4 bars unless the base says otherwise, and no tracks, is appended and becomes current; with no project there is no section and nothing changes |
| ProjectManager.Manager.CreatePlaylist | src/js/app/project-manager.service.js:581-589 | with a project, an empty unnamed playlist with a fresh id (1 in an empty project) is appended; with no project there is no playlist and nothing changes |
| ProjectManager.Manager.AppendPlaylist | src/js/app/project-manager.service.js:581-589 | once the project is set: an empty unnamed playlist with a fresh id (1 in an empty project) is appended |
| ProjectManager.Manager.DeletePlaylist | src/js/app/project-manager.service.js:830-835 | with a project, the playlist with the id is removed, an unknown id changes nothing, and with unique ids none is left with it; with no project nothing changes |
| ProjectManager.Manager.SaveProjectConfig | src/js/app/project-manager.service.js:641-687 | with an open store project and a manager project, the tracks and the sections index are saved through the store; otherwise nothing changes |
| ProjectManager.Manager.RemoveSectionRecord | src/js/app/project-manager.service.js:605-606 | the found record, or the LAST one for an unknown id, is spliced out |
| ProjectManager.Manager.DeleteSection | src/js/app/project-manager.service.js:599-610 | the current section's saved data is forgotten; with a project its record is also spliced out and the configuration saved, and with unique ids the section appears in neither index afterwards; with no project nothing else changes |
| ProjectManager.Manager.SerializeSection | src/js/app/project-manager.service.js:613-638 | with a project, the settings are copied and the tracks written are exactly the project's tracks the section has, each with its empty beats dropped; with no project there is no result |
| ProjectManager.Manager.FilterProjectTracks | src/js/app/project-manager.service.js:740-747 | with a project, a section track is kept iff the project has that track; with no project the section is unchanged; nothing but its tracks changes |
| ProjectManager.Manager.CreateProject | src/js/app/project-manager.service.js:512-525 | the manager has a project: an unsaved one with no sections, one empty playlist numbered 1, and tracks, counters and id map exactly those of adding the specs in turn from nothing; the invariant holds |
| ProjectManager.Manager.LoadProject | src/js/app/project-manager.service.js:527-557 | the counters are reset; with a saved configuration the manager has a project: it is opened and moved to the front of the index (only the index key of the storage changes), its sections are taken over, its tracks are exactly those of adding its saved tracks in turn from nothing, and its playlists are numbered 1..n (or one new playlist); without one the tracks, id map, sections, playlists and storage are unchanged and only the counters are reset |
| ProjectManager.Manager.Open | src/js/app/project-manager.service.js:530-556 | with the counters reset, the manager has a project: the opened project's sections are taken over, its tracks are exactly those of adding its saved tracks in turn, its playlists are numbered 1..n (or one new playlist), and the invariant holds |

## Left out

- The `fretDiagram` directive and its `labelToNote` helper: Angular scope setup for drawing the diagram, not the scheduler.
- Diagram: a note id (`#string_nameOctave`) and a fret label (`.string.S .fret-N label`) can select the same label element in the source. The model treats them as different elements. So the model does not capture a ghost band's `onended`, or a fret-addressed sequence step, clearing the highlight that a single note placed on the same label.
- ProjectManager.Manager.AddTrack and the other invariant-preserving methods are specified only from states where the invariant holds; the state after a failed `loadProject`, with its reissued ids, is not covered by them.
- DOM queries: elements are modelled as (diagram, string and note) or (diagram, string and fret) ids, and every queried element is taken to exist.
- Real `setTimeout` timing, the opacity values and the 20/30 ms blink durations: a blink is an output event, and callbacks are task records run in any order.
- The commented-out `workspace.diagram` block at the end of the viewer: dead code.
- Floating-point arithmetic: audio times and sound positions are exact reals, so the `startTime` equality tests are exact.
- `FretboardTiming.Truncate`: does not model `parseInt` on numbers that print in exponent notation (below 1e-6 or at least 1e21), where `parseInt` reads only the leading digits.
- `localStorage`, `LZString` compression and JSON text in `read`/`save`: the store is a map from keys to parsed values.
- `getSection`, `loadSectionData`, `importSection`, `saveSection`, `loadSection`, `loadPlaylist` and `savePlaylists` of the manager, and `getSection`, `savePlaylists` and `_projectData` of the store. These are I/O around the store. Only the `audioTrackStart` upgrade inside `getSection` is modelled.
- `$http` stream extraction, dialogs and toasts, the Web Audio graph and instruments (`AudioTrack`, compressor, `Piano`, `Bass`, `Drums`), and the `addOnlineStreamTrack`/`addUrlStreamTrack`/`removeAudioTrack` operations: foreign I/O and library calls.
- `Observable`/`dispatchEvent` events.
- ProjectManager.Manager.SaveProjectConfig: the track volume, `solo`, `range`, `preset` and other extra track properties, and the project's `audioTrack`, are not part of the saved track configuration in the model. Only type, name and kit are.
- ProjectManager.Manager.SerializeSection: the section's `meta` and `audioTrack` are not copied into the serialised data.
- ProjectManager.Manager.CreateSection: only the name, time signature, bpm, length and bar subdivision of the base section are copied. An unset name is the empty string.
- ProjectManager.Manager: the project's sections are id/name records. The aliasing between them and the current section object is not modelled.
- ProjectManager.Manager.LoadProject: the project's audio track is not restored, because that goes through `addOnlineStreamTrack`.
- Playlist items and beat sounds are opaque strings.
- Text.ToNumber: `Number` is modelled on plain digit strings only. Any other text reads as NaN. As a result, `SectionFormat.BeatLabels` counts such parts as 0. In the source, a negative or fractional count never ends the `while (count--)` loop, and hex or padded numerals count as numbers.
- SectionFormat.UpgradeAudioTrackStart: any other value of `audioTrackStart` (a number, or a falsy value other than absent) is not modelled.
