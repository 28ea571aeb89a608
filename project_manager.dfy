/**
 * `ProjectManager`: the open project's tracks, sections and playlists, and
 * the bookkeeping that keeps them consistent with the local store.
 */
module ProjectManager {
  import opened Common
  import opened Text
  import opened ProjectLists
  import opened ProjectStore
  import opened SectionFormat

  /** A track as handed to `addTrack`: its type, name and drum kit. */
  datatype TrackSpec = TrackSpec(kind: string, name: string, kit: string)

  /** A track of the open project. */
  datatype Track = Track(id: string, kind: string, name: string, kit: string)

  function TrackIdOf(t: Track): string { t.id }

  /** A playlist of the open project; its items are kept opaque. */
  datatype Playlist = Playlist(id: int, name: string, items: seq<string>, backingTrack: Option<string>)

  function PlaylistIdOf(p: Playlist): int { p.id }

  /** The settings a new section copies from `baseSection`, where given. */
  datatype SectionBase = SectionBase(
    name: Option<string>, timeSignature: Option<TimeSignature>, bpm: Option<int>, length: Option<int>,
    barSubdivision: Option<string>)

  function Or<T>(o: Option<T>, default: T): T
  {
    if o.Some? then o.value else default
  }

  /** The id of the `n`-th track of a type: `type + '_' + n`. */
  function TrackId(kind: string, n: nat): string
  {
    kind + "_" + NatToString(n)
  }

  /** Different (type, counter) pairs give different track ids. */
  lemma TrackIdInjective(k1: string, n1: nat, k2: string, n2: nat)
    requires TrackId(k1, n1) == TrackId(k2, n2)
    ensures k1 == k2 && n1 == n2
  {
    NumeralAfterSeparator(k1, NatToString(n1), k2, NatToString(n2), '_');
    NatToStringInjective(n1, n2);
  }

  /** The counter of a type; a type not seen yet starts at 0. */
  function Counter(idCounter: map<string, nat>, kind: string): nat
  {
    if kind in idCounter then idCounter[kind] else 0
  }

  /** The track `addTrack` builds: the 'Standard' kit is renamed 'Drums' and names the track. */
  function NewTrack(spec: TrackSpec, n: nat): (t: Track)
    ensures t.id == TrackId(spec.kind, n) && t.kind == spec.kind
    ensures spec.kit == "Standard" ==> t.kit == "Drums" && t.name == "Drums"
    ensures spec.kit != "Standard" ==> t.kit == spec.kit && t.name == spec.name
  {
    if spec.kit == "Standard" then Track(TrackId(spec.kind, n), spec.kind, "Drums", "Drums")
    else Track(TrackId(spec.kind, n), spec.kind, spec.name, spec.kit)
  }

  /** Tracks of one type are contiguous: any track between two tracks of one type has that type. */
  predicate Grouped(ts: seq<Track>)
  {
    forall i, j, k | 0 <= i < j < k < |ts| && ts[i].kind == ts[k].kind :: ts[j].kind == ts[i].kind
  }

  /**
   * Just after the last track of type `kind`, or `default` when there is
   * none (the forEach of `addTrack` run over `ts`).
   */
  function AfterLastOfKind(ts: seq<Track>, kind: string, default: nat): (k: nat)
    ensures (forall i | 0 <= i < |ts| :: ts[i].kind != kind) ==> k == default
    ensures (exists i | 0 <= i < |ts| :: ts[i].kind == kind) ==>
      1 <= k <= |ts| && ts[k - 1].kind == kind && forall i | k <= i < |ts| :: ts[i].kind != kind
  {
    if ts == [] then default
    else if ts[|ts| - 1].kind == kind then |ts|
    else
      var k := AfterLastOfKind(ts[..|ts| - 1], kind, default);
      assert forall i | 0 <= i < |ts| - 1 :: ts[..|ts| - 1][i] == ts[i];
      k
  }

  /** One step of the forEach: the track at `i` either is of the type, or leaves the position as it was. */
  lemma AfterLastOfKindStep(ts: seq<Track>, i: nat, kind: string, default: nat)
    requires i < |ts|
    ensures AfterLastOfKind(ts[..i + 1], kind, default) ==
      if ts[i].kind == kind then i + 1 else AfterLastOfKind(ts[..i], kind, default)
  {
    assert ts[..i + 1][..i] == ts[..i];
  }

  /** Where `addTrack` inserts a track of type `kind`: after the last one of that type, else at the end. */
  function InsertionIndex(ts: seq<Track>, kind: string): (k: nat)
    ensures k <= |ts|
  {
    AfterLastOfKind(ts, kind, |ts|)
  }

  function Insert(ts: seq<Track>, k: nat, t: Track): seq<Track>
    requires k <= |ts|
  {
    ts[..k] + [t] + ts[k..]
  }

  /** In a grouped list, no group other than `kind`'s spans the insertion index of `kind`. */
  lemma InsertionIndexSplitsNoGroup(ts: seq<Track>, kind: string)
    requires Grouped(ts)
    ensures forall y | InsertionIndex(ts, kind) <= y < |ts| :: ts[y].kind != kind
    ensures forall x, y | 0 <= x < InsertionIndex(ts, kind) <= y < |ts| :: ts[x].kind != ts[y].kind
  {
    var k := InsertionIndex(ts, kind);
    forall x, y | 0 <= x < k <= y < |ts|
      ensures ts[x].kind != ts[y].kind
    {
      assert ts[y].kind != kind;
      assert ts[k - 1].kind == kind;
    }
  }

  /**
   * One triple of positions after inserting at the insertion index: a group
   * other than the new track's never spans that index, so only triples
   * wholly before it, wholly after it, or ending at the new track occur.
   */
  lemma InsertKeepsGroupedAt(ts: seq<Track>, t: Track, a: nat, b: nat, c: nat)
    requires Grouped(ts)
    requires a < b < c < |ts| + 1
    requires Insert(ts, InsertionIndex(ts, t.kind), t)[a].kind == Insert(ts, InsertionIndex(ts, t.kind), t)[c].kind
    ensures Insert(ts, InsertionIndex(ts, t.kind), t)[b].kind == Insert(ts, InsertionIndex(ts, t.kind), t)[a].kind
  {
    var k := InsertionIndex(ts, t.kind);
    InsertionIndexSplitsNoGroup(ts, t.kind);
    InsertAt(ts, k, t, a);
    InsertAt(ts, k, t, b);
    InsertAt(ts, k, t, c);
    if c == k {
      assert ts[k - 1].kind == t.kind;
    }
  }

  /** One position of the list after inserting `t` at `k`. */
  lemma InsertAt(ts: seq<Track>, k: nat, t: Track, i: nat)
    requires k <= |ts| && i <= |ts|
    ensures Insert(ts, k, t)[i] == if i < k then ts[i] else if i == k then t else ts[i - 1]
  {
  }

  /** Inserting at the insertion index keeps same-type tracks contiguous. */
  lemma InsertKeepsGrouped(ts: seq<Track>, t: Track)
    requires Grouped(ts)
    ensures Grouped(Insert(ts, InsertionIndex(ts, t.kind), t))
  {
    var r := Insert(ts, InsertionIndex(ts, t.kind), t);
    forall a, b, c | 0 <= a < b < c < |r| && r[a].kind == r[c].kind
      ensures r[b].kind == r[a].kind
    {
      InsertKeepsGroupedAt(ts, t, a, b, c);
    }
  }

  /** Removing one track keeps same-type tracks contiguous. */
  lemma SpliceOutKeepsGrouped(ts: seq<Track>, start: int)
    requires Grouped(ts)
    ensures Grouped(SpliceOut(ts, start))
  {
    var k := SpliceIndex(|ts|, start);
    if k < |ts| {
      SpliceOutFound(ts, k);
      var r := SpliceOut(ts, start);
      forall a, b, c | 0 <= a < b < c < |r| && r[a].kind == r[c].kind
        ensures r[b].kind == r[a].kind
      {
        SpliceOutAt(ts, k, a);
        SpliceOutAt(ts, k, b);
        SpliceOutAt(ts, k, c);
      }
    }
  }

  /** The saved form of the tracks: everything but the id. */
  function TrackConfigs(ts: seq<Track>): (r: seq<TrackConfig>)
    ensures |r| == |ts| && forall i | 0 <= i < |ts| :: r[i] == TrackConfig(ts[i].kind, ts[i].name, ts[i].kit)
  {
    seq(|ts|, i requires 0 <= i < |ts| => TrackConfig(ts[i].kind, ts[i].name, ts[i].kit))
  }

  /** `_playlistsData`: the playlists as saved, without their ids. */
  function PlaylistsData(ps: seq<Playlist>): (r: seq<PlaylistData>)
    ensures |r| == |ps|
    ensures forall i | 0 <= i < |ps| :: r[i] == PlaylistData(ps[i].name, ps[i].items, ps[i].backingTrack)
  {
    seq(|ps|, i requires 0 <= i < |ps| => PlaylistData(ps[i].name, ps[i].items, ps[i].backingTrack))
  }

  /** Saved playlists as `loadProject` numbers them: ids 1 to n in order. */
  function Numbered(data: seq<PlaylistData>): (r: seq<Playlist>)
    ensures |r| == |data|
    ensures forall i | 0 <= i < |data| :: r[i] == Playlist(i + 1, data[i].name, data[i].items, data[i].backingTrack)
  {
    seq(|data|, i requires 0 <= i < |data| => Playlist(i + 1, data[i].name, data[i].items, data[i].backingTrack))
  }

  /** The renumbering loop of `loadProject`: each saved playlist gets its position (from 1) as id. */
  method NumberPlaylists(data: seq<PlaylistData>) returns (numbered: seq<Playlist>)
    ensures numbered == Numbered(data)
  {
    numbered := [];
    var j := 0;
    while j < |data|
      invariant 0 <= j <= |data|
      invariant numbered == Numbered(data[..j])
    {
      numbered := numbered + [Playlist(j + 1, data[j].name, data[j].items, data[j].backingTrack)];
      j := j + 1;
    }
    assert data[..j] == data;
  }

  /** Playlists are numbered by position. */
  predicate NumberedByPosition(ps: seq<Playlist>)
  {
    forall i | 0 <= i < |ps| :: ps[i].id == i + 1
  }

  /**
   * Saving then loading playlists gives back the same data with ids 1..n,
   * and playlists already numbered by position survive the round trip.
   */
  lemma PlaylistsRoundTrip(data: seq<PlaylistData>, ps: seq<Playlist>)
    ensures PlaylistsData(Numbered(data)) == data
    ensures NumberedByPosition(Numbered(data)) && UniqueIds(Numbered(data), PlaylistIdOf)
    ensures NumberedByPosition(ps) ==> Numbered(PlaylistsData(ps)) == ps
  {
    assert forall i | 0 <= i < |data| :: PlaylistsData(Numbered(data))[i] == data[i];
    if NumberedByPosition(ps) {
      assert forall i | 0 <= i < |ps| :: Numbered(PlaylistsData(ps))[i] == ps[i];
    }
  }

  /** Every track's id was issued by its type's counter: `type_n` with `n` below the counter. */
  ghost predicate IssuedBy(ts: seq<Track>, idCounter: map<string, nat>)
  {
    forall t | t in ts :: exists n: nat | n < Counter(idCounter, t.kind) :: t.id == TrackId(t.kind, n)
  }

  /** Every track is registered under its id. */
  predicate Registered(ts: seq<Track>, tracksMap: map<string, Track>)
  {
    forall t | t in ts :: t.id in tracksMap && tracksMap[t.id] == t
  }

  /** The id the counters issue next for `kind` is not taken. */
  lemma NextIdIsFresh(ts: seq<Track>, idCounter: map<string, nat>, kind: string)
    requires IssuedBy(ts, idCounter)
    ensures !HasId(ts, TrackIdOf, TrackId(kind, Counter(idCounter, kind)))
  {
    var id := TrackId(kind, Counter(idCounter, kind));
    forall i | 0 <= i < |ts|
      ensures ts[i].id != id
    {
      assert ts[i] in ts;
      var n: nat :| n < Counter(idCounter, ts[i].kind) && ts[i].id == TrackId(ts[i].kind, n);
      if ts[i].id == id {
        TrackIdInjective(ts[i].kind, n, kind, Counter(idCounter, kind));
      }
    }
  }

  /** Adding the freshly issued track keeps ids unique, issued and registered. */
  lemma InsertIssued(ts: seq<Track>, idCounter: map<string, nat>, tracksMap: map<string, Track>, k: nat, spec: TrackSpec)
    requires k <= |ts|
    requires UniqueIds(ts, TrackIdOf) && IssuedBy(ts, idCounter) && Registered(ts, tracksMap)
    ensures var n := Counter(idCounter, spec.kind);
      var t := NewTrack(spec, n);
      && UniqueIds(Insert(ts, k, t), TrackIdOf)
      && IssuedBy(Insert(ts, k, t), idCounter[spec.kind := n + 1])
      && Registered(Insert(ts, k, t), tracksMap[t.id := t])
  {
    var n := Counter(idCounter, spec.kind);
    var t := NewTrack(spec, n);
    var r := Insert(ts, k, t);
    NextIdIsFresh(ts, idCounter, spec.kind);
    forall a, b | 0 <= a < b < |r|
      ensures r[a].id != r[b].id
    {
      InsertAt(ts, k, t, a);
      InsertAt(ts, k, t, b);
    }
    var counters := idCounter[spec.kind := n + 1];
    forall x | x in r
      ensures exists m: nat | m < Counter(counters, x.kind) :: x.id == TrackId(x.kind, m)
      ensures x.id in tracksMap[t.id := t] && tracksMap[t.id := t][x.id] == x
    {
      if x == t {
        assert x.id == TrackId(x.kind, n);
      } else {
        assert x in ts;
        var m: nat :| m < Counter(idCounter, x.kind) && x.id == TrackId(x.kind, m);
        assert x.id == TrackId(x.kind, m);
        assert x.id != t.id by {
          var i :| 0 <= i < |ts| && ts[i] == x;
        }
      }
    }
  }

  /** No track keeps the kit 'Standard': `addTrack` renames it 'Drums'. */
  predicate KitsRenamed(ts: seq<Track>)
  {
    forall t | t in ts :: t.kit != "Standard"
  }

  /**
   * The tracks are grouped by type, their ids are unique, issued by the
   * counters and registered in the id map, and no kit is left 'Standard'.
   */
  ghost predicate TracksValid(ts: seq<Track>, idCounter: map<string, nat>, tracksMap: map<string, Track>)
  {
    Grouped(ts) && UniqueIds(ts, TrackIdOf) && IssuedBy(ts, idCounter) && Registered(ts, tracksMap) && KitsRenamed(ts)
  }

  /** What `addTrack` leaves satisfies the manager's invariant, and the new id was free. */
  lemma AddedTrackKeeps(ts: seq<Track>, idCounter: map<string, nat>, tracksMap: map<string, Track>, spec: TrackSpec)
    requires TracksValid(ts, idCounter, tracksMap)
    ensures var n := Counter(idCounter, spec.kind);
      var t := NewTrack(spec, n);
      && !HasId(ts, TrackIdOf, t.id)
      && TracksValid(Insert(ts, InsertionIndex(ts, spec.kind), t), idCounter[spec.kind := n + 1], tracksMap[t.id := t])
  {
    var t := NewTrack(spec, Counter(idCounter, spec.kind));
    var k := InsertionIndex(ts, spec.kind);
    NextIdIsFresh(ts, idCounter, spec.kind);
    InsertKeepsGrouped(ts, t);
    InsertIssued(ts, idCounter, tracksMap, k, spec);
    forall x | x in Insert(ts, k, t)
      ensures x.kit != "Standard"
    {
      var i :| 0 <= i < |Insert(ts, k, t)| && Insert(ts, k, t)[i] == x;
      InsertAt(ts, k, t, i);
      if i != k {
        assert x in ts;
      }
    }
  }

  /**
   * What `removeTrack` leaves satisfies the manager's invariant, whether or
   * not the removed id is also forgotten, and no track keeps that id.
   */
  lemma RemovedTrackKeeps(ts: seq<Track>, idCounter: map<string, nat>, tracksMap: map<string, Track>, trackId: string)
    requires TracksValid(ts, idCounter, tracksMap)
    ensures var r := SpliceOut(ts, FirstWhere(ts, ById(TrackIdOf, trackId)));
      && !HasId(r, TrackIdOf, trackId)
      && TracksValid(r, idCounter, tracksMap)
      && TracksValid(r, idCounter, tracksMap - {trackId})
  {
    var start := FirstWhere(ts, ById(TrackIdOf, trackId));
    SpliceOutKeepsGrouped(ts, start);
    SpliceOutRemovesId(ts, TrackIdOf, trackId);
    SpliceOutKeepsUnique(ts, TrackIdOf, start);
    var r := SpliceOut(ts, start);
    forall x | x in r
      ensures x.id != trackId && x.kit != "Standard"
    {
      var i :| 0 <= i < |r| && r[i] == x;
      assert x in ts;
    }
  }

  /**
   * After a failed `loadProject` the counters restart while the old tracks
   * stay: when the first id of a type is still taken, the next `addTrack` of
   * that type issues it a second time.
   */
  lemma ResetCountersReissue(ts: seq<Track>, spec: TrackSpec)
    requires HasId(ts, TrackIdOf, TrackId(spec.kind, 0))
    ensures var t := NewTrack(spec, Counter(map[], spec.kind));
      !UniqueIds(Insert(ts, InsertionIndex(ts, spec.kind), t), TrackIdOf)
  {
    var i :| 0 <= i < |ts| && ts[i].id == TrackId(spec.kind, 0);
    var k := InsertionIndex(ts, spec.kind);
    var t := NewTrack(spec, 0);
    InsertAt(ts, k, t, k);
    if i < k {
      InsertAt(ts, k, t, i);
    } else {
      InsertAt(ts, k, t, i + 1);
    }
  }

  /** The part of the manager that `addTrack` updates. */
  datatype TrackState = TrackState(tracks: seq<Track>, idCounter: map<string, nat>, tracksMap: map<string, Track>)

  /** The track state of a project just created or loaded, before its tracks are added. */
  const NoTracks := TrackState([], map[], map[])

  /** One `addTrack(spec)` on a track state. */
  function AddOne(st: TrackState, spec: TrackSpec): TrackState
  {
    var n := Counter(st.idCounter, spec.kind);
    var t := NewTrack(spec, n);
    TrackState(Insert(st.tracks, InsertionIndex(st.tracks, spec.kind), t),
      st.idCounter[spec.kind := n + 1], st.tracksMap[t.id := t])
  }

  /** `specs.forEach(addTrack)`: each spec added in turn. */
  function AddAll(st: TrackState, specs: seq<TrackSpec>): TrackState
    decreases |specs|
  {
    if specs == [] then st else AddAll(AddOne(st, specs[0]), specs[1..])
  }

  lemma {:induction false} AddAllSnoc(st: TrackState, specs: seq<TrackSpec>, spec: TrackSpec)
    ensures AddAll(st, specs + [spec]) == AddOne(AddAll(st, specs), spec)
    decreases |specs|
  {
    if specs == [] {
      assert specs + [spec] == [spec];
    } else {
      assert (specs + [spec])[1..] == specs[1..] + [spec];
      AddAllSnoc(AddOne(st, specs[0]), specs[1..], spec);
    }
  }

  /** Adding the specs from `i` on is adding the one at `i`, then the rest. */
  lemma AddAllStep(st: TrackState, specs: seq<TrackSpec>, i: nat)
    requires i < |specs|
    ensures AddAll(st, specs[i..]) == AddAll(AddOne(st, specs[i]), specs[i + 1..])
  {
    assert specs[i..][1..] == specs[i + 1..];
  }

  /** Adding the specs in turn keeps the invariant and adds one track per spec. */
  lemma {:induction false} AddAllKeeps(st: TrackState, specs: seq<TrackSpec>)
    requires TracksValid(st.tracks, st.idCounter, st.tracksMap)
    ensures TracksValid(AddAll(st, specs).tracks, AddAll(st, specs).idCounter, AddAll(st, specs).tracksMap)
    ensures |AddAll(st, specs).tracks| == |st.tracks| + |specs|
    decreases |specs|
  {
    if specs != [] {
      AddedTrackKeeps(st.tracks, st.idCounter, st.tracksMap, specs[0]);
      AddAllKeeps(AddOne(st, specs[0]), specs[1..]);
    }
  }

  /** The specs `loadProject` hands to `addTrack`: the saved track configurations as they are. */
  function SpecsOf(configs: seq<TrackConfig>): (specs: seq<TrackSpec>)
    ensures |specs| == |configs|
    ensures forall i | 0 <= i < |configs| :: specs[i] == TrackSpec(configs[i].kind, configs[i].name, configs[i].kit)
  {
    seq(|configs|, i requires 0 <= i < |configs| => TrackSpec(configs[i].kind, configs[i].name, configs[i].kit))
  }

  /** Saved tracks of one type are contiguous. */
  predicate ConfigsGrouped(cs: seq<TrackConfig>)
  {
    forall i, j, k | 0 <= i < j < k < |cs| && cs[i].kind == cs[k].kind :: cs[j].kind == cs[i].kind
  }

  /** In a grouped list of saved tracks, the next one of a loaded prefix goes last. */
  lemma LoadsAtEnd(cs: seq<TrackConfig>, ts: seq<Track>)
    requires ConfigsGrouped(cs) && |ts| < |cs|
    requires forall x | 0 <= x < |ts| :: ts[x].kind == cs[x].kind
    ensures InsertionIndex(ts, cs[|ts|].kind) == |ts|
  {
  }

  /** Adding the next saved track to a loaded prefix extends the prefix by it. */
  lemma ReloadStep(st: TrackState, cs: seq<TrackConfig>, j: nat)
    requires ConfigsGrouped(cs) && 0 < j <= |cs| && cs[j - 1].kit != "Standard"
    requires TrackConfigs(st.tracks) == cs[..j - 1]
    ensures TrackConfigs(AddOne(st, TrackSpec(cs[j - 1].kind, cs[j - 1].name, cs[j - 1].kit)).tracks) == cs[..j]
  {
    var spec := TrackSpec(cs[j - 1].kind, cs[j - 1].name, cs[j - 1].kit);
    var ts := st.tracks;
    forall x | 0 <= x < |ts|
      ensures ts[x].kind == cs[x].kind
    {
      assert TrackConfigs(ts)[x] == cs[..j - 1][x];
    }
    LoadsAtEnd(cs, ts);
    var t := NewTrack(spec, Counter(st.idCounter, spec.kind));
    assert Insert(ts, |ts|, t) == ts + [t];
    assert TrackConfigs(ts + [t]) == cs[..j] by {
      assert TrackConfigs(ts + [t])[j - 1] == cs[j - 1];
      assert forall x | 0 <= x < j - 1 :: TrackConfigs(ts + [t])[x] == TrackConfigs(ts)[x];
    }
  }

  /**
   * Loading the first `j` of a grouped list of saved tracks without a
   * 'Standard' kit rebuilds exactly those tracks, in order: each one goes
   * right after the tracks already loaded.
   */
  lemma {:induction false} ReloadPrefix(cs: seq<TrackConfig>, j: nat)
    requires ConfigsGrouped(cs) && forall i | 0 <= i < |cs| :: cs[i].kit != "Standard"
    requires j <= |cs|
    ensures TrackConfigs(AddAll(NoTracks, SpecsOf(cs[..j])).tracks) == cs[..j]
  {
    if j > 0 {
      ReloadPrefix(cs, j - 1);
      var spec := TrackSpec(cs[j - 1].kind, cs[j - 1].name, cs[j - 1].kit);
      assert SpecsOf(cs[..j]) == SpecsOf(cs[..j - 1]) + [spec];
      AddAllSnoc(NoTracks, SpecsOf(cs[..j - 1]), spec);
      ReloadStep(AddAll(NoTracks, SpecsOf(cs[..j - 1])), cs, j);
    }
  }

  /**
   * Saving the tracks and loading them back rebuilds the same track
   * configurations in the same order (the ids are issued afresh).
   */
  lemma SaveLoadRoundTrip(ts: seq<Track>, idCounter: map<string, nat>, tracksMap: map<string, Track>)
    requires TracksValid(ts, idCounter, tracksMap)
    ensures TrackConfigs(AddAll(NoTracks, SpecsOf(TrackConfigs(ts))).tracks) == TrackConfigs(ts)
  {
    var cs := TrackConfigs(ts);
    forall i | 0 <= i < |cs|
      ensures cs[i].kit != "Standard"
    {
      assert ts[i] in ts;
    }
    ReloadPrefix(cs, |cs|);
    assert cs[..|cs|] == cs;
  }

  /** Writing a type's counter back unchanged (`idCouter[type] = 0` when it was unset) keeps the tracks issued. */
  lemma CounterTouchedKeepsIssued(ts: seq<Track>, idCounter: map<string, nat>, kind: string)
    requires IssuedBy(ts, idCounter)
    ensures IssuedBy(ts, idCounter[kind := Counter(idCounter, kind)])
  {
    assert forall k :: Counter(idCounter[kind := Counter(idCounter, kind)], k) == Counter(idCounter, k);
  }

  class Manager {
    const store: ProjectLocalStore
    /** The per-type counters of issued track ids (`idCouter`). */
    var idCounter: map<string, nat>
    var tracks: seq<Track>
    var tracksMap: map<string, Track>
    /** The project's sections, by id and name. */
    var sections: seq<IndexRecord>
    var playlists: seq<Playlist>
    /** The section being edited. */
    var section: Option<Section>
    /**
     * Whether `this.project` is set. It is not until `createProject` or a
     * successful `loadProject`; before that, every operation that reads the
     * project throws, and keeps only the effects it had before the throw.
     */
    var hasProject: bool

    ghost predicate Valid()
      reads this, store
    {
      && store.Valid()
      && TracksValid(tracks, idCounter, tracksMap)
    }

    /** The tracks, the counters and the id map together. */
    function Tracked(): TrackState
      reads this
    {
      TrackState(tracks, idCounter, tracksMap)
    }

    constructor (saved: map<Key, Value>)
      ensures Valid()
      ensures store.storage == saved && store.project == None
      ensures tracks == [] && sections == [] && playlists == [] && section == None
      ensures !hasProject
    {
      store := new ProjectLocalStore(saved);
      idCounter := map[];
      tracks := [];
      tracksMap := map[];
      sections := [];
      playlists := [];
      section := None;
      hasProject := false;
    }

    /**
     * `addTrack`: the track gets id `type_counter`, goes right after the
     * last track of its type (or last), and the type's counter goes up.
     */
    method AddTrack(spec: TrackSpec)
      requires Valid()
      modifies this`tracks, this`tracksMap, this`idCounter
      ensures Valid()
      ensures !hasProject ==>
        && idCounter == old(idCounter)[spec.kind := Counter(old(idCounter), spec.kind)]
        && tracks == old(tracks) && tracksMap == old(tracksMap)
      ensures hasProject ==>
        var n := Counter(old(idCounter), spec.kind);
        var t := NewTrack(spec, n);
        && idCounter == old(idCounter)[spec.kind := n + 1]
        && tracks == Insert(old(tracks), InsertionIndex(old(tracks), spec.kind), t)
        && tracksMap == old(tracksMap)[t.id := t]
        && !HasId(old(tracks), TrackIdOf, t.id)
      ensures hasProject ==> Tracked() == AddOne(old(Tracked()), spec)
    {
      if !hasProject {
        CounterTouchedKeepsIssued(tracks, idCounter, spec.kind);
        idCounter := idCounter[spec.kind := Counter(idCounter, spec.kind)];
        return;
      }
      AddToProject(spec);
    }

    /** The part of `addTrack` after the project is known to be set. */
    method AddToProject(spec: TrackSpec)
      requires Valid() && hasProject
      modifies this`tracks, this`tracksMap, this`idCounter
      ensures Valid()
      ensures var n := Counter(old(idCounter), spec.kind);
        var t := NewTrack(spec, n);
        && idCounter == old(idCounter)[spec.kind := n + 1]
        && tracks == Insert(old(tracks), InsertionIndex(old(tracks), spec.kind), t)
        && tracksMap == old(tracksMap)[t.id := t]
        && !HasId(old(tracks), TrackIdOf, t.id)
      ensures Tracked() == AddOne(old(Tracked()), spec)
    {
      var n := Counter(idCounter, spec.kind);
      var track := NewTrack(spec, n);
      var index := InsertionIndexOf(spec.kind);
      AddedTrackKeeps(tracks, idCounter, tracksMap, spec);
      tracks := Insert(tracks, index, track);
      tracksMap := tracksMap[track.id := track];
      idCounter := idCounter[spec.kind := n + 1];
    }

    /** `addTrack` for each spec in turn, as `createProject` and `loadProject` do. */
    method AddTracks(specs: seq<TrackSpec>)
      requires Valid() && hasProject
      modifies this`tracks, this`tracksMap, this`idCounter
      ensures Valid()
      ensures Tracked() == AddAll(old(Tracked()), specs)
      ensures |tracks| == old(|tracks|) + |specs|
    {
      var i := 0;
      while i < |specs|
        invariant 0 <= i <= |specs|
        invariant Valid() && |tracks| == old(|tracks|) + i
        invariant AddAll(Tracked(), specs[i..]) == AddAll(old(Tracked()), specs)
      {
        ghost var before := Tracked();
        AddAllStep(before, specs, i);
        AddToProject(specs[i]);
        i := i + 1;
      }
    }

    /** The loop of `addTrack` that finds where a track of type `kind` goes. */
    method InsertionIndexOf(kind: string) returns (index: nat)
      ensures index == InsertionIndex(tracks, kind)
    {
      var ts := tracks;
      index := |ts|;
      var i := 0;
      while i < |ts|
        invariant 0 <= i <= |ts|
        invariant index == AfterLastOfKind(ts[..i], kind, |ts|)
      {
        AfterLastOfKindStep(ts, i, kind, |ts|);
        if ts[i].kind == kind {
          index := i + 1;
        }
        i := i + 1;
      }
      assert ts[..i] == ts;
    }

    /**
     * `removeTrack`: removes the track found by id, or the LAST track when
     * none has that id (-1 is not checked). It also forgets the id in
     * `tracksMap`, unless no section is open: the source then fails before.
     */
    method RemoveTrack(trackId: string)
      requires Valid()
      modifies this`tracks, this`tracksMap
      ensures Valid()
      ensures !hasProject ==> tracks == old(tracks) && tracksMap == old(tracksMap)
      ensures hasProject ==> tracks == SpliceOut(old(tracks), FirstWhere(old(tracks), ById(TrackIdOf, trackId)))
      ensures hasProject && section.None? ==> tracksMap == old(tracksMap)
      ensures hasProject && section.Some? ==> tracksMap == old(tracksMap) - {trackId}
      ensures hasProject ==> !HasId(tracks, TrackIdOf, trackId)
    {
      if !hasProject {
        return;
      }
      var index := FirstWhere(tracks, ById(TrackIdOf, trackId));
      RemovedTrackKeeps(tracks, idCounter, tracksMap, trackId);
      tracks := SpliceOut(tracks, index);
      if section.None? {
        return;
      }
      tracksMap := tracksMap - {trackId};
    }

    /**
     * `createSection`: a new section with a fresh id, 4/4 time, 80 bpm and
     * 4 bars unless the base section says otherwise, and no tracks; it is
     * added to the project and becomes the current section.
     */
    method CreateSection(base: SectionBase) returns (r: Option<Section>)
      modifies this`sections, this`section
      ensures r.Some? <==> hasProject
      ensures !hasProject ==> sections == old(sections) && section == old(section)
      ensures r.Some? ==>
        var s := r.value;
        && s.id >= 1 && !HasId(old(sections), RecordId, s.id)
        && s.name == Or(base.name, "")
        && s.timeSignature == Or(base.timeSignature, TimeSignature(4, 4))
        && s.bpm == Or(base.bpm, 80) && s.length == Or(base.length, 4)
        && s.barSubdivision == base.barSubdivision && s.tracks == map[]
        && sections == old(sections) + [IndexRecord(s.id, s.name)]
        && section == Some(s)
      ensures UniqueIds(old(sections), RecordId) ==> UniqueIds(sections, RecordId)
    {
      if !hasProject {
        return None;
      }
      var id := GenerateItemId(sections, RecordId);
      var s := Section(id, Or(base.name, ""), Or(base.timeSignature, TimeSignature(4, 4)),
        Or(base.bpm, 80), Or(base.length, 4), base.barSubdivision, map[]);
      sections := sections + [IndexRecord(id, s.name)];
      section := Some(s);
      r := Some(s);
    }

    /** `createPlaylist`: an empty, unnamed playlist with a fresh id, added last. */
    method CreatePlaylist() returns (r: Option<Playlist>)
      modifies this`playlists
      ensures r.Some? <==> hasProject
      ensures !hasProject ==> playlists == old(playlists)
      ensures r.Some? ==>
        var p := r.value;
        && p.id >= 1 && !HasId(old(playlists), PlaylistIdOf, p.id)
        && (old(playlists) == [] ==> p.id == 1)
        && p.name == "" && p.items == [] && p.backingTrack == None
        && playlists == old(playlists) + [p]
      ensures UniqueIds(old(playlists), PlaylistIdOf) ==> UniqueIds(playlists, PlaylistIdOf)
    {
      if !hasProject {
        return None;
      }
      var p := AppendPlaylist();
      r := Some(p);
    }

    /** The part of `createPlaylist` after the project is known to be set. */
    method AppendPlaylist() returns (p: Playlist)
      requires hasProject
      modifies this`playlists
      ensures p.id >= 1 && !HasId(old(playlists), PlaylistIdOf, p.id)
      ensures old(playlists) == [] ==> p.id == 1
      ensures p.name == "" && p.items == [] && p.backingTrack == None
      ensures playlists == old(playlists) + [p]
      ensures UniqueIds(old(playlists), PlaylistIdOf) ==> UniqueIds(playlists, PlaylistIdOf)
    {
      p := Playlist(GenerateItemId(playlists, PlaylistIdOf), "", [], None);
      playlists := playlists + [p];
    }

    /** `deletePlaylist`: removes the playlist with that id; an unknown id changes nothing. */
    method DeletePlaylist(playlistId: int)
      modifies this`playlists
      ensures !hasProject || !HasId(old(playlists), PlaylistIdOf, playlistId) ==> playlists == old(playlists)
      ensures hasProject && HasId(old(playlists), PlaylistIdOf, playlistId) ==>
        playlists == SpliceOut(old(playlists), FirstWhere(old(playlists), ById(PlaylistIdOf, playlistId)))
      ensures UniqueIds(old(playlists), PlaylistIdOf) ==> UniqueIds(playlists, PlaylistIdOf)
      ensures hasProject && UniqueIds(old(playlists), PlaylistIdOf) ==> !HasId(playlists, PlaylistIdOf, playlistId)
    {
      if !hasProject {
        return;
      }
      var index := FirstWhere(playlists, ById(PlaylistIdOf, playlistId));
      SpliceOutKeepsUnique(playlists, PlaylistIdOf, index);
      if index != -1 {
        if UniqueIds(playlists, PlaylistIdOf) {
          SpliceOutRemovesId(playlists, PlaylistIdOf, playlistId);
        }
        playlists := SpliceOut(playlists, index);
      }
    }

    /**
     * The manager's `saveProjectConfig`: saves the tracks and the sections
     * index through the store, when a project is open there.
     */
    method SaveProjectConfig()
      requires store.Valid()
      modifies store`project, store`storage
      ensures store.Valid()
      ensures old(store.project).None? || !hasProject ==>
        store.project == old(store.project) && store.storage == old(store.storage)
      ensures old(store.project).Some? && hasProject ==>
        var p := old(store.project).value;
        && store.project == Some(p.(tracks := TrackConfigs(tracks), sections := KeepSaved(sections, p.sections)))
        && store.storage == old(store.storage)[ProjectKey(p.id) := ConfigValue(store.project.value)]
    {
      if store.project.None? || !hasProject {
        return;
      }
      store.SaveProjectConfig(TrackConfigs(tracks), sections);
    }

    /** The splice of `deleteSection`: the record found by id goes, or the last one when none has that id. */
    method RemoveSectionRecord(sectionId: int)
      modifies this`sections
      ensures sections == SpliceOut(old(sections), FirstWhere(old(sections), ById(RecordId, sectionId)))
      ensures UniqueIds(old(sections), RecordId) ==> !HasId(sections, RecordId, sectionId)
    {
      var index := FirstWhere(sections, ById(RecordId, sectionId));
      if UniqueIds(sections, RecordId) {
        SpliceOutRemovesId(sections, RecordId, sectionId);
      }
      sections := SpliceOut(sections, index);
    }

    /**
     * `deleteSection`: forgets the current section's saved data, removes it
     * from the sections (the LAST section when its id is not found: -1 is
     * not checked) and saves the configuration.
     */
    method DeleteSection()
      requires store.Valid()
      modifies this`sections, store`project, store`storage
      ensures store.Valid()
      ensures !hasProject || section.None? ==> sections == old(sections)
      ensures hasProject && section.Some? ==>
        sections == SpliceOut(old(sections), FirstWhere(old(sections), ById(RecordId, section.value.id)))
      ensures old(store.project).None? ==> store.project == old(store.project) && store.storage == old(store.storage)
      ensures old(store.project).Some? && !hasProject ==>
        var p := old(store.project).value;
        && store.project == old(store.project)
        && store.storage == if section.Some? then old(store.storage) - {SectionKey(p.id, section.value.id)} else old(store.storage)
      ensures old(store.project).Some? && hasProject ==>
        var p := old(store.project).value;
        var dropped := if section.Some? then old(store.storage) - {SectionKey(p.id, section.value.id)} else old(store.storage);
        && store.project == Some(p.(tracks := TrackConfigs(tracks), sections := KeepSaved(sections, p.sections)))
        && store.storage == dropped[ProjectKey(p.id) := ConfigValue(store.project.value)]
      ensures hasProject && section.Some? && store.project.Some? && UniqueIds(old(sections), RecordId) ==>
        !HasId(sections, RecordId, section.value.id) && !HasId(store.project.value.sections, RecordId, section.value.id)
    {
      if section.Some? {
        var sectionId := section.value.id;
        if store.project.Some? {
          store.DeleteSection(sectionId);
        }
        if !hasProject {
          return;
        }
        RemoveSectionRecord(sectionId);
      }
      SaveProjectConfig();
      if hasProject && section.Some? && store.project.Some? && !HasId(sections, RecordId, section.value.id) {
        KeepSavedLacks(sections, old(store.project).value.sections, section.value.id);
      }
    }

    /** `serializeSection`: the section's settings and, for each project track it has, its beats without the empty ones. */
    method SerializeSection(s: Section) returns (r: Option<SerializedSection>)
      ensures r.Some? <==> hasProject
      ensures r.Some? ==>
        var data := r.value;
        && data.name == s.name && data.timeSignature == s.timeSignature && data.length == s.length
        && data.bpm == s.bpm && data.barSubdivision == s.barSubdivision
        && (forall id :: id in data.tracks <==> id in s.tracks && HasId(tracks, TrackIdOf, id))
        && (forall id | id in data.tracks :: data.tracks[id] == SerializeBeats(s.tracks[id]))
    {
      if !hasProject {
        return None;
      }
      var out: map<string, seq<BeatData>> := map[];
      var i := 0;
      while i < |tracks|
        invariant 0 <= i <= |tracks|
        invariant forall id :: id in out <==> id in s.tracks && HasId(tracks[..i], TrackIdOf, id)
        invariant forall id | id in out :: out[id] == SerializeBeats(s.tracks[id])
      {
        var id := tracks[i].id;
        assert forall x | 0 <= x < i :: tracks[..i + 1][x] == tracks[..i][x];
        assert tracks[..i + 1][i].id == id;
        if id in s.tracks {
          out := out[id := SerializeBeats(s.tracks[id])];
        }
        i := i + 1;
      }
      assert tracks[..i] == tracks;
      r := Some(SerializedSection(s.name, s.timeSignature, s.length, s.bpm, s.barSubdivision, out));
    }

    /** `_filterProjectTracks`: drops the section's tracks that are not tracks of the project. */
    method FilterProjectTracks(s: Section) returns (r: Section)
      ensures r.(tracks := s.tracks) == s
      ensures !hasProject ==> r == s
      ensures hasProject ==> forall id :: id in r.tracks <==> id in s.tracks && id in tracksMap
      ensures forall id | id in r.tracks :: r.tracks[id] == s.tracks[id]
    {
      if !hasProject {
        return s;
      }
      var kept := s.tracks;
      var keys := s.tracks.Keys;
      while keys != {}
        invariant keys <= s.tracks.Keys
        invariant forall id :: id in kept <==> id in s.tracks && (id in keys || id in tracksMap)
        invariant forall id | id in kept :: kept[id] == s.tracks[id]
        decreases keys
      {
        var id :| id in keys;
        if id !in tracksMap {
          kept := kept - {id};
        }
        keys := keys - {id};
      }
      r := s.(tracks := kept);
    }

    /**
     * `createProject`: an unsaved project with one empty playlist and the
     * given tracks, with the counters started afresh.
     */
    method CreateProject(specs: seq<TrackSpec>)
      requires store.Valid()
      modifies this`idCounter, this`tracks, this`tracksMap, this`sections, this`playlists, this`hasProject, store`project
      ensures Valid() && hasProject
      ensures store.project == None && sections == []
      ensures playlists == [Playlist(1, "", [], None)]
      ensures Tracked() == AddAll(NoTracks, specs)
      ensures |tracks| == |specs|
    {
      idCounter := map[];
      store.project := None;
      tracks := [];
      tracksMap := map[];
      sections := [];
      playlists := [];
      hasProject := true;
      var p := AppendPlaylist();
      AddTracks(specs);
    }

    /**
     * `loadProject`: opens a saved project: its sections index, its tracks
     * added afresh, and its playlists numbered 1..n (or one new playlist
     * when it has none). A project without saved configuration cannot be
     * hasProject: only the counters have been reset when the source fails.
     */
    method LoadProject(projectId: int)
      requires Valid()
      modifies this`idCounter, this`tracks, this`tracksMap, this`sections, this`playlists, this`hasProject, store
      ensures store.Valid()
      ensures !(ProjectKey(projectId) in old(store.storage) && old(store.storage)[ProjectKey(projectId)].ConfigValue?) ==>
        && idCounter == map[] && tracks == old(tracks) && tracksMap == old(tracksMap)
        && sections == old(sections) && playlists == old(playlists) && hasProject == old(hasProject)
        && store.storage == old(store.storage) && store.project == old(store.project)
      ensures ProjectKey(projectId) in old(store.storage) && old(store.storage)[ProjectKey(projectId)].ConfigValue? ==>
        var config := old(store.storage)[ProjectKey(projectId)].config;
        var saved := if PlaylistsKey(projectId) in old(store.storage) && old(store.storage)[PlaylistsKey(projectId)].PlaylistsValue?
                     then old(store.storage)[PlaylistsKey(projectId)].playlists else [];
        && Valid() && hasProject
        && store.project == Some(config.(id := projectId))
        && store.projects == MovedToFront(old(store.projects), projectId)
        && store.storage == (if HasId(old(store.projects), RecordId, projectId)
                             then old(store.storage)[ProjectsKey := IndexValue(store.projects)] else old(store.storage))
        && sections == config.sections
        && Tracked() == AddAll(NoTracks, SpecsOf(config.tracks))
        && |tracks| == |config.tracks|
        && (saved != [] ==> playlists == Numbered(saved))
        && (saved == [] ==> playlists == [Playlist(1, "", [], None)])
        && NumberedByPosition(playlists)
    {
      idCounter := map[];
      var loaded := store.GetProject(projectId);
      if loaded.None? {
        return;
      }
      Open(loaded.value);
    }

    /**
     * The part of `loadProject` after the store has hasProject the project: its
     * sections, its tracks added afresh with the counters just reset, and
     * its playlists numbered 1..n (or one new playlist).
     */
    method Open(project: LoadedProject)
      requires store.Valid() && idCounter == map[]
      modifies this`idCounter, this`tracks, this`tracksMap, this`sections, this`playlists, this`hasProject
      ensures Valid() && hasProject
      ensures sections == project.sections
      ensures Tracked() == AddAll(NoTracks, SpecsOf(project.tracks))
      ensures |tracks| == |project.tracks|
      ensures project.playlists != [] ==> playlists == Numbered(project.playlists)
      ensures project.playlists == [] ==> playlists == [Playlist(1, "", [], None)]
      ensures NumberedByPosition(playlists)
    {
      sections := project.sections;
      tracks := [];
      tracksMap := map[];
      playlists := [];
      hasProject := true;
      AddTracks(SpecsOf(project.tracks));
      if |project.playlists| > 0 {
        playlists := NumberPlaylists(project.playlists);
        PlaylistsRoundTrip(project.playlists, []);
      } else {
        var p := AppendPlaylist();
      }
    }
  }
}
