/**
 * `ProjectLocalStore`: the projects index, the open project's configuration
 * and the saved sections, kept in the browser's key-value store. The store
 * is modelled as a map from keys to already-parsed values; compression and
 * JSON text are not part of the model.
 */
module ProjectStore {
  import opened Common
  import opened Text
  import opened ProjectLists
  import opened SectionFormat

  /** An entry of the projects index, or of a project's sections index. */
  datatype IndexRecord = IndexRecord(id: int, name: string)

  function RecordId(r: IndexRecord): int { r.id }

  /** A track as saved in the project configuration. */
  datatype TrackConfig = TrackConfig(kind: string, name: string, kit: string)

  /** The saved configuration of a project. */
  datatype ProjectConfig = ProjectConfig(id: int, name: string, sections: seq<IndexRecord>, tracks: seq<TrackConfig>)

  /** A playlist as saved: without its id, which is its position. */
  datatype PlaylistData = PlaylistData(name: string, items: seq<string>, backingTrack: Option<string>)

  /** The keys of the store: 'bd.projects', 'bd.project.P', 'bd.playlists.P' and 'bd.section.P.S'. */
  datatype Key = ProjectsKey | ProjectKey(projectId: int) | PlaylistsKey(projectId: int) | SectionKey(projectId: int, sectionId: int)

  datatype Value =
    | IndexValue(records: seq<IndexRecord>)
    | ConfigValue(config: ProjectConfig)
    | PlaylistsValue(playlists: seq<PlaylistData>)
    | SectionValue(section: SerializedSection)

  /** A key's ids are ones `generateItemId` can produce, so they print as plain numerals. */
  predicate PrintableKey(k: Key)
  {
    && (k.ProjectKey? || k.PlaylistsKey? || k.SectionKey? ==> k.projectId >= 0)
    && (k.SectionKey? ==> k.sectionId >= 0)
  }

  /** The text of a key: its dot-separated pieces. */
  function KeyPieces(k: Key): (parts: seq<string>)
    requires PrintableKey(k)
    ensures |parts| >= 2 && forall i | 0 <= i < |parts| :: '.' !in parts[i]
  {
    match k
    case ProjectsKey => ["bd", "projects"]
    case ProjectKey(p) => assert IsDigits(NatToString(p)); ["bd", "project", NatToString(p)]
    case PlaylistsKey(p) => assert IsDigits(NatToString(p)); ["bd", "playlists", NatToString(p)]
    case SectionKey(p, q) =>
      assert IsDigits(NatToString(p)) && IsDigits(NatToString(q));
      ["bd", "section", NatToString(p), NatToString(q)]
  }

  function KeyText(k: Key): string
    requires PrintableKey(k)
  {
    Join(KeyPieces(k), '.')
  }

  predicate IsNumeral(s: string) { s != "" && IsDigits(s) }

  /** Reading a key back from its text; none for a text that is not a key. */
  function ParseKey(text: string): Option<Key>
  {
    ParsePieces(Split(text, '.'))
  }

  function ParsePieces(parts: seq<string>): Option<Key>
  {
    if parts == ["bd", "projects"] then Some(ProjectsKey)
    else if |parts| == 3 && parts[0] == "bd" && parts[1] == "project" && IsNumeral(parts[2]) then
      Some(ProjectKey(DigitsValue(parts[2])))
    else if |parts| == 3 && parts[0] == "bd" && parts[1] == "playlists" && IsNumeral(parts[2]) then
      Some(PlaylistsKey(DigitsValue(parts[2])))
    else if |parts| == 4 && parts[0] == "bd" && parts[1] == "section" && IsNumeral(parts[2]) && IsNumeral(parts[3]) then
      Some(SectionKey(DigitsValue(parts[2]), DigitsValue(parts[3])))
    else None
  }

  /** Reading back the text made of given pieces is a function of the pieces. */
  lemma ParseKeyPieces(k: Key)
    requires PrintableKey(k)
    ensures ParseKey(KeyText(k)) == ParsePieces(KeyPieces(k))
  {
    SplitJoin(KeyPieces(k), '.');
  }

  /** Every key is read back from its text. */
  lemma ParseKeyText(k: Key)
    requires PrintableKey(k)
    ensures ParseKey(KeyText(k)) == Some(k)
  {
    ParseKeyPieces(k);
    match k
    case ProjectsKey =>
    case ProjectKey(p) => DigitsValueOfNatToString(p);
    case PlaylistsKey(p) => DigitsValueOfNatToString(p);
    case SectionKey(p, q) => DigitsValueOfNatToString(p); DigitsValueOfNatToString(q);
  }

  /** Distinct keys are distinct texts, so the store can be modelled as a map over keys. */
  lemma KeyTextInjective(k1: Key, k2: Key)
    requires PrintableKey(k1) && PrintableKey(k2)
    requires KeyText(k1) == KeyText(k2)
    ensures k1 == k2
  {
    ParseKeyText(k1);
    ParseKeyText(k2);
  }

  /** The projects index as read from the store ('bd.projects', defaulting to an empty list). */
  function StoredIndex(storage: map<Key, Value>): seq<IndexRecord>
  {
    if ProjectsKey in storage && storage[ProjectsKey].IndexValue? then storage[ProjectsKey].records else []
  }

  /** The keys a saved project occupies. */
  function ProjectKeys(projectId: int, config: ProjectConfig): set<Key>
  {
    (set r | r in config.sections :: SectionKey(projectId, r.id)) + {PlaylistsKey(projectId), ProjectKey(projectId)}
  }

  /** The records of `index` whose id is already among `saved`, in the order of `index`. */
  function KeepSaved(index: seq<IndexRecord>, saved: seq<IndexRecord>): (r: seq<IndexRecord>)
    ensures forall x | x in r :: x in index
    ensures forall x | x in index :: x in r <==> exists s | s in saved :: s.id == x.id
  {
    Filter(index, (x: IndexRecord) => exists s | s in saved :: s.id == x.id)
  }

  /** The store once a project's saved keys are removed, if it has a saved configuration. */
  function WithoutProject(storage: map<Key, Value>, projectId: int): (r: map<Key, Value>)
    ensures StoredIndex(r) == StoredIndex(storage)
    ensures !(ProjectKey(projectId) in r && r[ProjectKey(projectId)].ConfigValue?)
    ensures forall k | k in r :: k in storage && r[k] == storage[k]
    ensures forall k | k in storage ::
      k !in r <==> ProjectKey(projectId) in storage && storage[ProjectKey(projectId)].ConfigValue?
                   && k in ProjectKeys(projectId, storage[ProjectKey(projectId)].config)
  {
    if ProjectKey(projectId) in storage && storage[ProjectKey(projectId)].ConfigValue? then
      assert ProjectsKey !in ProjectKeys(projectId, storage[ProjectKey(projectId)].config);
      storage - ProjectKeys(projectId, storage[ProjectKey(projectId)].config)
    else storage
  }

  /** The index without the entry of `projectId`; unchanged when there is none. */
  function IndexWithout(index: seq<IndexRecord>, projectId: int): seq<IndexRecord>
  {
    var i := FirstWhere(index, ById(RecordId, projectId));
    if i != -1 then SpliceOut(index, i) else index
  }

  /**
   * Deleting an indexed project drops exactly its entry and keeps the others
   * in order; with unique ids no entry for it remains.
   */
  lemma IndexWithoutRemoves(index: seq<IndexRecord>, projectId: int)
    ensures !HasId(index, RecordId, projectId) ==> IndexWithout(index, projectId) == index
    ensures HasId(index, RecordId, projectId) ==> |IndexWithout(index, projectId)| == |index| - 1
    ensures IsSubsequence(IndexWithout(index, projectId), index)
    ensures UniqueIds(index, RecordId) ==>
      UniqueIds(IndexWithout(index, projectId), RecordId) && !HasId(IndexWithout(index, projectId), RecordId, projectId)
  {
    var i := FirstWhere(index, ById(RecordId, projectId));
    if i != -1 {
      SpliceOutFound(index, i);
      SpliceOutKeepsUnique(index, RecordId, i);
      if UniqueIds(index, RecordId) {
        SpliceOutRemovesId(index, RecordId, projectId);
      }
      SpliceOutIsSubsequence(index, i);
    } else {
      SubsequenceOfSelf(index);
    }
  }

  /** Saving a sections index that lacks an id leaves no record with that id. */
  lemma KeepSavedLacks(index: seq<IndexRecord>, saved: seq<IndexRecord>, id: int)
    requires !HasId(index, RecordId, id)
    ensures !HasId(KeepSaved(index, saved), RecordId, id)
  {
    var kept := KeepSaved(index, saved);
    forall i | 0 <= i < |kept|
      ensures kept[i].id != id
    {
      assert kept[i] in index;
    }
  }

  /**
   * The index after `_updateProjectsOrder(id)`: the entry of `id` first and
   * the others in their order; unchanged when no entry has that id.
   */
  function MovedToFront(index: seq<IndexRecord>, id: int): seq<IndexRecord>
  {
    var i := FirstWhere(index, ById(RecordId, id));
    if i != -1 then [index[i]] + SpliceOut(index, i) else index
  }

  /** A project opened from the store, as `getProject` returns it. */
  datatype LoadedProject = LoadedProject(
    id: int, name: string, sections: seq<IndexRecord>, tracks: seq<TrackConfig>, playlists: seq<PlaylistData>)

  class ProjectLocalStore {
    var storage: map<Key, Value>
    /** The projects index, most recently opened first. */
    var projects: seq<IndexRecord>
    /** The open project, if any. */
    var project: Option<ProjectConfig>

    /** The in-memory index is the saved one. */
    ghost predicate Valid()
      reads this
    {
      projects == StoredIndex(storage)
    }

    constructor (saved: map<Key, Value>)
      ensures Valid()
      ensures storage == saved && projects == StoredIndex(saved) && project == None
    {
      storage := saved;
      projects := StoredIndex(saved);
      project := None;
    }

    /** `_updateProjectsOrder`: the project just opened moves to the front of the index. */
    method UpdateProjectsOrder(latestId: int)
      requires Valid()
      modifies this`projects, this`storage
      ensures Valid()
      ensures !HasId(old(projects), RecordId, latestId) ==> projects == old(projects) && storage == old(storage)
      ensures HasId(old(projects), RecordId, latestId) ==>
        && |projects| > 0 && projects[0].id == latestId
        && projects[1..] == SpliceOut(old(projects), FirstWhere(old(projects), ById(RecordId, latestId)))
        && storage == old(storage)[ProjectsKey := IndexValue(projects)]
      ensures projects == MovedToFront(old(projects), latestId)
      ensures multiset(projects) == multiset(old(projects))
      ensures UniqueIds(old(projects), RecordId) ==> UniqueIds(projects, RecordId)
    {
      var index := FirstWhere(projects, ById(RecordId, latestId));
      if index != -1 {
        var item := projects[index];
        var rest := SpliceOut(projects, index);
        MoveToFrontKeeps(projects, RecordId, index);
        projects := [item] + rest;
        storage := storage[ProjectsKey := IndexValue(projects)];
        assert projects[1..] == rest;
      }
    }

    /**
     * `getProject`: opens a saved project and moves it to the front of the
     * index. A project without saved configuration cannot be opened (the
     * source fails reading its fields).
     */
    method GetProject(projectId: int) returns (loaded: Option<LoadedProject>)
      requires Valid()
      modifies this
      ensures Valid()
      ensures !(ProjectKey(projectId) in old(storage) && old(storage)[ProjectKey(projectId)].ConfigValue?) ==>
        loaded.None? && storage == old(storage) && projects == old(projects) && project == old(project)
      ensures ProjectKey(projectId) in old(storage) && old(storage)[ProjectKey(projectId)].ConfigValue? ==>
        var config := old(storage)[ProjectKey(projectId)].config;
        && project == Some(config.(id := projectId))
        && loaded == Some(LoadedProject(projectId, config.name, config.sections, config.tracks,
             if PlaylistsKey(projectId) in old(storage) && old(storage)[PlaylistsKey(projectId)].PlaylistsValue?
             then old(storage)[PlaylistsKey(projectId)].playlists else []))
        && projects == MovedToFront(old(projects), projectId)
        && multiset(projects) == multiset(old(projects))
        && (HasId(old(projects), RecordId, projectId) ==> projects[0].id == projectId)
        && storage == if HasId(old(projects), RecordId, projectId)
                      then old(storage)[ProjectsKey := IndexValue(projects)] else old(storage)
    {
      if !(ProjectKey(projectId) in storage && storage[ProjectKey(projectId)].ConfigValue?) {
        return None;
      }
      var config := storage[ProjectKey(projectId)].config;
      var playlists := if PlaylistsKey(projectId) in storage && storage[PlaylistsKey(projectId)].PlaylistsValue?
        then storage[PlaylistsKey(projectId)].playlists else [];
      project := Some(config.(id := projectId));
      UpdateProjectsOrder(projectId);
      loaded := Some(LoadedProject(projectId, config.name, config.sections, config.tracks, playlists));
    }

    /** `createProject`: a new empty project under a fresh id, put first in the index. */
    method CreateProject(name: string) returns (created: ProjectConfig)
      requires Valid()
      modifies this
      ensures Valid()
      ensures created.id >= 1 && !HasId(old(projects), RecordId, created.id)
      ensures created == ProjectConfig(created.id, name, [], [])
      ensures project == Some(created)
      ensures projects == [IndexRecord(created.id, name)] + old(projects)
      ensures storage == old(storage)[ProjectsKey := IndexValue(projects)]
      ensures UniqueIds(old(projects), RecordId) ==> UniqueIds(projects, RecordId)
    {
      var id := GenerateItemId(projects, RecordId);
      created := ProjectConfig(id, name, [], []);
      project := Some(created);
      projects := [IndexRecord(id, name)] + projects;
      storage := storage[ProjectsKey := IndexValue(projects)];
      assert forall j | 1 <= j < |projects| :: projects[j] == old(projects)[j - 1];
    }

    /**
     * `saveProjectConfig`: records the tracks, keeps of the given sections
     * index only the sections already saved (in the given order), and saves
     * the configuration. Without an open project nothing happens.
     */
    method SaveProjectConfig(tracksInfo: seq<TrackConfig>, sectionsIndex: seq<IndexRecord>)
      requires Valid()
      modifies this`project, this`storage
      ensures Valid()
      ensures old(project).None? ==> project == old(project) && storage == old(storage)
      ensures old(project).Some? ==>
        var p := old(project).value;
        && project == Some(p.(tracks := tracksInfo, sections := KeepSaved(sectionsIndex, p.sections)))
        && storage == old(storage)[ProjectKey(p.id) := ConfigValue(project.value)]
    {
      if project.None? {
        return;
      }
      var p := project.value;
      var updated := p.(tracks := tracksInfo, sections := KeepSaved(sectionsIndex, p.sections));
      project := Some(updated);
      storage := storage[ProjectKey(p.id) := ConfigValue(updated)];
    }

    /**
     * `deleteProject`: removes a project other than the open one: its saved
     * keys if it has a configuration, and its entry in the index. Without an
     * open project nothing happens (the source fails reading its id).
     */
    method DeleteProject(projectId: int)
      requires Valid()
      modifies this`projects, this`storage
      ensures Valid()
      ensures old(project).None? || old(project).value.id == projectId ==>
        storage == old(storage) && projects == old(projects)
      ensures old(project).Some? && old(project).value.id != projectId ==>
        && projects == IndexWithout(old(projects), projectId)
        && storage == if HasId(old(projects), RecordId, projectId)
                      then WithoutProject(old(storage), projectId)[ProjectsKey := IndexValue(projects)]
                      else WithoutProject(old(storage), projectId)
    {
      if project.None? || project.value.id == projectId {
        return;
      }
      storage := WithoutProject(storage, projectId);
      var list := StoredIndex(storage);
      var index := FirstWhere(list, ById(RecordId, projectId));
      if index != -1 {
        list := SpliceOut(list, index);
        storage := storage[ProjectsKey := IndexValue(list)];
      }
      projects := list;
    }

    /**
     * `saveSection`: stores a section's data under the open project and adds
     * it to the project's sections index unless a record with its id is
     * there already. Without an open project nothing happens.
     */
    method SaveSection(sectionId: int, sectionName: string, data: SerializedSection)
      requires Valid()
      modifies this`project, this`storage
      ensures Valid()
      ensures old(project).None? ==> project == old(project) && storage == old(storage)
      ensures old(project).Some? ==>
        var p := old(project).value;
        && project.Some?
        && (HasId(p.sections, RecordId, sectionId) ==> project == old(project))
        && (!HasId(p.sections, RecordId, sectionId) ==>
              project == Some(p.(sections := p.sections + [IndexRecord(sectionId, sectionName)])))
        && storage == old(storage)[SectionKey(p.id, sectionId) := SectionValue(data)]
      ensures old(project).Some? ==> HasId(project.value.sections, RecordId, sectionId)
      ensures old(project).Some? && UniqueIds(old(project).value.sections, RecordId) ==>
        UniqueIds(project.value.sections, RecordId)
    {
      if project.None? {
        return;
      }
      var p := project.value;
      var known := FirstWhere(p.sections, ById(RecordId, sectionId)) != -1;
      if !known {
        project := Some(p.(sections := p.sections + [IndexRecord(sectionId, sectionName)]));
        assert project.value.sections[|p.sections|].id == sectionId;
      } else {
        assert (ById(RecordId, sectionId))(p.sections[FirstWhere(p.sections, ById(RecordId, sectionId))]);
      }
      storage := storage[SectionKey(p.id, sectionId) := SectionValue(data)];
    }

    /** The store's `deleteSection`: forgets a section's saved data. Without an open project nothing happens. */
    method DeleteSection(sectionId: int)
      requires Valid()
      modifies this`storage
      ensures Valid()
      ensures old(project).None? ==> storage == old(storage)
      ensures old(project).Some? ==> storage == old(storage) - {SectionKey(project.value.id, sectionId)}
    {
      if project.Some? {
        storage := storage - {SectionKey(project.value.id, sectionId)};
      }
    }
  }
}
