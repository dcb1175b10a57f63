/**
 * The durable story state (src/story/story_state_manager.py): the story
 * elements, the chapter texts keyed by chapter number, the current chapter
 * index and a progress dictionary, with save and load through the storage
 * collaborator. `chapters_written` is recomputed from the chapter map on every
 * chapter write.
 */
module StateManager {
  import opened Values
  import opened Elements
  import opened Persistence

  const DefaultStateFile := "story_state.json"

  const OutlineGeneratedKey := "outline_generated"
  const ChaptersWrittenKey := "chapters_written"
  const TotalChaptersKey := "total_chapters"
  const StatusKey := "status"

  /** The progress dictionary of a new manager. */
  const InitialProgress: map<string, Value> :=
    map[OutlineGeneratedKey := VBool(false), ChaptersWrittenKey := VInt(0),
        TotalChaptersKey := VInt(0), StatusKey := VStr("initialized")]

  /** The content of a `StoryStateManager` object (the storage reference aside). */
  datatype ManagerState = ManagerState(
    elements: Elements,
    chapters: map<int, string>,
    chapterIndex: int,
    progress: map<string, Value>)

  const InitialState := ManagerState(NoElements, map[], 0, InitialProgress)

  /** `chapters_written` equals the number of stored chapters. */
  predicate ProgressConsistent(m: ManagerState) {
    ChaptersWrittenKey in m.progress && m.progress[ChaptersWrittenKey] == VInt(|m.chapters|)
  }

  /** The chapter keys are exactly 1..`chapters_written`. */
  ghost predicate ChaptersNumbered(m: ManagerState) {
    forall k :: k in m.chapters <==> 1 <= k <= |m.chapters|
  }

  lemma InitialStateConsistent()
    ensures ProgressConsistent(InitialState) && ChaptersNumbered(InitialState)
    ensures InitialProgress[OutlineGeneratedKey] == VBool(false) && InitialProgress[TotalChaptersKey] == VInt(0)
    ensures InitialProgress[StatusKey] == VStr("initialized")
  {
  }

  /** `add_chapter_content`: stores the text and recomputes `chapters_written`. */
  function AddChapter(m: ManagerState, index: int, content: string): (r: ManagerState)
    ensures r.chapters == m.chapters[index := content]
    ensures ProgressConsistent(r)
    ensures forall k :: k != ChaptersWrittenKey ==> Get(r.progress, k) == Get(m.progress, k)
    ensures r.elements == m.elements && r.chapterIndex == m.chapterIndex
  {
    var chapters := m.chapters[index := content];
    m.(chapters := chapters, progress := m.progress[ChaptersWrittenKey := VInt(|chapters|)])
  }

  /** Re-adding an existing chapter number replaces its text and leaves the progress as it was. */
  lemma ReAddKeepsCount(m: ManagerState, index: int, content: string)
    requires ProgressConsistent(m) && index in m.chapters
    ensures AddChapter(m, index, content).progress == m.progress
    ensures |AddChapter(m, index, content).chapters| == |m.chapters|
  {
    assert m.chapters[index := content].Keys == m.chapters.Keys;
  }

  /** A new chapter number adds one to `chapters_written`. */
  lemma NewChapterCounts(m: ManagerState, index: int, content: string)
    requires ProgressConsistent(m) && index !in m.chapters
    ensures AddChapter(m, index, content).progress[ChaptersWrittenKey] == VInt(|m.chapters| + 1)
  {
  }

  /** Storing at `chapters_written + 1` keeps the keys numbered 1..`chapters_written`. */
  lemma NextChapterKeepsNumbering(m: ManagerState, content: string)
    requires ProgressConsistent(m) && ChaptersNumbered(m)
    ensures var r := AddChapter(m, |m.chapters| + 1, content);
      ChaptersNumbered(r) && |r.chapters| == |m.chapters| + 1 && ProgressConsistent(r)
  {
  }

  /** `update_progress(key, value)`: only `key` changes. */
  function SetProgress(m: ManagerState, key: string, value: Value): (r: ManagerState)
    ensures r.progress == m.progress[key := value]
    ensures r.elements == m.elements && r.chapters == m.chapters && r.chapterIndex == m.chapterIndex
  {
    m.(progress := m.progress[key := value])
  }

  /** `set_total_chapters`: only `total_chapters` changes. */
  function SetTotal(m: ManagerState, count: int): (r: ManagerState)
    ensures r.progress == m.progress[TotalChaptersKey := VInt(count)]
    ensures r.elements == m.elements && r.chapters == m.chapters && r.chapterIndex == m.chapterIndex
  {
    SetProgress(m, TotalChaptersKey, VInt(count))
  }

  /** Updating any key other than `chapters_written` keeps the chapter count consistent. */
  lemma UpdateOtherKeyKeepsConsistency(m: ManagerState, key: string, value: Value)
    requires ProgressConsistent(m) && key != ChaptersWrittenKey
    ensures ProgressConsistent(SetProgress(m, key, value))
  {
  }

  /** What `get_current_state` returns. */
  datatype Snapshot = Snapshot(
    storyElements: Value,
    chaptersContent: map<int, string>,
    currentChapterIndex: int,
    overallProgress: map<string, Value>)

  function CurrentState(m: ManagerState): (s: Snapshot)
    ensures ElementsFromDict(s.storyElements) == Some(m.elements)
    ensures s.chaptersContent == m.chapters && s.currentChapterIndex == m.chapterIndex
    ensures s.overallProgress == m.progress
  {
    ElementsRoundTrip(m.elements);
    Snapshot(ElementsToDict(m.elements), m.chapters, m.chapterIndex, m.progress)
  }

  /** The record `save_state` hands to storage: the snapshot with all four keys present. */
  function ToSaved(s: Snapshot): (r: SavedState)
    ensures !r.IsEmpty()
    ensures r.storyElements == Some(s.storyElements) && r.chaptersContent == Some(s.chaptersContent)
    ensures r.currentChapterIndex == Some(s.currentChapterIndex) && r.overallProgress == Some(s.overallProgress)
  {
    SavedState(Some(s.storyElements), Some(s.chaptersContent), Some(s.currentChapterIndex), Some(s.overallProgress))
  }

  const WorldUndefined := "NameError: name 'World' is not defined"
  /** Truthy story elements that are not a dictionary; Python's message names the value's type, so only the class is kept. */
  const NotADictionary := "AttributeError"

  datatype LoadOutcome = Loaded | NothingSaved | LoadRaised(exception: string)
  datatype LoadResult = LoadResult(outcome: LoadOutcome, state: ManagerState)

  /**
   * `load_state` given what storage returned. A non-empty record first resets the
   * story elements; a record with a world then raises, because the class `World`
   * is not imported in the source file. Otherwise chapters, index and progress
   * are taken from the record with defaults `{}`, 0 and `{}`.
   */
  function Load(m: ManagerState, loaded: Option<SavedState>): (r: LoadResult)
    ensures r.outcome.NothingSaved? <==> loaded.None? || loaded.value.IsEmpty()
    ensures r.outcome.NothingSaved? ==> r.state == m
    ensures r.outcome.LoadRaised? ==> r.state == m.(elements := NoElements)
    ensures r.outcome.Loaded? ==> r.state.elements == NoElements
    ensures r.outcome.LoadRaised? <==> (loaded.Some? && !loaded.value.IsEmpty() && loaded.value.storyElements.Some?
      && Truthy(loaded.value.storyElements.value)
      && (!loaded.value.storyElements.value.VDict? || Truthy(Get(loaded.value.storyElements.value.fields, "world"))))
    ensures r.outcome.Loaded? ==> r.state == ManagerState(NoElements, loaded.value.chaptersContent.GetOr(map[]),
      loaded.value.currentChapterIndex.GetOr(0), loaded.value.overallProgress.GetOr(map[]))
  {
    if loaded.None? || loaded.value.IsEmpty() then LoadResult(NothingSaved, m)
    else
      var rec := loaded.value;
      var reset := m.(elements := NoElements);
      var restored := LoadResult(Loaded, ManagerState(NoElements,
        rec.chaptersContent.GetOr(map[]), rec.currentChapterIndex.GetOr(0), rec.overallProgress.GetOr(map[])));
      if rec.storyElements.Some? && Truthy(rec.storyElements.value) then
        match rec.storyElements.value
        case VDict(fields) =>
          if Truthy(Get(fields, "world")) then LoadResult(LoadRaised(WorldUndefined), reset) else restored
        case _ => LoadResult(LoadRaised(NotADictionary), reset)
      else restored
  }

  /** With no saved record, or an empty one, loading changes nothing. */
  lemma LoadWithoutRecord(m: ManagerState, loaded: Option<SavedState>)
    requires loaded.None? || loaded.value.IsEmpty()
    ensures Load(m, loaded) == LoadResult(NothingSaved, m)
  {
  }

  /** A record without story elements restores the other three fields, with their defaults. */
  lemma LoadWithoutElements(m: ManagerState, rec: SavedState)
    requires !rec.IsEmpty() && rec.storyElements.None?
    ensures Load(m, Some(rec)).outcome == Loaded
    ensures Load(m, Some(rec)).state.elements == NoElements
    ensures Load(m, Some(rec)).state.chapters == (if rec.chaptersContent.Some? then rec.chaptersContent.value else map[])
    ensures Load(m, Some(rec)).state.chapterIndex == (if rec.currentChapterIndex.Some? then rec.currentChapterIndex.value else 0)
    ensures Load(m, Some(rec)).state.progress == (if rec.overallProgress.Some? then rec.overallProgress.value else map[])
  {
  }

  /**
   * Save followed by load through a storage that returns what was saved: without
   * a world, chapters, index and progress come back and characters and plotlines
   * are reset to empty; with a world, loading raises after resetting the elements.
   */
  lemma SaveLoadRoundTrip(m: ManagerState, other: ManagerState)
    ensures m.elements.world.None? ==>
      Load(other, Some(ToSaved(CurrentState(m)))) == LoadResult(Loaded, ManagerState(NoElements, m.chapters, m.chapterIndex, m.progress))
    ensures m.elements.world.Some? ==>
      Load(other, Some(ToSaved(CurrentState(m)))) == LoadResult(LoadRaised(WorldUndefined), other.(elements := NoElements))
  {
    var d := ElementsToDict(m.elements);
    assert Truthy(d) by {
      assert "world" in d.fields;
    }
    if m.elements.world.Some? {
      assert Truthy(m.elements.world.value.ToDict()) by {
        assert "name" in m.elements.world.value.ToDict().fields;
      }
    }
  }

  class StoryStateManager {
    var currentStoryElements: StoryElements
    var chaptersContent: map<int, string>
    var currentChapterIndex: int
    var overallProgress: map<string, Value>
    const storage: FileStorage

    function Abs(): ManagerState
      reads this, currentStoryElements
    {
      ManagerState(currentStoryElements.Abs(), chaptersContent, currentChapterIndex, overallProgress)
    }

    ghost predicate Valid()
      reads this, currentStoryElements
    {
      currentStoryElements.Valid()
    }

    constructor (storage: FileStorage)
      ensures Valid() && fresh(currentStoryElements)
      ensures Abs() == InitialState && this.storage == storage
    {
      currentStoryElements := new StoryElements();
      chaptersContent := map[];
      currentChapterIndex := 0;
      overallProgress := InitialProgress;
      this.storage := storage;
    }

    /** A placeholder in the source: whatever it is given, nothing changes. */
    method UpdateElements(newElements: map<string, Value>)
      ensures unchanged(this, currentStoryElements)
    {
    }

    method AddChapterContent(chapterIndex: int, content: string)
      modifies this`chaptersContent, this`overallProgress
      ensures Abs() == AddChapter(old(Abs()), chapterIndex, content)
    {
      chaptersContent := chaptersContent[chapterIndex := content];
      overallProgress := overallProgress[ChaptersWrittenKey := VInt(|chaptersContent|)];
    }

    method SetTotalChapters(count: int)
      modifies this`overallProgress
      ensures Abs() == SetTotal(old(Abs()), count)
    {
      overallProgress := overallProgress[TotalChaptersKey := VInt(count)];
    }

    method UpdateProgress(key: string, value: Value)
      modifies this`overallProgress
      ensures Abs() == SetProgress(old(Abs()), key, value)
    {
      overallProgress := overallProgress[key := value];
    }

    function GetCurrentState(): (s: Snapshot)
      reads this, currentStoryElements
      ensures s == CurrentState(Abs())
    {
      Snapshot(currentStoryElements.ToDict(), chaptersContent, currentChapterIndex, overallProgress)
    }

    method SaveState(filename: string)
      modifies storage
      ensures storage.files == old(storage.files)[filename := ToSaved(CurrentState(Abs()))]
      ensures storage.saveCount == old(storage.saveCount) + 1
    {
      var stateToSave := GetCurrentState();
      storage.SaveData(filename, ToSaved(stateToSave));
    }

    method LoadState(filename: string) returns (outcome: LoadOutcome)
      requires Valid()
      modifies this`currentStoryElements, this`chaptersContent, this`currentChapterIndex, this`overallProgress
      ensures Valid()
      ensures LoadResult(outcome, Abs()) == Load(old(Abs()), Lookup(storage.files, filename))
      ensures currentStoryElements == old(currentStoryElements) || fresh(currentStoryElements)
    {
      var loadedState := storage.LoadData(filename);
      if loadedState.None? || loadedState.value.IsEmpty() {
        return NothingSaved;
      }
      var rec := loadedState.value;
      currentStoryElements := new StoryElements();
      if rec.storyElements.Some? && Truthy(rec.storyElements.value) {
        match rec.storyElements.value
        case VDict(fields) =>
          if Truthy(Get(fields, "world")) {
            return LoadRaised(WorldUndefined);
          }
        case _ =>
          return LoadRaised(NotADictionary);
      }
      chaptersContent := rec.chaptersContent.GetOr(map[]);
      currentChapterIndex := rec.currentChapterIndex.GetOr(0);
      overallProgress := rec.overallProgress.GetOr(map[]);
      outcome := Loaded;
    }
  }
}
