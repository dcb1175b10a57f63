/**
 * The storage collaborator, reduced to an in-memory map from file name to the
 * record saved under it. Directory handling and JSON encoding
 * (src/persistence/file_storage.py) are not modelled.
 */
module Persistence {
  import opened Values

  /**
   * A persisted story-state record. Each of the four top-level keys of the
   * snapshot may be missing from a record read back; a record with none of
   * them is the empty dictionary.
   */
  datatype SavedState = SavedState(
    storyElements: Option<Value>,
    chaptersContent: Option<map<int, string>>,
    currentChapterIndex: Option<int>,
    overallProgress: Option<map<string, Value>>)
  {
    /** Python's `if loaded_state:` — an empty dictionary is false. */
    predicate IsEmpty() {
      storyElements.None? && chaptersContent.None? && currentChapterIndex.None? && overallProgress.None?
    }
  }

  function Lookup(files: map<string, SavedState>, filename: string): (r: Option<SavedState>)
    ensures r.Some? <==> filename in files
    ensures r.Some? ==> r.value == files[filename]
  {
    if filename in files then Some(files[filename]) else None
  }

  class FileStorage {
    /** The records on disk, by file name. */
    var files: map<string, SavedState>
    /** How many saves have happened, for stating how often a run saves. */
    ghost var saveCount: nat

    constructor (existing: map<string, SavedState>)
      ensures files == existing && saveCount == 0
    {
      files := existing;
      saveCount := 0;
    }

    method SaveData(filename: string, data: SavedState)
      modifies this
      ensures files == old(files)[filename := data]
      ensures saveCount == old(saveCount) + 1
    {
      files := files[filename := data];
      saveCount := saveCount + 1;
    }

    /** The saved record, or None when no file of that name exists. */
    method LoadData(filename: string) returns (data: Option<SavedState>)
      ensures data == Lookup(files, filename)
    {
      data := Lookup(files, filename);
    }
  }
}
