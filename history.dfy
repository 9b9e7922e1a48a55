/**
 * The bounded history logs: sent_facts.json (facts, last 200 ids) and sent_trivia.json
 * (trivia, last 300 ids). A missing file, or one that is not valid JSON, reads as the
 * empty history. Saving replaces the whole file with the last `capacity` ids.
 */
module History {

  const MaxStoredFacts: nat := 200
  const MaxStoredQuestions: nat := 300

  /** What a history file holds, as far as `load_*` can tell. */
  datatype StoredFile = Missing | Corrupt | Stored(ids: seq<string>)

  /** The ids `load_*` returns for a file. */
  function Loaded(f: StoredFile): seq<string> {
    if f.Stored? then f.ids else []
  }

  /** The last `n` entries of `ids` (all of them when there are fewer). */
  function Last(ids: seq<string>, n: nat): seq<string> {
    if |ids| <= n then ids else ids[|ids| - n..]
  }

  /**
   * Python's slice `ids[-max:]`. For `max == 0` the slice is `ids[0:]`, the whole list;
   * the bot only uses 200 and 300.
   */
  function Truncate(ids: seq<string>, max: nat): (r: seq<string>)
    ensures max > 0 ==> |r| <= max
    ensures |r| <= |ids| && r == ids[|ids| - |r|..]
    ensures max > 0 ==> r == Last(ids, max)
    ensures |ids| <= max ==> r == ids
  {
    if max == 0 then ids else Last(ids, max)
  }

  /** A list that fits is stored unchanged; a longer one loses exactly its oldest entries. */
  lemma TruncateExact(ids: seq<string>, max: nat)
    requires max > 0
    ensures |Truncate(ids, max)| == if |ids| <= max then |ids| else max
    ensures |ids| > max ==> ids == ids[..|ids| - max] + Truncate(ids, max)
  {
  }

  /** Saving an already-saved history again stores the same list. */
  lemma TruncateIdempotent(ids: seq<string>, max: nat)
    ensures Truncate(Truncate(ids, max), max) == Truncate(ids, max)
  {
  }

  /**
   * Appending one id and truncating keeps the new id last, and before it the most
   * recent `max - 1` earlier entries in their original order.
   */
  lemma {:induction false} TruncateAppend(h: seq<string>, x: string, max: nat)
    requires max > 0
    ensures Truncate(h + [x], max) == Last(h, max - 1) + [x]
  {
    var s := h + [x];
    if |s| > max {
      assert s[|s| - max..] == h[|h| - (max - 1)..] + [x];
    }
  }

  /** Appending a batch of ids: the stored history ends with the newest of them. */
  lemma {:induction false} TruncateAppendAll(h: seq<string>, xs: seq<string>, max: nat)
    requires 0 < |xs| <= max
    ensures Truncate(h + xs, max) == Last(h, max - |xs|) + xs
  {
    var s := h + xs;
    if |s| > max {
      assert s[|s| - max..] == h[|h| - (max - |xs|)..] + xs;
    }
  }

  /** One persisted history file, read and replaced by `load_*` and `save_*`. */
  class HistoryLog {
    var file: StoredFile
    const capacity: nat

    constructor (capacity: nat, file: StoredFile)
      ensures this.capacity == capacity && this.file == file
    {
      this.capacity := capacity;
      this.file := file;
    }

    /** `load_sent_facts` / `load_sent_trivia`. */
    method Load() returns (ids: seq<string>)
      ensures ids == Loaded(file)
      ensures file.Stored? ==> ids == file.ids
      ensures file == Missing || file == Corrupt ==> ids == []
    {
      match file
      case Stored(stored) => ids := stored;
      case _ => ids := [];
    }

    /** `save_sent_facts` / `save_sent_trivia`: the file is replaced by the last `capacity` ids. */
    method Save(ids: seq<string>)
      modifies this
      ensures file == Stored(Truncate(ids, capacity))
    {
      file := Stored(Truncate(ids, capacity));
    }
  }

  /** Saving and then loading gives back the last `capacity` ids of the saved list, in order. */
  method SaveThenLoad(log: HistoryLog, ids: seq<string>) returns (back: seq<string>)
    requires log.capacity > 0
    modifies log
    ensures back == Last(ids, log.capacity)
    ensures |back| <= log.capacity
  {
    log.Save(ids);
    back := log.Load();
  }
}
