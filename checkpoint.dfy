/** The checkpoint file (`save_checkpoint` / `load_checkpoint`): a record
    of the two processed sets, the counters and the batch-size index. The
    gzip and JSON encodings are abstracted: a saved file holds the record
    itself, and a file whose decoding fails is `Corrupt`. */
module Checkpoint {
  import opened Base
  import opened Output

  /** The batch-size index the program starts with. */
  const DefaultBatchIndex: int := 5

  /** The decoded contents of a checkpoint; a key missing from the JSON
      object is `None`. */
  datatype Record = Record(doneFolders: Option<set<Path>>, doneFiles: Option<set<Path>>,
                           stats: Option<Stats>, batchIdx: Option<int>)

  datatype CheckpointFile = Absent | Corrupt | Saved(record: Record)

  /** The progress a checkpoint carries over between sessions. */
  datatype Progress = Progress(doneFolders: set<Path>, doneFiles: set<Path>, stats: Stats, batchIdx: int)

  const InitialProgress: Progress := Progress({}, {}, InitialStats, DefaultBatchIndex)

  /** `save_checkpoint`: every key is written. */
  function Save(p: Progress): CheckpointFile {
    Saved(Record(Some(p.doneFolders), Some(p.doneFiles), Some(p.stats), Some(p.batchIdx)))
  }

  function OrElse<T>(o: Option<T>, d: T): T {
    if o.Some? then o.value else d
  }

  /** `load_checkpoint`: nothing changes when there is no file or it does
      not decode; otherwise every key is read, a missing one falling back to
      its default. */
  function Load(file: CheckpointFile, current: Progress): (r: Progress)
    ensures file.Saved? ==> r.batchIdx == OrElse(file.record.batchIdx, DefaultBatchIndex)
    ensures !file.Saved? ==> r == current
  {
    match file
    case Absent => current
    case Corrupt => current
    case Saved(rec) =>
      Progress(OrElse(rec.doneFolders, {}), OrElse(rec.doneFiles, {}),
               OrElse(rec.stats, InitialStats), OrElse(rec.batchIdx, DefaultBatchIndex))
  }

  /** Loading what was saved restores it exactly, whatever the current
      progress is. */
  lemma LoadSaveRoundTrip(p: Progress, current: Progress)
    ensures Load(Save(p), current) == p
  {
  }

  /** A checkpoint with every key missing restores the initial progress. */
  lemma LoadEmptyRecord(current: Progress)
    ensures Load(Saved(Record(None, None, None, None)), current) == InitialProgress
  {
  }

  /** Each key is restored on its own: a present key is taken as saved, a
      missing one is reset to its default. */
  lemma LoadPerKey(rec: Record, current: Progress)
    ensures Load(Saved(rec), current).doneFolders == (if rec.doneFolders.Some? then rec.doneFolders.value else {})
    ensures Load(Saved(rec), current).doneFiles == (if rec.doneFiles.Some? then rec.doneFiles.value else {})
    ensures Load(Saved(rec), current).stats == (if rec.stats.Some? then rec.stats.value else Stats(0, 0, 0))
  {
  }
}
