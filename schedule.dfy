/** The batch scheduler: the pending folder list (`get_pending_folders`),
    the work done for one folder (`process_folder_files`,
    `copy_or_link_file`), one batch (`process_batch`) and the root index
    (`create_root_index`). The class methods in `Vault` are proved to have
    exactly these effects. */
module Schedule {
  import opened Base
  import opened Sorting
  import opened Classifier
  import opened Scanning
  import opened Output
  import opened MapOfContent

  /** The batch sizes the program offers, picked by index. */
  const BatchSizes: seq<int> := [100, 200, 300, 500, 750, 1000, 1500, 2000, 3000, 5000]

  /** `BATCH_SIZES[idx]` with Python's indexing: a negative index counts
      from the end, an index outside -10..9 raises `IndexError` (`None`). */
  function BatchSize(idx: int): Option<int> {
    if 0 <= idx < |BatchSizes| then Some(BatchSizes[idx])
    else if -|BatchSizes| <= idx < 0 then Some(BatchSizes[idx + |BatchSizes|])
    else None
  }

  /** The sort key of the pending list: level, then lower-cased name. */
  function PendingKey(folders: map<Path, FolderInfo>): Path -> Key {
    k => if k in folders then Key(folders[k].level, Lower(folders[k].name)) else Key(0, [])
  }

  /** `get_pending_folders`: the unprocessed keys in dictionary order,
      stably sorted by level and lower-cased name. */
  function Pending(folders: map<Path, FolderInfo>, order: seq<Path>, done: set<Path>): seq<Path> {
    SortBy(Without(order, done), PendingKey(folders))
  }

  /** The pending list holds every unprocessed key exactly once, shallower
      folders first and, within a level, in lower-cased name order. */
  lemma PendingExact(folders: map<Path, FolderInfo>, order: seq<Path>, done: set<Path>)
    requires NoDup(order)
    ensures NoDup(Pending(folders, order, done))
    ensures forall k :: k in Pending(folders, order, done) <==> k in order && k !in done
    ensures SortedBy(Pending(folders, order, done), PendingKey(folders))
  {
    var w := Without(order, done);
    SortByIsSortedPermutation(w, PendingKey(folders));
    WithoutNoDup(order, done);
    PermNoDup(w, Pending(folders, order, done));
    forall k ensures k in Pending(folders, order, done) <==> k in order && k !in done {
      WithoutMember(order, done, k);
      assert k in Pending(folders, order, done) <==> k in multiset(Pending(folders, order, done));
      assert k in w <==> k in multiset(w);
    }
  }

  /** Marking folders as processed removes exactly those from the pending
      list and leaves the rest in the same order. */
  lemma PendingAfterMarking(folders: map<Path, FolderInfo>, order: seq<Path>, done: set<Path>, n: nat)
    requires NoDup(order) && n <= |Pending(folders, order, done)|
    ensures Pending(folders, order, done + Elems(Pending(folders, order, done)[..n]))
         == Pending(folders, order, done)[n..]
  {
    var pending := Pending(folders, order, done);
    var b := Elems(pending[..n]);
    WithoutTwice(order, done, b);
    SortWithout(Without(order, done), b, PendingKey(folders));
    PendingExact(folders, order, done);
    WithoutPrefix(pending, n);
  }

  // ---------------------------------------------------------------------
  // One folder

  /** `copy_or_link_file`: nothing for a file already processed. */
  function CopyOrLink(s: Store, f: FileInfo, target: Path): Store {
    if f.rel in s.doneFiles then s else Link(s, f, target)
  }

  /** The file loop of `process_folder_files`: each unprocessed file is
      materialised and then recorded as processed. */
  function MarkFiles(s: Store, fs: seq<FileInfo>, target: Path): Store {
    if fs == [] then s
    else
      var s1 := MarkFiles(s, fs[..|fs| - 1], target);
      var f := fs[|fs| - 1];
      if f.rel in s1.doneFiles then s1
      else
        var s2 := CopyOrLink(s1, f, target);
        s2.(doneFiles := s2.doneFiles + {f.rel})
  }

  /** Every file of the folder is processed when `files` are all done. */
  predicate AllDone(fs: seq<FileInfo>, done: set<Path>) {
    forall f :: f in fs ==> f.rel in done
  }

  /** The number of records of `fs` whose rel path is processed. */
  function DoneCount(fs: seq<FileInfo>, done: set<Path>): nat {
    if fs == [] then 0 else DoneCount(fs[..|fs| - 1], done) + (if fs[|fs| - 1].rel in done then 1 else 0)
  }

  /** The completeness test of `process_folder_files`: as many processed
      records as records exactly when every record is processed. */
  lemma {:induction false} DoneCountAll(fs: seq<FileInfo>, done: set<Path>)
    ensures DoneCount(fs, done) <= |fs|
    ensures DoneCount(fs, done) == |fs| <==> AllDone(fs, done)
  {
    if fs != [] {
      var init, f := fs[..|fs| - 1], fs[|fs| - 1];
      DoneCountAll(init, done);
      assert fs == init + [f];
      if AllDone(fs, done) {
        assert AllDone(init, done);
      }
    }
  }

  /** `process_folder_files`: make the output folder, process the files,
      regenerate the document, and mark the folder complete when all its
      files are processed. */
  function ProcessFolder(folders: map<Path, FolderInfo>, key: Path, s: Store): Store
    requires key in folders && ChildrenKnown(folders)
  {
    var s1 := s.(output := WithDirs(s.output, key));
    var s2 := MarkFiles(s1, folders[key].files, key);
    var s3 := WriteMoc(folders, key, s2);
    if AllDone(folders[key].files, s3.doneFiles) then s3.(doneFolders := s3.doneFolders + {key}) else s3
  }

  /** The rel paths of a list of file records. */
  function Rels(fs: seq<FileInfo>): set<Path> {
    if fs == [] then {} else Rels(fs[..|fs| - 1]) + {fs[|fs| - 1].rel}
  }

  lemma {:induction false} RelsMember(fs: seq<FileInfo>, f: FileInfo)
    requires f in fs
    ensures f.rel in Rels(fs)
  {
    if f != fs[|fs| - 1] {
      assert fs == fs[..|fs| - 1] + [fs[|fs| - 1]];
      RelsMember(fs[..|fs| - 1], f);
    }
  }

  /** The records of `fs` whose rel path was not processed before, and not
      seen earlier in `fs`. */
  function NewFiles(fs: seq<FileInfo>, done: set<Path>): seq<FileInfo> {
    if fs == [] then []
    else
      var init, f := fs[..|fs| - 1], fs[|fs| - 1];
      NewFiles(init, done) + (if f.rel in done || f.rel in Rels(init) then [] else [f])
  }

  lemma {:induction false} MarkFilesSets(s: Store, fs: seq<FileInfo>, target: Path)
    ensures MarkFiles(s, fs, target).doneFiles == s.doneFiles + Rels(fs)
    ensures MarkFiles(s, fs, target).doneFolders == s.doneFolders
    ensures MarkFiles(s, fs, target).stats.batches == s.stats.batches
  {
    if fs != [] {
      MarkFilesSets(s, fs[..|fs| - 1], target);
    }
  }

  lemma {:induction false} MarkFilesLinked(s: Store, fs: seq<FileInfo>, target: Path)
    ensures MarkFiles(s, fs, target).stats.linked == s.stats.linked + CountProxies(NewFiles(fs, s.doneFiles))
  {
    if fs != [] {
      var init, f := fs[..|fs| - 1], fs[|fs| - 1];
      MarkFilesLinked(s, init, target);
      MarkFilesSets(s, init, target);
      var s1 := MarkFiles(s, init, target);
      var nf := NewFiles(init, s.doneFiles);
      if f.rel !in s1.doneFiles {
        LinkCounters(s1, f, target);
        assert NewFiles(fs, s.doneFiles) == nf + [f];
        assert (nf + [f])[..|nf + [f]| - 1] == nf;
      } else {
        assert NewFiles(fs, s.doneFiles) == nf + [];
        assert nf + [] == nf;
      }
    }
  }

  lemma {:induction false} MarkFilesFrame(s: Store, fs: seq<FileInfo>, target: Path)
    ensures forall q :: q in s.output ==>
              q in MarkFiles(s, fs, target).output && MarkFiles(s, fs, target).output[q] == s.output[q]
  {
    if fs != [] {
      var init, f := fs[..|fs| - 1], fs[|fs| - 1];
      MarkFilesFrame(s, init, target);
      var s1 := MarkFiles(s, init, target);
      if f.rel !in s1.doneFiles {
        assert CopyOrLink(s1, f, target) == Link(s1, f, target);
      }
    }
  }

  /** After a folder is processed all its files are processed, so it is
      always marked complete: the completeness test never fails. */
  lemma ProcessFolderCompletes(folders: map<Path, FolderInfo>, key: Path, s: Store)
    requires key in folders && ChildrenKnown(folders)
    ensures ProcessFolder(folders, key, s).doneFolders == s.doneFolders + {key}
    ensures ProcessFolder(folders, key, s).doneFiles == s.doneFiles + Rels(folders[key].files)
    ensures ProcessFolder(folders, key, s).stats.batches == s.stats.batches
  {
    var fs := folders[key].files;
    var s1 := s.(output := WithDirs(s.output, key));
    MarkFilesSets(s1, fs, key);
    var s2 := MarkFiles(s1, fs, key);
    LinkAllFrame(s2.(output := WithDirs(s2.output, key)), MocFiles(folders[key], s2.doneFiles), key);
    forall f | f in fs ensures f.rel in s2.doneFiles {
      RelsMember(fs, f);
    }
  }

  /** Processing a folder counts one link per newly processed proxied file
      and one more per proxied file its document lists. */
  lemma ProcessFolderLinks(folders: map<Path, FolderInfo>, key: Path, s: Store)
    requires key in folders && ChildrenKnown(folders)
    ensures ProcessFolder(folders, key, s).stats.linked
         == s.stats.linked + CountProxies(NewFiles(folders[key].files, s.doneFiles))
            + CountProxies(MocFiles(folders[key], s.doneFiles + Rels(folders[key].files)))
  {
    var fs := folders[key].files;
    var s1 := s.(output := WithDirs(s.output, key));
    MarkFilesLinked(s1, fs, key);
    MarkFilesSets(s1, fs, key);
    var s2 := MarkFiles(s1, fs, key);
    var s3 := s2.(output := WithDirs(s2.output, key));
    LinkAllCounters(s3, MocFiles(folders[key], s2.doneFiles), key);
  }

  /** No two records of the list share a rel path (true of every folder's
      file list, see `Scanning.FilesAmongShape`). */
  predicate DistinctRels(fs: seq<FileInfo>) {
    forall i, j :: 0 <= i < j < |fs| ==> fs[i].rel != fs[j].rel
  }

  /** Everything a folder's processing writes is there afterwards: its
      output folder, the artifact of each of its newly processed files, and
      its document. */
  lemma ProcessFolderMaterialises(folders: map<Path, FolderInfo>, key: Path, s: Store)
    requires key in folders && ChildrenKnown(folders) && DistinctRels(folders[key].files)
    ensures forall i :: 1 <= i <= |key| ==> key[..i] in ProcessFolder(folders, key, s).output
    ensures MocPath(key, folders[key]) in ProcessFolder(folders, key, s).output
    ensures forall f :: f in folders[key].files && f.rel !in s.doneFiles ==>
              ArtifactPath(f, key) in ProcessFolder(folders, key, s).output
  {
    var fs := folders[key].files;
    var s1 := s.(output := WithDirs(s.output, key));
    MarkFilesFrame(s1, fs, key);
    MarkFilesArtifacts(s1, fs, key);
    var s2 := MarkFiles(s1, fs, key);
    var s3 := s2.(output := WithDirs(s2.output, key));
    LinkAllFrame(s3, MocFiles(folders[key], s2.doneFiles), key);
  }

  /** With every file already processed, the file loop does nothing. */
  lemma {:induction false} MarkFilesAllDone(s: Store, fs: seq<FileInfo>, target: Path)
    requires AllDone(fs, s.doneFiles)
    ensures MarkFiles(s, fs, target) == s
  {
    if fs != [] {
      var init := fs[..|fs| - 1];
      assert forall f :: f in init ==> f in fs;
      MarkFilesAllDone(s, init, target);
      assert fs[|fs| - 1] in fs;
    }
  }

  /** Processing a folder a second time, with nothing in between, changes
      no file, copies nothing and marks nothing new: only the proxies its
      document lists are counted again as links. */
  lemma ProcessFolderIdempotent(folders: map<Path, FolderInfo>, key: Path, s: Store)
    requires key in folders && ChildrenKnown(folders)
    ensures ProcessFolder(folders, key, ProcessFolder(folders, key, s)).output
         == ProcessFolder(folders, key, s).output
    ensures ProcessFolder(folders, key, ProcessFolder(folders, key, s)).doneFiles
         == ProcessFolder(folders, key, s).doneFiles
    ensures ProcessFolder(folders, key, ProcessFolder(folders, key, s)).doneFolders
         == ProcessFolder(folders, key, s).doneFolders
    ensures ProcessFolder(folders, key, ProcessFolder(folders, key, s)).stats
         == ProcessFolder(folders, key, s).stats.(linked := ProcessFolder(folders, key, s).stats.linked
              + CountProxies(MocFiles(folders[key], ProcessFolder(folders, key, s).doneFiles)))
  {
    var fs := folders[key].files;
    var s2 := MarkFiles(s.(output := WithDirs(s.output, key)), fs, key);
    var t := WriteMoc(folders, key, s2);
    var p := ProcessFolder(folders, key, s);
    ProcessFolderCompletes(folders, key, s);
    WriteMocDirs(folders, key, s2);
    forall f | f in fs ensures f.rel in p.doneFiles {
      RelsMember(fs, f);
    }
    var d := p.doneFolders;
    assert p == t.(doneFolders := d);
    // the second pass: the folders exist, every file is done, and only
    // the document is written again
    WithDirsPresent(p.output, key);
    assert p.(output := WithDirs(p.output, key)) == p;
    MarkFilesAllDone(p, fs, key);
    WriteMocDoneFolders(folders, key, t, d);
    WriteMocIdempotent(folders, key, s2);
    WriteMocDirs(folders, key, t);
    ProcessFolderCompletes(folders, key, p);
  }

  lemma {:induction false} RelsAbsent(fs: seq<FileInfo>, r: Path)
    requires forall i :: 0 <= i < |fs| ==> fs[i].rel != r
    ensures r !in Rels(fs)
  {
    if fs != [] {
      RelsAbsent(fs[..|fs| - 1], r);
    }
  }

  lemma {:induction false} MarkFilesArtifacts(s: Store, fs: seq<FileInfo>, target: Path)
    requires DistinctRels(fs)
    ensures forall f :: f in fs && f.rel !in s.doneFiles ==> ArtifactPath(f, target) in MarkFiles(s, fs, target).output
  {
    if fs != [] {
      var init, f := fs[..|fs| - 1], fs[|fs| - 1];
      MarkFilesArtifacts(s, init, target);
      MarkFilesSets(s, init, target);
      var s1 := MarkFiles(s, init, target);
      if f.rel !in s.doneFiles {
        RelsAbsent(init, f.rel);
        assert CopyOrLink(s1, f, target) == Link(s1, f, target);
      }
      forall g | g in fs && g.rel !in s.doneFiles
        ensures ArtifactPath(g, target) in MarkFiles(s, fs, target).output
      {
        if g != f {
          assert g in init by { assert fs == init + [f]; }
        }
      }
    }
  }

  // ---------------------------------------------------------------------
  // One batch

  /** The folder loop of `process_batch`: each folder is processed and then
      marked processed again. */
  function RunBatch(folders: map<Path, FolderInfo>, batch: seq<Path>, s: Store): Store
    requires ChildrenKnown(folders) && forall k :: k in batch ==> k in folders
  {
    if batch == [] then s
    else
      var s1 := RunBatch(folders, batch[..|batch| - 1], s);
      var key := batch[|batch| - 1];
      var s2 := ProcessFolder(folders, key, s1);
      s2.(doneFolders := s2.doneFolders + {key})
  }

  /** The rel paths of every file of the folders in `keys`. */
  function FilesOf(folders: map<Path, FolderInfo>, keys: seq<Path>): set<Path>
    requires forall k :: k in keys ==> k in folders
  {
    if keys == [] then {} else FilesOf(folders, keys[..|keys| - 1]) + Rels(folders[keys[|keys| - 1]].files)
  }

  lemma {:induction false} RunBatchSets(folders: map<Path, FolderInfo>, batch: seq<Path>, s: Store)
    requires ChildrenKnown(folders) && forall k :: k in batch ==> k in folders
    ensures RunBatch(folders, batch, s).doneFolders == s.doneFolders + Elems(batch)
    ensures RunBatch(folders, batch, s).doneFiles == s.doneFiles + FilesOf(folders, batch)
    ensures RunBatch(folders, batch, s).stats.batches == s.stats.batches
  {
    if batch != [] {
      var init, key := batch[..|batch| - 1], batch[|batch| - 1];
      assert batch == init + [key];
      ElemsSnoc(init, key);
      RunBatchSets(folders, init, s);
      var s1 := RunBatch(folders, init, s);
      ProcessFolderCompletes(folders, key, s1);
      var s2 := ProcessFolder(folders, key, s1);
      assert RunBatch(folders, batch, s) == s2.(doneFolders := s2.doneFolders + {key});
    }
  }

  /** What `process_batch` does, before it writes the index. */
  datatype Plan = AllProcessed | BadIndex | RunFolders(batch: seq<Path>)

  function PlanBatch(folders: map<Path, FolderInfo>, order: seq<Path>, done: set<Path>, idx: int): Plan {
    var pending := Pending(folders, order, done);
    if pending == [] then AllProcessed
    else match BatchSize(idx)
      case None => BadIndex
      case Some(size) => RunFolders(pending[..if size < |pending| then size else |pending|])
  }

  /** The batch is the first `min(size, |pending|)` pending folders. */
  lemma BatchIsPendingPrefix(folders: map<Path, FolderInfo>, order: seq<Path>, done: set<Path>, idx: int, b: seq<Path>)
    requires PlanBatch(folders, order, done, idx) == RunFolders(b)
    ensures BatchSize(idx).Some?
    ensures |b| == (if BatchSize(idx).value < |Pending(folders, order, done)|
                    then BatchSize(idx).value else |Pending(folders, order, done)|)
    ensures b == Pending(folders, order, done)[..|b|]
  {
  }

  /** A batch holds only unprocessed folders, and none of them comes later
      in the (level, lower-cased name) order than a folder it leaves for
      the next batch. */
  lemma BatchTakesFirstPending(folders: map<Path, FolderInfo>, order: seq<Path>, done: set<Path>, idx: int, b: seq<Path>)
    requires NoDup(order)
    requires PlanBatch(folders, order, done, idx) == RunFolders(b)
    ensures forall k :: k in b ==> k in order && k !in done
    ensures forall i, j :: 0 <= i < |b| <= j < |Pending(folders, order, done)| ==>
              KeyLe(PendingKey(folders)(b[i]), PendingKey(folders)(Pending(folders, order, done)[j]))
  {
    var pending := Pending(folders, order, done);
    PendingExact(folders, order, done);
    BatchIsPendingPrefix(folders, order, done, idx, b);
    forall k | k in b ensures k in pending {
      var i :| 0 <= i < |b| && b[i] == k;
      assert pending[i] == k;
    }
    forall i, j | 0 <= i < |b| <= j < |pending|
      ensures KeyLe(PendingKey(folders)(b[i]), PendingKey(folders)(pending[j]))
    {
      assert b[i] == pending[i];
    }
  }

  /** Every batch size is positive, so a batch is never empty when folders
      are pending. */
  lemma BatchSizesPositive(idx: int)
    requires BatchSize(idx).Some?
    ensures BatchSize(idx).value >= 100
  {
  }

  // ---------------------------------------------------------------------
  // The root index

  /** The level-1 keys in dictionary order. */
  function LevelOne(folders: map<Path, FolderInfo>, order: seq<Path>): seq<Path> {
    if order == [] then []
    else
      var k := order[|order| - 1];
      LevelOne(folders, order[..|order| - 1]) + (if k in folders && folders[k].level == 1 then [k] else [])
  }

  function NameOf(folders: map<Path, FolderInfo>): Path -> Key {
    k => if k in folders then Key(0, Lower(folders[k].name)) else Key(0, [])
  }

  function Names(folders: map<Path, FolderInfo>, keys: seq<Path>): seq<Name> {
    if keys == [] then []
    else Names(folders, keys[..|keys| - 1])
         + [if keys[|keys| - 1] in folders then folders[keys[|keys| - 1]].name else ""]
  }

  /** The number of file records of the folders in `keys`. */
  function FileCount(folders: map<Path, FolderInfo>, keys: seq<Path>): nat {
    if keys == [] then 0
    else FileCount(folders, keys[..|keys| - 1])
         + (if keys[|keys| - 1] in folders then |folders[keys[|keys| - 1]].files| else 0)
  }

  /** The file count is zero exactly when none of the counted keys names
      a folder holding a file. */
  lemma {:induction false} FileCountZero(folders: map<Path, FolderInfo>, keys: seq<Path>)
    ensures FileCount(folders, keys) == 0 <==>
              forall i :: 0 <= i < |keys| && keys[i] in folders ==> folders[keys[i]].files == []
  {
    if keys != [] {
      var init := keys[..|keys| - 1];
      FileCountZero(folders, init);
      assert forall i :: 0 <= i < |init| ==> init[i] == keys[i];
    }
  }

  /** The counts of `create_root_index`. */
  function IndexOf(folders: map<Path, FolderInfo>, order: seq<Path>, s: Store): IndexDoc {
    IndexDoc(Names(folders, SortBy(LevelOne(folders, order), NameOf(folders))),
             |s.doneFolders|, |folders|, |s.doneFiles|, FileCount(folders, order),
             s.stats.copied, s.stats.linked)
  }

  datatype Failure = IndexError | ZeroDivisionError

  datatype Outcome = Written(store: Store) | Crashed(failure: Failure)

  /** `create_root_index` as written: the percentages divide by the number
      of folders and by the number of files, so an input with no qualifying
      file raises `ZeroDivisionError` before the index is written. */
  function WriteIndexAsWritten(folders: map<Path, FolderInfo>, order: seq<Path>, s: Store): Outcome {
    if |folders| == 0 || FileCount(folders, order) == 0 then Crashed(ZeroDivisionError)
    else Written(WriteIndex(folders, order, s))
  }

  /** `create_root_index` with the percentages guarded: the index is always
      written. */
  function WriteIndex(folders: map<Path, FolderInfo>, order: seq<Path>, s: Store): (r: Store)
    ensures r.output == s.output[IndexPath := OFile(IndexPage(IndexOf(folders, order, s)))]
    ensures r.stats == s.stats && r.doneFolders == s.doneFolders && r.doneFiles == s.doneFiles
  {
    s.(output := s.output[IndexPath := OFile(IndexPage(IndexOf(folders, order, s)))])
  }

  /** The guarded index agrees with the written one whenever that one does
      not crash, and is written for every input. */
  lemma WriteIndexRefines(folders: map<Path, FolderInfo>, order: seq<Path>, s: Store)
    ensures WriteIndexAsWritten(folders, order, s).Written? ==>
              WriteIndexAsWritten(folders, order, s).store == WriteIndex(folders, order, s)
    ensures IndexPath in WriteIndex(folders, order, s).output
    ensures WriteIndex(folders, order, s).output[IndexPath].doc.index.totalFiles == FileCount(folders, order)
  {
  }

  /** The input holding only an empty input folder: the scan keeps the root
      alone, with no files. */
  function EmptyInput(): Tree {
    map[[] := Dir([])]
  }

  /** As written, the index of an input without qualifying files is never
      written: the scan's only folder is the root, with zero files. */
  lemma IndexCrashesOnEmptyInput()
    ensures ValidTree(EmptyInput())
    ensures Graph(EmptyInput(), [[]]).Keys == {[]}
    ensures WriteIndexAsWritten(Graph(EmptyInput(), [[]]), [[]], Store(map[], InitialStats, {}, {}))
         == Crashed(ZeroDivisionError)
  {
    var t := EmptyInput();
    assert Retained(t, []);
    forall p | p in t ensures p == [] {
    }
    var g := Graph(t, [[]]);
    assert g.Keys == {[]};
    assert g[[]].files == [];
    assert FileCount(g, [[]]) == FileCount(g, []) + 0;
  }

  // ---------------------------------------------------------------------
  // The effect of a batch

  /** `process_batch` on the store: with nothing pending only the index is
      written; with an invalid index nothing happens (the `IndexError`
      escapes); otherwise the batch runs, the batch counter rises, and the
      index is written. */
  function BatchEffect(folders: map<Path, FolderInfo>, order: seq<Path>, idx: int, s: Store): Store
    requires ChildrenKnown(folders) && forall k :: k in order ==> k in folders
  {
    match PlanBatch(folders, order, s.doneFolders, idx)
    case AllProcessed => WriteIndex(folders, order, s)
    case BadIndex => s
    case RunFolders(batch) =>
      assert forall k :: k in batch ==> k in folders by {
        PendingSubset(folders, order, s.doneFolders);
      }
      WriteIndex(folders, order, Counted(RunBatch(folders, batch, s)))
  }

  /** The batch counter after a batch. */
  function Counted(s: Store): (r: Store)
    ensures r.stats.batches == s.stats.batches + 1
    ensures r.output == s.output && r.doneFolders == s.doneFolders && r.doneFiles == s.doneFiles
    ensures r.stats.copied == s.stats.copied && r.stats.linked == s.stats.linked
  {
    s.(stats := s.stats.(batches := s.stats.batches + 1))
  }

  lemma PendingSubset(folders: map<Path, FolderInfo>, order: seq<Path>, done: set<Path>)
    ensures forall k :: k in Pending(folders, order, done) ==> k in order
  {
    var w := Without(order, done);
    SortByPerm(w, PendingKey(folders));
    forall k | k in Pending(folders, order, done) ensures k in order {
      assert k in multiset(Pending(folders, order, done));
      WithoutMember(order, done, k);
    }
  }

  /** A batch marks its folders and all their files processed and counts
      one batch. */
  lemma BatchProgress(folders: map<Path, FolderInfo>, order: seq<Path>, idx: int, s: Store, b: seq<Path>)
    requires ChildrenKnown(folders) && NoDup(order) && forall k :: k in order ==> k in folders
    requires PlanBatch(folders, order, s.doneFolders, idx) == RunFolders(b)
    ensures forall k :: k in b ==> k in folders
    ensures BatchEffect(folders, order, idx, s).doneFolders == s.doneFolders + Elems(b)
    ensures BatchEffect(folders, order, idx, s).doneFiles == s.doneFiles + FilesOf(folders, b)
    ensures BatchEffect(folders, order, idx, s).stats.batches == s.stats.batches + 1
  {
    PendingSubset(folders, order, s.doneFolders);
    BatchIsPendingPrefix(folders, order, s.doneFolders, idx, b);
    assert forall k :: k in b ==> k in Pending(folders, order, s.doneFolders);
    RunBatchSets(folders, b, s);
    assert BatchEffect(folders, order, idx, s) == WriteIndex(folders, order, Counted(RunBatch(folders, b, s)));
  }

  /** The next batch starts where this one stopped: the pending list after
      a batch is the rest of the pending list before it. */
  lemma BatchAdvances(folders: map<Path, FolderInfo>, order: seq<Path>, idx: int, s: Store, b: seq<Path>)
    requires ChildrenKnown(folders) && NoDup(order) && forall k :: k in order ==> k in folders
    requires PlanBatch(folders, order, s.doneFolders, idx) == RunFolders(b)
    ensures |b| <= |Pending(folders, order, s.doneFolders)|
    ensures Pending(folders, order, BatchEffect(folders, order, idx, s).doneFolders)
         == Pending(folders, order, s.doneFolders)[|b|..]
  {
    BatchProgress(folders, order, idx, s, b);
    BatchIsPendingPrefix(folders, order, s.doneFolders, idx, b);
    var pending := Pending(folders, order, s.doneFolders);
    assert b == pending[..|b|] && |b| <= |pending|;
    PendingAfterMarking(folders, order, s.doneFolders, |b|);
    var d := BatchEffect(folders, order, idx, s).doneFolders;
    assert d == s.doneFolders + Elems(pending[..|b|]);
  }

  /** With nothing pending, or with an invalid index, a batch processes
      nothing and counts nothing. */
  lemma BatchIdle(folders: map<Path, FolderInfo>, order: seq<Path>, idx: int, s: Store)
    requires ChildrenKnown(folders) && forall k :: k in order ==> k in folders
    requires !PlanBatch(folders, order, s.doneFolders, idx).RunFolders?
    ensures BatchEffect(folders, order, idx, s).doneFolders == s.doneFolders
    ensures BatchEffect(folders, order, idx, s).doneFiles == s.doneFiles
    ensures BatchEffect(folders, order, idx, s).stats == s.stats
    ensures PlanBatch(folders, order, s.doneFolders, idx).BadIndex? <==>
              Pending(folders, order, s.doneFolders) != [] && BatchSize(idx).None?
  {
  }
}
