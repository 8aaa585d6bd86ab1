/** The deletion pass (`sync_deletions`): which entries of the output folder
    it removes, as a function of the output folder before the pass and of
    what the current folder dictionary expects. The rules are stated twice:
    as the source writes them (`RemovedAsWritten`) and with two defects
    corrected (`Removed`). The imperative pass `Vault.GraphVault.SyncDeletions`
    is proved to compute the result as written (`SyncAsWritten`); the
    corrected result (`SyncResult`) states what the pass evidently intends,
    and `SyncKeepsMoreThanAsWritten` relates the two. */
module Reconcile {
  import opened Base
  import opened Classifier
  import opened Scanning
  import opened Output
  import opened MapOfContent

  /** What the folder dictionary expects in the output folder: its keys,
      the rel paths of its files, the paths of its documents, and the stems
      of its proxied files. */
  datatype Expected = Expected(folders: set<Path>, files: set<Path>, mocs: set<Path>, proxyStems: set<string>)

  function ExpectedOf(folders: map<Path, FolderInfo>): Expected {
    Expected(folders.Keys,
             set k, f | k in folders && f in folders[k].files :: f.rel,
             set k | k in folders :: MocPath(k, folders[k]),
             set k, f | k in folders && f in folders[k].files && !f.copy :: f.stem)
  }

  /** `a` is `b` or one of its ancestors. */
  predicate IsPrefix(a: Path, b: Path) {
    |a| <= |b| && b[..|a|] == a
  }

  /** Under the attachments folder (`self.attach in p.parents`). */
  predicate InAttach(p: Path) {
    |p| >= 2 && p[0] == AttachName
  }

  /** The name of the folder holding `p`; the output folder's own name for
      a top-level entry. */
  function ParentName(p: Path): Name
    requires p != []
  {
    if |p| == 1 then OutputDirName else p[|p| - 2]
  }

  /** The source's test for a folder document: the stem is the name of the
      folder holding the note. */
  predicate IsMoc(p: Path)
    requires p != []
  {
    Stem(Last(p)) == ParentName(p)
  }

  /** A note: a file outside the attachments folder whose suffix is `.md`. */
  predicate IsNote(out: OutTree, p: Path) {
    p in out && out[p].OFile? && p != [] && Suffix(Last(p)) == ".md" && !InAttach(p)
  }

  /** A stub candidate: a file `*.md` directly in the attachments folder. */
  predicate IsStub(out: OutTree, p: Path) {
    |p| == 2 && p[0] == AttachName && p in out && out[p].OFile? && EndsWith(p[1], ".md")
  }

  /** The stub phase: a stub no proxied file's stem claims is removed. */
  predicate StubDoomed(out: OutTree, e: Expected, p: Path) {
    IsStub(out, p) && Stem(p[1]) !in e.proxyStems
  }

  // ---------------------------------------------------------------------
  // As written

  /** A folder other than the attachments folder whose path is not a key
      is removed with everything in it. */
  predicate DirDoomedAsWritten(out: OutTree, e: Expected, d: Path) {
    d in out && out[d] == ODir && d != [] && d != AttachDir && d !in e.folders
  }

  /** A note is removed when it does not look like a folder document and is
      not a file path, or when it looks like one and its folder is not a key
      (a top-level note's folder is `"."`, never a key). */
  predicate NoteDoomedAsWritten(out: OutTree, e: Expected, p: Path) {
    IsNote(out, p)
    && ((!IsMoc(p) && p !in e.files) || (IsMoc(p) && (|p| == 1 || Parent(p) !in e.folders)))
  }

  /** `p` lies in (or is) a folder the written pass removes. */
  predicate DirGoneAsWritten(out: OutTree, e: Expected, p: Path) {
    exists d :: d in out && IsPrefix(d, p) && DirDoomedAsWritten(out, e, d)
  }

  predicate RemovedAsWritten(out: OutTree, e: Expected, p: Path) {
    || DirGoneAsWritten(out, e, p)
    || NoteDoomedAsWritten(out, e, p)
    || StubDoomed(out, e, p)
  }

  /** The output folder after `sync_deletions` as written. */
  function SyncAsWritten(out: OutTree, e: Expected): OutTree {
    map p | p in out && !RemovedAsWritten(out, e, p) :: out[p]
  }

  // ---------------------------------------------------------------------
  // Corrected

  /** `d` leads to a folder the dictionary expects. */
  predicate Leads(e: Expected, d: Path) {
    exists k :: k in e.folders && IsPrefix(d, k)
  }

  /** A folder is removed only when no expected folder lies at or below it. */
  predicate DirDoomed(out: OutTree, e: Expected, d: Path) {
    d in out && out[d] == ODir && d != [] && d != AttachDir && !Leads(e, d)
  }

  /** A note is removed when it is neither an expected file, nor the
      document of an expected folder, nor the root index. */
  predicate NoteDoomed(out: OutTree, e: Expected, p: Path) {
    IsNote(out, p) && p !in e.files && p !in e.mocs && p != IndexPath
  }

  predicate DirGone(out: OutTree, e: Expected, p: Path) {
    exists d :: d in out && IsPrefix(d, p) && DirDoomed(out, e, d)
  }

  predicate Removed(out: OutTree, e: Expected, p: Path) {
    DirGone(out, e, p) || NoteDoomed(out, e, p) || StubDoomed(out, e, p)
  }

  /** The output folder after the corrected deletion pass. */
  function SyncResult(out: OutTree, e: Expected): OutTree {
    map p | p in out && !Removed(out, e, p) :: out[p]
  }

  // ---------------------------------------------------------------------
  // The phases of the pass, for the loop proofs

  /** The output folder after the `rglob` walk of the written pass has
      visited the entries `v` (in any order): entries under a visited
      folder that is not a key are gone, and so are visited notes that
      fail the document test. */
  function FirstPhase(out: OutTree, e: Expected, v: set<Path>): OutTree {
    map p | p in out
              && !(exists d :: d in v && d in out && IsPrefix(d, p) && DirDoomedAsWritten(out, e, d))
              && !(p in v && NoteDoomedAsWritten(out, e, p))
      :: out[p]
  }

  /** Everything under `d` removed. */
  function WithoutTree(out: OutTree, d: Path): OutTree {
    map p | p in out && !IsPrefix(d, p) :: out[p]
  }

  lemma FirstPhaseStart(out: OutTree, e: Expected)
    ensures FirstPhase(out, e, {}) == out
  {
  }

  /** Visiting an entry that is already gone changes nothing. */
  lemma FirstPhaseGone(out: OutTree, e: Expected, v: set<Path>, p: Path)
    requires p in out && p !in v && p !in FirstPhase(out, e, v)
    ensures FirstPhase(out, e, v + {p}) == FirstPhase(out, e, v)
  {
    var d :| d in v && d in out && IsPrefix(d, p) && DirDoomedAsWritten(out, e, d);
    forall q | q in out && IsPrefix(p, q) ensures IsPrefix(d, q) {
      assert q[..|d|] == q[..|p|][..|d|];
    }
  }

  /** Visiting a folder that is not a key (`rmtree`) removes it with
      everything in it. */
  lemma FirstPhaseDir(out: OutTree, e: Expected, v: set<Path>, p: Path)
    requires p in FirstPhase(out, e, v) && DirDoomedAsWritten(out, e, p)
    ensures FirstPhase(out, e, v + {p}) == WithoutTree(FirstPhase(out, e, v), p)
  {
    assert !NoteDoomedAsWritten(out, e, p);
  }

  /** Visiting a note that fails the document test (`unlink`) removes just
      that note. */
  lemma FirstPhaseNote(out: OutTree, e: Expected, v: set<Path>, p: Path)
    requires p in FirstPhase(out, e, v) && !DirDoomedAsWritten(out, e, p) && NoteDoomedAsWritten(out, e, p)
    ensures FirstPhase(out, e, v + {p}) == FirstPhase(out, e, v) - {p}
  {
  }

  /** Visiting any other entry changes nothing. */
  lemma FirstPhaseKeep(out: OutTree, e: Expected, v: set<Path>, p: Path)
    requires p in FirstPhase(out, e, v) && !DirDoomedAsWritten(out, e, p) && !NoteDoomedAsWritten(out, e, p)
    ensures FirstPhase(out, e, v + {p}) == FirstPhase(out, e, v)
  {
  }

  /** The output folder after the stub phase has visited the stubs `v`. */
  function StubPhase(out1: OutTree, e: Expected, v: set<Path>): OutTree {
    map p | p in out1 && !(p in v && StubDoomed(out1, e, p)) :: out1[p]
  }

  /** Visiting one more stub removes it exactly when no proxied file
      claims it. */
  lemma StubPhaseStep(out1: OutTree, e: Expected, v: set<Path>, p: Path)
    requires IsStub(out1, p) && p !in v
    ensures StubPhase(out1, e, v + {p})
         == if Stem(p[1]) !in e.proxyStems then StubPhase(out1, e, v) - {p} else StubPhase(out1, e, v)
  {
  }

  /** Both phases together give the result of the written pass. */
  lemma PhasesCompose(out: OutTree, e: Expected, v: set<Path>)
    requires forall p :: IsStub(FirstPhase(out, e, out.Keys), p) ==> p in v
    ensures StubPhase(FirstPhase(out, e, out.Keys), e, v) == SyncAsWritten(out, e)
  {
    var out1 := FirstPhase(out, e, out.Keys);
    forall p | p in out1 ensures StubDoomed(out1, e, p) == StubDoomed(out, e, p) {
    }
    forall p | p in out && StubDoomed(out, e, p) && !DirGoneAsWritten(out, e, p)
                 && !NoteDoomedAsWritten(out, e, p)
      ensures p in out1
    {
    }
  }

  // ---------------------------------------------------------------------
  // Properties of the written pass

  /** Every folder at or above `p` other than the root and the attachments
      folder is a key. */
  ghost predicate KeysAbove(out: OutTree, e: Expected, p: Path) {
    forall d :: d in out && IsPrefix(d, p) && out[d] == ODir && d != [] && d != AttachDir ==> d in e.folders
  }

  /** What the written pass leaves is what its tests let through: every
      folder at or above a remaining entry is a key (or the root or the
      attachments folder); a remaining note looks like the document of a
      non-root key or, not looking like one, is a file path; a remaining
      stub is claimed by a proxied file. */
  lemma SyncAsWrittenSound(out: OutTree, e: Expected, p: Path)
    requires p in SyncAsWritten(out, e)
    ensures p in out && KeysAbove(out, e, p)
    ensures IsNote(out, p) ==> || (IsMoc(p) && |p| >= 2 && Parent(p) in e.folders)
                               || (!IsMoc(p) && p in e.files)
    ensures IsStub(out, p) ==> Stem(p[1]) in e.proxyStems
  {
  }

  /** The written pass keeps a folder all of whose folders are keys. */
  lemma SyncAsWrittenKeepsFolder(out: OutTree, e: Expected, p: Path)
    requires p in out && out[p] == ODir && KeysAbove(out, e, p)
    ensures p in SyncAsWritten(out, e) && SyncAsWritten(out, e)[p] == out[p]
  {
    assert !NoteDoomedAsWritten(out, e, p);
  }

  /** The written pass keeps a file path of the dictionary outside the
      attachments folder whose folders are all keys, unless it is a
      top-level note whose stem is the output folder's name. */
  lemma SyncAsWrittenKeepsFile(out: OutTree, e: Expected, p: Path)
    requires Coherent(e) && p in out && out[p].OFile? && !InAttach(p) && KeysAbove(out, e, p)
    requires p in e.files && p != [] && (|p| >= 2 || !IsMoc(p))
    ensures p in SyncAsWritten(out, e) && SyncAsWritten(out, e)[p] == out[p]
  {
    assert !DirGoneAsWritten(out, e, p);
  }

  /** The written pass keeps the document of a non-root key whose folders
      are all keys. */
  lemma SyncAsWrittenKeepsMoc(out: OutTree, e: Expected, k: Path)
    requires k in e.folders && k != [] && k[0] != AttachName && Last(k) != ""
    requires k + [Last(k) + ".md"] in out && out[k + [Last(k) + ".md"]].OFile?
    requires KeysAbove(out, e, k + [Last(k) + ".md"])
    ensures k + [Last(k) + ".md"] in SyncAsWritten(out, e)
  {
    var p := k + [Last(k) + ".md"];
    MdName(Last(k));
    assert Last(p) == Last(k) + ".md";
    assert Parent(p) == k && ParentName(p) == Last(k);
    assert IsMoc(p);
    assert !StubDoomed(out, e, p) by { assert p[0] == k[0]; }
    assert !DirGoneAsWritten(out, e, p);
  }

  /** The written pass keeps a stub that a proxied file claims. */
  lemma SyncAsWrittenKeepsStub(out: OutTree, e: Expected, p: Path)
    requires IsStub(out, p) && Stem(p[1]) in e.proxyStems
    ensures p in SyncAsWritten(out, e)
  {
    forall d | d in out && IsPrefix(d, p) ensures !DirDoomedAsWritten(out, e, d) {
      if |d| == 1 {
        assert d == [p[0]];
      } else if |d| == 2 {
        assert d == p;
      }
    }
  }

  /** The written pass is idempotent: a second pass removes nothing more. */
  lemma SyncAsWrittenIdempotent(out: OutTree, e: Expected)
    ensures SyncAsWritten(SyncAsWritten(out, e), e) == SyncAsWritten(out, e)
  {
    var r := SyncAsWritten(out, e);
    forall p, d | p in r && d in r && IsPrefix(d, p) ensures !DirDoomedAsWritten(r, e, d) {
      assert !DirDoomedAsWritten(out, e, d) by { assert IsPrefix(d, d); }
    }
  }

  // ---------------------------------------------------------------------
  // Properties of the corrected pass

  /** A folder dictionary's expectations hang together: each file and each
      document sits in an expected folder, the root is expected, and a
      non-root folder's document is named after its folder. */
  ghost predicate Coherent(e: Expected) {
    && [] in e.folders
    && (forall p :: p in e.files ==> p != [] && Parent(p) in e.folders)
    && (forall m :: m in e.mocs ==> m != [] && Parent(m) in e.folders)
    && (forall k :: k in e.folders && k != [] ==> k + [Last(k) + ".md"] in e.mocs)
  }

  /** The expectations of a scanned folder dictionary hang together. */
  lemma GraphExpectationsCoherent(t: Tree, order: seq<Path>)
    requires ValidTree(t)
    ensures Coherent(ExpectedOf(Graph(t, order)))
  {
    var g := Graph(t, order);
    var e := ExpectedOf(g);
    assert Retained(t, []);
    forall p | p in e.files ensures p != [] && Parent(p) in e.folders {
      var k, f :| k in g && f in g[k].files && f.rel == p;
      FilesAmongShape(t, k, t[k].entries);
      assert Parent(p) == k;
    }
    forall m | m in e.mocs ensures m != [] && Parent(m) in e.folders {
      var k :| k in g && m == MocPath(k, g[k]);
      assert Parent(m) == k;
    }
    forall k | k in e.folders && k != [] ensures k + [Last(k) + ".md"] in e.mocs {
      assert MocPath(k, g[k]) == k + [Last(k) + ".md"];
    }
  }

  /** What the pass keeps: every expected folder, the attachments folder,
      every expected file and folder document, the root index, and every
      stub a proxied file claims. */
  lemma SyncPreserves(out: OutTree, e: Expected, p: Path)
    requires Coherent(e) && p in out
    requires || ((p in e.folders || p == AttachDir) && out[p] == ODir)
             || ((p in e.files || p in e.mocs || p == IndexPath) && out[p].OFile? && !InAttach(p))
             || (|p| == 2 && p[0] == AttachName && Stem(p[1]) in e.proxyStems && out[p].OFile?)
    ensures p in SyncResult(out, e) && SyncResult(out, e)[p] == out[p]
  {
    if p in e.folders && out[p] == ODir {
      ExpectedFolderNotGone(out, e, p);
    } else if (p in e.files || p in e.mocs) && out[p].OFile? {
      ExpectedNoteNotGone(out, e, p);
    } else {
      ShortPathNotGone(out, e, p);
    }
  }

  /** No folder above an expected folder is doomed. */
  lemma ExpectedFolderNotGone(out: OutTree, e: Expected, p: Path)
    requires p in e.folders
    ensures !DirGone(out, e, p)
  {
    forall d | d in out && IsPrefix(d, p) ensures Leads(e, d) {
    }
  }

  /** No folder above an expected file or document is doomed: its parent
      is an expected folder. */
  lemma ExpectedNoteNotGone(out: OutTree, e: Expected, p: Path)
    requires Coherent(e) && p in out && out[p].OFile?
    requires p in e.files || p in e.mocs
    ensures !DirGone(out, e, p)
  {
    forall d | d in out && IsPrefix(d, p) ensures !DirDoomed(out, e, d) {
      if |d| < |p| {
        assert IsPrefix(d, Parent(p)) by { assert Parent(p)[..|d|] == p[..|d|]; }
        assert Leads(e, d);
      } else {
        assert d == p;
      }
    }
  }

  /** The attachments folder, the root index and a stub lie under no
      doomed folder: the only folders above them are the root and the
      attachments folder. */
  lemma ShortPathNotGone(out: OutTree, e: Expected, p: Path)
    requires p in out
    requires || (p == AttachDir && out[p] == ODir)
             || (p == IndexPath && out[p].OFile?)
             || (|p| == 2 && p[0] == AttachName && out[p].OFile?)
    ensures !DirGone(out, e, p)
  {
    forall d | d in out && IsPrefix(d, p) ensures !DirDoomed(out, e, d) {
      if |d| == |p| {
        assert d == p;
      } else if |d| == 1 {
        assert d == [p[0]];
      }
    }
  }

  /** What the pass leaves is accounted for: a remaining folder leads to an
      expected folder or is the attachments folder; a remaining note is an
      expected file, an expected document or the root index; a remaining
      stub is claimed by a proxied file. */
  lemma SyncSound(out: OutTree, e: Expected, p: Path)
    requires p in SyncResult(out, e)
    ensures out[p] == ODir && p != [] ==> p == AttachDir || Leads(e, p)
    ensures IsNote(out, p) ==> p in e.files || p in e.mocs || p == IndexPath
    ensures IsStub(out, p) ==> Stem(p[1]) in e.proxyStems
  {
    assert IsPrefix(p, p);
  }

  /** In the pass as written, too, a file whose name does not end in `.md`
      is removed only together with a doomed folder above it. */
  lemma SyncAsWrittenKeepsOtherFiles(out: OutTree, e: Expected, p: Path)
    requires p in out && out[p].OFile? && p != [] && !EndsWith(Last(p), ".md")
    ensures p in SyncAsWritten(out, e) <==> !DirGoneAsWritten(out, e, p)
  {
    MdSuffixEndsName(Last(p));
  }

  /** A file whose name does not end in `.md` is removed by the corrected
      pass only together with a doomed folder above it. */
  lemma SyncKeepsOtherFiles(out: OutTree, e: Expected, p: Path)
    requires p in out && out[p].OFile? && p != [] && !EndsWith(Last(p), ".md")
    ensures p in SyncResult(out, e) <==> !DirGone(out, e, p)
  {
    MdSuffixEndsName(Last(p));
  }

  /** The pass is idempotent: a second pass removes nothing more. */
  lemma SyncIdempotent(out: OutTree, e: Expected)
    ensures SyncResult(SyncResult(out, e), e) == SyncResult(out, e)
  {
    var r := SyncResult(out, e);
    forall p, d | p in r && d in r && IsPrefix(d, p) ensures !DirDoomed(r, e, d) {
      assert !DirDoomed(out, e, d);
    }
  }

  /** The corrected pass removes no more than the written one: it keeps
      everything the written pass keeps. */
  lemma SyncKeepsMoreThanAsWritten(out: OutTree, e: Expected, p: Path)
    requires Coherent(e) && p in SyncAsWritten(out, e)
    ensures p in SyncResult(out, e)
  {
    KeptAsWrittenNotUnderDoomed(out, e, p);
    KeptAsWrittenNoteKept(out, e, p);
  }

  /** A path the written pass keeps lies under no folder the corrected
      pass removes: that folder would not be a key either. */
  lemma KeptAsWrittenNotUnderDoomed(out: OutTree, e: Expected, p: Path)
    requires p in out && !RemovedAsWritten(out, e, p)
    ensures !DirGone(out, e, p)
  {
    forall d | d in out && IsPrefix(d, p) ensures !DirDoomed(out, e, d) {
      assert !DirDoomedAsWritten(out, e, d);
      if out[d] == ODir && d != [] && d != AttachDir {
        assert IsPrefix(d, d);
      }
    }
  }

  /** A note the written pass keeps is one the corrected pass keeps. */
  lemma KeptAsWrittenNoteKept(out: OutTree, e: Expected, p: Path)
    requires Coherent(e) && p in out && !NoteDoomedAsWritten(out, e, p)
    ensures !NoteDoomed(out, e, p)
  {
    if IsNote(out, p) && p !in e.files && p != IndexPath {
      assert IsMoc(p) && |p| >= 2 && Parent(p) in e.folders;
      var n := Last(p);
      StemThenSuffix(n);
      assert n == Last(Parent(p)) + ".md";
      assert p == Parent(p) + [Last(Parent(p)) + ".md"];
    }
  }

  // ---------------------------------------------------------------------
  // Where the written pass goes wrong

  /** The output of the orphan input (`Scanning.OrphanTree`) after one full
      batch: the empty folder `a` exists as a folder on the way to `a/b`. */
  function OrphanOutput(): OutTree {
    map[AttachDir := ODir, ["a"] := ODir, ["a", "b"] := ODir,
        ["a", "b", "n.md"] := OFile(Copied(["a", "b", "n.md"])),
        ["a", "b", "b.md"] := OFile(MocDoc([])),
        ["ROOT.md"] := OFile(MocDoc([])),
        IndexPath := OFile(Foreign)]
  }

  /** What the dictionary of the orphan input expects. */
  function OrphanExpected(): Expected {
    Expected({[], ["a", "b"]}, {["a", "b", "n.md"]}, {["ROOT.md"], ["a", "b", "b.md"]}, {})
  }

  /** Which keys of the orphan input the scan retains. */
  lemma OrphanRetained()
    ensures Retained(OrphanTree(), []) && Retained(OrphanTree(), ["a", "b"])
    ensures !Retained(OrphanTree(), ["a"]) && !Retained(OrphanTree(), ["a", "b", "n.md"])
  {
    var t := OrphanTree();
    OrphanExample();
    OrphanTreeFiles();
    assert Retained(t, []);
    assert !t[["a", "b", "n.md"]].Dir?;
  }

  lemma OrphanRetainedKeys()
    ensures RetainedKeys(OrphanTree()) == {[], ["a", "b"]}
  {
    var t := OrphanTree();
    assert RetainedKeys(t) <= {[], ["a", "b"]} by {
      forall p | p in RetainedKeys(t) ensures p == [] || p == ["a", "b"] {
        OrphanTreeKeys(p);
        OrphanRetained();
      }
    }
    assert {[], ["a", "b"]} <= RetainedKeys(t) by {
      OrphanRetained();
    }
  }

  lemma OrphanGraphKeys(order: seq<Path>)
    ensures Graph(OrphanTree(), order).Keys == {[], ["a", "b"]}
  {
    OrphanRetainedKeys();
    assert Graph(OrphanTree(), order).Keys == RetainedKeys(OrphanTree());
  }

  lemma OrphanTreeKeys(p: Path)
    requires p in OrphanTree()
    ensures p == [] || p == ["a"] || p == ["a", "b"] || p == ["a", "b", "n.md"]
  {
  }

  lemma OrphanDirFiles()
    ensures [] in OrphanTree() && OrphanTree()[[]].Dir? && DirFiles(OrphanTree(), []) == []
    ensures ["a", "b"] in OrphanTree() && OrphanTree()[["a", "b"]].Dir?
    ensures DirFiles(OrphanTree(), ["a", "b"]) == [AnalyzeFile(["a", "b", "n.md"], 10)]
  {
    var t := OrphanTree();
    assert DirFiles(t, []) == [] by {
      assert t[[]].entries == ["a"];
      assert [] + ["a"] == ["a"];
      assert FilesAmong(t, [], ["a"]) == FilesAmong(t, [], []) + FileAt(t, [], "a");
    }
    assert DirFiles(t, ["a", "b"]) == [AnalyzeFile(["a", "b", "n.md"], 10)] by {
      NoteQualifies();
      assert ["a", "b"] + ["n.md"] == ["a", "b", "n.md"];
      assert t[["a", "b"]].entries == ["n.md"];
      assert FilesAmong(t, ["a", "b"], ["n.md"]) == FilesAmong(t, ["a", "b"], []) + FileAt(t, ["a", "b"], "n.md");
    }
  }

  /** The folder dictionary of the orphan input, written out. */
  lemma OrphanGraph(order: seq<Path>)
    ensures Graph(OrphanTree(), order)
         == map[[] := Node(OrphanTree(), order, []), ["a", "b"] := Node(OrphanTree(), order, ["a", "b"])]
  {
    OrphanGraphKeys(order);
  }

  /** The expectations of a dictionary of two folders, the first without
      files and the second with one copied file. */
  lemma ExpectedOfPair(k1: Path, i1: FolderInfo, k2: Path, i2: FolderInfo, f: FileInfo)
    requires k1 != k2 && i1.files == [] && i2.files == [f] && f.copy
    ensures ExpectedOf(map[k1 := i1, k2 := i2])
         == Expected({k1, k2}, {f.rel}, {MocPath(k1, i1), MocPath(k2, i2)}, {})
  {
    var g := map[k1 := i1, k2 := i2];
    var e := ExpectedOf(g);
    forall k, h | k in g && h in g[k].files ensures h == f && h.copy {
      assert k == k2;
    }
    assert f in g[k2].files;
    assert e.files == {f.rel};
    assert forall x :: x !in e.proxyStems;
    assert e.proxyStems == {};
    assert k1 in g && g[k1] == i1 && MocPath(k1, i1) in e.mocs;
    assert k2 in g && g[k2] == i2 && MocPath(k2, i2) in e.mocs;
    forall k | k in g ensures MocPath(k, g[k]) == MocPath(k1, i1) || MocPath(k, g[k]) == MocPath(k2, i2) {
      assert k == k1 || k == k2;
    }
    assert e.mocs == {MocPath(k1, i1), MocPath(k2, i2)};
  }

  /** `OrphanExpected` is what the scan of the orphan input expects. */
  lemma OrphanExpectedIsScanned(order: seq<Path>)
    ensures ExpectedOf(Graph(OrphanTree(), order)) == OrphanExpected()
  {
    var t := OrphanTree();
    var root, ab := Node(t, order, []), Node(t, order, ["a", "b"]);
    var f := AnalyzeFile(["a", "b", "n.md"], 10);
    OrphanGraph(order);
    OrphanNodes(order);
    ExpectedOfPair([], root, ["a", "b"], ab, f);
  }

  lemma OrphanNodes(order: seq<Path>)
    ensures AnalyzeFile(["a", "b", "n.md"], 10).copy
    ensures Node(OrphanTree(), order, []).files == []
    ensures Node(OrphanTree(), order, ["a", "b"]).files == [AnalyzeFile(["a", "b", "n.md"], 10)]
    ensures MocPath([], Node(OrphanTree(), order, [])) == ["ROOT.md"]
    ensures MocPath(["a", "b"], Node(OrphanTree(), order, ["a", "b"])) == ["a", "b", "b.md"]
  {
    OrphanDirFiles();
    OrphanNoteCopied();
    OrphanMocPaths(order);
  }

  lemma OrphanNoteCopied()
    ensures AnalyzeFile(["a", "b", "n.md"], 10).copy
  {
    NoteQualifies();
  }

  lemma OrphanMocPaths(order: seq<Path>)
    ensures MocPath([], Node(OrphanTree(), order, [])) == ["ROOT.md"]
    ensures MocPath(["a", "b"], Node(OrphanTree(), order, ["a", "b"])) == ["a", "b", "b.md"]
  {
    assert FolderName([]) + ".md" == "ROOT.md";
    assert FolderName(["a", "b"]) + ".md" == "b.md";
  }

  /** As written, the pass deletes the kept folder `a/b` with its copied
      note, because their ancestor `a` is not a key; the corrected pass
      keeps them. */
  lemma OrphanOutputDeletedAsWritten()
    ensures ["a", "b", "n.md"] in OrphanOutput() && ["a", "b"] in OrphanExpected().folders
    ensures ["a", "b", "n.md"] !in SyncAsWritten(OrphanOutput(), OrphanExpected())
    ensures ["a", "b"] !in SyncAsWritten(OrphanOutput(), OrphanExpected())
    ensures ["a", "b", "n.md"] in SyncResult(OrphanOutput(), OrphanExpected())
    ensures ["a", "b"] in SyncResult(OrphanOutput(), OrphanExpected())
  {
    var out, e := OrphanOutput(), OrphanExpected();
    assert Coherent(e) by {
      assert Parent(["a", "b", "n.md"]) == ["a", "b"];
      assert Parent(["a", "b", "b.md"]) == ["a", "b"];
      assert Parent(["ROOT.md"]) == [];
      forall k | k in e.folders && k != [] ensures k + [Last(k) + ".md"] in e.mocs {
        assert k == ["a", "b"] && Last(k) == "b";
        assert "b" + ".md" == "b.md";
        assert ["a", "b"] + ["b.md"] == ["a", "b", "b.md"];
      }
    }
    assert DirDoomedAsWritten(out, e, ["a"]);
    assert IsPrefix(["a"], ["a", "b", "n.md"]) && IsPrefix(["a"], ["a", "b"]);
    SyncPreserves(out, e, ["a", "b", "n.md"]);
    SyncPreserves(out, e, ["a", "b"]);
  }

  /** As written, the pass deletes the root folder's document and the root
      index: both are top-level notes whose stem is not the output folder's
      name, and neither is a file path. The corrected pass keeps them. */
  lemma RootNotesDeletedAsWritten(out: OutTree, e: Expected)
    requires Coherent(e) && ["ROOT.md"] in e.mocs
    requires ["ROOT.md"] !in e.files && IndexPath !in e.files
    requires ["ROOT.md"] in out && out[["ROOT.md"]].OFile?
    requires IndexPath in out && out[IndexPath].OFile?
    ensures ["ROOT.md"] !in SyncAsWritten(out, e) && IndexPath !in SyncAsWritten(out, e)
    ensures ["ROOT.md"] in SyncResult(out, e) && IndexPath in SyncResult(out, e)
  {
    MdName("ROOT");
    assert "ROOT" + ".md" == "ROOT.md";
    MdName("Índice Principal");
    assert "Índice Principal" + ".md" == "Índice Principal.md";
    assert NoteDoomedAsWritten(out, e, ["ROOT.md"]);
    assert NoteDoomedAsWritten(out, e, IndexPath);
    SyncPreserves(out, e, ["ROOT.md"]);
    SyncPreserves(out, e, IndexPath);
  }
}
