/** What the breadth-first scan of the input folder computes: which folders
    it visits, which of them it keeps, their files, and the parent/children
    links of the folder dictionary. The imperative scan itself is
    `Vault.GraphVault.Scan`; this module is its specification. */
module Scanning {
  import opened Base
  import opened Sorting
  import opened Classifier

  /** An entry of the input folder: a directory with its entry names in
      `iterdir` order, or a file with its size in bytes. */
  datatype Entry = Dir(entries: seq<Name>) | File(size: int)

  /** The input folder, keyed by relative path; `[]` is the input folder. */
  type Tree = map<Path, Entry>

  /** The input folder is a directory and no directory lists a name twice. */
  ghost predicate ValidTree(t: Tree) {
    && [] in t && t[[]].Dir?
    && forall p :: p in t && t[p].Dir? ==> NoDup(t[p].entries)
  }

  /** The entry `n` of folder `p` is a sub-directory that the scan enqueues. */
  predicate EnqueuedSubdir(t: Tree, p: Path, n: Name) {
    p + [n] in t && t[p + [n]].Dir? && Admissible(n)
  }

  /** The folders the scan pops from its queue: the input folder, and every
      enqueued sub-directory of a folder it pops. */
  ghost predicate Reached(t: Tree, p: Path)
    decreases |p|
  {
    if p == [] then [] in t && t[[]].Dir?
    else
      && Reached(t, Parent(p))
      && Parent(p) in t && t[Parent(p)].Dir?
      && Last(p) in t[Parent(p)].entries
      && EnqueuedSubdir(t, Parent(p), Last(p))
  }

  /** Entry `n` of folder `p` is a file that the scan keeps. */
  predicate QualifyingFile(t: Tree, p: Path, n: Name) {
    p + [n] in t && t[p + [n]].File? && Qualifies(n)
  }

  /** The classified record for entry `n` of folder `p`, if it is a file
      that qualifies. */
  function FileAt(t: Tree, p: Path, n: Name): seq<FileInfo> {
    var q := p + [n];
    if QualifyingFile(t, p, n) then [AnalyzeFile(q, t[q].size)] else []
  }

  function FilesAmong(t: Tree, p: Path, names: seq<Name>): seq<FileInfo> {
    if names == [] then []
    else FilesAmong(t, p, names[..|names| - 1]) + FileAt(t, p, names[|names| - 1])
  }

  /** The `files` list of folder `p`, in `iterdir` order. */
  function DirFiles(t: Tree, p: Path): seq<FileInfo>
    requires p in t && t[p].Dir?
  {
    FilesAmong(t, p, t[p].entries)
  }

  /** The sub-directories of folder `p` that the scan enqueues, among the
      entries `names`, in order. */
  function Subdirs(t: Tree, p: Path, names: seq<Name>): seq<Path> {
    if names == [] then []
    else
      var n := names[|names| - 1];
      Subdirs(t, p, names[..|names| - 1]) + (if EnqueuedSubdir(t, p, n) then [p + [n]] else [])
  }

  lemma {:induction false} SubdirsMember(t: Tree, p: Path, names: seq<Name>, c: Path)
    ensures c in Subdirs(t, p, names) <==>
      c != [] && Parent(c) == p && Last(c) in names && EnqueuedSubdir(t, p, Last(c))
  {
    if names != [] {
      var init, n := names[..|names| - 1], names[|names| - 1];
      SubdirsMember(t, p, init, c);
      assert names == init + [n];
      if c != [] && Parent(c) == p {
        assert c == p + [Last(c)];
      }
    }
  }

  lemma {:induction false} SubdirsNoDup(t: Tree, p: Path, names: seq<Name>)
    requires NoDup(names)
    ensures NoDup(Subdirs(t, p, names))
  {
    if names != [] {
      var init, n := names[..|names| - 1], names[|names| - 1];
      assert n !in init;
      SubdirsNoDup(t, p, init);
      SubdirsMember(t, p, init, p + [n]);
      assert Last(p + [n]) == n;
    }
  }

  /** A popped folder is kept when it has a file, or when it is the root. */
  ghost predicate Retained(t: Tree, p: Path) {
    Reached(t, p) && p in t && t[p].Dir? && (p == [] || DirFiles(t, p) != [])
  }

  ghost function RetainedKeys(t: Tree): set<Path> {
    set p | p in t && Retained(t, p)
  }

  /** One value of the folder dictionary. */
  datatype FolderInfo = FolderInfo(name: Name, level: int, files: seq<FileInfo>,
                                   children: seq<Path>, parent: Option<Path>)

  function FolderName(p: Path): Name {
    if p == [] then "ROOT" else Last(p)
  }

  /** `str(rel.parent)` when the key is non-empty and its parent is not `.`:
      a first-level folder has no parent key. */
  function ParentKey(p: Path): Option<Path> {
    if |p| >= 2 then Some(Parent(p)) else None
  }

  /** The sort key of a child list: the lower-cased folder name. */
  function NameKey(p: Path): Key {
    Key(0, Lower(FolderName(p)))
  }

  /** The keys of `order` whose parent key is `p`, in order. */
  function ChildrenIn(order: seq<Path>, p: Path): seq<Path> {
    if order == [] then []
    else
      var k := order[|order| - 1];
      ChildrenIn(order[..|order| - 1], p) + (if ParentKey(k) == Some(p) then [k] else [])
  }

  function Children(order: seq<Path>, p: Path): seq<Path> {
    SortBy(ChildrenIn(order, p), NameKey)
  }

  function Node(t: Tree, order: seq<Path>, p: Path): FolderInfo
    requires p in t && t[p].Dir?
  {
    FolderInfo(FolderName(p), |p|, DirFiles(t, p), Children(order, p), ParentKey(p))
  }

  /** The folder dictionary after a scan whose insertion order is `order`. */
  ghost function Graph(t: Tree, order: seq<Path>): map<Path, FolderInfo> {
    map p | p in t && Retained(t, p) :: Node(t, order, p)
  }

  lemma {:induction false} ReachedIsDir(t: Tree, p: Path)
    requires Reached(t, p)
    ensures p in t && t[p].Dir?
  {
    if p != [] {
      assert Parent(p) + [Last(p)] == p;
    }
  }

  /** Every component of a visited folder's path is a name the scan may
      enter: none is in the ignore list and none starts with a dot. */
  lemma {:induction false} ReachedAvoidsIgnored(t: Tree, p: Path, i: int)
    requires Reached(t, p) && 0 <= i < |p|
    ensures p[i] !in IgnoreDirs && !StartsWithDot(p[i])
  {
    if i < |p| - 1 {
      ReachedAvoidsIgnored(t, Parent(p), i);
    }
  }

  /** A visited folder's parent folder was visited too. */
  lemma {:induction false} ReachedParent(t: Tree, p: Path)
    requires Reached(t, p) && p != []
    ensures Reached(t, Parent(p))
  {
  }

  /** The files of a folder are exactly its qualifying file entries. */
  lemma {:induction false} FilesAmongMember(t: Tree, p: Path, names: seq<Name>, f: FileInfo)
    ensures f in FilesAmong(t, p, names) <==>
      exists n :: n in names && QualifyingFile(t, p, n) && f == AnalyzeFile(p + [n], t[p + [n]].size)
  {
    if names != [] {
      var init, n := names[..|names| - 1], names[|names| - 1];
      FilesAmongMember(t, p, init, f);
      assert names == init + [n];
    }
  }

  /** A visited folder is kept iff it is the root or one of its entries is a
      file with an allow-listed suffix whose name does not start with a dot. */
  lemma {:induction false} RetainedIff(t: Tree, p: Path)
    requires Reached(t, p)
    ensures p in t && t[p].Dir?
    ensures p in RetainedKeys(t) <==>
      p == [] || exists n :: n in t[p].entries && QualifyingFile(t, p, n)
  {
    ReachedIsDir(t, p);
    if p != [] {
      if exists n :: n in t[p].entries && QualifyingFile(t, p, n) {
        var n :| n in t[p].entries && QualifyingFile(t, p, n);
        FilesAmongMember(t, p, t[p].entries, AnalyzeFile(p + [n], t[p + [n]].size));
      } else if DirFiles(t, p) != [] {
        FilesAmongMember(t, p, t[p].entries, DirFiles(t, p)[0]);
      }
    }
  }

  /** Each file record sits directly in its folder, under a distinct path. */
  lemma FilesAmongShape(t: Tree, p: Path, names: seq<Name>)
    requires NoDup(names)
    ensures forall f :: f in FilesAmong(t, p, names) ==> |f.rel| == |p| + 1 && f.rel[..|p|] == p
    ensures forall i, j :: 0 <= i < j < |FilesAmong(t, p, names)| ==>
      FilesAmong(t, p, names)[i].rel != FilesAmong(t, p, names)[j].rel
    ensures forall f :: f in FilesAmong(t, p, names) ==> Last(f.rel) in names
  {
    FilesAmongPlaced(t, p, names);
    FilesAmongDistinct(t, p, names);
  }

  /** Each file record is the entry of its name directly in folder `p`. */
  lemma {:induction false} FilesAmongPlaced(t: Tree, p: Path, names: seq<Name>)
    ensures forall f :: f in FilesAmong(t, p, names) ==>
      |f.rel| == |p| + 1 && f.rel[..|p|] == p && Last(f.rel) in names
  {
    if names != [] {
      var init, n := names[..|names| - 1], names[|names| - 1];
      FilesAmongPlaced(t, p, init);
      var tail := FileAt(t, p, n);
      if tail != [] {
        assert tail[0].rel == p + [n];
      }
    }
  }

  /** Distinct names give distinct file paths. */
  lemma {:induction false} FilesAmongDistinct(t: Tree, p: Path, names: seq<Name>)
    requires NoDup(names)
    ensures forall i, j :: 0 <= i < j < |FilesAmong(t, p, names)| ==>
      FilesAmong(t, p, names)[i].rel != FilesAmong(t, p, names)[j].rel
  {
    if names != [] {
      var init, n := names[..|names| - 1], names[|names| - 1];
      FilesAmongDistinct(t, p, init);
      FilesAmongPlaced(t, p, init);
      var fs := FilesAmong(t, p, init);
      assert n !in init;
      if FileAt(t, p, n) != [] {
        forall i | 0 <= i < |fs| ensures fs[i].rel != p + [n] {
          assert fs[i] in fs;
        }
      }
    }
  }

  /** No key has the root as its parent key. */
  lemma {:induction false} NoChildrenOfRoot(order: seq<Path>)
    ensures ChildrenIn(order, []) == []
  {
    if order != [] {
      NoChildrenOfRoot(order[..|order| - 1]);
    }
  }

  /** The root's children list is always empty: first-level folders carry
      no parent key, so nothing registers under the root. */
  lemma {:induction false} RootHasNoChildren(t: Tree, order: seq<Path>)
    requires ValidTree(t)
    ensures [] in Graph(t, order) && Graph(t, order)[[]].children == []
  {
    NoChildrenOfRoot(order);
    assert Retained(t, []);
  }

  lemma {:induction false} ChildrenInMember(order: seq<Path>, p: Path, k: Path)
    ensures k in ChildrenIn(order, p) <==> k in order && ParentKey(k) == Some(p)
  {
    if order != [] {
      ChildrenInMember(order[..|order| - 1], p, k);
      assert order == order[..|order| - 1] + [order[|order| - 1]];
    }
  }

  lemma {:induction false} ChildrenInNoDup(order: seq<Path>, p: Path)
    requires NoDup(order)
    ensures NoDup(ChildrenIn(order, p))
  {
    if order != [] {
      var init, k := order[..|order| - 1], order[|order| - 1];
      ChildrenInNoDup(init, p);
      ChildrenInMember(init, p, k);
    }
  }

  /** A kept folder's children are exactly the kept folders whose parent key
      names it, without repetition, sorted by lower-cased name. */
  lemma {:induction false} ChildrenExact(t: Tree, order: seq<Path>, p: Path)
    requires NoDup(order) && Elems(order) == RetainedKeys(t) && p in Graph(t, order)
    ensures forall k :: k in Graph(t, order)[p].children <==>
                        k in RetainedKeys(t) && ParentKey(k) == Some(p)
    ensures NoDup(Graph(t, order)[p].children)
    ensures SortedBy(Graph(t, order)[p].children, NameKey)
  {
    var raw := ChildrenIn(order, p);
    SortByIsSortedPermutation(raw, NameKey);
    ChildrenInNoDup(order, p);
    PermNoDup(raw, SortBy(raw, NameKey));
    forall k ensures k in Graph(t, order)[p].children <==> k in RetainedKeys(t) && ParentKey(k) == Some(p) {
      ChildrenInMember(order, p, k);
      assert k in SortBy(raw, NameKey) <==> k in multiset(SortBy(raw, NameKey));
      assert k in raw <==> k in multiset(raw);
      assert k in order <==> k in Elems(order);
    }
  }

  lemma NoteQualifies()
    ensures Qualifies("n.md")
  {
    assert LastDot("n.md") == 1 by {
      assert "n.md"[..3] == "n.m";
      assert "n.m"[..2] == "n.";
    }
    assert Suffix("n.md") == ".md";
    assert Lower(".md") == ".md";
  }

  /** An input folder with an empty folder `a` whose sub-folder `b` holds a note. */
  function OrphanTree(): Tree {
    map[[] := Dir(["a"]), ["a"] := Dir(["b"]), ["a", "b"] := Dir(["n.md"]),
        ["a", "b", "n.md"] := File(10)]
  }

  lemma OrphanTreeValid()
    ensures ValidTree(OrphanTree())
  {
    var t := OrphanTree();
    forall p | p in t && t[p].Dir? ensures NoDup(t[p].entries) {
      assert |t[p].entries| == 1;
    }
  }

  lemma OrphanNamesAdmissible()
    ensures Admissible("a") && Admissible("b")
  {
    assert "a"[0] == 'a' && "b"[0] == 'b';
  }

  lemma {:induction false} OrphanTreeReached()
    ensures Reached(OrphanTree(), ["a"]) && Reached(OrphanTree(), ["a", "b"])
  {
    var t := OrphanTree();
    OrphanNamesAdmissible();
    assert Reached(t, ["a"]) by {
      assert Parent(["a"]) == [] && Last(["a"]) == "a" && [] + ["a"] == ["a"];
    }
    assert Parent(["a", "b"]) == ["a"] && Last(["a", "b"]) == "b" && ["a"] + ["b"] == ["a", "b"];
  }

  lemma {:induction false} OrphanTreeFiles()
    ensures ["a"] in OrphanTree() && OrphanTree()[["a"]].Dir? && DirFiles(OrphanTree(), ["a"]) == []
    ensures ["a", "b"] in OrphanTree() && OrphanTree()[["a", "b"]].Dir? && DirFiles(OrphanTree(), ["a", "b"]) != []
  {
    var t := OrphanTree();
    NoteQualifies();
    assert ["a", "b"] + ["n.md"] == ["a", "b", "n.md"];
    assert ["a"] + ["b"] == ["a", "b"];
    assert t[["a", "b"]].entries == ["n.md"];
    assert FilesAmong(t, ["a", "b"], ["n.md"]) == FilesAmong(t, ["a", "b"], []) + FileAt(t, ["a", "b"], "n.md");
    assert t[["a"]].entries == ["b"];
    assert FilesAmong(t, ["a"], ["b"]) == FilesAmong(t, ["a"], []) + FileAt(t, ["a"], "b");
  }

  /** A kept folder whose parent folder was dropped for having no files is
      an orphan: its parent key names no folder. */
  lemma {:induction false} OrphanExample()
    ensures ValidTree(OrphanTree())
    ensures ["a", "b"] in RetainedKeys(OrphanTree())
    ensures ParentKey(["a", "b"]) == Some(["a"]) && ["a"] !in RetainedKeys(OrphanTree())
  {
    OrphanTreeValid();
    OrphanTreeReached();
    OrphanTreeFiles();
  }
}
