/** The Map of Content of one folder (`create_moc_for_folder`): its line
    list, the files it links, and its effect on the output folder. The
    imperative generator is `Vault.GraphVault.CreateMocForFolder`. */
module MapOfContent {
  import opened Base
  import opened Sorting
  import opened Classifier
  import opened Scanning
  import opened Output

  /** The sort key of a section: the lower-cased file name. */
  function FileKey(f: FileInfo): Key {
    Key(0, Lower(f.name))
  }

  /** The processed files of the folder, in folder order. */
  function Processed(files: seq<FileInfo>, done: set<Path>): seq<FileInfo> {
    if files == [] then []
    else
      var f := files[|files| - 1];
      Processed(files[..|files| - 1], done) + (if f.rel in done then [f] else [])
  }

  /** The processed files of category `c`, in folder order (`by_cat[c]`). */
  function CatFiles(files: seq<FileInfo>, done: set<Path>, c: Category): seq<FileInfo> {
    if files == [] then []
    else
      var f := files[|files| - 1];
      CatFiles(files[..|files| - 1], done, c) + (if f.rel in done && f.cat == c then [f] else [])
  }

  /** `byCat` holds, for each category, the processed files of `files` of
      that category, and no entry for a category without any. */
  predicate Grouped(byCat: map<Category, seq<FileInfo>>, files: seq<FileInfo>, done: set<Path>) {
    && (forall c :: c in byCat <==> CatFiles(files, done, c) != [])
    && (forall c :: c in byCat ==> byCat[c] == CatFiles(files, done, c))
  }

  /** Appending a processed file to its category's group keeps the
      grouping exact. */
  lemma GroupedStep(byCat: map<Category, seq<FileInfo>>, files: seq<FileInfo>, done: set<Path>, f: FileInfo)
    requires Grouped(byCat, files, done) && f.rel in done
    ensures Grouped(byCat[f.cat := (if f.cat in byCat then byCat[f.cat] else []) + [f]], files + [f], done)
  {
    assert (files + [f])[..|files|] == files;
    var b := byCat[f.cat := (if f.cat in byCat then byCat[f.cat] else []) + [f]];
    forall c ensures (c in b <==> CatFiles(files + [f], done, c) != []) && (c in b ==> b[c] == CatFiles(files + [f], done, c)) {
      assert CatFiles(files + [f], done, c) == CatFiles(files, done, c) + (if f.cat == c then [f] else []);
    }
  }

  /** A grouping of the processed files of a folder is one of the folder's
      files themselves. */
  lemma GroupedProcessed(byCat: map<Category, seq<FileInfo>>, files: seq<FileInfo>, done: set<Path>)
    requires Grouped(byCat, Processed(files, done), done)
    ensures Grouped(byCat, files, done)
  {
    forall c ensures CatFiles(Processed(files, done), done, c) == CatFiles(files, done, c) {
      CatFilesOfProcessed(files, done, c);
    }
  }

  /** The files listed under the heading of category `c`. */
  function Section(files: seq<FileInfo>, done: set<Path>, c: Category): seq<FileInfo> {
    SortBy(CatFiles(files, done, c), FileKey)
  }

  /** The files listed under the headings of `cats`, section after section. */
  function SectionFiles(files: seq<FileInfo>, done: set<Path>, cats: seq<Category>): seq<FileInfo> {
    if cats == [] then []
    else SectionFiles(files, done, cats[..|cats| - 1]) + Section(files, done, cats[|cats| - 1])
  }

  /** Every file the document links, in document order. */
  function MocFiles(info: FolderInfo, done: set<Path>): seq<FileInfo> {
    SectionFiles(info.files, done, CategoryOrder)
  }

  function FileLines(fs: seq<FileInfo>): seq<MocLine> {
    if fs == [] then []
    else FileLines(fs[..|fs| - 1]) + [FileLine(LinkText(fs[|fs| - 1]), fs[|fs| - 1].size)]
  }

  function SectionLines(files: seq<FileInfo>, done: set<Path>, c: Category): seq<MocLine> {
    var s := Section(files, done, c);
    if s == [] then [] else [CategoryHeader(c)] + FileLines(s) + [Blank]
  }

  function SectionsFor(files: seq<FileInfo>, done: set<Path>, cats: seq<Category>): seq<MocLine> {
    if cats == [] then []
    else SectionsFor(files, done, cats[..|cats| - 1]) + SectionLines(files, done, cats[|cats| - 1])
  }

  /** Every child key of every folder is itself a folder. */
  ghost predicate ChildrenKnown(folders: map<Path, FolderInfo>) {
    forall k, c :: k in folders && c in folders[k].children ==> c in folders
  }

  function ChildLines(folders: map<Path, FolderInfo>, children: seq<Path>): seq<MocLine>
    requires forall c :: c in children ==> c in folders
  {
    if children == [] then []
    else ChildLines(folders, children[..|children| - 1])
         + [ChildLink(folders[children[|children| - 1]].name)]
  }

  function ParentLines(folders: map<Path, FolderInfo>, info: FolderInfo): seq<MocLine> {
    if info.parent.Some? && info.parent.value in folders
    then [ParentLink(folders[info.parent.value].name)] else []
  }

  function ChildrenLines(folders: map<Path, FolderInfo>, info: FolderInfo): seq<MocLine>
    requires forall c :: c in info.children ==> c in folders
  {
    if info.children != [] then [SubfoldersHeader] + ChildLines(folders, info.children) + [Blank] else []
  }

  /** The lines before the file sections: title, level summary, the
      parent link and the sub-folder list. */
  function HeadOf(folders: map<Path, FolderInfo>, info: FolderInfo): seq<MocLine>
    requires forall c :: c in info.children ==> c in folders
  {
    [Title(info.name), Summary(info.level, |info.files|)] + ParentLines(folders, info) + ChildrenLines(folders, info)
  }

  /** The line list of the document of folder `key`, given the processed
      file set `done`. */
  function MocLines(folders: map<Path, FolderInfo>, key: Path, done: set<Path>): seq<MocLine>
    requires key in folders && ChildrenKnown(folders)
  {
    var info := folders[key];
    HeadOf(folders, info)
    + SectionsFor(info.files, done, CategoryOrder)
    + (if MocFiles(info, done) == [] && info.children != [] then [PureNavigation] else [])
    + [Footer]
  }

  /** The document sits in the folder's output folder, named after it. */
  function MocPath(key: Path, info: FolderInfo): Path {
    key + [info.name + ".md"]
  }

  /** The effect of `create_moc_for_folder`: nothing for an unknown key;
      otherwise make the output folder, re-link every listed file, and
      write the whole document afresh. */
  function WriteMoc(folders: map<Path, FolderInfo>, key: Path, s: Store): Store
    requires ChildrenKnown(folders)
  {
    if key !in folders then s
    else
      var s1 := s.(output := WithDirs(s.output, key));
      var s2 := LinkAll(s1, MocFiles(folders[key], s.doneFiles), key);
      s2.(output := s2.output[MocPath(key, folders[key]) :=
                                OFile(MocDoc(MocLines(folders, key, s.doneFiles)))])
  }

  // ---------------------------------------------------------------------
  // What the document lists

  lemma {:induction false} CatFilesMultiset(files: seq<FileInfo>, done: set<Path>, c: Category)
    ensures forall f :: f in CatFiles(files, done, c) ==> f.cat == c && f.rel in done && f in files
  {
    if files != [] {
      CatFilesMultiset(files[..|files| - 1], done, c);
      assert files == files[..|files| - 1] + [files[|files| - 1]];
    }
  }

  /** Grouping the processed files by category gives the same groups as
      filtering the whole file list. */
  lemma {:induction false} CatFilesOfProcessed(files: seq<FileInfo>, done: set<Path>, c: Category)
    ensures CatFiles(Processed(files, done), done, c) == CatFiles(files, done, c)
  {
    if files != [] {
      var init, f := files[..|files| - 1], files[|files| - 1];
      CatFilesOfProcessed(init, done, c);
      var p := Processed(init, done);
      if f.rel in done {
        assert (p + [f])[..|p|] == p;
      } else {
        assert p + [] == p;
      }
    }
  }

  /** Appending a category appends its section to the lines and to the
      listed files. */
  lemma SectionsSnoc(files: seq<FileInfo>, done: set<Path>, cats: seq<Category>, c: Category)
    ensures SectionsFor(files, done, cats + [c]) == SectionsFor(files, done, cats) + SectionLines(files, done, c)
    ensures SectionFiles(files, done, cats + [c]) == SectionFiles(files, done, cats) + Section(files, done, c)
  {
    assert (cats + [c])[..|cats|] == cats;
  }

  /** A section is empty exactly when its category has no processed file. */
  lemma SectionEmpty(files: seq<FileInfo>, done: set<Path>, c: Category)
    ensures Section(files, done, c) == [] <==> CatFiles(files, done, c) == []
  {
    SortByIsSortedPermutation(CatFiles(files, done, c), FileKey);
  }

  /** The processed files of the categories in `cats`. */
  function ProcessedIn(files: seq<FileInfo>, done: set<Path>, cats: seq<Category>): seq<FileInfo> {
    if files == [] then []
    else
      var f := files[|files| - 1];
      ProcessedIn(files[..|files| - 1], done, cats) + (if f.rel in done && f.cat in cats then [f] else [])
  }

  lemma {:induction false} ProcessedInSplit(files: seq<FileInfo>, done: set<Path>, cats: seq<Category>, c: Category)
    requires c !in cats
    ensures multiset(ProcessedIn(files, done, cats + [c]))
         == multiset(ProcessedIn(files, done, cats)) + multiset(CatFiles(files, done, c))
  {
    if files != [] {
      ProcessedInSplit(files[..|files| - 1], done, cats, c);
    }
  }

  lemma {:induction false} ProcessedInNone(files: seq<FileInfo>, done: set<Path>)
    ensures ProcessedIn(files, done, []) == []
  {
    if files != [] {
      ProcessedInNone(files[..|files| - 1], done);
    }
  }

  lemma {:induction false} ProcessedInAll(files: seq<FileInfo>, done: set<Path>)
    ensures ProcessedIn(files, done, CategoryOrder) == Processed(files, done)
  {
    if files != [] {
      ProcessedInAll(files[..|files| - 1], done);
      var f := files[|files| - 1];
      CategoryOrderComplete(f.cat);
    }
  }

  lemma {:induction false} SectionFilesMultiset(files: seq<FileInfo>, done: set<Path>, cats: seq<Category>)
    requires NoDup(cats)
    ensures multiset(SectionFiles(files, done, cats)) == multiset(ProcessedIn(files, done, cats))
  {
    if cats == [] {
      ProcessedInNone(files, done);
    } else {
      var init, c := cats[..|cats| - 1], cats[|cats| - 1];
      assert NoDup(init);
      SectionFilesMultiset(files, done, init);
      assert cats == init + [c];
      assert c !in init;
      ProcessedInSplit(files, done, init, c);
      SortByPerm(CatFiles(files, done, c), FileKey);
    }
  }

  /** The document lists exactly the folder's processed files, each once
      (as many times as the folder holds it). */
  lemma MocListsProcessedFiles(info: FolderInfo, done: set<Path>)
    ensures multiset(MocFiles(info, done)) == multiset(Processed(info.files, done))
  {
    CategoryOrderComplete(Texto);
    SectionFilesMultiset(info.files, done, CategoryOrder);
    ProcessedInAll(info.files, done);
  }

  lemma {:induction false} ProcessedMember(files: seq<FileInfo>, done: set<Path>, f: FileInfo)
    ensures f in Processed(files, done) <==> f in files && f.rel in done
  {
    if files != [] {
      ProcessedMember(files[..|files| - 1], done, f);
      assert files == files[..|files| - 1] + [files[|files| - 1]];
    }
  }

  /** The position of a category in the listing order. */
  function CatIndex(c: Category): nat {
    match c
    case Texto => 0 case Codigo => 1 case Imagen => 2 case Video => 3
    case Audio => 4 case Datos => 5 case Archivo => 6 case Otros => 7
  }

  /** `CatIndex` is the position in the listing order. */
  lemma CatIndexAt(i: nat)
    requires i < |CategoryOrder|
    ensures CatIndex(CategoryOrder[i]) == i
  {
  }

  /** The order of a document's file lines: by category in the fixed order,
      then by lower-cased name. */
  function ListingKey(f: FileInfo): Key {
    Key(CatIndex(f.cat), Lower(f.name))
  }

  lemma {:induction false} SectionFilesOrdered(files: seq<FileInfo>, done: set<Path>, n: nat)
    requires n <= |CategoryOrder|
    ensures SortedBy(SectionFiles(files, done, CategoryOrder[..n]), ListingKey)
    ensures forall f :: f in SectionFiles(files, done, CategoryOrder[..n]) ==> CatIndex(f.cat) < n
  {
    var cats := CategoryOrder[..n];
    if n > 0 {
      assert cats[..|cats| - 1] == CategoryOrder[..n - 1];
      SectionFilesOrdered(files, done, n - 1);
      var c := CategoryOrder[n - 1];
      CatIndexAt(n - 1);
      var sec := Section(files, done, c);
      SectionOrdered(files, done, c);
      var prev := SectionFiles(files, done, CategoryOrder[..n - 1]);
      assert SectionFiles(files, done, cats) == prev + sec;
      OrderedAppend(prev, sec, n - 1);
    }
  }

  /** Appending a sorted section of category position `k` to sorted lines of
      earlier categories keeps the lines sorted. */
  lemma OrderedAppend(prev: seq<FileInfo>, sec: seq<FileInfo>, k: nat)
    requires SortedBy(prev, ListingKey) && SortedBy(sec, ListingKey)
    requires forall f :: f in prev ==> CatIndex(f.cat) < k
    requires forall f :: f in sec ==> CatIndex(f.cat) == k
    ensures SortedBy(prev + sec, ListingKey)
    ensures forall f :: f in prev + sec ==> CatIndex(f.cat) <= k
  {
    var all := prev + sec;
    forall i, j | 0 <= i < j < |all| ensures KeyLe(ListingKey(all[i]), ListingKey(all[j])) {
      if j < |prev| {
        assert all[i] == prev[i] && all[j] == prev[j];
      } else if i >= |prev| {
        assert all[i] == sec[i - |prev|] && all[j] == sec[j - |prev|];
      } else {
        assert all[i] == prev[i] && prev[i] in prev;
        assert all[j] == sec[j - |prev|] && sec[j - |prev|] in sec;
      }
    }
  }

  /** One section lists files of its own category, sorted by name. */
  lemma SectionOrdered(files: seq<FileInfo>, done: set<Path>, c: Category)
    ensures forall f :: f in Section(files, done, c) ==> f.cat == c
    ensures SortedBy(Section(files, done, c), ListingKey)
  {
    var raw := CatFiles(files, done, c);
    var sec := Section(files, done, c);
    SortByIsSortedPermutation(raw, FileKey);
    CatFilesMultiset(files, done, c);
    forall f | f in sec ensures f.cat == c {
      assert f in multiset(sec);
      assert f in multiset(raw);
    }
    forall i, j | 0 <= i < j < |sec| ensures KeyLe(ListingKey(sec[i]), ListingKey(sec[j])) {
      assert sec[i] in sec && sec[j] in sec;
      assert KeyLe(FileKey(sec[i]), FileKey(sec[j]));
    }
  }

  /** Category sections come in the fixed order, and each lists its files
      sorted by lower-cased name. */
  lemma MocFilesOrdered(info: FolderInfo, done: set<Path>)
    ensures SortedBy(MocFiles(info, done), ListingKey)
  {
    SectionFilesOrdered(info.files, done, |CategoryOrder|);
    assert CategoryOrder[..|CategoryOrder|] == CategoryOrder;
  }

  // ---------------------------------------------------------------------
  // The shape of the line list

  lemma {:induction false} FileLinesShape(fs: seq<FileInfo>)
    ensures |FileLines(fs)| == |fs|
    ensures forall i :: 0 <= i < |fs| ==> FileLines(fs)[i] == FileLine(LinkText(fs[i]), fs[i].size)
  {
    if fs != [] {
      FileLinesShape(fs[..|fs| - 1]);
    }
  }

  lemma {:induction false} ChildLinesShape(folders: map<Path, FolderInfo>, children: seq<Path>)
    requires forall c :: c in children ==> c in folders
    ensures |ChildLines(folders, children)| == |children|
    ensures forall i :: 0 <= i < |children| ==> ChildLines(folders, children)[i] == ChildLink(folders[children[i]].name)
  {
    if children != [] {
      ChildLinesShape(folders, children[..|children| - 1]);
    }
  }

  /** Section lines are headings, file lines and blank lines only. */
  predicate SectionKind(l: MocLine) {
    l.CategoryHeader? || l.FileLine? || l.Blank?
  }

  lemma {:induction false} SectionsForShape(files: seq<FileInfo>, done: set<Path>, cats: seq<Category>)
    ensures forall l :: l in SectionsFor(files, done, cats) ==> SectionKind(l)
    ensures SectionsFor(files, done, cats) == [] <==> SectionFiles(files, done, cats) == []
  {
    if cats != [] {
      var init, c := cats[..|cats| - 1], cats[|cats| - 1];
      SectionsForShape(files, done, init);
      SectionLinesShape(files, done, c);
      var prev, last := SectionsFor(files, done, init), SectionLines(files, done, c);
      assert SectionsFor(files, done, cats) == prev + last;
      forall l | l in prev + last ensures SectionKind(l) {
        if l in prev { } else { assert l in last; }
      }
    }
  }

  /** One category's section holds only section lines, and none at all
      when the category lists no file. */
  lemma SectionLinesShape(files: seq<FileInfo>, done: set<Path>, c: Category)
    ensures forall l :: l in SectionLines(files, done, c) ==> SectionKind(l)
    ensures SectionLines(files, done, c) == [] <==> Section(files, done, c) == []
  {
    var s := Section(files, done, c);
    FileLinesShape(s);
    forall l | l in FileLines(s) ensures l.FileLine? {
      var i :| 0 <= i < |FileLines(s)| && FileLines(s)[i] == l;
    }
  }

  lemma ChildrenLinesShape(folders: map<Path, FolderInfo>, info: FolderInfo)
    requires forall c :: c in info.children ==> c in folders
    ensures forall l :: l in ChildrenLines(folders, info) ==> l.SubfoldersHeader? || l.ChildLink? || l.Blank?
    ensures SubfoldersHeader in ChildrenLines(folders, info) <==> info.children != []
  {
    if info.children != [] {
      ChildLinesShape(folders, info.children);
      var cl := ChildLines(folders, info.children);
      assert forall l :: l in cl ==> l.ChildLink? by {
        forall l | l in cl ensures l.ChildLink? {
          var i :| 0 <= i < |cl| && cl[i] == l;
        }
      }
    }
  }

  /** A document lists no file exactly when no file of the folder is
      processed. */
  lemma NothingListedIff(info: FolderInfo, done: set<Path>)
    ensures MocFiles(info, done) == [] <==> forall f :: f in info.files ==> f.rel !in done
  {
    MocListsProcessedFiles(info, done);
    if MocFiles(info, done) != [] {
      var g := MocFiles(info, done)[0];
      assert g in multiset(Processed(info.files, done));
      ProcessedMember(info.files, done, g);
    }
    if exists f :: f in info.files && f.rel in done {
      var f :| f in info.files && f.rel in done;
      ProcessedMember(info.files, done, f);
      assert f in multiset(Processed(info.files, done));
    }
  }

  /** The document opens with the title and the level summary and closes
      with the footer. */
  lemma MocFrame(folders: map<Path, FolderInfo>, key: Path, done: set<Path>)
    requires key in folders && ChildrenKnown(folders)
    ensures var lines := MocLines(folders, key, done);
            && |lines| >= 3
            && lines[0] == Title(folders[key].name)
            && lines[1] == Summary(folders[key].level, |folders[key].files|)
            && lines[|lines| - 1] == Footer
  {
  }

  /** The document carries a link to its parent exactly when the folder's
      parent key names a folder of the graph. */
  lemma MocParentLink(folders: map<Path, FolderInfo>, key: Path, done: set<Path>)
    requires key in folders && ChildrenKnown(folders)
    ensures (exists l :: l in MocLines(folders, key, done) && l.ParentLink?)
        <==> folders[key].parent.Some? && folders[key].parent.value in folders
  {
    if folders[key].parent.Some? && folders[key].parent.value in folders {
      ParentLinkShown(folders, key, done);
      var lines := MocLines(folders, key, done);
      assert lines[2] in lines;
    } else {
      ParentLinkAbsent(folders, key, done);
    }
  }

  lemma ParentLinkShown(folders: map<Path, FolderInfo>, key: Path, done: set<Path>)
    requires key in folders && ChildrenKnown(folders)
    requires folders[key].parent.Some? && folders[key].parent.value in folders
    ensures |MocLines(folders, key, done)| > 2 && MocLines(folders, key, done)[2].ParentLink?
  {
    var info := folders[key];
    assert HeadOf(folders, info)[2] == ParentLink(folders[info.parent.value].name);
  }

  lemma ParentLinkAbsent(folders: map<Path, FolderInfo>, key: Path, done: set<Path>)
    requires key in folders && ChildrenKnown(folders)
    requires !(folders[key].parent.Some? && folders[key].parent.value in folders)
    ensures forall l :: l in MocLines(folders, key, done) ==> !l.ParentLink?
  {
    var info := folders[key];
    var head := HeadOf(folders, info);
    var sl := SectionsFor(info.files, done, CategoryOrder);
    var nav := if MocFiles(info, done) == [] && info.children != [] then [PureNavigation] else [];
    SectionsForShape(info.files, done, CategoryOrder);
    ChildrenLinesShape(folders, info);
    assert ParentLines(folders, info) == [];
    forall l | l in MocLines(folders, key, done) ensures !l.ParentLink? {
      assert l in head || l in sl || l in nav || l == Footer;
      if l in head {
        assert l in [Title(info.name), Summary(info.level, |info.files|)] || l in ChildrenLines(folders, info);
      }
    }
  }

  /** The "pure navigation" note appears exactly when the folder has
      children but none of its files is processed. */
  lemma MocPureNavigation(folders: map<Path, FolderInfo>, key: Path, done: set<Path>)
    requires key in folders && ChildrenKnown(folders)
    ensures PureNavigation in MocLines(folders, key, done)
        <==> folders[key].children != [] && forall f :: f in folders[key].files ==> f.rel !in done
  {
    var info := folders[key];
    var head := HeadOf(folders, info);
    var sl := SectionsFor(info.files, done, CategoryOrder);
    var nav := if MocFiles(info, done) == [] && info.children != [] then [PureNavigation] else [];
    assert MocLines(folders, key, done) == head + sl + nav + [Footer];
    HeadOfShape(folders, info);
    SectionsForShape(info.files, done, CategoryOrder);
    assert PureNavigation !in sl;
    NothingListedIff(info, done);
  }

  /** The sub-folder list appears exactly when the folder has children. */
  lemma MocSubfolders(folders: map<Path, FolderInfo>, key: Path, done: set<Path>)
    requires key in folders && ChildrenKnown(folders)
    ensures SubfoldersHeader in MocLines(folders, key, done) <==> folders[key].children != []
  {
    var info := folders[key];
    var head := HeadOf(folders, info);
    var sl := SectionsFor(info.files, done, CategoryOrder);
    var nav := if MocFiles(info, done) == [] && info.children != [] then [PureNavigation] else [];
    assert MocLines(folders, key, done) == head + sl + nav + [Footer];
    HeadOfShape(folders, info);
    SectionsForShape(info.files, done, CategoryOrder);
    assert SubfoldersHeader !in sl;
  }

  /** The head of a document never holds the navigation note, and holds
      the sub-folder heading exactly when the folder has children. */
  lemma HeadOfShape(folders: map<Path, FolderInfo>, info: FolderInfo)
    requires forall c :: c in info.children ==> c in folders
    ensures PureNavigation !in HeadOf(folders, info)
    ensures SubfoldersHeader in HeadOf(folders, info) <==> info.children != []
  {
    var pl := ParentLines(folders, info);
    var cl := ChildrenLines(folders, info);
    ChildrenLinesShape(folders, info);
    assert HeadOf(folders, info) == [Title(info.name), Summary(info.level, |info.files|)] + pl + cl;
    assert PureNavigation !in pl && SubfoldersHeader !in pl;
  }

  // ---------------------------------------------------------------------
  // Regeneration

  lemma WithDirsPresent(out: OutTree, p: Path)
    requires forall i :: 1 <= i <= |p| ==> p[..i] in out
    ensures WithDirs(out, p) == out
  {
  }

  /** Regenerating a document with nothing processed in between leaves the
      output folder as the first generation left it and copies nothing; only
      the proxy counter moves, once per listed proxied file. */
  lemma WriteMocIdempotent(folders: map<Path, FolderInfo>, key: Path, s: Store)
    requires ChildrenKnown(folders) && key in folders
    ensures WriteMoc(folders, key, WriteMoc(folders, key, s)).output == WriteMoc(folders, key, s).output
    ensures WriteMoc(folders, key, WriteMoc(folders, key, s)).stats.copied == WriteMoc(folders, key, s).stats.copied
    ensures WriteMoc(folders, key, WriteMoc(folders, key, s)).stats.linked
         == WriteMoc(folders, key, s).stats.linked + CountProxies(MocFiles(folders[key], s.doneFiles))
  {
    var fs := MocFiles(folders[key], s.doneFiles);
    var s1 := s.(output := WithDirs(s.output, key));
    var s2 := LinkAll(s1, fs, key);
    LinkAllFrame(s1, fs, key);
    var w := WriteMoc(folders, key, s);
    assert w.doneFiles == s.doneFiles;
    WithDirsPresent(w.output, key);
    var t1 := w.(output := WithDirs(w.output, key));
    assert t1 == w;
    LinkAllAgain(w, fs, key);
  }

  /** Writing a document neither reads nor changes the processed folders. */
  lemma WriteMocDoneFolders(folders: map<Path, FolderInfo>, key: Path, s: Store, d: set<Path>)
    requires ChildrenKnown(folders)
    ensures WriteMoc(folders, key, s.(doneFolders := d)) == WriteMoc(folders, key, s).(doneFolders := d)
  {
    if key in folders {
      LinkAllDoneFolders(s.(output := WithDirs(s.output, key)), MocFiles(folders[key], s.doneFiles), key, d);
    }
  }

  /** After its document is written, a folder and all the folders above it
      exist, and the processed files are unchanged. */
  lemma WriteMocDirs(folders: map<Path, FolderInfo>, key: Path, s: Store)
    requires ChildrenKnown(folders) && key in folders
    ensures forall i :: 1 <= i <= |key| ==> key[..i] in WriteMoc(folders, key, s).output
    ensures WriteMoc(folders, key, s).doneFiles == s.doneFiles
  {
    LinkAllFrame(s.(output := WithDirs(s.output, key)), MocFiles(folders[key], s.doneFiles), key);
  }
}
