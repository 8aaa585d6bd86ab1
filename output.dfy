/** The output folder ("graph-vault-archivos") as an abstract tree of
    artifacts, the counters, and the effect of materialising one file
    (`get_obsidian_link`): an existence-checked copy, or an
    existence-checked proxy stub in the attachments folder. */
module Output {
  import opened Base
  import opened Classifier

  const OutputDirName: Name := "graph-vault-archivos"
  const AttachName: Name := "!_adjuntos"
  const AttachDir: Path := [AttachName]
  const IndexPath: Path := ["Índice Principal.md"]

  datatype Stats = Stats(copied: int, linked: int, batches: int)

  const InitialStats: Stats := Stats(0, 0, 0)

  /** One element of the line list of a Map of Content. The text templates
      are abstracted; sizes are kept in bytes. */
  datatype MocLine =
    | Title(name: Name)                   // "# name"
    | Summary(level: int, fileCount: int) // "*Nivel L | N archivos*"
    | ParentLink(parentName: Name)        // "## Nivel Superior" and its link
    | SubfoldersHeader                    // "## Subcarpetas"
    | ChildLink(childName: Name)          // "- [[child]]"
    | Blank
    | CategoryHeader(cat: Category)       // "## Texto", "## Código", ...
    | FileLine(link: string, size: int)   // "- link (mb MB)"
    | PureNavigation                      // "*Carpeta de navegación pura*"
    | Footer

  /** The counts written to the root index ("Índice Principal.md"). */
  datatype IndexDoc = IndexDoc(mainFolders: seq<Name>, doneFolders: int, totalFolders: int,
                               doneFiles: int, totalFiles: int, copied: int, linked: int)

  datatype Artifact =
    | Copied(source: Path)                           // byte copy of an input file
    | ProxyStub(name: Name, size: int, source: Path) // stub for a large file
    | MocDoc(lines: seq<MocLine>)
    | IndexPage(index: IndexDoc)
    | Foreign                                        // anything else found there

  datatype OutEntry = ODir | OFile(doc: Artifact)

  /** The output folder, keyed by path relative to it. */
  type OutTree = map<Path, OutEntry>

  /** Everything a batch changes: the output folder, the counters and the
      two processed sets. */
  datatype Store = Store(output: OutTree, stats: Stats, doneFolders: set<Path>, doneFiles: set<Path>)

  function ProxyPath(stem: string): Path {
    [AttachName, stem + ".md"]
  }

  /** Where the artifact of file `f` lives when its folder's output folder
      is `target`. */
  function ArtifactPath(f: FileInfo, target: Path): Path {
    if f.copy then target + [f.name] else ProxyPath(f.stem)
  }

  /** The wiki link written for a file. */
  function LinkText(f: FileInfo): string {
    if f.copy then
      (if f.ext in MediaExt then "![[" + f.name + "]]" else "[[" + f.name + "]]")
    else "[[" + AttachName + "/" + f.stem + "]]"
  }

  /** Reads a wiki link back: whether it embeds, and what it points at. */
  function ParseLink(link: string): Option<(bool, string)> {
    if |link| >= 5 && link[..3] == "![[" && EndsWith(link, "]]") then Some((true, link[3..|link| - 2]))
    else if |link| >= 4 && link[..2] == "[[" && EndsWith(link, "]]") then Some((false, link[2..|link| - 2]))
    else None
  }

  /** A copied file is linked by its name (embedded when it is media); a
      proxied one by its stub in the attachments folder. */
  lemma LinkTextRoundTrip(f: FileInfo)
    ensures ParseLink(LinkText(f)) ==
      if f.copy then Some((f.ext in MediaExt, f.name)) else Some((false, AttachName + "/" + f.stem))
  {
    var l := LinkText(f);
    if f.copy && f.ext in MediaExt {
      assert l == "![[" + f.name + "]]";
      assert l[..3] == "![[" && l[3..|l| - 2] == f.name;
    } else if f.copy {
      assert l == "[[" + f.name + "]]";
      assert l[..2] == "[[" && l[2..|l| - 2] == f.name;
      assert l[..3] != "![[" by { assert l[0] == '['; }
    } else {
      assert l == "[[" + (AttachName + "/" + f.stem) + "]]";
      assert l[..2] == "[[" && l[2..|l| - 2] == AttachName + "/" + f.stem;
      assert l[..3] != "![[" by { assert l[0] == '['; }
    }
  }

  /** `get_obsidian_link`: copy the file unless its destination exists
      (counting the copy), or write the proxy stub unless it exists; a proxy
      is counted as linked on every call. */
  function Link(s: Store, f: FileInfo, target: Path): (r: Store)
    ensures r.doneFolders == s.doneFolders && r.doneFiles == s.doneFiles
    ensures r.stats.batches == s.stats.batches
    ensures ArtifactPath(f, target) in r.output
    ensures forall q :: q in s.output ==> q in r.output && r.output[q] == s.output[q]
    ensures r.output.Keys == s.output.Keys + {ArtifactPath(f, target)}
  {
    if f.copy then
      var dest := target + [f.name];
      if dest in s.output then s
      else s.(output := s.output[dest := OFile(Copied(f.rel))],
              stats := s.stats.(copied := s.stats.copied + 1))
    else
      var proxy := ProxyPath(f.stem);
      var s1 := if proxy in s.output then s
                else s.(output := s.output[proxy := OFile(ProxyStub(f.name, f.size, f.rel))]);
      s1.(stats := s1.stats.(linked := s1.stats.linked + 1))
  }

  /** The counters: a copy is counted only when the destination was absent;
      every call for a proxied file counts one more link. */
  lemma LinkCounters(s: Store, f: FileInfo, target: Path)
    ensures Link(s, f, target).stats.copied
         == s.stats.copied + (if f.copy && ArtifactPath(f, target) !in s.output then 1 else 0)
    ensures Link(s, f, target).stats.linked == s.stats.linked + (if f.copy then 0 else 1)
    ensures Link(s, f, target).output
         == if ArtifactPath(f, target) in s.output then s.output
            else s.output[ArtifactPath(f, target) := OFile(
                   if f.copy then Copied(f.rel) else ProxyStub(f.name, f.size, f.rel))]
  {
  }

  /** The links made for a sequence of files, one after the other. */
  function LinkAll(s: Store, fs: seq<FileInfo>, target: Path): Store {
    if fs == [] then s else Link(LinkAll(s, fs[..|fs| - 1], target), fs[|fs| - 1], target)
  }

  /** Linking two lists of files one after the other is linking their
      concatenation. */
  lemma {:induction false} LinkAllAppend(s: Store, a: seq<FileInfo>, b: seq<FileInfo>, target: Path)
    ensures LinkAll(s, a + b, target) == LinkAll(LinkAll(s, a, target), b, target)
  {
    if b != [] {
      LinkAllAppend(s, a, b[..|b| - 1], target);
      assert (a + b)[..|a + b| - 1] == a + b[..|b| - 1];
    } else {
      assert a + b == a;
    }
  }

  function CountProxies(fs: seq<FileInfo>): nat {
    if fs == [] then 0 else CountProxies(fs[..|fs| - 1]) + (if fs[|fs| - 1].copy then 0 else 1)
  }

  lemma {:induction false} LinkAllFrame(s: Store, fs: seq<FileInfo>, target: Path)
    ensures LinkAll(s, fs, target).doneFolders == s.doneFolders
    ensures LinkAll(s, fs, target).doneFiles == s.doneFiles
    ensures LinkAll(s, fs, target).stats.batches == s.stats.batches
    ensures forall q :: q in s.output ==>
              q in LinkAll(s, fs, target).output && LinkAll(s, fs, target).output[q] == s.output[q]
    ensures forall f :: f in fs ==> ArtifactPath(f, target) in LinkAll(s, fs, target).output
  {
    if fs != [] {
      var init, f := fs[..|fs| - 1], fs[|fs| - 1];
      LinkAllFrame(s, init, target);
      assert fs == init + [f];
    }
  }

  /** Linking a list of files counts exactly one link per proxied file, and
      at most one copy per copied file. */
  lemma {:induction false} LinkAllCounters(s: Store, fs: seq<FileInfo>, target: Path)
    ensures LinkAll(s, fs, target).stats.linked == s.stats.linked + CountProxies(fs)
    ensures s.stats.copied <= LinkAll(s, fs, target).stats.copied <= s.stats.copied + |fs| - CountProxies(fs)
  {
    if fs != [] {
      LinkAllCounters(s, fs[..|fs| - 1], target);
      LinkCounters(LinkAll(s, fs[..|fs| - 1], target), fs[|fs| - 1], target);
    }
  }

  /** Re-linking files that are already materialised changes no file and
      copies nothing; only the proxy counter moves, once per proxied file. */
  lemma {:induction false} LinkAllAgain(s: Store, fs: seq<FileInfo>, target: Path)
    requires forall f :: f in fs ==> ArtifactPath(f, target) in s.output
    ensures LinkAll(s, fs, target).output == s.output
    ensures LinkAll(s, fs, target).stats == s.stats.(linked := s.stats.linked + CountProxies(fs))
  {
    if fs != [] {
      var init, f := fs[..|fs| - 1], fs[|fs| - 1];
      assert fs == init + [f];
      LinkAllAgain(s, init, target);
      LinkCounters(LinkAll(s, init, target), f, target);
    }
  }

  /** Materialisation is idempotent on the output folder: a second pass over
      the same files leaves every artifact as the first pass left it and
      copies nothing more. */
  lemma LinkAllIdempotent(s: Store, fs: seq<FileInfo>, target: Path)
    ensures LinkAll(LinkAll(s, fs, target), fs, target).output == LinkAll(s, fs, target).output
    ensures LinkAll(LinkAll(s, fs, target), fs, target).stats.copied == LinkAll(s, fs, target).stats.copied
    ensures LinkAll(LinkAll(s, fs, target), fs, target).stats.linked
         == LinkAll(s, fs, target).stats.linked + CountProxies(fs)
  {
    LinkAllFrame(s, fs, target);
    LinkAllAgain(LinkAll(s, fs, target), fs, target);
  }

  /** Materialising files neither reads nor changes the processed folders. */
  lemma {:induction false} LinkAllDoneFolders(s: Store, fs: seq<FileInfo>, target: Path, d: set<Path>)
    ensures LinkAll(s.(doneFolders := d), fs, target) == LinkAll(s, fs, target).(doneFolders := d)
  {
    if fs != [] {
      LinkAllDoneFolders(s, fs[..|fs| - 1], target, d);
    }
  }

  /** The non-empty prefixes of `p`: the folders `mkdir(parents=True)` creates. */
  function DirPrefixes(p: Path): set<Path> {
    set i | 1 <= i <= |p| :: p[..i]
  }

  /** `mkdir(parents=True, exist_ok=True)` on the output folder. */
  function WithDirs(out: OutTree, p: Path): (r: OutTree)
    ensures forall q :: q in out ==> q in r && r[q] == out[q]
    ensures forall i :: 1 <= i <= |p| ==> p[..i] in r
    ensures forall q :: q in r ==> q in out || (q in DirPrefixes(p) && r[q] == ODir)
  {
    map q | q in out.Keys + DirPrefixes(p) :: if q in out then out[q] else ODir
  }

  lemma WithDirsTwice(out: OutTree, p: Path)
    ensures WithDirs(WithDirs(out, p), p) == WithDirs(out, p)
  {
  }
}
