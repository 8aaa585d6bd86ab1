/** The file classifier of GraphVault.py: extension allow-lists, the
    category of a file and its copy/proxy policy. */
module Classifier {
  import opened Base

  /** Files up to this many bytes are copied; larger ones get a proxy stub. */
  const MaxFileSize: int := 2 * 1024 * 1024

  const TextExt: set<string> := {".md", ".txt", ".pdf", ".docx", ".doc", ".rtf"}
  const CodeExt: set<string> := {".py", ".js", ".ts", ".jsx", ".html", ".css", ".java",
                                 ".cpp", ".c", ".go", ".rs", ".json", ".yaml", ".xml"}
  const MediaExt: set<string> := {".jpg", ".jpeg", ".png", ".gif", ".webp", ".svg",
                                  ".mp4", ".mov", ".avi", ".mkv", ".mp3", ".wav", ".ogg"}
  const OtherExt: set<string> := {".zip", ".rar", ".7z", ".csv", ".db", ".sqlite", ".xls", ".xlsx"}
  const AllExt: set<string> := TextExt + CodeExt + MediaExt + OtherExt

  /** The media split and the two named groups of `OtherExt`. */
  const ImageExt: set<string> := {".jpg", ".jpeg", ".png", ".gif", ".webp", ".svg"}
  const VideoExt: set<string> := {".mp4", ".mov", ".avi", ".mkv"}
  const DataExt: set<string> := {".csv", ".db", ".sqlite"}
  const ArchiveExt: set<string> := {".zip", ".rar", ".7z"}

  /** Directory names that the scan never descends into. */
  const IgnoreDirs: set<string> := {".obsidian", ".git", ".trash", "attachments", "images", "img",
    "assets", "excalidraw", "canvas", "node_modules", "__pycache__", ".vscode", ".idea",
    "temp", "tmp", "cache", "logs", "backup", "build", "dist", ".npm", ".cache",
    "Thumbs.db", ".DS_Store"}

  /** The eight categories, in the order the Map of Content lists them. */
  datatype Category = Texto | Codigo | Imagen | Video | Audio | Datos | Archivo | Otros

  const CategoryOrder: seq<Category> := [Texto, Codigo, Imagen, Video, Audio, Datos, Archivo, Otros]

  /** The category of a (lower-cased) extension: text is tested first, then
      code, then media, then the data and archive groups; anything else,
      `.xls` and `.xlsx` included, is "otros". */
  function Classify(ext: string): Category {
    if ext in TextExt then Texto
    else if ext in CodeExt then Codigo
    else if ext in MediaExt then
      (if ext in ImageExt then Imagen else if ext in VideoExt then Video else Audio)
    else if ext in DataExt then Datos
    else if ext in ArchiveExt then Archivo
    else Otros
  }

  /** An independent description of the classification: the allow-listed
      extensions that belong to each category. */
  function ExtensionsOf(c: Category): set<string> {
    match c
    case Texto => TextExt
    case Codigo => CodeExt
    case Imagen => ImageExt
    case Video => VideoExt
    case Audio => {".mp3", ".wav", ".ogg"}
    case Datos => DataExt
    case Archivo => ArchiveExt
    case Otros => {".xls", ".xlsx"}
  }

  /** On the allow-list the if-chain agrees with the per-category sets, so
      the order of the tests does not matter: the sets are disjoint and
      together they make up exactly the allow-list. */
  lemma ClassifyMatchesCategorySets(ext: string, c: Category)
    requires ext in AllExt
    ensures Classify(ext) == c <==> ext in ExtensionsOf(c)
  {
    TopLevelSetsDisjoint();
    MediaSplit();
    OtherSplit();
  }

  lemma TopLevelSetsDisjoint()
    ensures TextExt !! CodeExt && TextExt !! MediaExt && TextExt !! OtherExt
    ensures CodeExt !! MediaExt && CodeExt !! OtherExt && MediaExt !! OtherExt
  {
    TextSetDisjoint();
    CodeSetDisjoint();
    MediaSplit();
    OtherSplit();
  }

  lemma TextSetDisjoint()
    ensures TextExt !! CodeExt && TextExt !! MediaExt && TextExt !! OtherExt
  {
  }

  lemma CodeSetDisjoint()
    ensures CodeExt !! MediaExt && CodeExt !! OtherExt
  {
  }

  lemma MediaSplit()
    ensures MediaExt == ImageExt + VideoExt + ExtensionsOf(Audio)
    ensures ImageExt !! VideoExt && ImageExt !! ExtensionsOf(Audio) && VideoExt !! ExtensionsOf(Audio)
  {
  }

  lemma OtherSplit()
    ensures OtherExt == DataExt + ArchiveExt + ExtensionsOf(Otros)
    ensures DataExt !! ArchiveExt && DataExt !! ExtensionsOf(Otros) && ArchiveExt !! ExtensionsOf(Otros)
  {
  }

  lemma CategorySetsCoverAllowList(ext: string)
    ensures ext in AllExt <==> exists c :: ext in ExtensionsOf(c)
  {
    if ext in AllExt {
      ClassifyMatchesCategorySets(ext, Classify(ext));
    } else {
      forall c | true ensures ext !in ExtensionsOf(c) {
        ExtensionsAllowed(c);
      }
    }
  }

  lemma ExtensionsAllowed(c: Category)
    ensures ExtensionsOf(c) <= AllExt
  {
    MediaSplit();
    OtherSplit();
  }

  /** Every category appears exactly once in the listing order. */
  lemma CategoryOrderComplete(c: Category)
    ensures c in CategoryOrder
    ensures NoDup(CategoryOrder)
  {
  }

  predicate IsCopy(size: int) {
    size <= MaxFileSize
  }

  /** The classified record of one file: `analyze_file`. */
  datatype FileInfo = FileInfo(name: Name, stem: string, ext: string, size: int,
                               cat: Category, rel: Path, copy: bool)

  function AnalyzeFile(rel: Path, size: int): (f: FileInfo)
    requires rel != []
    ensures f.rel == rel && f.name == Last(rel) && f.size == size
    ensures f.stem + Suffix(f.name) == f.name
  {
    StemThenSuffix(Last(rel));
    var name := Last(rel);
    var ext := Lower(Suffix(name));
    FileInfo(name, Stem(name), ext, size, Classify(ext), rel, IsCopy(size))
  }

  /** The copy/proxy threshold: exactly 2 MiB still copies, one byte more
      is proxied. */
  lemma CopyPolicyThreshold(rel: Path)
    requires rel != []
    ensures AnalyzeFile(rel, MaxFileSize).copy
    ensures !AnalyzeFile(rel, MaxFileSize + 1).copy
    ensures forall size :: AnalyzeFile(rel, size).copy <==> size <= 2097152
  {
  }

  /** A file the scan keeps: an allow-listed suffix (case-insensitive) and
      a name that does not start with a dot. */
  predicate Qualifies(name: Name) {
    Lower(Suffix(name)) in AllExt && !StartsWithDot(name)
  }

  /** A sub-directory the scan descends into. */
  predicate Admissible(name: Name) {
    name !in IgnoreDirs && !StartsWithDot(name)
  }
}
