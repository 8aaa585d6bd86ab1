/** The vault builder itself (`GraphVaultPro`): an object holding the
    folder dictionary, the processed sets, the counters and the batch-size
    index, whose methods scan the input folder, process batches, write the
    documents and reconcile the output folder. The input folder, the output
    folder and the checkpoint file are fields of the object: the input is
    read only, the other two are changed in place. Each method is proved to
    have exactly the effect the specification modules define. */
module Vault {
  import opened Base
  import opened Sorting
  import opened Classifier
  import opened Scanning
  import opened Output
  import opened MapOfContent
  import opened Schedule
  import opened Reconcile
  import opened Checkpoint
  import opened Commands

  /** How `process_batch` ends: normally, or with the `IndexError` of an
      invalid batch-size index escaping. */
  datatype BatchRun = Finished | Raised(failure: Failure)

  /** One line typed at the prompt, with the input folder as it is at that
      moment, or Ctrl-C while waiting for it. */
  datatype Input = Line(text: string, inputNow: Tree) | Interrupt

  /** How the main loop stops: by "q", by Ctrl-C, by an error escaping the
      dashboard, or by the end of input (`EOFError`, which also escapes). */
  datatype Ending = Quitted | Interrupted | Aborted | InputClosed

  /** What one command asks of the main loop. */
  datatype Step = Continue | Stop

  /** The whole state of the object, as a value: the input folder as last
      scanned, the folder dictionary and its order, the progress, the output
      folder and the checkpoint file. */
  datatype World = World(source: Tree, folders: map<Path, FolderInfo>, order: seq<Path>,
                         doneFolders: set<Path>, doneFiles: set<Path>, stats: Stats,
                         batchIdx: int, output: OutTree, checkpoint: CheckpointFile)

  function StoreOf(w: World): Store {
    Store(w.output, w.stats, w.doneFolders, w.doneFiles)
  }

  function ProgressOf(w: World): Progress {
    Progress(w.doneFolders, w.doneFiles, w.stats, w.batchIdx)
  }

  /** A batch: the output folder, the counters and the processed sets
      become those of `BatchEffect`, and, when folders ran, the checkpoint
      is saved with the new progress; the rest is unchanged. */
  ghost predicate BatchStep(w: World, w': World) {
    && ChildrenKnown(w.folders) && (forall k :: k in w.order ==> k in w.folders)
    && StoreOf(w') == BatchEffect(w.folders, w.order, w.batchIdx, StoreOf(w))
    && w'.source == w.source && w'.folders == w.folders && w'.order == w.order
    && w'.batchIdx == w.batchIdx
    && w'.checkpoint == (if PlanBatch(w.folders, w.order, w.doneFolders, w.batchIdx).RunFolders?
                         then Save(ProgressOf(w')) else w.checkpoint)
  }

  /** "r": the dictionary is that of a scan of `now`, both processed sets
      are cleared, and the output folder is reconciled with the new
      dictionary by the deletion pass; the counters, the batch-size index
      and the checkpoint are unchanged. */
  ghost predicate RescanStep(w: World, now: Tree, w': World) {
    && Scanned(now, w'.folders, w'.order)
    && w'.source == now && w'.doneFolders == {} && w'.doneFiles == {}
    && w'.output == SyncAsWritten(w.output, ExpectedOf(w'.folders))
    && w'.stats == w.stats && w'.batchIdx == w.batchIdx && w'.checkpoint == w.checkpoint
  }

  /** The effect of one command of `run` on the state: a batch, a new
      batch-size index, a rescan, the deletion pass alone, the checkpoint
      saved on "q", or nothing. */
  ghost predicate CommandEffect(w: World, command: Command, now: Tree, w': World) {
    match command
    case ProcessBatch => BatchStep(w, w')
    case SetBatch(idx) => w' == w.(batchIdx := idx)
    case Rescan => RescanStep(w, now, w')
    case SyncOnly => w' == w.(output := SyncAsWritten(w.output, ExpectedOf(w.folders)))
    case Quit => w' == w.(checkpoint := Save(ProgressOf(w)))
    case Ignored => w' == w
  }

  /** The effect of one input: Ctrl-C saves the checkpoint; a line has the
      effect of the command it parses to. */
  ghost predicate InputEffect(w: World, x: Input, w': World) {
    match x
    case Interrupt => w' == w.(checkpoint := Save(ProgressOf(w)))
    case Line(text, now) => CommandEffect(w, Parse(text), now, w')
  }

  /** State `j + 1` of `trace` is the effect of input `j` on state `j`. */
  ghost predicate StepAt(trace: seq<World>, inputs: seq<Input>, j: int)
    requires 0 <= j < |trace| - 1 && j < |inputs|
  {
    InputEffect(trace[j], inputs[j], trace[j + 1])
  }

  /** `trace` is the sequence of states the loop went through, each one
      obtained from the one before by the effect of the next input
      (`TracedAt`). */
  ghost predicate Traced(trace: seq<World>, inputs: seq<Input>) {
    && 1 <= |trace| <= |inputs| + 1
    && forall j :: 0 <= j < |trace| - 1 ==> StepAt(trace, inputs, j)
  }

  class GraphVault {
    /** The input folder, as the last scan saw it. */
    var source: Tree
    /** The folder dictionary and its insertion order. */
    var folders: map<Path, FolderInfo>
    var order: seq<Path>
    var processedFolders: set<Path>
    var processedFiles: set<Path>
    var stats: Stats
    var batchIdx: int
    /** The output folder. */
    var output: OutTree
    /** The checkpoint file. */
    var checkpoint: CheckpointFile

    /** The part of the state a batch changes. */
    function Snap(): Store
      reads this`output, this`stats, this`processedFolders, this`processedFiles
    {
      Store(output, stats, processedFolders, processedFiles)
    }

    /** The whole state. */
    ghost function State(): World
      reads this`source, this`folders, this`order, this`processedFolders, this`processedFiles
      reads this`stats, this`batchIdx, this`output, this`checkpoint
    {
      World(source, folders, order, processedFolders, processedFiles, stats, batchIdx, output, checkpoint)
    }

    /** `trace` is not empty and ends in the current state. */
    ghost predicate EndsIn(trace: seq<World>)
      reads this`source, this`folders, this`order, this`processedFolders, this`processedFiles
      reads this`stats, this`batchIdx, this`output, this`checkpoint
    {
      1 <= |trace| && trace[|trace| - 1] == State()
    }

    /** The part of the state the checkpoint carries. */
    function Current(): Progress
      reads this`processedFolders, this`processedFiles, this`stats, this`batchIdx
    {
      Progress(processedFolders, processedFiles, stats, batchIdx)
    }

    /** Some folder holds a file, so the percentages of the dashboard and
        of the root index, which divide by the number of folders and by the
        number of files, are defined. */
    predicate HasFiles()
      reads this`folders, this`order
    {
      exists k :: k in order && k in folders && folders[k].files != []
    }

    /** Some listed folder holds a file exactly when the file count is not
        zero, and then the dictionary is not empty either. */
    lemma HasFilesCounts()
      ensures HasFiles() <==> FileCount(folders, order) != 0
      ensures HasFiles() ==> |folders| != 0
    {
      FileCountZero(folders, order);
      if HasFiles() {
        var k :| k in order && k in folders && folders[k].files != [];
        var i :| 0 <= i < |order| && order[i] == k;
      }
    }

    /** The folder dictionary is the one a scan of the input folder builds,
        in the order the scan inserted its keys. */
    ghost predicate Valid()
      reads this`source, this`folders, this`order
    {
      Scanned(source, folders, order)
    }

    /** The constructor: the output folder and its attachments folder are
        made, the state starts empty with the default batch-size index, the
        checkpoint is loaded, and, the folder dictionary being empty, the
        input folder is scanned. */
    constructor (input: Tree, out0: OutTree, file: CheckpointFile)
      requires ValidTree(input)
      ensures Valid()
      ensures source == input && checkpoint == file
      ensures output == WithDirs(out0, AttachDir)
      ensures Current() == Load(file, InitialProgress)
    {
      source := input;
      output := WithDirs(out0, AttachDir);
      folders := map[];
      order := [];
      processedFolders := {};
      processedFiles := {};
      stats := InitialStats;
      batchIdx := DefaultBatchIndex;
      checkpoint := file;
      new;
      assert Current() == InitialProgress;
      LoadCheckpoint();
      ghost var loaded := Current();
      Scan();
      assert Current() == loaded;
    }

    /** `run`: the loop shows the dashboard and asks for one input after
        another until one ends it; when the inputs run out, the next prompt
        meets the end of input, which raises `EOFError` (`InputClosed`).
        `trace` holds the states between the inputs handled. The dashboard
        of each round is shown at the end of the round before it. */
    method Run(inputs: seq<Input>) returns (ending: Ending, ghost trace: seq<World>)
      requires Valid()
      requires forall i :: 0 <= i < |inputs| && inputs[i].Line? ==> ValidTree(inputs[i].inputNow)
      modifies this
      ensures Valid()
      ensures 1 <= |trace| && State() == trace[|trace| - 1]
      ensures Traced(trace, inputs) && trace[0] == old(State())
      ensures ending == Aborted || ending == InputClosed ==>
                AllContinue(inputs, |trace| - 1)
      ensures ending == Aborted <==>
                (ending != Quitted && ending != Interrupted && Dashboard())
      ensures ending == InputClosed ==> |trace| == |inputs| + 1
      ensures ending == Quitted || ending == Interrupted ==> checkpoint == Save(Current())
      ensures ending == Quitted || ending == Interrupted ==> StoppedAt(trace, inputs, ending)
    {
      var outcome, raises;
      outcome, raises, trace := Rounds(inputs);
      ending := if outcome.Some? then outcome.value else if raises then Aborted else InputClosed;
    }

    /** The rounds of `run` until an input stops the loop (`outcome`), the
        dashboard raises (`raises`) or the inputs run out. */
    method Rounds(inputs: seq<Input>) returns (outcome: Option<Ending>, raises: bool, ghost trace: seq<World>)
      requires Valid()
      requires forall i :: 0 <= i < |inputs| && inputs[i].Line? ==> ValidTree(inputs[i].inputNow)
      modifies this
      ensures Valid()
      ensures EndsIn(trace)
      ensures Traced(trace, inputs) && trace[0] == old(State())
      ensures outcome == None || outcome == Some(Quitted) || outcome == Some(Interrupted)
      ensures outcome == None ==> AllContinue(inputs, |trace| - 1) && raises == Dashboard()
      ensures outcome == None && !raises ==> |trace| == |inputs| + 1
      ensures outcome.Some? ==> StoppedAt(trace, inputs, outcome.value) && checkpoint == Save(Current())
    {
      var i := 0;
      trace := [State()];
      outcome := None;
      raises := Dashboard();
      while i < |inputs| && outcome.None? && !raises
        invariant 0 <= i <= |inputs| && |trace| == i + 1
        invariant Valid()
        invariant Traced(trace, inputs) && trace[0] == old(State()) && EndsIn(trace)
        invariant outcome == None || outcome == Some(Quitted) || outcome == Some(Interrupted)
        invariant outcome == None ==> AllContinue(inputs, i)
        invariant outcome == None ==> raises == Dashboard()
        invariant outcome == None && !raises ==> BatchSize(batchIdx).Some?
        invariant outcome.Some? ==> StoppedAt(trace, inputs, outcome.value) && checkpoint == Save(Current())
        decreases |inputs| - i
      {
        outcome, trace := Turn(trace, inputs, i);
        i := i + 1;
        if outcome.None? {
          raises := Dashboard();
        }
      }
    }

    /** One turn of the loop after the dashboard has been shown: input `i`
        is handled and the state it leads to is appended to the trace. */
    method Turn(ghost trace: seq<World>, inputs: seq<Input>, i: nat) returns (outcome: Option<Ending>, ghost trace': seq<World>)
      requires Valid() && !Dashboard()
      requires i < |inputs| && |trace| == i + 1 && Traced(trace, inputs) && trace[|trace| - 1] == State()
      requires AllContinue(inputs, i)
      requires inputs[i].Line? ==> ValidTree(inputs[i].inputNow)
      modifies this
      ensures Valid()
      ensures Traced(trace', inputs) && trace'[0] == trace[0] && trace'[|trace'| - 1] == State()
      ensures |trace'| == i + 2
      ensures outcome == None || outcome == Some(Quitted) || outcome == Some(Interrupted)
      ensures outcome == None ==> AllContinue(inputs, i + 1)
      ensures outcome.Some? ==> StoppedAt(trace', inputs, outcome.value) && checkpoint == Save(Current())
    {
      outcome := Handle(inputs[i]);
      TracedStep(trace, inputs, State());
      trace' := trace + [State()];
      if outcome.None? {
        ContinuesStep(inputs, i);
      }
    }

    /** One input of `run`, after the dashboard has been shown: Ctrl-C
        saves the checkpoint and stops; a line is dispatched as a command.
        `None` is returned when the loop goes on. */
    method Handle(x: Input) returns (outcome: Option<Ending>)
      requires Valid() && BatchSize(batchIdx).Some?
      requires x.Line? && Parse(x.text).ProcessBatch? ==> HasFiles()
      requires x.Line? ==> ValidTree(x.inputNow)
      modifies this
      ensures Valid()
      ensures InputEffect(old(State()), x, State())
      ensures outcome == None || outcome == Some(Quitted) || outcome == Some(Interrupted)
      ensures outcome == None <==> Continues(x)
      ensures outcome == Some(Interrupted) <==> x == Interrupt
      ensures outcome.Some? ==> checkpoint == Save(Current())
    {
      match x {
        case Interrupt =>
          SaveCheckpoint();
          outcome := Some(Interrupted);
        case Line(text, now) =>
          var command := Parse(text);
          ValidReady();
          var step := Dispatch(command, now);
          LetterCommands(text);
          outcome := if step == Stop then Some(Quitted) else None;
      }
    }

    /** The failure conditions of the dashboard: it divides by the number
        of folders and by the number of files, and looks up the batch size.
        So it raises exactly when the dictionary is empty, no folder holds
        a file, or the batch-size index is out of range. */
    function Dashboard(): (raises: bool)
      reads this`source, this`folders, this`order, this`batchIdx
      requires Valid()
      ensures raises <==>
                || |folders| == 0
                || (forall k :: k in folders ==> folders[k].files == [])
                || BatchSize(batchIdx).None?
      ensures raises <==> !HasFiles() || BatchSize(batchIdx).None?
    {
      ValidKeysInOrder();
      FileCountZero(folders, order);
      HasFilesCounts();
      DashboardRaises(|folders|, FileCount(folders, order), batchIdx)
    }

    /** One command of `run`, after the dashboard has been shown (so the
        batch-size index is valid). */
    method Dispatch(command: Command, now: Tree) returns (step: Step)
      requires Valid() && Ready() && ValidTree(now) && BatchSize(batchIdx).Some?
      requires command.ProcessBatch? ==> HasFiles()
      modifies this
      ensures Valid() && Ready()
      ensures step == Stop <==> command == Quit
      ensures CommandEffect(old(State()), command, now, State())
    {
      step := Continue;
      match command {
      case ProcessBatch =>
        BatchCommand();
      case SetBatch(idx) =>
        batchIdx := idx;
      case Rescan =>
        RescanCommand(now);
      case SyncOnly =>
        SyncCommand();
      case Quit =>
        QuitCommand();
        step := Stop;
      case Ignored =>
      }
    }

    /** The empty line: one batch. */
    method BatchCommand()
      requires Ready() && HasFiles()
      modifies this`output, this`stats, this`processedFiles, this`processedFolders, this`checkpoint
      ensures BatchStep(old(State()), State())
    {
      ghost var w := State();
      var _ := ProcessBatch();
      assert StoreOf(State()) == Snap() && ProgressOf(State()) == Current();
    }

    /** "r". */
    method RescanCommand(now: Tree)
      requires ValidTree(now)
      modifies this`processedFolders, this`processedFiles, this`source, this`folders, this`order, this`output
      ensures Valid() && Ready()
      ensures RescanStep(old(State()), now, State())
    {
      RescanAll(now);
    }

    /** "s". */
    method SyncCommand()
      modifies this`output
      ensures State() == old(State()).(output := SyncAsWritten(old(output), ExpectedOf(folders)))
    {
      SyncDeletions();
    }

    /** "q". */
    method QuitCommand()
      modifies this`checkpoint
      ensures State() == old(State()).(checkpoint := Save(ProgressOf(old(State()))))
    {
      SaveCheckpoint();
    }

    /** The "r" command: both processed sets are cleared, the input folder
        is scanned again and the output folder is reconciled with the new
        dictionary. */
    method RescanAll(now: Tree)
      requires ValidTree(now)
      modifies this`processedFolders, this`processedFiles, this`source, this`folders, this`order, this`output
      ensures Valid() && Ready()
      ensures source == now && processedFolders == {} && processedFiles == {}
      ensures output == SyncAsWritten(old(output), ExpectedOf(folders))
    {
      processedFolders := {};
      processedFiles := {};
      source := now;
      Scan();
      SyncDeletions();
      ValidReady();
    }

    /** `load_checkpoint`. */
    method LoadCheckpoint()
      modifies this`processedFolders, this`processedFiles, this`stats, this`batchIdx
      ensures Current() == Load(checkpoint, old(Current()))
      ensures unchanged(this`source, this`output, this`checkpoint, this`folders, this`order)
    {
      match checkpoint
      case Absent =>
      case Corrupt =>
      case Saved(rec) =>
        processedFolders := OrElse(rec.doneFolders, {});
        processedFiles := OrElse(rec.doneFiles, {});
        stats := OrElse(rec.stats, InitialStats);
        batchIdx := OrElse(rec.batchIdx, DefaultBatchIndex);
    }

    /** `save_checkpoint`. */
    method SaveCheckpoint()
      modifies this`checkpoint
      ensures unchanged(this`source, this`folders, this`order)
      ensures checkpoint == Save(Current())
      ensures Load(checkpoint, InitialProgress) == Current()
    {
      checkpoint := Save(Current());
      LoadSaveRoundTrip(Current(), InitialProgress);
    }

    /** `get_obsidian_link`. */
    method GetObsidianLink(f: FileInfo, target: Path) returns (link: string)
      modifies this`output, this`stats
      ensures Snap() == Link(old(Snap()), f, target)
      ensures link == LinkText(f)
      ensures ParseLink(link) == if f.copy then Some((f.ext in MediaExt, f.name))
                                 else Some((false, AttachName + "/" + f.stem))
    {
      if f.copy {
        var dest := target + [f.name];
        if dest !in output {
          output := output[dest := OFile(Copied(f.rel))];
          stats := stats.(copied := stats.copied + 1);
        }
        link := if f.ext in MediaExt then "![[" + f.name + "]]" else "[[" + f.name + "]]";
      } else {
        var proxy := ProxyPath(f.stem);
        if proxy !in output {
          output := output[proxy := OFile(ProxyStub(f.name, f.size, f.rel))];
        }
        stats := stats.(linked := stats.linked + 1);
        link := "[[" + AttachName + "/" + f.stem + "]]";
      }
      assert link == LinkText(f);
      LinkTextRoundTrip(f);
    }

    /** `copy_or_link_file`. */
    method CopyOrLinkFile(f: FileInfo, target: Path)
      modifies this`output, this`stats
      ensures Snap() == CopyOrLink(old(Snap()), f, target)
    {
      if f.rel in processedFiles {
        return;
      }
      var _ := GetObsidianLink(f, target);
    }

    /** `get_pending_folders`. */
    method GetPendingFolders() returns (pending: seq<Path>)
      requires NoDup(order)
      ensures pending == Pending(folders, order, processedFolders)
      ensures forall k :: k in pending <==> k in order && k !in processedFolders
      ensures SortedBy(pending, PendingKey(folders))
    {
      pending := [];
      var i := 0;
      while i < |order|
        invariant 0 <= i <= |order|
        invariant pending == Without(order[..i], processedFolders)
      {
        assert order[..i + 1][..i] == order[..i];
        if order[i] !in processedFolders {
          pending := pending + [order[i]];
        }
        i := i + 1;
      }
      assert order[..i] == order;
      pending := SortBy(pending, PendingKey(folders));
      PendingExact(folders, order, processedFolders);
    }

    /** `create_root_index`. It is called only when some folder holds a
        file (the dashboard raises first otherwise), so its percentages are
        defined and the index is written as the code writes it. */
    method CreateRootIndex()
      requires OrderKnown() && HasFiles()
      modifies this`output
      ensures WriteIndexAsWritten(folders, order, old(Snap())) == Written(Snap())
      ensures Snap() == WriteIndex(folders, order, old(Snap()))
    {
      HasFilesCounts();
      var names := MainFolderNames();
      var totalFiles := TotalFileCount();
      var doc := IndexDoc(names, |processedFolders|, |folders|, |processedFiles|, totalFiles,
                          stats.copied, stats.linked);
      output := output[IndexPath := OFile(IndexPage(doc))];
    }

    /** The names the root index lists: the level-1 folders, sorted by
        lower-cased name. */
    method MainFolderNames() returns (names: seq<Name>)
      requires OrderKnown()
      ensures names == Names(folders, SortBy(LevelOne(folders, order), NameOf(folders)))
    {
      var level1 := [];
      var i := 0;
      while i < |order|
        invariant 0 <= i <= |order|
        invariant level1 == LevelOne(folders, order[..i])
      {
        assert order[..i + 1][..i] == order[..i];
        var k := order[i];
        if folders[k].level == 1 {
          level1 := level1 + [k];
        }
        i := i + 1;
      }
      assert order[..i] == order;
      var sorted := SortBy(level1, NameOf(folders));
      SortedLevelOneKnown(folders, order);
      names := [];
      var j := 0;
      while j < |sorted|
        invariant 0 <= j <= |sorted|
        invariant names == Names(folders, sorted[..j])
      {
        assert sorted[..j + 1][..j] == sorted[..j];
        names := names + [folders[sorted[j]].name];
        j := j + 1;
      }
      assert sorted[..j] == sorted;
    }

    /** The number of file records of the dictionary. */
    method TotalFileCount() returns (total: nat)
      requires OrderKnown()
      ensures total == FileCount(folders, order)
    {
      total := 0;
      var i := 0;
      while i < |order|
        invariant 0 <= i <= |order|
        invariant total == FileCount(folders, order[..i])
      {
        assert order[..i + 1][..i] == order[..i];
        total := total + |folders[order[i]].files|;
        i := i + 1;
      }
      assert order[..i] == order;
    }

    /** `create_moc_for_folder`: nothing for an unknown key; otherwise the
        output folder is made, the heading, parent and sub-folder lines are
        laid out, the processed files are grouped by category and listed
        section by section (each link made by `get_obsidian_link`), and the
        document is written over any earlier one. */
    method CreateMocForFolder(key: Path)
      requires ChildrenKnown(folders)
      modifies this`output, this`stats
      ensures Snap() == WriteMoc(folders, key, old(Snap()))
    {
      if key !in folders {
        return;
      }
      var info := folders[key];
      ghost var s1 := old(Snap()).(output := WithDirs(output, key));
      output := WithDirs(output, key);
      assert Snap() == s1;
      var lines := MocBody(key);
      ghost var s2 := Snap();
      output := output[MocPath(key, info) := OFile(MocDoc(lines))];
      assert Snap() == s2.(output := s2.output[MocPath(key, info) := OFile(MocDoc(lines))]);
    }

    /** The lines of the document of a folder, laid out while its listed
        files are linked into the output. */
    method MocBody(key: Path) returns (lines: seq<MocLine>)
      requires key in folders && ChildrenKnown(folders)
      modifies this`output, this`stats
      ensures lines == MocLines(folders, key, processedFiles)
      ensures Snap() == LinkAll(old(Snap()), MocFiles(folders[key], processedFiles), key)
    {
      var info := folders[key];
      ghost var done := processedFiles;
      var head := HeadLines(key);
      var processed := ProcessedFiles(info.files);
      var byCat := ByCategory(processed);
      GroupedProcessed(byCat, info.files, processedFiles);
      var sectionLines, added := ListSections(info.files, byCat, CategoryOrder, key);
      assert added <==> MocFiles(info, done) != [];
      var nav: seq<MocLine> := [];
      if !added && info.children != [] {
        nav := [PureNavigation];
      }
      lines := head + sectionLines + nav + [Footer];
    }

    /** The category sections of a document, in the fixed category order:
        a heading, one line per file sorted by lower-cased name, and a
        blank line, for each category holding a processed file. `added`
        tells whether any file was listed. */
    method ListSections(files: seq<FileInfo>, byCat: map<Category, seq<FileInfo>>, cats: seq<Category>, key: Path)
      returns (lines: seq<MocLine>, added: bool)
      requires Grouped(byCat, files, processedFiles)
      modifies this`output, this`stats
      ensures lines == SectionsFor(files, processedFiles, cats)
      ensures Snap() == LinkAll(old(Snap()), SectionFiles(files, processedFiles, cats), key)
      ensures added <==> SectionFiles(files, processedFiles, cats) != []
    {
      lines := [];
      added := false;
      ghost var visited: seq<Category> := [];
      var k := 0;
      while k < |cats|
        invariant 0 <= k <= |cats| && visited == cats[..k]
        invariant lines == SectionsFor(files, processedFiles, visited)
        invariant Snap() == LinkAll(old(Snap()), SectionFiles(files, processedFiles, visited), key)
        invariant added <==> SectionFiles(files, processedFiles, visited) != []
      {
        lines, added := ListCategoryAfter(files, byCat, visited, cats[k], key, lines, added, old(Snap()));
        assert cats[..k + 1] == visited + [cats[k]];
        visited := visited + [cats[k]];
        k := k + 1;
      }
      assert cats[..k] == cats;
    }

    /** One pass of the category loop: the section of `cat` is appended to
        the lines laid out for the categories `visited`, and `added` set
        when it lists files. */
    method ListCategoryAfter(files: seq<FileInfo>, byCat: map<Category, seq<FileInfo>>, ghost visited: seq<Category>,
                             cat: Category, key: Path, lines: seq<MocLine>, added: bool, ghost s0: Store)
      returns (lines': seq<MocLine>, added': bool)
      requires Grouped(byCat, files, processedFiles)
      requires lines == SectionsFor(files, processedFiles, visited)
      requires Snap() == LinkAll(s0, SectionFiles(files, processedFiles, visited), key)
      requires added <==> SectionFiles(files, processedFiles, visited) != []
      modifies this`output, this`stats
      ensures lines' == SectionsFor(files, processedFiles, visited + [cat])
      ensures Snap() == LinkAll(s0, SectionFiles(files, processedFiles, visited + [cat]), key)
      ensures added' <==> SectionFiles(files, processedFiles, visited + [cat]) != []
    {
      SectionsSnoc(files, processedFiles, visited, cat);
      SectionEmpty(files, processedFiles, cat);
      LinkAllAppend(s0, SectionFiles(files, processedFiles, visited), Section(files, processedFiles, cat), key);
      var catLines := ListCategory(files, byCat, cat, key);
      lines' := lines + catLines;
      added' := added || cat in byCat;
    }

    /** The lines of a document before its file sections: title, level
        summary, the parent link and the sub-folder list. */
    method HeadLines(key: Path) returns (lines: seq<MocLine>)
      requires key in folders && ChildrenKnown(folders)
      ensures lines == HeadOf(folders, folders[key])
    {
      var info := folders[key];
      lines := [Title(info.name), Summary(info.level, |info.files|)];
      if info.parent.Some? && info.parent.value in folders {
        lines := lines + [ParentLink(folders[info.parent.value].name)];
      }
      if info.children != [] {
        var childLines := ChildLinks(info.children);
        lines := lines + ([SubfoldersHeader] + childLines + [Blank]);
      }
    }

    /** The sub-folder list: one link per child, in children order. */
    method ChildLinks(children: seq<Path>) returns (lines: seq<MocLine>)
      requires forall c :: c in children ==> c in folders
      ensures lines == ChildLines(folders, children)
    {
      lines := [];
      var j := 0;
      while j < |children|
        invariant 0 <= j <= |children|
        invariant lines == ChildLines(folders, children[..j])
      {
        assert children[..j + 1][..j] == children[..j];
        lines := lines + [ChildLink(folders[children[j]].name)];
        j := j + 1;
      }
      assert children[..j] == children;
    }

    /** The processed files of a folder, in folder order. */
    method ProcessedFiles(files: seq<FileInfo>) returns (processed: seq<FileInfo>)
      ensures processed == Processed(files, processedFiles)
      ensures forall f :: f in processed <==> f in files && f.rel in processedFiles
    {
      processed := [];
      var i := 0;
      while i < |files|
        invariant 0 <= i <= |files|
        invariant processed == Processed(files[..i], processedFiles)
      {
        assert files[..i + 1][..i] == files[..i];
        if files[i].rel in processedFiles {
          processed := processed + [files[i]];
        }
        i := i + 1;
      }
      assert files[..i] == files;
      forall f ensures f in processed <==> f in files && f.rel in processedFiles {
        ProcessedMember(files, processedFiles, f);
      }
    }

    /** `by_cat`: the processed files grouped by category, each group in
        folder order; a category without files has no entry. */
    method ByCategory(processed: seq<FileInfo>) returns (byCat: map<Category, seq<FileInfo>>)
      requires forall f :: f in processed ==> f.rel in processedFiles
      ensures Grouped(byCat, processed, processedFiles)
    {
      byCat := map[];
      var i := 0;
      while i < |processed|
        invariant 0 <= i <= |processed|
        invariant Grouped(byCat, processed[..i], processedFiles)
      {
        var f := processed[i];
        assert processed[..i + 1] == processed[..i] + [f];
        GroupedStep(byCat, processed[..i], processedFiles, f);
        byCat := byCat[f.cat := (if f.cat in byCat then byCat[f.cat] else []) + [f]];
        i := i + 1;
      }
      assert processed[..i] == processed;
    }

    /** The section of one category: nothing when no processed file has
        that category; otherwise its heading, its files sorted by
        lower-cased name, each linked in turn, and a blank line. */
    method ListCategory(files: seq<FileInfo>, byCat: map<Category, seq<FileInfo>>, cat: Category, key: Path)
      returns (lines: seq<MocLine>)
      requires Grouped(byCat, files, processedFiles)
      modifies this`output, this`stats
      ensures lines == SectionLines(files, processedFiles, cat)
      ensures Snap() == LinkAll(old(Snap()), Section(files, processedFiles, cat), key)
      ensures lines == [] <==> cat !in byCat
    {
      SortByIsSortedPermutation(CatFiles(files, processedFiles, cat), FileKey);
      if cat in byCat {
        var section := SortBy(byCat[cat], FileKey);
        var fileLines := ListSection(section, key);
        lines := [CategoryHeader(cat)] + fileLines + [Blank];
      } else {
        lines := [];
      }
    }

    /** The file lines of one section, linking each file in turn. */
    method ListSection(section: seq<FileInfo>, key: Path) returns (fileLines: seq<MocLine>)
      modifies this`output, this`stats
      ensures Snap() == LinkAll(old(Snap()), section, key)
      ensures fileLines == FileLines(section)
    {
      fileLines := [];
      var j := 0;
      while j < |section|
        invariant 0 <= j <= |section|
        invariant Snap() == LinkAll(old(Snap()), section[..j], key)
        invariant fileLines == FileLines(section[..j])
      {
        assert section[..j + 1][..j] == section[..j];
        var link := GetObsidianLink(section[j], key);
        fileLines := fileLines + [FileLine(link, section[j].size)];
        j := j + 1;
      }
      assert section[..j] == section;
    }

    /** `process_batch`: with nothing pending only the root index is
        written; otherwise the batch size is looked up (an invalid index
        raises `IndexError`, which escapes before anything changes), the
        first pending folders are processed and each marked processed, the
        batch is counted, the checkpoint saved and the root index
        written. */
    method ProcessBatch() returns (r: BatchRun)
      requires Ready() && HasFiles()
      modifies this`output, this`stats, this`processedFiles, this`processedFolders, this`checkpoint
      ensures unchanged(this`source, this`folders, this`order)
      ensures Snap() == BatchEffect(folders, order, batchIdx, old(Snap()))
      ensures r == (if PlanBatch(folders, order, old(processedFolders), batchIdx).BadIndex?
                    then Raised(IndexError) else Finished)
      ensures checkpoint == if PlanBatch(folders, order, old(processedFolders), batchIdx).RunFolders?
                            then Save(Current()) else old(checkpoint)
    {
      var plan := ChooseBatch();
      match plan
      case AllProcessed =>
        CreateRootIndex();
        r := Finished;
      case BadIndex =>
        r := Raised(IndexError);
      case RunFolders(batch) =>
        BatchTakesFirstPending(folders, order, processedFolders, batchIdx, batch);
        RunAndRecord(batch);
        CreateRootIndex();
        r := Finished;
    }

    /** The first half of `process_batch`: the pending list, and the batch
        taken from its front (`BATCH_SIZES[batch_idx]` folders at most). */
    method ChooseBatch() returns (plan: Plan)
      requires NoDup(order)
      ensures plan == PlanBatch(folders, order, processedFolders, batchIdx)
    {
      var pending := GetPendingFolders();
      if pending == [] {
        return AllProcessed;
      }
      var size := BatchSize(batchIdx);
      if size.None? {
        return BadIndex;
      }
      plan := RunFolders(pending[..if size.value < |pending| then size.value else |pending|]);
    }

    /** The part of `process_batch` after the batch is chosen and before
        the root index is written: the folders are processed, the batch is
        counted and the checkpoint is saved. */
    method RunAndRecord(batch: seq<Path>)
      requires Ready() && forall k :: k in batch ==> k in folders
      modifies this`output, this`stats, this`processedFiles, this`processedFolders, this`checkpoint
      ensures Snap() == Counted(RunBatch(folders, batch, old(Snap())))
      ensures checkpoint == Save(Current())
    {
      ProcessFolders(batch);
      stats := stats.(batches := stats.batches + 1);
      SaveCheckpoint();
    }

    /** The folder loop of `process_batch`: each folder is processed and
        then marked processed, whether or not all its files are. */
    method ProcessFolders(batch: seq<Path>)
      requires ChildrenKnown(folders) && forall k :: k in batch ==> k in folders
      modifies this`output, this`stats, this`processedFiles, this`processedFolders
      ensures Snap() == RunBatch(folders, batch, old(Snap()))
    {
      var i := 0;
      while i < |batch|
        invariant 0 <= i <= |batch|
        invariant Snap() == RunBatch(folders, batch[..i], old(Snap()))
      {
        assert batch[..i + 1][..i] == batch[..i];
        var key := batch[i];
        var _ := ProcessFolderFiles(key);
        processedFolders := processedFolders + {key};
        i := i + 1;
      }
      assert batch[..i] == batch;
    }

    /** `process_folder_files`: the output folder is made, every file not
        yet processed is copied or linked and recorded, the document is
        regenerated, and the folder is marked complete when all its files
        are processed. Returns how many files it recorded. */
    method ProcessFolderFiles(key: Path) returns (added: nat)
      requires key in folders && ChildrenKnown(folders)
      modifies this`output, this`stats, this`processedFiles, this`processedFolders
      ensures Snap() == ProcessFolder(folders, key, old(Snap()))
      ensures added == |NewFiles(folders[key].files, old(processedFiles))|
    {
      var info := folders[key];
      output := WithDirs(output, key);
      added := MarkFolderFiles(info.files, key);
      CreateMocForFolder(key);
      var count := DoneFiles(info.files);
      DoneCountAll(info.files, processedFiles);
      if |info.files| == count {
        processedFolders := processedFolders + {key};
      }
    }

    /** The file loop of `process_folder_files`. */
    method MarkFolderFiles(files: seq<FileInfo>, target: Path) returns (added: nat)
      modifies this`output, this`stats, this`processedFiles
      ensures Snap() == MarkFiles(old(Snap()), files, target)
      ensures added == |NewFiles(files, old(processedFiles))|
    {
      added := 0;
      var i := 0;
      while i < |files|
        invariant 0 <= i <= |files|
        invariant Snap() == MarkFiles(old(Snap()), files[..i], target)
        invariant added == |NewFiles(files[..i], old(processedFiles))|
      {
        var f := files[i];
        assert files[..i + 1][..i] == files[..i];
        MarkFilesSets(old(Snap()), files[..i], target);
        if f.rel !in processedFiles {
          CopyOrLinkFile(f, target);
          processedFiles := processedFiles + {f.rel};
          added := added + 1;
        }
        i := i + 1;
      }
      assert files[..i] == files;
    }

    /** How many records of `files` are processed. */
    method DoneFiles(files: seq<FileInfo>) returns (count: nat)
      ensures count == DoneCount(files, processedFiles)
    {
      count := 0;
      var i := 0;
      while i < |files|
        invariant 0 <= i <= |files|
        invariant count == DoneCount(files[..i], processedFiles)
      {
        assert files[..i + 1][..i] == files[..i];
        if files[i].rel in processedFiles {
          count := count + 1;
        }
        i := i + 1;
      }
      assert files[..i] == files;
    }

    /** `sync_deletions` as written: a walk over every entry of the output
        folder, in any order, that removes each folder whose path is not a
        key (with everything in it) and each note that is neither a file
        path nor the document of a folder that is a key; then a pass over
        the stubs of the attachments folder that removes each one no
        proxied file claims. An entry removed before the walk reaches it
        is skipped. */
    method SyncDeletions()
      modifies this`output
      ensures unchanged(this`source, this`folders, this`order)
      ensures output == SyncAsWritten(old(output), ExpectedOf(folders))
    {
      var e := ExpectedOf(folders);
      ghost var out0 := output;
      SweepOutput(e);
      ghost var out1 := output;
      SweepStubs(e);
      PhasesCompose(out0, e, set p | p in out1 && IsStub(out1, p));
    }

    /** The `rglob` walk of `sync_deletions`. */
    method SweepOutput(e: Expected)
      modifies this`output
      ensures output == FirstPhase(old(output), e, old(output).Keys)
    {
      var todo := output.Keys;
      ghost var visited: set<Path> := {};
      FirstPhaseStart(output, e);
      while todo != {}
        invariant todo !! visited && todo + visited == old(output).Keys
        invariant output == FirstPhase(old(output), e, visited)
        decreases todo
      {
        var p :| p in todo;
        todo := todo - {p};
        if p in output {
          if output[p] == ODir && p != AttachDir {
            if p != [] && p !in e.folders {
              FirstPhaseDir(old(output), e, visited, p);
              output := map q | q in output && !IsPrefix(p, q) :: output[q];
            } else {
              FirstPhaseKeep(old(output), e, visited, p);
            }
          } else if output[p].OFile? && p != [] && Suffix(Last(p)) == ".md" && !InAttach(p) {
            var isMoc := Stem(Last(p)) == ParentName(p);
            var parentKnown := |p| >= 2 && Parent(p) in e.folders;
            if (!isMoc && p !in e.files) || (isMoc && !parentKnown) {
              FirstPhaseNote(old(output), e, visited, p);
              output := output - {p};
            } else {
              FirstPhaseKeep(old(output), e, visited, p);
            }
          } else {
            FirstPhaseKeep(old(output), e, visited, p);
          }
        } else {
          FirstPhaseGone(old(output), e, visited, p);
        }
        visited := visited + {p};
      }
    }

    /** The stub pass of `sync_deletions` (`attach.glob("*.md")`). */
    method SweepStubs(e: Expected)
      modifies this`output
      ensures output == StubPhase(old(output), e, set p | p in old(output) && IsStub(old(output), p))
    {
      var stubs := set p | p in output && IsStub(output, p);
      var todo := stubs;
      ghost var visited: set<Path> := {};
      while todo != {}
        invariant todo !! visited && todo + visited == stubs
        invariant output == StubPhase(old(output), e, visited)
        decreases todo
      {
        var p :| p in todo;
        todo := todo - {p};
        StubPhaseStep(old(output), e, visited, p);
        if Stem(p[1]) !in e.proxyStems {
          output := output - {p};
        }
        visited := visited + {p};
      }
    }

    /** `scan`: a breadth-first walk of the input folder that keeps the
        root and every visited folder holding a qualifying file, then
        registers each kept folder with its parent and sorts every
        children list by lower-cased name. */
    method Scan()
      requires ValidTree(source)
      modifies this`folders, this`order
      ensures Valid()
    {
      Walk();
      LinkChildren();
      ghost var linked := folders;
      SortChildren();
      SameRecordsShaped(source, linked, folders, order);
      GraphOfScan(source, folders, order);
    }

    /** The walk of `scan`: the queue holds paths (the level the source
        stores beside each one is its depth `|p|`); each popped folder is
        listed, its admissible sub-directories are enqueued, and it is
        inserted when it is the root or holds a qualifying file. */
    method Walk()
      requires ValidTree(source)
      modifies this`folders, this`order
      ensures order == BfsOrder(source)
      ensures Elems(order) == RetainedKeys(source) && NoDup(order)
      ensures Shaped(source, folders, order) && forall q :: q in folders ==> folders[q].children == []
    {
      folders := map[];
      order := [];
      var queue: seq<Path> := [[]];
      ghost var popped: set<Path> := {};
      ghost var all := BfsFrom(source, popped, queue);
      while queue != []
        invariant Frontier(source, popped, queue)
        invariant KeptSoFar(source, popped, folders, order)
        invariant InsertedSoFar(source, popped, queue, order, all)
        decreases source.Keys - popped
      {
        var folder := queue[0];
        ReachedIsDir(source, folder);
        var subdirs := Subfolders(folder);
        var files := FolderFiles(folder);
        var level := |folder|;
        WalkStep(source, popped, queue, queue[1..] + subdirs, folders, order, all);
        queue := queue[1..] + subdirs;
        if files != [] || level == 0 {
          folders := folders[folder := FolderInfo(FolderName(folder), level, files, [], ParentKey(folder))];
          order := order + [folder];
        }
        popped := popped + {folder};
      }
      assert order + BfsFrom(source, popped, queue) == order;
      assert all == BfsOrder(source);
      BfsComplete(source, popped, folders, order);
    }

    /** The first `iterdir` of a popped folder: its admissible
        sub-directories, in listing order, which the walk enqueues. */
    method Subfolders(folder: Path) returns (subdirs: seq<Path>)
      requires folder in source && source[folder].Dir?
      ensures subdirs == Subdirs(source, folder, source[folder].entries)
    {
      var entries := source[folder].entries;
      subdirs := [];
      var i := 0;
      while i < |entries|
        invariant 0 <= i <= |entries|
        invariant subdirs == Subdirs(source, folder, entries[..i])
      {
        assert entries[..i + 1][..i] == entries[..i];
        var n := entries[i];
        if folder + [n] in source && source[folder + [n]].Dir? && Admissible(n) {
          subdirs := subdirs + [folder + [n]];
        }
        i := i + 1;
      }
      assert entries[..i] == entries;
    }

    /** The second `iterdir` of a popped folder: the records of its
        qualifying files, in listing order. */
    method FolderFiles(folder: Path) returns (files: seq<FileInfo>)
      requires folder in source && source[folder].Dir?
      ensures files == DirFiles(source, folder)
    {
      var entries := source[folder].entries;
      files := [];
      var i := 0;
      while i < |entries|
        invariant 0 <= i <= |entries|
        invariant files == FilesAmong(source, folder, entries[..i])
      {
        assert entries[..i + 1][..i] == entries[..i];
        var n := entries[i];
        if folder + [n] in source && source[folder + [n]].File? && Qualifies(n) {
          files := files + [AnalyzeFile(folder + [n], source[folder + [n]].size)];
        }
        i := i + 1;
      }
      assert entries[..i] == entries;
    }

    /** The hierarchy pass of `scan`: each key whose parent key names a
        folder is appended to that folder's children list. */
    method LinkChildren()
      requires Shaped(source, folders, order) && forall q :: q in folders ==> folders[q].children == []
      modifies this`folders
      ensures Shaped(source, folders, order)
      ensures forall q :: q in folders ==> folders[q].children == ChildrenIn(order, q)
    {
      var i := 0;
      while i < |order|
        invariant 0 <= i <= |order|
        invariant Shaped(source, folders, order)
        invariant forall q :: q in folders ==> folders[q].children == ChildrenIn(order[..i], q)
      {
        assert order[..i + 1][..i] == order[..i];
        var key := order[i];
        var info := folders[key];
        if info.parent.Some? && info.parent.value in folders {
          var parent := info.parent.value;
          ShapedUpdate(source, folders, order, parent, folders[parent].children + [key]);
          folders := folders[parent := folders[parent].(children := folders[parent].children + [key])];
        }
        i := i + 1;
      }
      assert order[..i] == order;
    }

    /** The sorting pass of `scan`: every children list is sorted by the
        lower-cased name of the child (a key's name is its last component,
        or "ROOT"). */
    method SortChildren()
      requires NoDup(order) && forall q :: q in folders <==> q in order
      requires forall q :: q in folders ==> folders[q].children == ChildrenIn(order, q)
      modifies this`folders
      ensures SameRecords(old(folders), folders)
      ensures forall q :: q in folders ==> folders[q].children == Children(order, q)
    {
      var fs := folders;
      ghost var f0 := folders;
      var i := 0;
      ghost var sorted: set<Path> := {};
      while i < |order|
        invariant 0 <= i <= |order|
        invariant SameRecords(f0, fs)
        invariant SortedPrefix(order, sorted, i)
        invariant SortedLists(fs, order, sorted)
      {
        var key := order[i];
        SortStep(f0, fs, order, sorted, i);
        fs := fs[key := fs[key].(children := SortBy(fs[key].children, NameKey))];
        sorted := sorted + {key};
        i := i + 1;
      }
      SortDone(f0, fs, order, sorted);
      folders := fs;
    }

    /** Every key of the insertion order is a key of the dictionary. */
    ghost predicate OrderKnown()
      reads this`folders, this`order
    {
      forall k :: k in order ==> k in folders
    }

    /** What the batch methods rely on, which every scanned dictionary
        satisfies (`ValidReady`). */
    ghost predicate Ready()
      reads this`folders, this`order
    {
      NoDup(order) && OrderKnown() && ChildrenKnown(folders)
    }

    lemma ValidReady()
      requires Valid()
      ensures Ready()
    {
      ValidOrderKnown();
      ValidChildrenKnown();
    }

    /** Every child key of a scanned dictionary is one of its keys. */
    lemma ValidChildrenKnown()
      requires Valid()
      ensures ChildrenKnown(folders)
    {
      forall k, c | k in folders && c in folders[k].children ensures c in folders {
        ChildrenExact(source, order, k);
      }
    }

    lemma ValidOrderKnown()
      requires Valid()
      ensures OrderKnown()
    {
      forall k | k in order ensures k in folders {
        assert k in Elems(order);
      }
    }

    /** Every key of a scanned dictionary is in its insertion order. */
    lemma ValidKeysInOrder()
      requires Valid()
      ensures forall k :: k in folders ==> k in order
    {
      forall k | k in folders ensures k in order {
        assert k in RetainedKeys(source);
        assert k in Elems(order);
      }
    }
  }

  // ---------------------------------------------------------------------
  // Facts the method proofs use

  /** The dashboard printed before each prompt divides by the number of
      folders and by the number of files and looks up the batch size, so it
      raises when either count is zero or the index is invalid. */
  predicate DashboardRaises(folderCount: nat, fileCount: nat, batchIdx: int) {
    folderCount == 0 || fileCount == 0 || BatchSize(batchIdx).None?
  }

  /** An input after which `run` asks for the next one, unless the
      dashboard raises: a line other than "q". */
  predicate Continues(x: Input) {
    x.Line? && Normalize(x.text) != "q"
  }

  predicate ContinuesAt(inputs: seq<Input>, j: int)
    requires 0 <= j < |inputs|
  {
    Continues(inputs[j])
  }

  /** Each of the first `n` inputs lets the loop go on. */
  predicate AllContinue(inputs: seq<Input>, n: int)
    requires n <= |inputs|
  {
    forall j :: 0 <= j < n ==> ContinuesAt(inputs, j)
  }

  /** The loop stopped with `e` at the input after the states of
      `trace`: every input before it let the loop go on, and that one
      ends it with `e`. */
  predicate StoppedAt(trace: seq<World>, inputs: seq<Input>, e: Ending) {
    && 2 <= |trace| <= |inputs| + 1
    && AllContinue(inputs, |trace| - 2)
    && StoppedBy(e, inputs[|trace| - 2])
  }

  /** An input that ends `run` by "q". */
  predicate Quits(x: Input) {
    x.Line? && Normalize(x.text) == "q"
  }

  /** `x` is the input that ends `run` with `e`: Ctrl-C for `Interrupted`,
      a "q" line for `Quitted`. */
  predicate StoppedBy(e: Ending, x: Input) {
    match e
    case Interrupted => x == Interrupt
    case Quitted => Quits(x)
    case _ => false
  }

  /** A step of a trace is a step of every trace it is a prefix of. */
  lemma StepAtPrefix(trace: seq<World>, trace': seq<World>, inputs: seq<Input>, j: int)
    requires 0 <= j < |trace| - 1 && j < |inputs| && |trace| <= |trace'| && trace'[..|trace|] == trace
    requires StepAt(trace, inputs, j)
    ensures StepAt(trace', inputs, j)
  {
    assert trace'[j] == trace[j] && trace'[j + 1] == trace[j + 1];
  }

  lemma TracedStep(trace: seq<World>, inputs: seq<Input>, w: World)
    requires Traced(trace, inputs) && |trace| <= |inputs|
    requires InputEffect(trace[|trace| - 1], inputs[|trace| - 1], w)
    ensures Traced(trace + [w], inputs)
  {
    var trace' := trace + [w];
    assert trace'[..|trace|] == trace;
    forall j | 0 <= j < |trace'| - 1 ensures StepAt(trace', inputs, j) {
      if j < |trace| - 1 {
        StepAtPrefix(trace, trace', inputs, j);
      } else {
        assert trace'[j] == trace[|trace| - 1] && trace'[j + 1] == w;
      }
    }
  }

  /** Each state of a trace is the effect of the matching input on the
      state before it. */
  lemma TracedAt(trace: seq<World>, inputs: seq<Input>, j: nat)
    requires Traced(trace, inputs) && j < |trace| - 1
    ensures InputEffect(trace[j], inputs[j], trace[j + 1])
  {
    assert StepAt(trace, inputs, j);
  }

  lemma ContinuesStep(inputs: seq<Input>, i: nat)
    requires i < |inputs| && Continues(inputs[i])
    requires AllContinue(inputs, i)
    ensures AllContinue(inputs, i + 1)
  {
    assert ContinuesAt(inputs, i);
  }

  /** `folders` is the dictionary a scan of `t` builds, `order` the order
      in which the scan inserted its keys. */
  ghost predicate Scanned(t: Tree, folders: map<Path, FolderInfo>, order: seq<Path>) {
    && ValidTree(t)
    && order == BfsOrder(t)
    && NoDup(order)
    && Elems(order) == RetainedKeys(t)
    && folders == Graph(t, order)
  }

  /** The popped folders and the queued ones are visited folders, and
      nothing popped is queued again. */
  ghost predicate Visited(t: Tree, popped: set<Path>, queue: seq<Path>) {
    && (forall q :: q in popped ==> Reached(t, q))
    && (forall i :: 0 <= i < |queue| ==> Reached(t, queue[i]) && queue[i] !in popped)
  }

  /** Every popped or queued folder other than the root has its parent
      popped. */
  ghost predicate ParentsPopped(popped: set<Path>, queue: seq<Path>) {
    && (forall q :: q in popped && q != [] ==> Parent(q) in popped)
    && (forall i :: 0 <= i < |queue| && queue[i] != [] ==> Parent(queue[i]) in popped)
  }

  /** The root is popped or queued, and so is every visited folder whose
      parent was popped. */
  ghost predicate Covered(t: Tree, popped: set<Path>, queue: seq<Path>) {
    && ([] in popped || [] in queue)
    && (forall q :: Reached(t, q) && q != [] && Parent(q) in popped ==> q in popped || q in queue)
  }

  /** The state of the breadth-first walk. */
  ghost predicate Frontier(t: Tree, popped: set<Path>, queue: seq<Path>) {
    Visited(t, popped, queue) && NoDup(queue) && ParentsPopped(popped, queue) && Covered(t, popped, queue)
  }

  /** The keys the walk of `scan` inserts, in the order it inserts them,
      once it has popped `popped` and holds `queue`: the front folder is
      popped, its admissible sub-directories are queued behind the rest,
      and it is inserted when it is the root or holds a qualifying file.
      A queued path that is not an unpopped folder, which the walk never
      holds (see `Frontier`), is passed over. */
  ghost function BfsFrom(t: Tree, popped: set<Path>, queue: seq<Path>): seq<Path>
    decreases t.Keys - popped, |queue|
  {
    if queue == [] then []
    else
      var folder := queue[0];
      if folder !in t || !t[folder].Dir? || folder in popped then BfsFrom(t, popped, queue[1..])
      else
        (if folder == [] || DirFiles(t, folder) != [] then [folder] else [])
          + BfsFrom(t, popped + {folder}, queue[1..] + Subdirs(t, folder, t[folder].entries))
  }

  /** The insertion order of a scan of `t`: the pop order of its queue,
      started from the input folder, restricted to the kept folders. */
  ghost function BfsOrder(t: Tree): seq<Path> {
    BfsFrom(t, {}, [[]])
  }

  /** The levels along `s` never decrease. */
  ghost predicate LevelsSorted(s: seq<Path>) {
    forall i, j :: 0 <= i < j < |s| ==> |s[i]| <= |s[j]|
  }

  /** No path of `s` is shallower than `level`. */
  ghost predicate LevelsFrom(s: seq<Path>, level: int) {
    forall i :: 0 <= i < |s| ==> level <= |s[i]|
  }

  /** The shape of a breadth-first queue: the levels never decrease and
      stay within one of the front's level. */
  ghost predicate Layered(queue: seq<Path>) {
    && LevelsSorted(queue)
    && (forall i :: 0 <= i < |queue| ==> |queue[i]| <= |queue[0]| + 1)
  }

  /** The sub-directories a popped folder enqueues are one level below it. */
  lemma {:induction false} SubdirsLevel(t: Tree, p: Path, names: seq<Name>)
    ensures forall i :: 0 <= i < |Subdirs(t, p, names)| ==> |Subdirs(t, p, names)[i]| == |p| + 1
  {
    if names != [] {
      SubdirsLevel(t, p, names[..|names| - 1]);
    }
  }

  /** Popping the front of a breadth-first queue and queueing folders one
      level below it leaves a breadth-first queue, whose front is no
      shallower than the old one. */
  lemma NextLayered(queue: seq<Path>, subs: seq<Path>)
    requires queue != [] && Layered(queue)
    requires forall i :: 0 <= i < |subs| ==> |subs[i]| == |queue[0]| + 1
    ensures Layered(queue[1..] + subs)
    ensures queue[1..] + subs != [] ==> |queue[0]| <= |(queue[1..] + subs)[0]|
  {
  }

  /** Putting at most one path of level `level` in front of paths no
      shallower keeps the levels sorted. */
  lemma PrependLevel(kept: seq<Path>, rest: seq<Path>, level: int)
    requires |kept| <= 1 && LevelsFrom(kept, level) && forall i :: 0 <= i < |kept| ==> |kept[i]| == level
    requires LevelsSorted(rest) && LevelsFrom(rest, level)
    ensures LevelsSorted(kept + rest) && LevelsFrom(kept + rest, level)
  {
  }

  /** Popping a breadth-first queue inserts folders level by level: none
      is shallower than the front, and none is shallower than one inserted
      before it. */
  lemma {:induction false} BfsFromLayered(t: Tree, popped: set<Path>, queue: seq<Path>)
    requires Layered(queue)
    ensures LevelsSorted(BfsFrom(t, popped, queue))
    ensures queue != [] ==> LevelsFrom(BfsFrom(t, popped, queue), |queue[0]|)
    decreases t.Keys - popped, |queue|
  {
    if queue != [] {
      var folder := queue[0];
      if folder !in t || !t[folder].Dir? || folder in popped {
        BfsFromLayered(t, popped, queue[1..]);
        if queue[1..] != [] {
          assert |queue[1..][0]| >= |folder|;
        }
      } else {
        var next := queue[1..] + Subdirs(t, folder, t[folder].entries);
        var kept := if folder == [] || DirFiles(t, folder) != [] then [folder] else [];
        SubdirsLevel(t, folder, t[folder].entries);
        NextLayered(queue, Subdirs(t, folder, t[folder].entries));
        BfsFromLayered(t, popped + {folder}, next);
        PrependLevel(kept, BfsFrom(t, popped + {folder}, next), |folder|);
      }
    }
  }

  /** The scan inserts its keys level by level, the input folder first. */
  lemma ScanOrderLayered(t: Tree)
    requires ValidTree(t)
    ensures BfsOrder(t) != [] && BfsOrder(t)[0] == []
    ensures forall i, j :: 0 <= i < j < |BfsOrder(t)| ==> |BfsOrder(t)[i]| <= |BfsOrder(t)[j]|
  {
    BfsFromLayered(t, {}, [[]]);
  }

  /** `order` is what the walk has inserted so far, and popping the rest of
      the queue would insert the rest of the scan's insertion order. */
  ghost predicate InsertedSoFar(t: Tree, popped: set<Path>, queue: seq<Path>, order: seq<Path>, all: seq<Path>) {
    order + BfsFrom(t, popped, queue) == all
  }

  /** One round of the walk's loop keeps its state, the dictionary and the
      insertion order on track. */
  lemma WalkStep(t: Tree, popped: set<Path>, queue: seq<Path>, next: seq<Path>,
                 folders: map<Path, FolderInfo>, order: seq<Path>, all: seq<Path>)
    requires ValidTree(t) && queue != [] && Frontier(t, popped, queue)
    requires KeptSoFar(t, popped, folders, order) && InsertedSoFar(t, popped, queue, order, all)
    requires queue[0] in t && t[queue[0]].Dir?
    requires next == queue[1..] + Subdirs(t, queue[0], t[queue[0]].entries)
    ensures popped + {queue[0]} <= t.Keys && queue[0] !in popped
    ensures Frontier(t, popped + {queue[0]}, next)
    ensures DirFiles(t, queue[0]) != [] || |queue[0]| == 0 ==>
              && KeptSoFar(t, popped + {queue[0]}, folders[queue[0] := Unlinked(t, queue[0])], order + [queue[0]])
              && InsertedSoFar(t, popped + {queue[0]}, next, order + [queue[0]], all)
    ensures !(DirFiles(t, queue[0]) != [] || |queue[0]| == 0) ==>
              && KeptSoFar(t, popped + {queue[0]}, folders, order)
              && InsertedSoFar(t, popped + {queue[0]}, next, order, all)
  {
    BfsStep(t, popped, queue, next);
    PopStep(t, popped, queue, next, order, all);
    KeptStep(t, popped, folders, order, queue[0]);
    assert order + [] == order;
  }

  /** One pop of an unpopped folder keeps the walk's insertion order on
      track. */
  lemma PopStep(t: Tree, popped: set<Path>, queue0: seq<Path>, queue: seq<Path>, order: seq<Path>, all: seq<Path>)
    requires queue0 != [] && queue0[0] in t && t[queue0[0]].Dir? && queue0[0] !in popped
    requires InsertedSoFar(t, popped, queue0, order, all)
    requires queue == queue0[1..] + Subdirs(t, queue0[0], t[queue0[0]].entries)
    ensures InsertedSoFar(t, popped + {queue0[0]}, queue,
              order + (if queue0[0] == [] || DirFiles(t, queue0[0]) != [] then [queue0[0]] else []), all)
  {
    var folder := queue0[0];
    var kept := if folder == [] || DirFiles(t, folder) != [] then [folder] else [];
    assert BfsFrom(t, popped, queue0) == kept + BfsFrom(t, popped + {folder}, queue);
    Regroup(order, kept, BfsFrom(t, popped + {folder}, queue));
  }

  lemma Regroup<T>(a: seq<T>, b: seq<T>, c: seq<T>)
    ensures a + (b + c) == (a + b) + c
  {
  }


  /** A folder's record as the walk creates it, before any child is linked. */
  function Unlinked(t: Tree, p: Path): FolderInfo
    requires p in t && t[p].Dir?
  {
    FolderInfo(FolderName(p), |p|, DirFiles(t, p), [], ParentKey(p))
  }

  /** The dictionary after the walk has popped `popped`: the kept ones, in
      the order they were popped, each with its files and no children yet. */
  ghost predicate KeptSoFar(t: Tree, popped: set<Path>, folders: map<Path, FolderInfo>, order: seq<Path>) {
    && NoDup(order)
    && (forall q :: q in order <==> q in popped && Retained(t, q))
    && (forall q :: q in folders <==> q in order)
    && (forall q :: q in folders ==> q in t && t[q].Dir? && folders[q] == Unlinked(t, q))
  }

  /** The keys of the dictionary are those of `order`, and every record but
      its children list is the one the walk created. */
  ghost predicate Shaped(t: Tree, folders: map<Path, FolderInfo>, order: seq<Path>) {
    && (forall q :: q in folders <==> q in order)
    && (forall q :: q in folders ==> q in t && t[q].Dir? && folders[q].(children := []) == Unlinked(t, q))
  }

  /** Two dictionaries with the same keys whose records differ at most in
      their children lists. */
  ghost predicate SameRecords(f0: map<Path, FolderInfo>, f: map<Path, FolderInfo>) {
    f.Keys == f0.Keys && forall q :: q in f ==> f[q].(children := []) == f0[q].(children := [])
  }

  lemma SameRecordsShaped(t: Tree, f0: map<Path, FolderInfo>, f: map<Path, FolderInfo>, order: seq<Path>)
    requires Shaped(t, f0, order) && SameRecords(f0, f)
    ensures Shaped(t, f, order)
  {
  }

  /** The keys the sorting pass has handled are the first `i` of `order`. */
  ghost predicate SortedPrefix(order: seq<Path>, sorted: set<Path>, i: int) {
    forall j :: 0 <= j < |order| ==> (order[j] in sorted <==> j < i)
  }

  /** The handled keys have sorted children lists, the others still the
      lists in insertion order. */
  ghost predicate SortedLists(folders: map<Path, FolderInfo>, order: seq<Path>, sorted: set<Path>) {
    forall q :: q in folders ==>
      folders[q].children == if q in sorted then Children(order, q) else ChildrenIn(order, q)
  }

  /** One step of the sorting pass. */
  lemma SortStep(f0: map<Path, FolderInfo>, folders: map<Path, FolderInfo>, order: seq<Path>, sorted: set<Path>, i: int)
    requires NoDup(order) && 0 <= i < |order| && (forall q :: q in f0 <==> q in order)
    requires SameRecords(f0, folders) && SortedPrefix(order, sorted, i) && SortedLists(folders, order, sorted)
    ensures var key := order[i];
            var folders' := folders[key := folders[key].(children := SortBy(folders[key].children, NameKey))];
            && key in folders
            && SameRecords(f0, folders')
            && SortedPrefix(order, sorted + {key}, i + 1)
            && SortedLists(folders', order, sorted + {key})
  {
    var key := order[i];
    assert key in f0;
    forall j | 0 <= j < |order| ensures order[j] in sorted + {key} <==> j < i + 1 {
      if j != i {
        assert order[j] != key;
      }
    }
  }

  /** When every key is handled, every children list is sorted. */
  lemma SortDone(f0: map<Path, FolderInfo>, folders: map<Path, FolderInfo>, order: seq<Path>, sorted: set<Path>)
    requires (forall q :: q in f0 <==> q in order) && SameRecords(f0, folders)
    requires SortedPrefix(order, sorted, |order|) && SortedLists(folders, order, sorted)
    ensures forall q :: q in folders ==> folders[q].children == Children(order, q)
  {
    forall q | q in folders ensures folders[q].children == Children(order, q) {
      var j :| 0 <= j < |order| && order[j] == q;
    }
  }

  /** Replacing a children list keeps the shape. */
  lemma ShapedUpdate(t: Tree, folders: map<Path, FolderInfo>, order: seq<Path>, key: Path, c: seq<Path>)
    requires Shaped(t, folders, order) && key in folders
    ensures Shaped(t, folders[key := folders[key].(children := c)], order)
  {
    var folders' := folders[key := folders[key].(children := c)];
    assert folders'[key].(children := []) == folders[key].(children := []);
  }

  /** Popping the head of the queue and enqueueing its sub-directories
      keeps the walk's invariant. */
  lemma BfsStep(t: Tree, popped: set<Path>, queue0: seq<Path>, queue: seq<Path>)
    requires ValidTree(t) && Frontier(t, popped, queue0) && queue0 != []
    requires queue0[0] in t && t[queue0[0]].Dir?
    requires queue == queue0[1..] + Subdirs(t, queue0[0], t[queue0[0]].entries)
    ensures Frontier(t, popped + {queue0[0]}, queue)
    ensures popped + {queue0[0]} <= t.Keys && queue0[0] !in popped
  {
    SubdirsFacts(t, popped, queue0);
    VisitedStep(t, popped, queue0, queue);
    UniqueStep(t, popped, queue0, queue);
    ParentsStep(t, popped, queue0, queue);
    CoveredStep(t, popped, queue0, queue);
    forall q | q in popped + {queue0[0]} ensures q in t {
      ReachedIsDir(t, q);
    }
  }

  /** The sub-directories a popped folder enqueues: visited, not popped,
      and children of that folder. */
  lemma SubdirsFacts(t: Tree, popped: set<Path>, queue0: seq<Path>)
    requires ValidTree(t) && Visited(t, popped, queue0) && ParentsPopped(popped, queue0) && queue0 != []
    requires queue0[0] in t && t[queue0[0]].Dir?
    ensures var p := queue0[0];
            forall c :: c in Subdirs(t, p, t[p].entries) ==>
              Reached(t, c) && c !in popped + {p} && c != [] && Parent(c) == p
  {
    var p := queue0[0];
    forall c | c in Subdirs(t, p, t[p].entries)
      ensures Reached(t, c) && c !in popped + {p} && c != [] && Parent(c) == p
    {
      SubdirsMember(t, p, t[p].entries, c);
      assert c == Parent(c) + [Last(c)];
    }
  }

  lemma VisitedStep(t: Tree, popped: set<Path>, queue0: seq<Path>, queue: seq<Path>)
    requires ValidTree(t) && Visited(t, popped, queue0) && NoDup(queue0) && queue0 != []
    requires queue0[0] in t && t[queue0[0]].Dir?
    requires queue == queue0[1..] + Subdirs(t, queue0[0], t[queue0[0]].entries)
    requires forall c :: c in Subdirs(t, queue0[0], t[queue0[0]].entries) ==>
               Reached(t, c) && c !in popped + {queue0[0]}
    ensures Visited(t, popped + {queue0[0]}, queue)
  {
    var rest := queue0[1..];
    forall i | 0 <= i < |queue| ensures Reached(t, queue[i]) && queue[i] !in popped + {queue0[0]} {
      if i < |rest| {
        assert queue[i] == queue0[i + 1];
      } else {
        assert queue[i] in Subdirs(t, queue0[0], t[queue0[0]].entries);
      }
    }
  }

  lemma UniqueStep(t: Tree, popped: set<Path>, queue0: seq<Path>, queue: seq<Path>)
    requires ValidTree(t) && NoDup(queue0) && ParentsPopped(popped, queue0) && queue0 != []
    requires queue0[0] in t && t[queue0[0]].Dir? && queue0[0] !in popped
    requires queue == queue0[1..] + Subdirs(t, queue0[0], t[queue0[0]].entries)
    requires forall c :: c in Subdirs(t, queue0[0], t[queue0[0]].entries) ==>
               c != [] && Parent(c) == queue0[0]
    ensures NoDup(queue)
  {
    var p := queue0[0];
    var rest := queue0[1..];
    var subs := Subdirs(t, p, t[p].entries);
    SubdirsNoDup(t, p, t[p].entries);
    forall i, j | 0 <= i < j < |queue| ensures queue[i] != queue[j] {
      if j < |rest| {
        assert queue[i] == queue0[i + 1] && queue[j] == queue0[j + 1];
      } else if i < |rest| {
        assert queue[i] == queue0[i + 1];
        assert queue[j] in subs;
      } else {
        assert queue[i] == subs[i - |rest|] && queue[j] == subs[j - |rest|];
      }
    }
  }

  lemma ParentsStep(t: Tree, popped: set<Path>, queue0: seq<Path>, queue: seq<Path>)
    requires ParentsPopped(popped, queue0) && queue0 != []
    requires queue0[0] in t && t[queue0[0]].Dir?
    requires queue == queue0[1..] + Subdirs(t, queue0[0], t[queue0[0]].entries)
    requires forall c :: c in Subdirs(t, queue0[0], t[queue0[0]].entries) ==>
               c != [] && Parent(c) == queue0[0]
    ensures ParentsPopped(popped + {queue0[0]}, queue)
  {
    var rest := queue0[1..];
    forall i | 0 <= i < |queue| && queue[i] != [] ensures Parent(queue[i]) in popped + {queue0[0]} {
      if i < |rest| {
        assert queue[i] == queue0[i + 1];
      } else {
        assert queue[i] in Subdirs(t, queue0[0], t[queue0[0]].entries);
      }
    }
  }

  lemma CoveredStep(t: Tree, popped: set<Path>, queue0: seq<Path>, queue: seq<Path>)
    requires Covered(t, popped, queue0) && queue0 != []
    requires queue0[0] in t && t[queue0[0]].Dir?
    requires queue == queue0[1..] + Subdirs(t, queue0[0], t[queue0[0]].entries)
    ensures Covered(t, popped + {queue0[0]}, queue)
  {
    var p := queue0[0];
    var popped' := popped + {p};
    forall q | Reached(t, q) && q != [] && Parent(q) in popped' ensures q in popped' || q in queue {
      if Parent(q) == p {
        SubdirsMember(t, p, t[p].entries, q);
        assert q in Subdirs(t, p, t[p].entries);
      } else if q != p && q !in popped {
        var i :| 0 <= i < |queue0| && queue0[i] == q;
        assert q == queue[i - 1];
      }
    }
    if [] !in popped' {
      var i :| 0 <= i < |queue0| && queue0[i] == [];
      assert [] == queue[i - 1];
    }
  }

  /** Popping a folder adds it to the dictionary exactly when it is kept. */
  lemma KeptStep(t: Tree, popped: set<Path>, folders: map<Path, FolderInfo>, order: seq<Path>, p: Path)
    requires KeptSoFar(t, popped, folders, order) && Reached(t, p) && p !in popped
    requires p in t && t[p].Dir?
    ensures p == [] || DirFiles(t, p) != [] ==>
              KeptSoFar(t, popped + {p}, folders[p := Unlinked(t, p)], order + [p])
    ensures !(p == [] || DirFiles(t, p) != []) ==> KeptSoFar(t, popped + {p}, folders, order)
  {
    if p == [] || DirFiles(t, p) != [] {
      KeptAdd(t, popped, folders, order, p);
    } else {
      assert !Retained(t, p);
    }
  }

  lemma KeptAdd(t: Tree, popped: set<Path>, folders: map<Path, FolderInfo>, order: seq<Path>, p: Path)
    requires KeptSoFar(t, popped, folders, order) && Reached(t, p) && p !in popped
    requires p in t && t[p].Dir? && (p == [] || DirFiles(t, p) != [])
    ensures KeptSoFar(t, popped + {p}, folders[p := Unlinked(t, p)], order + [p])
  {
    assert p !in order;
    NoDupSnoc(order, p);
    KeptOrderAdd(t, popped, order, p);
    KeptFoldersAdd(t, folders, order, p);
  }

  lemma KeptOrderAdd(t: Tree, popped: set<Path>, order: seq<Path>, p: Path)
    requires forall q :: q in order <==> q in popped && Retained(t, q)
    requires Retained(t, p)
    ensures forall q :: q in order + [p] <==> q in popped + {p} && Retained(t, q)
  {
    forall q ensures q in order + [p] <==> q in popped + {p} && Retained(t, q) {
      assert q in order + [p] <==> q in order || q == p;
    }
  }

  lemma KeptFoldersAdd(t: Tree, folders: map<Path, FolderInfo>, order: seq<Path>, p: Path)
    requires forall q :: q in folders <==> q in order
    requires forall q :: q in folders ==> q in t && t[q].Dir? && folders[q] == Unlinked(t, q)
    requires p in t && t[p].Dir?
    ensures forall q :: q in folders[p := Unlinked(t, p)] <==> q in order + [p]
    ensures forall q :: q in folders[p := Unlinked(t, p)] ==>
              q in t && t[q].Dir? && folders[p := Unlinked(t, p)][q] == Unlinked(t, q)
  {
    forall q ensures q in folders[p := Unlinked(t, p)] <==> q in order + [p] {
      assert q in order + [p] <==> q in order || q == p;
    }
  }

  /** When the queue is empty every visited folder was popped, so the
      dictionary holds exactly the kept folders. */
  lemma BfsComplete(t: Tree, popped: set<Path>, folders: map<Path, FolderInfo>, order: seq<Path>)
    requires ValidTree(t) && Frontier(t, popped, []) && KeptSoFar(t, popped, folders, order)
    ensures Elems(order) == RetainedKeys(t) && NoDup(order)
    ensures Shaped(t, folders, order) && forall q :: q in folders ==> folders[q].children == []
  {
    forall q | Reached(t, q) ensures q in popped {
      ReachedPopped(t, popped, q);
    }
    forall q ensures q in order <==> q in RetainedKeys(t) {
    }
  }

  lemma {:induction false} ReachedPopped(t: Tree, popped: set<Path>, q: Path)
    requires Frontier(t, popped, []) && Reached(t, q)
    ensures q in popped
    decreases |q|
  {
    if q != [] {
      ReachedParent(t, q);
      ReachedPopped(t, popped, Parent(q));
    }
  }

  /** The dictionary with sorted children lists is the folder graph. */
  lemma GraphOfScan(t: Tree, folders: map<Path, FolderInfo>, order: seq<Path>)
    requires Elems(order) == RetainedKeys(t) && Shaped(t, folders, order)
    requires forall q :: q in folders ==> folders[q].children == Children(order, q)
    ensures folders == Graph(t, order)
  {
    forall q ensures q in folders <==> q in t && Retained(t, q) {
      assert q in order <==> q in Elems(order);
    }
    forall q | q in folders ensures folders[q] == Node(t, order, q) {
      assert folders[q] == folders[q].(children := []).(children := Children(order, q));
    }
  }

  lemma SortedLevelOneKnown(folders: map<Path, FolderInfo>, order: seq<Path>)
    ensures forall k :: k in SortBy(LevelOne(folders, order), NameOf(folders)) ==> k in folders
  {
    var l := LevelOne(folders, order);
    LevelOneInFolders(folders, order);
    SortByPerm(l, NameOf(folders));
    forall k | k in SortBy(l, NameOf(folders)) ensures k in folders {
      assert k in multiset(SortBy(l, NameOf(folders)));
    }
  }

  lemma {:induction false} LevelOneInFolders(folders: map<Path, FolderInfo>, order: seq<Path>)
    ensures forall k :: k in LevelOne(folders, order) ==> k in folders
  {
    if order != [] {
      LevelOneInFolders(folders, order[..|order| - 1]);
    }
  }
}
