# GraphVault in Dafny

GraphVault (`GraphVault.py`, class `GraphVaultPro`) turns a folder tree, the
*input folder*, into an Obsidian vault, the *output folder*
`graph-vault-archivos`. It works in resumable batches:

- A breadth-first **scan** builds the *folder dictionary*. It keeps the root
  and every visited folder that holds an allow-listed file. Each record
  stores the folder's classified files, its level, its parent key and its
  children.
- A **batch** takes the first pending folders, sorted by level and then by
  lower-cased name. For each folder it materialises the files and marks them
  processed:
  - a file of up to 2 MiB is copied next to its folder's document;
  - a larger file gets a proxy stub in `!_adjuntos`.
- After its files, each folder's **Map of Content** is written. It has a
  title, a level summary, a parent link, a sub-folder list, one section per
  category, a "pure navigation" note and a footer.
- After the batch, a checkpoint is saved and the **root index**
  `Índice Principal.md` is rewritten.
- A **deletion pass** walks the output folder. It removes every folder whose
  path is not a key, every note that looks like a folder document when its
  folder is not a key, every other note that is not a file path, and every
  stub no proxied file claims. The root and the attachments folder are never
  removed.
- A console **loop** reads commands: Enter runs a batch, a digit picks the
  batch size, `r` rescans, `s` runs the deletion pass, `q` saves and quits,
  and Ctrl-C saves and stops.

The model represents both folders as maps from relative paths, which are
sequences of names. Input entries are directories with an ordered list of
entry names, or files with a size. Output entries are directories or files
holding an abstract artifact: a copy, a stub, a document as a list of
structured lines, the index, or anything else.

The pure modules define what every operation computes:

- `Base`: paths, and Python's `suffix`, `stem`, `lower` and string order.
- `Sorting`: stable sort by key.
- `Classifier`: `analyze_file` and its extension lists.
- `Scanning`: the dictionary a scan builds.
- `Output`: `get_obsidian_link` and `mkdir`.
- `MapOfContent`: `create_moc_for_folder`.
- `Schedule`: the pending list, `process_folder_files`, `process_batch` and
  `create_root_index`.
- `Reconcile`: `sync_deletions`.
- `Checkpoint`: saving and loading.
- `Commands`: parsing of console lines.

Module `Vault` holds the class `GraphVault`. Its fields are those of
`GraphVaultPro`, plus the input folder, the output folder and the checkpoint
file, which the object reads or changes in place. Its methods keep the
source's loops and prove that the new state is exactly the one the pure
modules define. Around those definitions, the lemmas prove:

- the pending list is exact, sorted, and advances batch by batch;
- checkpoints round-trip;
- every file is materialised, and the counters move as described;
- documents list exactly the processed files, in category order and then
  name order;
- the deletion pass keeps only what its tests let through, keeps what they
  accept, and is idempotent; a corrected pass keeps every expected entry
  (see Findings);
- the parser selects each command exactly by its input.

Two behaviours of the code are easy to miss:

- **Link counter.** `linked` rises on every call for a proxied file (line
  267), including each time a document is regenerated. So a re-run raises
  it again. `Output.LinkAllIdempotent` and `MapOfContent.WriteMocIdempotent`
  state this.
- **Root folder.** The root is always a key of the dictionary (line 114),
  even when it holds no file, so it counts as a folder on the dashboard and
  in the index.

## Model

| member | source | states |
|---|---|---|
| Base.StemThenSuffix | GraphVault.py:143-155 | `stem + suffix` gives back the name; a suffix is empty or a dot followed by at least one dot-free character |
| Base.MdName | GraphVault.py:264 | a stub named `stem + ".md"` has suffix `.md` and gives back `stem` as its stem |
| Base.LowerIdempotent | GraphVault.py:135 | lower-casing a lower-cased name changes nothing |
| Base.LowerNoUpper | GraphVault.py:135 | a lower-cased name holds no capital letter |
| Base.LowerCaseless | GraphVault.py:135 | two names lower-case alike exactly when they agree up to the case of each letter, so the sort key ties exactly those |
| Base.StrLeTotal | GraphVault.py:135 | Python's string order compares any two names |
| Base.StrLeTrans | GraphVault.py:135 | Python's string order is transitive |
| Base.StrLeAntisym | GraphVault.py:135 | two names each ordered before the other are equal |
| Sorting.SortByIsSortedPermutation | GraphVault.py:243 | `sorted(..., key=...)` returns a permutation of its input, ordered by the key |
| Sorting.SortByStable | GraphVault.py:135 | `sorted` is stable: the elements sharing one key keep their input order |
| Sorting.InsertSorted | GraphVault.py:135 | inserting after the last element with a key no greater keeps a sorted list sorted |
| Classifier.AnalyzeFile | GraphVault.py:140-159 | the record keeps the path, the name and the size, and its stem followed by its suffix is the name |
| Classifier.ClassifyMatchesCategorySets | GraphVault.py:144-152 | on the allow-list, the if-chain gives category `c` exactly for the extensions listed for `c`, so the order of its tests does not matter |
| Classifier.CategorySetsCoverAllowList | GraphVault.py:32-37 | an extension is allow-listed exactly when some category lists it |
| Classifier.TopLevelSetsDisjoint | GraphVault.py:32-35 | the four allow-lists are pairwise disjoint |
| Classifier.MediaSplit | GraphVault.py:147-150 | the media list is exactly images, videos and audio, which are pairwise disjoint |
| Classifier.OtherSplit | GraphVault.py:151-152 | the other list is exactly data, archives and `.xls`/`.xlsx`, pairwise disjoint |
| Classifier.CategoryOrderComplete | GraphVault.py:240 | the listing order names every category exactly once |
| Classifier.CopyPolicyThreshold | GraphVault.py:154-157 | a file is copied exactly when it has at most 2097152 bytes: 2 MiB copies, one byte more is proxied |
| Scanning.SubdirsMember | GraphVault.py:102-104 | a folder enqueues exactly its sub-directories whose name is neither ignored nor dotted |
| Scanning.SubdirsNoDup | GraphVault.py:102-104 | no sub-directory is enqueued twice from one folder |
| Scanning.ReachedAvoidsIgnored | GraphVault.py:103 | no component of a visited folder's path is an ignored or dotted name |
| Scanning.ReachedParent | GraphVault.py:94-104 | a visited folder's parent was visited |
| Scanning.FilesAmongMember | GraphVault.py:106-111 | a folder's records are exactly the analysed files among its entries with an allow-listed, case-insensitive suffix and no leading dot |
| Scanning.RetainedIff | GraphVault.py:114 | a visited folder is a key exactly when it is the root or holds a qualifying file |
| Scanning.FilesAmongShape | GraphVault.py:106-111 | each record lies directly in its folder, under a path no other record has |
| Scanning.ChildrenInMember | GraphVault.py:129-132 | the linking pass registers exactly the keys whose parent key is the folder |
| Scanning.ChildrenExact | GraphVault.py:129-135 | a key's children are exactly the keys naming it as parent, without repeats, sorted by lower-cased name |
| Scanning.RootHasNoChildren | GraphVault.py:123-132 | the root's children list is always empty: first-level folders have no parent key |
| Scanning.OrphanExample | GraphVault.py:114-132 | a kept folder whose parent was dropped for having no files has a parent key that names no folder |
| Checkpoint.Load | GraphVault.py:339-351 | a missing or corrupt file changes nothing; a decoded one sets every field, a missing key falling back to its default |
| Checkpoint.LoadSaveRoundTrip | GraphVault.py:328-348 | loading a saved checkpoint restores exactly the saved progress, whatever the current progress |
| Checkpoint.LoadEmptyRecord | GraphVault.py:345-348 | a record without any key restores the initial progress |
| Checkpoint.LoadPerKey | GraphVault.py:345-348 | each key is restored on its own: a present key as saved, a missing one as its default |
| Commands.SetBatchIff | GraphVault.py:379-383 | a batch size is selected exactly by a single digit 1-9, which selects index `d - 1`; longer digit strings pass the substring test but select nothing, and index 9 is never selectable |
| Commands.LetterCommands | GraphVault.py:376-392 | the empty line, `r`, `s` and `q` each select their command exactly, ignoring surrounding blanks and case |
| Commands.OccursInDigits | GraphVault.py:379 | a string that passes the substring test against the digits is made of digits 1-9 |
| Commands.DecimalValueBounds | GraphVault.py:380-381 | a digit string of length two or more is worth at least 11, so its index is out of range |
| Commands.TrimStartSpaceFree | GraphVault.py:376 | stripping keeps a suffix of the line that starts with a non-blank, and every character it drops is a blank |
| Commands.TrimEndSpaceFree | GraphVault.py:376 | stripping keeps a prefix of the line that ends with a non-blank, and every character it drops is a blank |
| Commands.StripsAllBlanks | GraphVault.py:376-392 | a `q` between a file separator (U+001C) and an ideographic space (U+3000) still quits, since `strip()` removes both |
| Commands.NormalizeIdempotent | GraphVault.py:376 | normalising a command twice changes nothing |
| Output.Link | GraphVault.py:255-268 | materialising a file adds exactly its artifact path, changes no existing entry, and leaves the processed sets and the batch counter alone |
| Output.LinkCounters | GraphVault.py:259-267 | a copy is counted only when its destination was absent; every call for a proxied file counts one link; the artifact is written only when absent |
| Output.LinkTextRoundTrip | GraphVault.py:262-268 | the link reads back as an embed of the name for copied media, a plain link to the name for other copies, and a link to the stub for proxies |
| Output.LinkAllAppend | GraphVault.py:243-246 | linking two lists in turn is linking their concatenation |
| Output.LinkAllFrame | GraphVault.py:243-246 | linking a list keeps every existing entry and materialises every listed file |
| Output.LinkAllCounters | GraphVault.py:259-267 | linking a list counts exactly one link per proxied file and at most one copy per copied file |
| Output.LinkAllAgain | GraphVault.py:259-267 | re-linking materialised files changes no file and only counts the proxies again |
| Output.LinkAllIdempotent | GraphVault.py:255-268 | a second pass leaves the output folder and the copy counter unchanged, and raises `linked` by the number of proxies |
| Output.WithDirs | GraphVault.py:218-219 | `mkdir(parents=True, exist_ok=True)` keeps every entry, creates every prefix of the path and adds nothing else |
| Output.WithDirsTwice | GraphVault.py:219 | making the same folders twice is making them once |
| MapOfContent.GroupedStep | GraphVault.py:235-237 | appending a processed file to its category's group keeps `by_cat` equal to the per-category processed files |
| MapOfContent.GroupedProcessed | GraphVault.py:234-237 | grouping the processed files of a folder gives that folder's per-category processed files |
| MapOfContent.CatFilesMultiset | GraphVault.py:235-237 | a category's group holds processed files of that category from the folder |
| MapOfContent.CatFilesOfProcessed | GraphVault.py:234-237 | filtering twice for processed files is filtering once |
| MapOfContent.SectionsSnoc | GraphVault.py:240-247 | one more category appends its section to the lines and to the linked files |
| MapOfContent.SectionEmpty | GraphVault.py:241 | a category has a section exactly when it has a processed file |
| MapOfContent.ProcessedInAll | GraphVault.py:234-240 | the listed categories together hold every processed file |
| MapOfContent.SectionFilesMultiset | GraphVault.py:240-247 | the sections of distinct categories list exactly the processed files of those categories |
| MapOfContent.MocListsProcessedFiles | GraphVault.py:234-247 | a document lists exactly the folder's processed files, each as often as the folder holds it |
| MapOfContent.ProcessedMember | GraphVault.py:234 | a file is listed as processed exactly when it belongs to the folder and its path is processed |
| MapOfContent.SectionOrdered | GraphVault.py:243 | a section holds only its own category, sorted by lower-cased name |
| MapOfContent.SectionFilesOrdered | GraphVault.py:240-243 | the first `n` sections are ordered by category position and then by name, and hold only categories before `n` |
| MapOfContent.MocFilesOrdered | GraphVault.py:240-245 | a document's file lines come by category in the fixed order, then by lower-cased name |
| MapOfContent.FileLinesShape | GraphVault.py:243-245 | one file line per file, carrying its link and its size |
| MapOfContent.ChildLinesShape | GraphVault.py:229-231 | one link line per child, carrying the child's name |
| MapOfContent.SectionsForShape | GraphVault.py:240-247 | sections hold only headings, file lines and blanks, and are empty exactly when they list no file |
| MapOfContent.SectionLinesShape | GraphVault.py:241-247 | one section holds only section lines, and none at all when its category lists no file |
| MapOfContent.ChildrenLinesShape | GraphVault.py:228-232 | the sub-folder block holds its heading, links and a blank; the heading appears exactly when there are children |
| MapOfContent.NothingListedIff | GraphVault.py:234-246 | a document lists no file exactly when none of the folder's files is processed |
| MapOfContent.MocFrame | GraphVault.py:222-252 | a document opens with its title and level summary and closes with the footer |
| MapOfContent.MocParentLink | GraphVault.py:224-226 | a document links its parent exactly when the parent key names a folder |
| MapOfContent.ParentLinkShown | GraphVault.py:224-226 | with a known parent, the third line is the parent link |
| MapOfContent.ParentLinkAbsent | GraphVault.py:224-226 | without a known parent, no line is a parent link |
| MapOfContent.MocPureNavigation | GraphVault.py:249-250 | the navigation note appears exactly when the folder has children and no processed file |
| MapOfContent.MocSubfolders | GraphVault.py:228-232 | the sub-folder list appears exactly when the folder has children |
| MapOfContent.HeadOfShape | GraphVault.py:222-232 | the head holds no navigation note, and holds the sub-folder heading exactly when there are children |
| MapOfContent.WithDirsPresent | GraphVault.py:219 | making folders that exist changes nothing |
| MapOfContent.WriteMocIdempotent | GraphVault.py:214-253 | regenerating a document leaves the output folder and the copy counter unchanged, and re-counts the proxies as links |
| Schedule.PendingExact | GraphVault.py:161-164 | the pending list holds each unprocessed key exactly once, sorted by level and then lower-cased name |
| Schedule.PendingAfterMarking | GraphVault.py:161-164 | marking the first `n` pending folders leaves exactly the rest, in the same order |
| Schedule.DoneCountAll | GraphVault.py:183 | the completeness count equals the number of files exactly when every file is processed |
| Schedule.FileCountZero | GraphVault.py:356 | the summed file count is zero exactly when no listed folder has a file |
| Schedule.MarkFilesSets | GraphVault.py:173-177 | the file loop adds exactly the folder's file paths to the processed set and leaves the folder set and batch counter alone |
| Schedule.MarkFilesLinked | GraphVault.py:173-177 | the file loop counts one link per newly processed proxied file |
| Schedule.MarkFilesFrame | GraphVault.py:173-177 | the file loop keeps every existing output entry |
| Schedule.MarkFilesArtifacts | GraphVault.py:173-177 | every file that was not yet processed is materialised |
| Schedule.ProcessFolderCompletes | GraphVault.py:167-186 | processing a folder marks it and all its files processed, without counting a batch |
| Schedule.ProcessFolderLinks | GraphVault.py:172-180 | processing a folder counts one link per newly processed proxied file, plus one per proxied file its document lists |
| Schedule.ProcessFolderMaterialises | GraphVault.py:167-186 | afterwards the output folder, the document and every newly processed file's artifact exist |
| Schedule.RunBatchSets | GraphVault.py:202-204 | a batch marks exactly its folders and all their files processed |
| Schedule.BatchIsPendingPrefix | GraphVault.py:189-198 | a batch is the first `min(size, pending)` pending folders, for a valid index |
| Schedule.BatchTakesFirstPending | GraphVault.py:189-198 | a batch holds only unprocessed keys, and no pending key left out sorts before one taken |
| Schedule.BatchSizesPositive | GraphVault.py:27 | every selectable batch size is at least 100 |
| Schedule.WriteIndexRefines | GraphVault.py:305-326 | the guarded index equals the written one whenever that one does not crash, is always written, and reports the total file count |
| Schedule.IndexCrashesOnEmptyInput | GraphVault.py:315-323 | for an input folder without qualifying files, the root index as written raises `ZeroDivisionError` |
| Schedule.BatchProgress | GraphVault.py:188-212 | a batch marks its folders and their files processed and counts one batch |
| Schedule.BatchAdvances | GraphVault.py:188-212 | the next pending list is this one without the batch, in the same order |
| Schedule.BatchIdle | GraphVault.py:189-197 | with nothing pending or an invalid index, nothing is processed; only the invalid index raises |
| Reconcile.FirstPhaseGone | GraphVault.py:280-287 | visiting an entry already removed with its folder changes nothing |
| Reconcile.FirstPhaseDir | GraphVault.py:281-285 | visiting a doomed folder removes it and everything below it |
| Reconcile.FirstPhaseNote | GraphVault.py:288-294 | visiting a doomed note removes just that note |
| Reconcile.FirstPhaseKeep | GraphVault.py:280-296 | visiting any other entry changes nothing |
| Reconcile.StubPhaseStep | GraphVault.py:298-301 | visiting a stub removes it exactly when no proxied file's stem claims it |
| Reconcile.PhasesCompose | GraphVault.py:275-301 | the walk followed by the stub pass gives `SyncAsWritten`, whatever the walk order |
| Reconcile.SyncAsWrittenSound | GraphVault.py:280-301 | what the pass leaves was there, lies under folders that are keys, and is a note passing the document or file test or a claimed stub |
| Reconcile.SyncAsWrittenKeepsFolder | GraphVault.py:281-285 | a folder with only keys above it is kept unchanged |
| Reconcile.SyncAsWrittenKeepsFile | GraphVault.py:288-294 | an expected file outside the attachments folder, with only keys above it, is kept unchanged |
| Reconcile.SyncAsWrittenKeepsMoc | GraphVault.py:288-294 | the document of a non-root key, with only keys above it, is kept |
| Reconcile.SyncAsWrittenKeepsStub | GraphVault.py:298-301 | a stub claimed by a proxied file is kept |
| Reconcile.SyncAsWrittenIdempotent | GraphVault.py:275-301 | a second pass removes nothing more |
| Reconcile.GraphExpectationsCoherent | GraphVault.py:277-278 | every expected file and document of a scanned dictionary sits in an expected folder, and every folder's document is named after it |
| Reconcile.SyncPreserves | GraphVault.py:275-301 | the corrected pass keeps every expected folder and file, every document, the root index, the attachments folder and every claimed stub |
| Reconcile.SyncSound | GraphVault.py:275-301 | what remains is accounted for: folders lead to expected ones, notes are expected, stubs are claimed |
| Reconcile.SyncAsWrittenKeepsOtherFiles | GraphVault.py:280-296 | as written, a file not ending in `.md` is removed exactly when a folder above it fails the written folder test |
| Reconcile.SyncKeepsOtherFiles | GraphVault.py:280-296 | in the corrected pass, a file not ending in `.md` is removed exactly when a folder above it is removed by that pass |
| Reconcile.SyncIdempotent | GraphVault.py:275-301 | a second pass removes nothing more |
| Reconcile.SyncKeepsMoreThanAsWritten | GraphVault.py:284-294 | the corrected pass keeps everything the written pass keeps |
| Reconcile.KeptAsWrittenNotUnderDoomed | GraphVault.py:284 | a path the written pass keeps lies under no folder the corrected pass removes |
| Reconcile.KeptAsWrittenNoteKept | GraphVault.py:291-294 | a note the written pass keeps is one the corrected pass keeps |
| Reconcile.OrphanExpectedIsScanned | GraphVault.py:277-278 | the expectations of the orphan example are those its scan builds |
| Reconcile.OrphanOutputDeletedAsWritten | GraphVault.py:284-285 | as written, the pass deletes the kept folder `a/b` and its copied note because their ancestor `a` is not a key; the corrected pass keeps both |
| Reconcile.RootNotesDeletedAsWritten | GraphVault.py:291-294 | as written, the pass deletes `ROOT.md` and the root index; the corrected pass keeps both |
| Vault.GraphVault.constructor | GraphVault.py:64-83 | the output and attachments folders are made, the checkpoint is loaded over the initial progress, and the dictionary is the scan of the input folder |
| Vault.GraphVault.Run | GraphVault.py:371-399 | the states between the inputs form a trace that starts at the initial state and ends at the final one, each state `InputEffect` of its input on the one before; the loop ends by `q` or Ctrl-C at the input after the trace (every earlier input a line other than `q`, the checkpoint holding the progress), is aborted exactly when the dashboard raises, and otherwise ends at end of input after every input |
| Vault.GraphVault.Rounds | GraphVault.py:373-399 | each round handles one input and extends the trace by its effect; the rounds stop at `q` or Ctrl-C (checkpoint saved, every earlier input a line other than `q`), when the dashboard raises, or after the last input, every input then having let the loop go on |
| Vault.GraphVault.Turn | GraphVault.py:375-399 | once the dashboard has not raised, one input is handled and its effect appended to the trace; the loop goes on exactly when it is a line other than `q` |
| Vault.GraphVault.Handle | GraphVault.py:375-399 | with a valid batch-size index, and a batch requested only when some folder holds a file (as after the dashboard), the new state is `InputEffect` of the input on the old one; one input continues the loop exactly when it is a line other than `q`; Ctrl-C and `q` save the checkpoint |
| Vault.TracedAt | GraphVault.py:373-399 | each state of a trace is the effect of the matching input on the state before it |
| Vault.GraphVault.Dashboard | GraphVault.py:353-364 | the dashboard raises exactly when there are no folders, no folder holds a file, or the batch-size index is out of range; equivalently, when no listed folder holds a file or the index is out of range |
| Vault.GraphVault.HasFilesCounts | GraphVault.py:317-323 | some listed folder holds a file exactly when the file count the index divides by is not zero, and then the dictionary is not empty |
| Vault.GraphVault.Dispatch | GraphVault.py:377-395 | with a batch requested only when some folder holds a file, the new state is `CommandEffect` of the command: a batch as `BatchEffect` with the checkpoint saved exactly when folders ran, a size change, a rescan, the deletion pass as written, or the checkpoint saved on `q`; only `q` stops the loop |
| Vault.GraphVault.BatchCommand | GraphVault.py:377-378 | the store becomes `BatchEffect` and the checkpoint is saved exactly when folders ran |
| Vault.GraphVault.RescanCommand | GraphVault.py:384-389 | the new state is `RescanStep` of the old one |
| Vault.GraphVault.SyncCommand | GraphVault.py:390-391 | only the output folder changes, to `SyncAsWritten` of the dictionary's expectations |
| Vault.GraphVault.QuitCommand | GraphVault.py:392-394 | only the checkpoint changes, to the saved progress |
| Vault.GraphVault.RescanAll | GraphVault.py:384-389 | both processed sets are cleared, the new input is scanned, and the deletion pass as written runs against the new dictionary |
| Vault.GraphVault.LoadCheckpoint | GraphVault.py:339-351 | the progress becomes `Load` of the checkpoint file and of the old progress |
| Vault.GraphVault.SaveCheckpoint | GraphVault.py:328-337 | the checkpoint file holds the progress, and loading it gives the progress back |
| Vault.GraphVault.GetObsidianLink | GraphVault.py:255-268 | the store becomes `Link` of the file, and the returned link reads back as the file's name or stub |
| Vault.GraphVault.CopyOrLinkFile | GraphVault.py:270-273 | a processed file is skipped, any other one is linked |
| Vault.GraphVault.GetPendingFolders | GraphVault.py:161-164 | the result holds exactly the unprocessed keys, sorted by level and then lower-cased name |
| Vault.GraphVault.CreateRootIndex | GraphVault.py:305-326 | called only when some folder holds a file, so the code's percentages do not raise: the output is exactly what the code writes (`WriteIndexAsWritten` yields it), the root index rewritten with the sorted level-1 names and the progress counts; nothing else changes |
| Vault.GraphVault.MainFolderNames | GraphVault.py:309-313 | the names of the level-1 folders, sorted by lower-cased name |
| Vault.GraphVault.TotalFileCount | GraphVault.py:317 | the number of file records in the dictionary |
| Vault.GraphVault.CreateMocForFolder | GraphVault.py:214-253 | an unknown key changes nothing; otherwise the folder is made, the listed files are re-linked, and the document is rewritten |
| Vault.GraphVault.MocBody | GraphVault.py:222-252 | the document's lines, while every listed file is linked in document order |
| Vault.GraphVault.ListSections | GraphVault.py:239-247 | the category sections in the given order, their files linked in turn; `added` tells whether any file was listed |
| Vault.GraphVault.ListCategoryAfter | GraphVault.py:240-247 | one loop pass extends the lines, the links and `added` by one category |
| Vault.GraphVault.HeadLines | GraphVault.py:222-232 | the title, the summary, the parent link and the sub-folder list |
| Vault.GraphVault.ChildLinks | GraphVault.py:229-231 | one link per child, in children order |
| Vault.GraphVault.ProcessedFiles | GraphVault.py:234 | exactly the processed files of the folder, in folder order |
| Vault.GraphVault.ByCategory | GraphVault.py:235-237 | the processed files grouped by category, each group in folder order |
| Vault.GraphVault.ListCategory | GraphVault.py:241-247 | one category's heading, sorted file lines and blank line, present exactly when the category has a group |
| Vault.GraphVault.ListSection | GraphVault.py:243-246 | one file line per file, linking each in turn |
| Vault.GraphVault.ProcessBatch | GraphVault.py:188-212 | called only when some folder holds a file (the dashboard raises first otherwise): the store becomes `BatchEffect`, whose index is the one the code writes; an invalid index raises `IndexError` and changes nothing; the checkpoint is saved exactly when folders ran |
| Vault.GraphVault.ChooseBatch | GraphVault.py:189-198 | the plan: everything processed, an invalid index, or the first pending folders |
| Vault.GraphVault.RunAndRecord | GraphVault.py:202-211 | the folders run, the batch is counted and the checkpoint saved with the new progress |
| Vault.GraphVault.ProcessFolders | GraphVault.py:202-204 | each batch folder is processed and then marked processed |
| Schedule.ProcessFolderIdempotent | GraphVault.py:167-186 | processing a folder a second time leaves the output, the processed files and the processed folders as they were, and only raises `linked` once more for every proxied file the document lists |
| Schedule.MarkFilesAllDone | GraphVault.py:172-177 | marking files that are all processed already changes nothing |
| MapOfContent.WriteMocDoneFolders | GraphVault.py:214-253 | writing a folder's document neither reads nor changes the processed folders |
| MapOfContent.WriteMocDirs | GraphVault.py:214-218 | writing a folder's document leaves the folder and every folder above it in the output, and leaves the processed files alone |
| Vault.GraphVault.ProcessFolderFiles | GraphVault.py:167-186 | the store becomes `ProcessFolder`; the result counts the newly processed files |
| Vault.GraphVault.MarkFolderFiles | GraphVault.py:172-177 | the file loop's effect, and the count of files it added |
| Vault.GraphVault.DoneFiles | GraphVault.py:183 | how many of the folder's records are processed |
| Vault.GraphVault.SyncDeletions | GraphVault.py:275-303 | the output folder becomes `SyncAsWritten` for the dictionary's expectations |
| Vault.GraphVault.SweepOutput | GraphVault.py:280-296 | the walk, in any order, applies the written folder and note tests to every entry |
| Vault.GraphVault.SweepStubs | GraphVault.py:298-301 | the stub pass removes exactly the unclaimed stubs |
| Vault.GraphVault.Scan | GraphVault.py:85-135 | the dictionary is the folder graph of the input folder, and its insertion order is the queue's pop order `BfsOrder` |
| Vault.GraphVault.Walk | GraphVault.py:88-127 | the insertion order is `BfsOrder`, the kept folders in the order the queue pops them; the keys are exactly the kept folders, each once, with records as the walk builds them |
| Vault.WalkStep | GraphVault.py:94-124 | one round of the loop keeps the queue invariant, the dictionary built so far and the insertion order still to come |
| Vault.PopStep | GraphVault.py:94-117 | popping an unpopped folder appends it to the insertion order exactly when it is kept, and leaves the rest of the pop order to the new queue |
| Vault.SubdirsLevel | GraphVault.py:102-104 | every enqueued sub-directory is one level below the popped folder |
| Vault.BfsFromLayered | GraphVault.py:94-117 | from a queue whose levels never decrease and stay within one of the front, the folders are inserted level by level, none shallower than the front |
| Vault.ScanOrderLayered | GraphVault.py:90-117 | the scan inserts the input folder first and then the kept folders level by level |
| Vault.GraphVault.Subfolders | GraphVault.py:102-104 | the enqueued sub-directories, in listing order |
| Vault.GraphVault.FolderFiles | GraphVault.py:106-111 | the folder's file records, in listing order |
| Vault.GraphVault.LinkChildren | GraphVault.py:129-132 | each key's children are the keys naming it as parent, in insertion order |
| Vault.GraphVault.SortChildren | GraphVault.py:134-135 | every children list is sorted by lower-cased name; records are otherwise unchanged |
| Vault.BfsStep | GraphVault.py:94-104 | popping the queue head and enqueueing its sub-directories keeps the walk's invariant |
| Vault.KeptStep | GraphVault.py:114-124 | popping a folder adds it to the dictionary exactly when it is kept |
| Vault.BfsComplete | GraphVault.py:94-127 | with an empty queue, the keys are exactly the kept folders |
| Vault.SortStep | GraphVault.py:134-135 | sorting one more children list keeps the sorting invariant |
| Vault.SortDone | GraphVault.py:134-135 | when every key is handled, every children list is sorted |
| Vault.GraphOfScan | GraphVault.py:85-135 | the walked, linked and sorted dictionary is the folder graph of the input |

## Left out

- The lock file (`WindowsLock`) and `main` are left out. So are every
  `print`, the dashboard's text, the timer and the progress lines. The
  dashboard's failure conditions are modelled (`DashboardRaises`).
- Disk I/O is abstract. Copies, stubs, documents and the index are artifacts
  in the output map. The JSON and gzip encoding of the checkpoint are
  abstracted to a record. A file that does not decode is `Corrupt`.
- File sizes stay in bytes. The rounded `mb` floats and the percentages are
  not modelled.
- `lower()` is modelled on ASCII only: other capital letters are kept.
  `strip()` removes every character Python counts as whitespace.
- Filesystem errors are not modelled: the `except` paths of `analyze_file`,
  `sync_deletions` and `save_checkpoint`, `mkdir` or `write_text` failures,
  and races with other processes.
- The check on line 99 for an ignored or dotted folder name is not modelled.
  Only the root can reach it, since sub-directories are filtered before they
  are enqueued.
- A source folder named `!_adjuntos` is not modelled. It would share the
  attachments folder's output path.
- `attach.glob("*.md")` is modelled as matching files only.
- `rglob`'s order is left open: the walk is proved correct for every order.
  An entry removed before the walk reaches it is skipped. The Python runtime
  might instead fail when it descends into a removed folder.
- The deleted-entry count of `sync_deletions` is only printed, so it is left
  out.
- Ctrl-C is modelled while the prompt waits, not during a batch.
- Level-1 names in the index are modelled as sorted; ties keep insertion
  order.
- The queue's `level` counter is left out: a popped folder's level is its
  depth `|p|`.
- The unused field `mode` is left out.
- Checkpoint.Load: a record that decodes but fails partway through lines
  345-351 (for example a field of the wrong type) is modelled as fully
  applied or, when it does not decode, as `Corrupt`; the partial update
  Python leaves when an assignment raises after earlier ones succeeded is
  not modelled.
- `Vault.GraphVault.Scan`: does not state that the other fields are
  unchanged. The constructor relies only on the `modifies` frame.

## Findings

| source | as written | input that shows it | evidently intended | confidence | as-written member | corrected member |
|---|---|---|---|---|---|---|
| GraphVault.py:284-285 | a folder whose path is not a key is removed with `rmtree`, even when a kept folder lies below it | input `a/b/n.md` with no file directly in `a`: the scan drops `a`, keeps `a/b`, and the batch makes `a` on the way to `a/b`; the pass then deletes `a/b` and its note | keep a folder that leads to an expected folder | not executed | Reconcile.OrphanOutputDeletedAsWritten | Reconcile.SyncPreserves |
| GraphVault.py:291-294 | the root folder's document `ROOT.md` and the index `Índice Principal.md` are top-level notes whose stem is not the output folder's name and that are not file paths, so they are deleted | any output after one batch | keep every folder document and the root index | not executed | Reconcile.RootNotesDeletedAsWritten | Reconcile.SyncPreserves |
| GraphVault.py:322-323 | the file percentage divides by the total file count | an input folder without any qualifying file: the only key is the root, with no files | show zero percent instead of raising `ZeroDivisionError` | not executed | Schedule.IndexCrashesOnEmptyInput | Schedule.WriteIndexRefines |

The dashboard (lines 362-363) divides by the same counts and runs before
every command. On such an input the loop therefore stops at the dashboard
before a batch can write the index, and the model keeps that stop as written
(`Vault.GraphVault.Dashboard`). The class writes the index only on a
dictionary with a file (`Vault.GraphVault.CreateRootIndex` requires it, and
`Vault.GraphVault.HasFilesCounts` shows the count is then not zero), where
the corrected definition and the code agree.
