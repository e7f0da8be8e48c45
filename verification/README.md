# Verification of c_string: installer, build locks, string arrays

This project models the parts of the c_string distribution that carry its hard logic, and proves
what they promise. Check it with `dafny verify dfyconfig.toml` (Dafny 4.11).

## What is modelled

**The installer engine** (`install-core.c` and its three drivers). The file system is a map from entries
to files, directories and links, and path strings are resolved in it as in IEEE Std 1003.1, with links
followed wherever they stand (Lookup.dfy); the process has a working directory, an identity and a umask.
`Os` (Os.dfy) has one method per system or library call, each of which may be refused when the process
is marked `faulty`. The copy through a temporary file (FileCopy.dfy), the recursive mkdir
(MakeDirs.dfy), the name functions (Names.dfy), the rewriting of an item's fields in place
(Translate.dfy), the operators (Operators.dfy) and the driver loops (Engine.dfy) are methods that do
what the C code does, specified by relations between the world before and after. The whole-run results
are lemmas about those relations: install then check (ThenCheck.dfy), install, change a target and then
check (Tampered.dfy), install then deinstall (ThenDeinstall.dfy), confinement to the fake root
(Confinement.dfy) and how it fails (Escape.dfy), dry runs and the working directory (AnyRun.dfy), the
three operator tables (Tables.dfy), when a mkdir gets there (Reaching.dfy), and when a whole list does
(Ways.dfy, Reliable.dfy). Answers.dfy says of the file system alone when each operator reports OK and
what it leaves, and TranslatedNames.dfy where the names of an item lead. Footprint.dfy and
InstallRuns.dfy say what one item and a run of items add.

**The build locks** (`sysdep-system`, `sd-compile`, `sd-locker.c`, `sd-locker_posix.c`). Protocol.dfy
is an interleaved transition system: any number of shells, the lockers they start, the commands
those fork, record locks and descriptors as in IEEE Std 1003.1, and the files they write. A run is
any sequence of events whatever; a call that has to wait leaves the state as it is. Proved over all
runs: mutual exclusion (MutualExclusion.dfy), no overlapping commands (CommandExclusion.dfy), the
bootstrap of sd-locker (Bootstrap.dfy), freedom from deadlock (NoDeadlock.dfy), and programs linked
once (LinkOnce.dfy) and run complete (BuildOnce.dfy); and that builds can succeed (Completion.dfy).
Phases.dfy is for runs given step by step.
Programs.dfy has the programs themselves, as methods that run one process on a machine where all
others may do anything between its steps: each execution is a run of the transition system, and the
assertions of the C code hold in it.

**The string library** (`c_string.adb`, `c_string-arrays.adb`). Memory is a class with a character
view and a word view; `Outcome` has the exceptions and a fault for missing memory. CStrings.dfy and
CStringArrays.dfy hold the subprograms as methods and the round trips as lemmas.

**The Windows command flattener** (CommandLine.dfy): the two-pass buffer writer and a reading of its
output by the shell's quoting rule.

## Where the code is not what it seems

- `install_rmkdir` looks for -1, the platform tables return 0: a directory item reports OK whether or
  not its directory exists (`FailureUnnoticed`). It exists if and only if each mkdir in its turn finds
  nothing or a directory (`MakeAllReaches`); for a path that goes up only where it already leads to a
  directory that is the case if and only if every prefix was absent or led to a directory at first
  (`ReachesIfClear`), which a plain file on the way prevents (`FileInRoot`).
- A deinstall of a fully installed list fails when a directory between two listed ones is not itself
  listed, because install made it and nobody removes it (`AllRemovedIffGapless`); exactly such
  directories and those above them stay behind (`InstallThenDeinstall`).
- A directory made on the way to an item has that item's permissions; its own item, coming later, does
  not change them, and its check then fails unless they agree (`InstallThenCheck`, function `Maker`).
- The clean-up of a failed copy unlinks its temporary name whatever that is. If it is a link to a
  directory on the way to the fake root, the next directory item makes a directory in its place, outside
  the root (`EscapingRun`; the exact condition is in `CopyThenMkdirEscapesIff`, for a whole run in
  `RunEscapesIff`). A copy that replaces such a link only blocks the root (`ReplacedLinkBlocks`).
- A group is only ever set together with another owner, so an item that asks for another group than the
  process's and no other owner installs with OK and then fails its check (`InstallThenCheck`, predicate `Honoured`).
- The type of a file is compared only on a platform *without* symbolic links, and errors in
  translating names or looking up accounts do not raise `install_failed` (`DirForFileAnswers`,
  `UntranslatedFails`, `UnknownIsNotCounted`).
- A source named like the destination's temporary file is truncated and copied as empty, and a
  temporary name that is a link ends up as the destination (`CopyDelivers`).
- `Convert_To_C` never fills its last slot (`LastStringIsLost`).
- `sd-compile` cleans up `X.tmp`, not the file its linker wrote (`LeftoverPasses`), and the locker
  reads an exit code without asking whether the command exited (`KilledBuildPasses`).

## Model

| member | source | states |
|---|---|---|
| Lookup.LookJoin | install-core.c:868-877 | A path formatted as `a/b` is `b` walked from where `a` leads, links in `a` followed |
| Lookup.EntryJoin | install-core.c:713-734 | If `a/b` names an entry, then `a` leads to a directory and `b`, looked up after chdir to it, names the same entry |
| Lookup.LookLast | install-posix.c:271-279 | Calls that follow a link at the end of a path and calls that do not differ only where the last name is a link |
| Lookup.LookDescends | install-core.c:490-520 | A walk down names without `..` that meets no link ends below where it began |
| Lookup.LookStable | installer.c:55-71 | However much is installed, a path leads to the same entry until a link is made on its way |
| Lookup.EntryLater | installer.c:55-71 | A path that names an entry names the same one for as long as entries are only added |
| OperatingSystem.Os.MakeDir | install-posix.c:200-205 | A directory at the entry the path names, with the requested permissions less the umask, or no change; the return value is 1 or the platform's failure code, never -1 on the shipped tables |
| OperatingSystem.Os.OpenWrite | install-core.c:190-194 | fopen for writing truncates the file a path leads to, through links anywhere in it, or creates it, or changes nothing |
| OperatingSystem.Os.Read | install-core.c:196-204 | fread yields the next bytes in order, any number of them; none only at the end of the file or on an error |
| OperatingSystem.Os.Write | install-core.c:205-216 | fwrite appends a leading part of the bytes it is given; none only on an error |
| OperatingSystem.Os.Chmod | install-posix.c:211-217 | Sets the mode of what the path leads to and nothing else, or fails without a change |
| OperatingSystem.Os.Chown | install-posix.c:232-239 | Sets both owner and group of what the path leads to, or fails without a change |
| OperatingSystem.Os.Rename | install-core.c:255-258 | Moves one entry over another in one step, or changes nothing |
| OperatingSystem.Os.Symlink | install-posix.c:271-279 | Creates a link only where nothing stands and the directories on the way, perhaps behind links, do |
| OperatingSystem.Os.Rmdir | install-core.c:1262-1265 | Removes a directory only if nothing is below it |
| MakeDirs.FirstCall | install-core.c:490-508 | The next directory asked for is the path up to the next slash, and what remains is the rest of the path; a last name of a 1023-character path is not asked for |
| MakeDirs.NextName | install-core.c:492-505 | The copied name, its slash and its terminator stay inside the 1024-byte buffer, and the buffer then holds the path read so far |
| MakeDirs.MakeNext | install-core.c:490-519 | One turn of the loop asks for exactly the next directory and leaves the calls still to come; only a callback that returns -1 can make it fail |
| MakeDirs.Rmkdir | install-core.c:467-521 | install_rmkdir on the shipped platform tables: the make_dir calls are exactly `dir[..k+1]` for every slash position k in order, then `dir/`; the verdict is only whether the path is shorter than 1024; directories are added, each by a call that led nowhere before, nothing else changes, and on a system that refuses nothing exactly those are made that are free when their turn comes |
| MakeDirs.KeepsMade | install-core.c:506-511 | Each call adds at most its own directory, keeps every other entry and keeps the tree a tree; the log has exactly the calls that made something |
| Reaching.OneMkdir | install-core.c:506-511 | One mkdir from a directory: the walk arrives at the next one if and only if that name was absent at first or led to a directory; otherwise it is stuck and nothing is made |
| Reaching.CallsReach | install-core.c:490-520 | The calls from any slash on, from a directory, end with the directory there if and only if each in its turn finds nothing or a directory, behind a link or not |
| Reaching.MakeAllReaches | install-core.c:467-521 | For every path that fits, `..` in it or not: it leads to a directory afterwards if and only if it starts from one and each call in its turn finds nothing or a directory |
| Reaching.ReachesIfClear | install-core.c:467-521 | For a path that goes up only where it already leads to a directory, the condition is one on the initial state: every prefix on the way is absent or leads to a directory |
| Reaching.FailureUnnoticed | install-core.c:506-511 | A directory item of the process's own reports OK in every case; its directory is there afterwards exactly under that condition |
| Reaching.FileInRoot | install-core.c:490-511 | A failing input: with a plain file `/file` the call for `/file/sub` makes no directory there |
| Reaching.DirectoryOnTheWay | install-core.c:490-511 | A directory that is there, reached through links or not, is no obstacle to one more name |
| FileCopy.WriteChunk | install-core.c:204-216 | Whatever short writes occur, without an error exactly the bytes read are appended |
| FileCopy.CopyBytes | install-core.c:195-217 | Whatever short reads and writes occur, without an error the destination has exactly the bytes of the source, and only the temporary file changed on the way |
| FileCopy.SetAttributes | install-core.c:224-245 | Mode always; on a system that refuses nothing it succeeds if and only if the owner is the process or the process is the superuser, and another owner and group are then exactly as asked |
| FileCopy.FillAndRename | install-core.c:195-258 | The rename happens only when bytes, mode and owner are in place |
| FileCopy.CopyCompletes | install-core.c:179-263 | A copy that reached the rename leaves exactly the file system a completed copy should |
| FileCopy.CopyFails | install-core.c:265-271 | A copy that failed, its temporary name free or a plain file, leaves every other entry as it was, and on a system that refuses nothing removes that too |
| FileCopy.FailedSpares | install-core.c:265-271 | Whatever the temporary name is, a failed copy leaves every other directory and link; when it could not be opened, exactly what unlink can remove under that name is gone |
| FileCopy.InstallFileCopy | install-core.c:151-272 | install_file_copy as a relation between the states before and after, for all outcomes; when source, temporary name and destination allow it, OK exactly for the process's own uid or the superuser; no directory is ever lost; and, if the temporary name was free or a plain file, at every moment each other entry is either as before or as in the end |
| FileCopy.CopyAnswers | install-core.c:231-258 | On a system that refuses nothing, with a source file, a temporary name that can be written and a destination that can be replaced: OK if and only if the file is to be the process's own or the process is the superuser |
| FileCopy.CopyLeaves | install-core.c:184-258 | The node at the destination: the source's bytes (unless the source was the temporary file), the mode, and another owner and group exactly as asked |
| FileCopy.CompletedSpares | install-core.c:255-258 | A completed copy leaves every directory as it was, and every link but the destination and the temporary name |
| FileCopy.FreshCopy | install-core.c:179-263 | To a new name: one new file with the source's bytes, the mode, and owner and group as far as they are set |
| CopyFacts.TempIsDestination | install-core.c:179 | A formatted destination is its own temporary file if and only if it fills the buffer |
| CopyFacts.TempStandsBeside | install-core.c:179 | With room for the suffix the temporary file is another entry in the same directory |
| CopyFacts.CopyDelivers | install-core.c:184-258 | A completed copy leaves a file if and only if the temporary name was free or a plain file, with the source's bytes if and only if the source was not the temporary file itself or was empty |
| CopyFacts.CopyTouchesOnly | install-core.c:184-258 | A completed copy through a free or plain temporary name changes the destination, leaves nothing under that name, and touches no other entry |
| CopyFacts.CopyIsNamed | install-core.c:255-258 | The destination's name leads to the new file if and only if it did not pass through the very link that the file replaced |
| Names.BaseName | install-core.c:527-569 | For every path shorter than 1024 with a name in it: a part without slashes, after a slash or nothing, with only slashes behind it; `.` for the empty path, `/` for a path of slashes; refused otherwise |
| Names.LastPartIsOne | install-core.c:547-565 | There is exactly one such part |
| Names.BaseNameOfJoin | install-core.c:527-569 | base_name of a directory, a slash and a name is the name |
| Names.BaseNameIsName | install-core.c:527-569 | The result has a slash only if the path was all slashes |
| Names.StrEnds | install-core.c:577-586 | True if and only if the string is something followed by the suffix, also when the suffix is longer |
| Names.LibName | install-core.c:592-643 | The text of a virtual library file before its first blank, within the first 1024 bytes and up to a NUL |
| Names.LibNameIsFirst | install-core.c:592-643 | The name is the bytes before the first space, tab, newline, carriage return or NUL; there is none exactly when the file cannot be opened or 1024 bytes have no blank |
| Translate.NtranCopy | install-core.c:819-886 | The new fields of the item, or the error and which test it came from |
| Translate.NtranCopyExec | install-core.c:888-923 | As NtranCopy, with the executable suffix on both names |
| Translate.NtranLink | install-core.c:925-957 | The directory below the fake root; names unchanged |
| Translate.NtranLibLink | install-core.c:959-1026 | The source read from a virtual library file and cut to its last part, the destination cut to its last part with the library suffix |
| Translate.NtranMkdir | install-core.c:1028-1049 | The directory below the fake root |
| Translate.NtranChkLink | install-core.c:1051-1071 | As NtranLink, then the destination with its directory in front |
| Translate.NtranChkLibLink | install-core.c:1073-1095 | As NtranLibLink, then the destination with its directory in front |
| Translate.Ntran | install-core.c:1289-1309 | The translation column that the install and deinstall tables share |
| Translate.NtranChk | install-core.c:1296-1302 | The translation column of the check table |
| TranslatedNames.CopyIsCalled | install-core.c:819-886 | For every configuration: when COPY can be translated, and that its destination walks down the root if there is one, the item's directory, and the last name of the destination given, or of the source; the source is the one given or read |
| TranslatedNames.CopyExecIsCalled | install-core.c:888-923 | The same for COPY_EXEC, with the suffix of executables on both names |
| TranslatedNames.LinkIsCalled | install-core.c:925-957 | For SYMLINK: the directory walks down the root, if any, and then as given; without a root nothing changes |
| TranslatedNames.LibLinkIsCalled | install-core.c:959-1026 | For LIBLINK: besides, the destination is its last name with the library suffix, and a source in a virtual library file is the last name in it |
| TranslatedNames.MkdirIsCalled | install-core.c:1028-1049 | For MKDIR: the directory walks down the root, if any, and then as given |
| TranslatedNames.CheckedLinkIsCalled | install-core.c:1051-1095 | The check looks for a link by walking down its directory and then its name |
| Operators.UidGidLookup | install-core.c:274-317 | The named accounts or those of the process; an error exactly when a name is unknown |
| Operators.InstCopy | install-core.c:649-693 | Copies unless dry; an unknown account changes nothing |
| Operators.InstLink | install-core.c:695-738 | Creates the link looked up from its directory, or nothing; back in the old directory whenever it reports OK; on a system that refuses nothing it reports OK whenever it can |
| Operators.InstMkdir | install-core.c:740-805 | The directories of install_rmkdir, then the owner of the last one if it is not the process |
| Operators.InstallFileCheck | install-core.c:319-459 | Passes if and only if size, masked mode, owner and group agree; the type matters only on a platform without symbolic links; for two files this is said of their contents' lengths and their mode, uid and gid |
| Operators.DeinstOp | install-core.c:1185-1279 | Removes the one entry of the item or, when that is impossible or the run is dry, nothing |
| Answers.AccountsAsked | install-core.c:274-317 | The identity used is that of the named owner and group, each that of the process if none is named, and there is none exactly when a name is unknown |
| Answers.CopyItemAnswers | install-core.c:649-693 | A file item whose names allow it is installed if and only if its accounts are known and the owner is the process or the process is the superuser |
| Answers.CopyItemLeaves | install-core.c:649-693 | And what it leaves at its destination, node field by node field |
| Answers.LinkItemAnswers | install-core.c:695-738 | A link item succeeds if and only if its directory leads to one and its name, from there, is free in a directory; it adds that link and nothing else |
| Answers.MkdirItemAnswers | install-core.c:740-805 | A directory item succeeds if and only if its path is shorter than 1024 and its owner is the process, or the process is the superuser and the path leads somewhere afterwards; another owner and group are then exactly as asked |
| Answers.UntranslatedFails | install-core.c:1406-1464 | An item that cannot be translated is an error in each program, changes nothing and is not counted |
| Answers.FileCheckAnswers | install-core.c:319-459 | The check of a file item: passed if and only if length, masked mode, owner and group are as asked; a missing source or target is counted |
| Answers.DirForFileAnswers | install-core.c:385-400 | A directory in the place of a file passes if its reported size and the rest agree, on a platform with symbolic links only |
| Answers.DirCheckAnswers | install-core.c:319-459 | The check of a directory item |
| Answers.LinkCheckAnswers | install-core.c:319-459 | The check of a link item is of what the link leads to |
| Answers.UnknownIsNotCounted | install-core.c:1426-1444 | An unknown account is an error that is not counted |
| Answers.RemovalAnswers | install-core.c:1185-1279 | A removal succeeds if and only if its path names a directory with nothing in it, or for other items an entry that is no directory; that entry is gone and nothing else |
| Engine.Install | install-core.c:1406-1424 | Translate, then operate; the initial FATAL never comes out |
| Engine.InstallCheck | install-core.c:1426-1444 | Only install_file_check's own verdict raises install_failed: failed translations and lookups do not |
| Engine.Deinstall | install-core.c:1446-1464 | Translate as install does, then remove |
| Engine.Installer | installer.c:55-71 | Every item is installed exactly once, in order, whatever happened before |
| Engine.Instchk | instchk.c:51-74 | Every item is checked once; the exit code is 1 if and only if some check was counted |
| Engine.Deinstaller | deinstaller.c:55-72 | Every item of a non-empty list is removed once, from the last to the first |
| Footprint.LinkLands | install-core.c:713-734 | A relative name looked up after chdir is the entry its formatted path names |
| Footprint.LinkGrows | install-core.c:713-734 | An installed link with a relative name that fits stands at the entry deinstall will remove, in a linked directory too, and nothing else changed |
| Footprint.MkdirGrows | install-core.c:740-805 | An installed directory item, its path going up only where it already leads to a directory, adds its directory and only directories above it; mode and owner are as stated |
| Footprint.CopyGrows | install-core.c:649-693 | An installed file item adds one file with the source's bytes, mode and effective owner |
| Footprint.StepGrows | install-core.c:1406-1424 | The same for every kind of item: what is added, what may change, what stays |
| InstallRuns.TranslationLater | install-core.c:819-1049 | A name translated once translates the same way for as long as entries are only added |
| InstallRuns.SamePlace | installer.c:55-71 | In any state of a run a path leads where it led at first, if no listed link gets in its way |
| InstallRuns.RunReaches | installer.c:55-71 | After n items of a clean run everything present was there at first or was brought by one of the n, and their targets are in place |
| InstallRuns.RunOnlyAdds | installer.c:55-71 | Later items alter nothing earlier except a directory that is their own target |
| InstallRuns.TargetStays | installer.c:55-71 | An installed item stays as installed to the end of the run |
| Reliable.StillClear | install-core.c:490-520 | A way that is clear at first is clear when the item's turn comes, if no listed file or link gets in it |
| Reliable.MkdirMakes | install-core.c:740-805 | A directory item whose way is clear reports OK and makes its directory, below a root with `..` too |
| Reliable.WayOpens | installer.c:55-71 | A path whose directories are there at first or made by earlier items names its place when its turn comes |
| Reliable.CopySucceeds | install-core.c:649-693 | A file item with such paths, a source and a permitted owner is installed |
| Reliable.LinkSucceeds | install-core.c:695-738 | A link item with such a path is installed |
| Reliable.ReadyListInstalls | installer.c:55-71 | On a system that refuses nothing, every item comes back OK and no mkdir fails, for every list that meets the stated conditions in the initial state |
| ThenCheck.DirDelivered | install-core.c:740-805 | A directory has its own item's owner, and the permissions of the first item that needed it |
| ThenCheck.VerdictOn | install-core.c:319-459 | After a clean run the check of one item passes if and only if its request could be honoured |
| ThenCheck.OwnModeSeen | install-core.c:319-459 | For a directory made by its own item: permissions inside 0755, none cleared by the umask, no group without another owner |
| ThenCheck.InstallThenCheck | instchk.c:51-74 | After an all-OK install of a good list (new targets, each its own), the check passes exactly the files and directories whose request was honoured, and counts exactly the others: permissions inside 0755, for a directory those of the item that first needed it less the umask, and no group without another owner |
| Tampered.ReplacedFileIsFound | install-core.c:403-459 | After a clean run, with any file whatever put at an item's target: its check passes if and only if the file has the source's length, the permissions, and the owner and group asked for, and is counted otherwise |
| Tampered.MissingFileIsFound | install-core.c:319-459 | After a clean run a target that is gone is counted |
| Tampered.MissingSourceIsFound | install-core.c:345-360 | So is a source that is gone, as long as the item's names can still be read |
| Tampered.ReplacedDirIsFound | install-core.c:417-459 | A directory with other permissions or another owner is counted, one with those asked for passes |
| Tampered.CheckFindsIt | instchk.c:51-74 | The whole check then counts a failure |
| ThenDeinstall.StillThere | deinstaller.c:55-72 | When an item's turn to be removed comes, all its installation saw is still there |
| ThenDeinstall.OneMoreHandled | install-core.c:1245-1270 | A removal fails exactly for a directory with something in it; only targets handled so far are missing |
| ThenDeinstall.UndoneDownTo | deinstaller.c:55-72 | That holds at every point of a deinstall run |
| ThenDeinstall.WhatRemains | install-core.c:1245-1270 | What is left over is exactly the directories on the way to a listed one that were not there at first and that nobody listed, and those above them: a set given by the list and the initial state alone |
| ThenDeinstall.AllRemovedIffGapless | deinstaller.c:55-72 | All removals succeed if and only if the list has no gap |
| ThenDeinstall.InstallThenDeinstall | deinstaller.c:55-72 | Install then deinstall of any good ancestors-first list, with gaps or without, below a root with `..` too: the file system is the first one plus exactly that set; a removal fails exactly for a listed directory in it |
| AnyRun.OkKeepsCwd | install-core.c:695-738 | An item that reports OK leaves the working directory; only a link item on a failing system can lose it |
| AnyRun.DryInstall | install-core.c:680-738 | A dry run of any list changes no entry |
| AnyRun.DryDeinstall | install-core.c:1201-1268 | A dry deinstall of any list changes nothing at all |
| AnyRun.DeinstallOnlyRemoves | deinstaller.c:55-72 | Any deinstall run only removes, and never orphans an entry |
| Confinement.TranslatedBelow | install-core.c:819-1049 | Whatever fits or is cut off, the paths of a translated item start with the fake root and a slash |
| Confinement.PrefixNamesOld | install-core.c:490-511 | As long as directories stay and each link on the way is there or replaced by a file, a prefix of the root names only directories and links that were there at first, so no mkdir on the way to the root makes anything |
| Confinement.CallBelow | install-core.c:467-521 | Each call of install_rmkdir is for a prefix of the root or for a path below it |
| Confinement.InstallConfined | installer.c:55-71 | Any install run, any outcome, any existing root, `..` and links in it included (a relative one on a system that does not lose the working directory): every path created, replaced or chowned starts with the root and a slash, if no link item names an absolute path outside it, no copy's temporary name is a link on the way to it, and none puts a link in the place of one |
| Confinement.ConfinedToPlainRoot | installer.c:55-71 | For a root reached without links the conditions on copies fall away, and the root goes on leading to the same directory |
| Confinement.ReplacedLinkBlocks | install-core.c:255-258 | When a copy has put a file in the place of a link on the way, the root leads nowhere and nothing is made on the way to it |
| Confinement.ConfinedByNames | installer.c:55-71 | As InstallConfined, with conditions on the list and the initial state only: no file, with or without the suffix of its temporary name, is named like a link on the way to the root |
| Escape.MkdirEscapesIff | install-core.c:490-511 | On a system that refuses nothing a directory item makes something outside the root if and only if a prefix of the root is free when its turn comes |
| Escape.RunEscapesIff | installer.c:55-71 | On such a system a run over any list whose links stay below leaves the root if and only if some directory item with known accounts finds a prefix of it free |
| Escape.CopyLosesLinkIff | install-core.c:265-271 | On such a system a copy whose source can be opened removes a link on the way to the root if and only if that is its temporary name: the open fails, and the clean-up unlinks it |
| Escape.CopyThenMkdirEscapesIff | install-core.c:265-271 | On such a system, a copy whose source can be opened, then a directory: the run leaves the root if and only if, in the initial state, the copy's temporary name is a link on the way to the root that a prefix of the root names without passing it |
| Escape.EscapingRun | installer.c:55-71 | A failing input: root `/l.tmp/r` where `/l.tmp` leads to `/d`, a copy to `../../l`, then a directory; every run over it makes `/l.tmp/` |
| Confinement.AbsoluteLinkEscapes | install-core.c:713-734 | For a SYMLINK item the condition is exact: otherwise what it creates is outside |
| Confinement.DeinstallConfined | deinstaller.c:55-72 | Any deinstall run removes only paths that start with the fake root and a slash |
| Confinement.BelowDescends | install-core.c:868-871 | A path below the root as text is below it as an entry, if what follows has no `..` and passes no link |
| Tables.CheckedIsRemoved | install-core.c:1289-1309 | The path install_check looks at is the path deinstall removes, for every operator |
| Tables.PathGoesOn | install-core.c:1217-1222 | A path formatted from a directory and a name goes on from where the directory leads |
| Tables.LinkLandsOnTarget | install-core.c:713-734 | A link made through chdir under a relative name that fits stands where check and deinstall look, whatever links its directory is behind; the only exception is a path that needs more links than the system follows, and a name without a slash has none |
| Tables.AbsoluteLinkLands | install-core.c:713-734 | An absolute name, with no links below: it stands there if and only if its directory is `/` |
| Tables.CopyLandsOnTarget | install-core.c:255-258 | A completed copy through a free or plain temporary name stands at the path deinstall removes, if and only if that path did not pass through the very link the copy replaced |
| Protocol.LockerNext | SYSDEPS/sd-locker.c:194-218 | A step of a locker changes no other process and starts at most one child, which runs its task and for which it waits |
| Protocol.CommandNext | SYSDEPS/sd-compile:42-48 | A step of a command changes no other process |
| Protocol.ShellNext | SYSDEPS/sysdep-system:11-84 | A step of a shell changes no other process and starts at most one locker, for the task at hand |
| Protocol.CommandLeavesFiles | SYSDEPS/sd-compile:42-48 | A command writes no program but its own |
| Programs.Machine.LockFileOpen | SYSDEPS/sd-locker_posix.c:86-98 | Goes on to acquiring if the system grants it, or exits with failure |
| Programs.Machine.LockAcquire | SYSDEPS/sd-locker.c:107-119 | Whatever the others do meanwhile: not locked before, as asserted; afterwards at the fork, or still waiting because another has the lock, or, on a system that refuses, ended with failure |
| Programs.Machine.Execute | SYSDEPS/sd-locker_posix.c:119-146 | Locked before, as asserted, and in the system's table; afterwards the command has ended and its exit code is kept, or it still waits, or, on a system that refuses, it exited with failure |
| Programs.Machine.LockRelease | SYSDEPS/sd-locker.c:121-133 | Locked before, as asserted; the exit code is kept; goes on if the system grants it |
| Programs.Machine.LockerMain | SYSDEPS/sd-locker.c:194-218 | The whole program: on a system that grants everything it exits with its command's code or still waits; exit code 0 in an undisturbed execution means the program to be built or run is complete |
| Programs.Machine.SdCompile | SYSDEPS/sd-compile:42-48 | Ends with 0 if compiler and linker succeed or nothing was to be done, and with 1 if either fails; 0 in an undisturbed execution means the result is complete |
| Programs.Machine.PrepareLocker | SYSDEPS/sysdep-system:11-30 | Goes on unless compiling or linking the copy fails; whether the move worked does not matter; sd-locker is complete if all of them succeed |
| Programs.Machine.StartLocker | SYSDEPS/sysdep-system:36-84 | If a locker is started, sd-locker is complete, whoever built it; on a system that grants everything one is |
| MutualExclusion.ForkKeeps | SYSDEPS/sd-locker_posix.c:132-142 | fork passes on the descriptor but no lock |
| MutualExclusion.ChildCloseKeeps | SYSDEPS/sd-locker_posix.c:136-138 | The child's close drops no lock |
| MutualExclusion.LockerKeepsLocks | SYSDEPS/sd-locker_posix.c:33-116 | Every step of a locker keeps the lock invariant, including every fatal exit |
| MutualExclusion.NextKeepsLocks | SYSDEPS/sd-locker.c:194-218 | Every step of every process keeps it |
| MutualExclusion.LockersExclude | SYSDEPS/sd-locker.c:107-133 | Every interleaving, with any failures and kills: at most one locker per lock file is between acquire and release, the system's lock table says which, and `locked` is 1 from just after the one to just after the other |
| CommandExclusion.NextKeepsAttended | SYSDEPS/sd-locker_posix.c:119-146 | A running command has its locker waiting for it, unless the locker is lost |
| CommandExclusion.CommandsExclude | SYSDEPS/sd-locker.c:166-182 | No two commands under one lock overlap in any interleaving in which no locker ends before its command |
| CommandExclusion.AbandonedCommandOverlaps | SYSDEPS/sd-locker_posix.c:143-145 | From every state in which a locker is killed while its command runs and another waits, two commands under one lock result |
| Bootstrap.NextKeepsBoot | SYSDEPS/sysdep-system:17-29 | Every step keeps sd-locker absent or complete, and never takes it away |
| Bootstrap.LockerIsWhole | SYSDEPS/sysdep-system:42-53 | Whatever the interleaving of racing builds and moves, sd-locker is absent or complete, stays once there, and is complete for every shell that executes it |
| BuildOnce.TestSeesWhole | SYSDEPS/sd-compile:42-45 | When sd-compile tests for its result nobody is writing it |
| BuildOnce.BuilderIsAlone | SYSDEPS/sd-compile:47-48 | While a program is being written nobody uses it and nobody else builds it |
| BuildOnce.NextKeepsInv | SYSDEPS/sd-compile:42-48 | Every step that abandons and spoils nothing keeps the build invariant |
| LinkOnce.LinkerKeepsOnce | SYSDEPS/sd-compile:47-48 | While a linker writes its program the lock keeps every other builder of it away |
| LinkOnce.NextKeepsOnce | SYSDEPS/sd-compile:42-48 | Every step of every process, failing or not, and every kill keeps the invariant |
| LinkOnce.LinkedAtMostOnce | SYSDEPS/sysdep-system:91-107 | Over any parallel run in which no command is abandoned, whatever fails, and whatever is killed together with its children: each program is linked successfully at most once, is complete from then on, and is not linked at all if it was there |
| LinkOnce.AbandonedLinksTwice | SYSDEPS/sd-locker_posix.c:143-145 | The condition is needed: from every state in which the locker of a compiling command is killed while another waits, a run links the program twice |
| BuildOnce.BuiltMeansComplete | SYSDEPS/sysdep-system:184-235 | Past its protected compilation a shell finds the program complete with nobody linking it |
| BuildOnce.RunsComplete | SYSDEPS/sysdep-system:184-235 | A program that runs under its own, different lock is complete and nobody is linking it |
| NoDeadlock.SomebodyCanMove | SYSDEPS/sd-locker.c:211-215 | No deadlock in any run, whatever fails, is killed or abandoned: as long as a shell is not done some process can move |
| BuildOnce.LeftoverPasses | SYSDEPS/sd-compile:5-15 | From every state with a linker at work and another locker in line, a run in which the linker fails and leaves its output ends with the other locker reporting success for an incomplete program |
| BuildOnce.KilledBuildPasses | SYSDEPS/sd-locker_posix.c:143-144 | A killed linker can be reported as success, because the exit code is read unconditionally |
| BuildOnce.SysdepPlanIsDisciplined | SYSDEPS/sysdep-system:184-312 | The sequence sysdep-system runs builds every program before it uses it |
| Completion.LinkIsReported | SYSDEPS/sd-compile:47-48 | A link that succeeds ends the command with 0 and the program complete; one that fails ends it with another code and the program not complete |
| Completion.RunIsReported | SYSDEPS/sd-locker_posix.c:119-146 | A program's own outcome is its exit code; a compilation that fails ends the command with a code other than 0 |
| Completion.RefusalIsFatal | SYSDEPS/sd-locker_posix.c:33-116 | A locker of which a call is refused ends with 1 and loses its lock and its descriptors |
| Completion.CopyIsReported | SYSDEPS/sysdep-system:11-53 | Failing to compile or link the copy stops the shell, failing to move it does not; only a successful move changes sd-locker |
| Completion.CodeIsPassedOn | SYSDEPS/sysdep-system:91-107 | A shell goes on when its locker reports 0 or the task was to run a program, and stops as failed otherwise |
| Completion.BuildCompletes | SYSDEPS/sysdep-system:91-312 | From every initial state with a shell whose plan builds programs before use, some run ends with that shell finished, a locker for each task that exited with 0 and no other, every program of the plan complete, and each that was absent linked exactly once |
| Completion.BuildsComplete | SYSDEPS/sysdep-system:91-312 | The same for all the shells of the state, however many there are, in one run |
| Completion.FinishedMeansDone | SYSDEPS/sysdep-system:184-312 | In any undisturbed run a shell that has finished has every program of its plan complete |
| CStrings.LengthFound | c_string.adb:111-123 | Length is the first terminator; a fault if memory ends first; Constraint_Error only if the whole range of size_t has none |
| CStrings.StringIffText | c_string.adb:40-50 | To_String gives a text if and only if memory holds that text, terminated |
| CStrings.CutKeeps | c_string.adb:40-50 | A string survives the cut at its first NUL if and only if it has none |
| CStrings.Memory.Length | c_string.adb:111-123 | The scan, character by character |
| CStrings.Memory.ToStringSized | c_string.adb:52-62 | Exactly the given number of characters; Constraint_Error beyond Integer'Last |
| CStrings.Memory.ToString | c_string.adb:40-50 | The characters before the terminator |
| CStrings.Memory.Index | c_string.adb:90-98 | The character if the index is below the length, else Constraint_Error |
| CStrings.Memory.IndexSized | c_string.adb:100-109 | The character if the index is below the size, else Constraint_Error |
| CStrings.Memory.HasNull | c_string.adb:64-72 | True if and only if some character is NUL |
| CStrings.Memory.ToCString | c_string.adb:74-82 | The array's address if and only if it has a terminator, else Null_Termination_Error |
| CStrings.Memory.ToCCharArray | c_string.adb:84-88 | An address from which To_String with the array's size reads exactly the array's characters; Constraint_Error for an empty array |
| CStrings.Memory.NewCString | c_string-arrays.adb:252-257 | A fresh copy with a terminator; everything else in memory stays |
| CStringArrays.SizeIsLeast | c_string-arrays.adb:23-38 | Size_Terminated is n if and only if slot n is the first null and n is a Natural |
| CStringArrays.SizeTerminated | c_string-arrays.adb:23-38 | The pointer walk computes the same size as indexing by slot |
| CStringArrays.ReadIndex | c_string-arrays.adb:50-81 | The string of a slot, "" for null; Constraint_Error once the offset exceeds Integer'Last |
| CStringArrays.Index | c_string-arrays.adb:83-96 | As Index_Core below the size, else Constraint_Error |
| CStringArrays.ReadIndexTerminated | c_string-arrays.adb:114-128 | As Index_Core below the terminated size, else Constraint_Error |
| CStringArrays.Convert | c_string-arrays.adb:192-206 | The strings of the first n slots, re-indexed from 0, or the first failure among them |
| CStringArrays.ConvertAgrees | c_string-arrays.adb:192-206 | Convert succeeds if and only if every index does, and gives the same strings |
| CStringArrays.IndexAgrees | c_string-arrays.adb:114-128 | Convert_Terminated and Index_Terminated agree below the size; above it Index_Terminated raises |
| CStringArrays.ReadTerminated | c_string-arrays.adb:217-231 | Convert of the terminated size |
| CStringArrays.TableReadsBack | c_string-arrays.adb:192-231 | Any table of strings reads back as those strings if and only if its last offset is an Integer |
| CStringArrays.FilledTable | c_string-arrays.adb:244-261 | A fresh table with all slots but the last filled and the last null; older memory stays |
| CStringArrays.ConvertToCTerminated | c_string-arrays.adb:237-263 | Length_Error for an empty array, Constraint_Error when Last + 1 overflows, else a fresh terminated table of all strings |
| CStringArrays.ConvertToC | c_string-arrays.adb:265-291 | Length_Error for an empty array, else a fresh table of all strings but the last |
| CStringArrays.RoundTrip | c_string-arrays.adb:192-263 | Convert_Terminated after Convert_To_C_Terminated: each string up to its first NUL, for any index of the first; equal to the input if and only if no string has a NUL; Constraint_Error exactly when the table is out of reach of an Integer offset |
| CStringArrays.LastStringIsLost | c_string-arrays.adb:265-291 | As coded Convert_To_C loses the last string: what each reader finds, and that the result is as meant if and only if that string is empty up to its first NUL |
| CStringArrays.LikeOneStringLess | c_string-arrays.adb:265-291 | For two or more strings the result reads like the terminated form of all but the last |
| CStringArrays.Deallocate | c_string-arrays.adb:293-304 | Changes nothing |
| CStringArrays.MemoryOnlyGrows | c_string-arrays.adb:237-304 | Over any sequence of calls everything in use stays as it is |
| CStringArrays.EarlierArraysStay | c_string-arrays.adb:237-304 | Over any sequence of calls an array returned earlier still reads as the same strings |
| CommandLine.RequiredLength | SYSDEPS/sd-locker_win32.c:147-156 | The first pass asks for 3 * argc bytes more than the line without its terminator |
| CommandLine.ConvertCommand | SYSDEPS/sd-locker_win32.c:136-207 | The buffer holds exactly the line and its terminator, every write is in bounds, and length_total - length_used is 3 * argc - 1 |
| CommandLine.ShellGetsArguments | SYSDEPS/sd-locker_win32.c:163-200 | Read by the shell's rule for single quotes the line gives back the argument vector if and only if no argument has a single quote |
| CommandLine.EncodeIsInjective | SYSDEPS/sd-locker_win32.c:163-200 | Different quote-free vectors have different lines |
| CommandLine.QuotesCollide | SYSDEPS/sd-locker_win32.c:163-200 | With quotes two vectors can have the same line |

## Left out

- The state of the build locks is a value with a step function, since the steps of many processes
  interleave; the fields of a locker are kept there. In Programs.dfy a call that may never return is
  given up after some number of looks.
- A slash at the end of a path string makes no difference to a call, and `rmdir` of a path that ends in
  `.` is not refused. A walk follows at most 40 links.
- The static buffers an item's fields point to after translation are values here, so aliasing between
  items of one process is not seen. `snprintf` never fails.
- `fclose` and `rename` failures in install_file_copy are modelled up to the clean-up; the second
  `fclose` of a closed stream is not.
- A `fread` or `fwrite` that returns 0 with neither end of file nor error, on which the C loops spin.
- Names.LibName: a first token that fills all 1024 bytes leaves no room for the terminator; it is
  treated as a failure here.
- `stat`, account lookups and reading a virtual library file are never refused; the process's own
  identity can always be determined.
- Set-user-id bits cleared by `chown`, groups inherited from set-group-id directories, access
  permissions on directories.
- Operators.InstMkdir: covers make_dir callbacks that never return -1, as on both shipped platform
  tables; MakeDirs.MakeNext covers the others.
- Reaching.MakeAllReaches: does not cover a path of 1023 characters without a slash at its end, for which
  the last directory is never asked for (MakeDirs.FirstCall).
- Reaching.ReachesIfClear: and the theorems on whole runs ask that a directory path go up only where it
  already leads to a directory, as below a fake root `../stage`; a path that goes up again from a
  directory it has just made is covered by Reaching.MakeAllReaches.
- Escape.CopyThenMkdirEscapesIff: takes a copy whose source can be opened and whose temporary name is no
  link off the way to the root; what such a link does when the copy moves it is not followed further.
- Tables.LinkLandsOnTarget: does not cover a directory and name that together fill the buffer, where the
  formatted path is cut off.
- Engine.Deinstaller: needs a non-empty list, because the loop counts an unsigned index down from
  length - 1 and looks at an item before it tests; the list is a C array, which cannot be empty.
- ThenCheck.InstallThenCheck: speaks of files and directories; the check of a link item looks at what
  the link leads to, which installation does not determine.
- `install_init` with its suffix file, `install-win32.c`, messages and callbacks.
- LinkOnce.LinkedAtMostOnce: assumes that no locker ends before its command, which is shown to be needed,
  and that a killed command takes its compiler and linker with it. In the source these are children of
  the shell that runs sd-compile; when only that shell is killed they can go on writing after the lock is
  released.
- BuildOnce.RunsComplete: assumes in addition that no command is killed and that a failed link leaves no
  result file (`KilledBuildPasses`, `LeftoverPasses`). Process identifiers are not reused.
- Completion.BuildCompletes: says that there is such a run, not that every fair run is one; that none gets
  stuck is NoDeadlock.SomebodyCanMove.
- `sd-clean` beside a running build, the cached `sd-adaversion.out`, and the scripts run under a lock
  of their own that build nothing; a program counts as built by its link, its object file is not
  modelled.
- Address wrap-around, storage exhaustion, and `size_t` overflow in the command flattener; shell
  metacharacters in arguments other than the single quote, and the double quote as Windows reads it.
- The Unbounded_String and Allocated_Pointer_Array_t variants, which only wrap the modelled ones.
- `c_string-conf.c`, the other sysdeps probes, and the build scripts: finite tables and plumbing.
