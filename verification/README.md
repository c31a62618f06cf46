# collectd-graph-generator: the rrdtool command builder

collectd-graph-generator turns the round-robin databases that collectd
writes (`<input_dir>/processes-<name>/ps_rss.rrd`, `<input_dir>/memory/memory-<type>.rrd`)
into PNG graphs by running `rrdtool graph`, on the local machine or on a
remote host reached with `ssh`/`scp`. This project models the part that
builds those commands:

- the input locator `[user@host:]path` and how it is split;
- the `GraphArguments` accumulator: one *slot* of `DEF`/`LINE` arguments
  per output image, `new_graph` opening a slot and `push` extending the
  last one;
- the processes plugin: listing `processes-*` directories, filtering them,
  cutting them into groups of at most `max_processes`, one image per group,
  colours restarting in every image;
- the memory plugin: checking that every requested type's data file
  exists, then drawing all types in one new image;
- the newer `Rrdtool` builder (`src/rrdtool/rrdtool.rs`), which runs the
  selected plugins in order, and the older self-contained one
  (`src/rrdtool.rs`), which draws processes only;
- compiling one argument vector per slot (`build_rrdtool_args`), naming the
  output files (`get_output_filename`), and running the vectors locally or
  over ssh, stopping at the first failure (`exec`).

Modules, one per source file (plus `Text`, `Common` and `Commands` for what
both builders share):

| module | file | source | flavour |
|---|---|---|---|
| `Wrappers` | wrappers.dfy | `Option`, `Result` | values |
| `Text` | text.dfy | `split_whitespace`, `rfind`, `strip_prefix`, `split`, `to_string`, `Path::join` | functions |
| `Common` | common.dfy | `Target`, `COLORS`, errors, panics, the file systems | values |
| `Locator` | locator.dfy | `parse_input_path` | function |
| `GraphArgs` | graph_arguments.dfy | src/rrdtool/graph_arguments.rs | class `GraphArguments` over `seq` fields |
| `ProcessesData` | processes_data.dfy | src/processes/processes_data.rs | functions |
| `ProcessNames` | processes_names.dfy | src/processes/processes_names.rs | functions |
| `Processes` | processes.dfy | src/processes/processes.rs | methods with loops, proved against functions of the slots |
| `MemoryTypes` | memory_type.dfy | src/memory/memory_type.rs | functions |
| `Memory` | memory.dfy | src/memory/memory.rs | methods with loops, proved against functions of the slots |
| `Commands` | commands.dfy | `build_rrdtool_args`, `get_output_filename`, `exec_*` of both builders | methods with loops, proved against functions |
| `Rrdtool` | rrdtool.dfy | src/rrdtool/rrdtool.rs | class `Rrdtool` |
| `LegacyRrdtool` | legacy_rrdtool.dfy | src/rrdtool.rs | class `Rrdtool` |

Every imperative operation (`push`, `new_graph`, `with_process_rss`, the
plugin loops, `with_plugins`, `build_rrdtool_args`, `exec_local`,
`exec_remote`) is a method whose `ensures` ties the new state or result to a
function of the old state (`AddToCurrentSlot`, `PushImages`, `MemorySlot`,
`RunPlugins`, `Compiled`, `Outcome` of a plan). The lemmas about those
functions state what the program promises: for example, the slots only grow
at their end; image i holds the i-th group of processes; file names are
distinct; a run stops at the first failing call; and the arguments can be
read back.

The panics of the plugins and of `exec` (`assert!`, `unwrap`, an index out
of range) are the status `Aborted(reason)`. The model decides each before any
state changes, and the slots are then unchanged. Where the source would panic
part-way, after some pushes, this differs: see "Left out". `get_output_filename`
and `build_rrdtool_args` on their own require what keeps them from panicking
(`Compilable`); `exec`, which calls them before its first external call,
reports their panic as `Aborted(NoExtension(..))` or `Aborted(NoScratchFile)`.
An `anyhow` error is `Failed(error)`.

## Model

| member | source | states |
|---|---|---|
| Text.FirstWord | src/rrdtool/graph_arguments.rs:39 | `split_whitespace().next()`: a non-empty, whitespace-free substring starting at the first non-whitespace character and ending at whitespace or the end |
| Text.FirstWordOfPrefix | src/rrdtool/graph_arguments.rs:39 | a word followed by whitespace or nothing is its own first word |
| Text.NatToString | src/rrdtool/graph_arguments.rs:84 | `to_string` of an integer: digits only, no leading zero unless 0 |
| Text.DecimalRoundTrip | src/rrdtool/rrdtool.rs:111-136 | the decimal text of a number reads back as that number |
| Text.NatToStringInjective | src/rrdtool/rrdtool.rs:322 | different numbers render differently |
| Text.LastIndexOf | src/rrdtool/rrdtool.rs:324 | `rfind`: None exactly when the character is absent, else the position of its last occurrence |
| Text.StripPrefix | src/processes/processes_names.rs:38 | `strip_prefix`: Some exactly when the prefix starts the string, and prefix + result is the string |
| Text.Split | src/processes/processes_data.rs:75 | `split(',')`: at least one piece, no piece holds the separator |
| Text.JoinSplit | src/processes/processes_data.rs:73-78 | joining the pieces with the separator gives the input back |
| Text.SplitLength | src/processes/processes_data.rs:73-78 | one piece per separator, plus one |
| Text.SplitJoin | src/processes/processes_data.rs:73-78 | splitting a join of separator-free pieces gives the pieces back |
| Text.JoinPath | src/processes/processes.rs:20-22 | `Path::join`: the joined path ends with the name; an absolute name replaces the directory; a relative one follows it directly when the directory is empty or ends in `/`, and after exactly one `/` otherwise |
| Common.AppendOnlyTransitive | src/rrdtool/graph_arguments.rs:25-58 | "only the last slot grew, new slots may follow" composes over successive steps |
| Common.GrowsTransitive | src/rrdtool/graph_arguments.rs:25-58 | "every slot only grew at its end" composes |
| Locator.ParseInputPath | src/rrdtool/rrdtool.rs:334-376 | Remote exactly when the string has an `@` before a `:`, then user, host and path are the greedy captures; otherwise Local with the whole string as path; user and host set exactly when Remote |
| Locator.GreedySplitUnique | src/rrdtool/rrdtool.rs:343-344 | the greedy reading of `user@host:path` is unique |
| Locator.ParseRemoteParts | src/rrdtool/rrdtool.rs:334-376 | `user@host:path` with no `@` in host and no `:` in path parses back into exactly those parts |
| Locator.ParseLocalExample | src/rrdtool/rrdtool.rs:440-450 | `/some/local/path` is Local, kept as is |
| Locator.ParseRemoteExamples | src/rrdtool/rrdtool.rs:453-476 | `marcin@localhost:/some/remote/path` and `twardak@10.0.0.52:/some/remote/path/` give user, host or address, and path with its trailing `/` |
| GraphArgs.BuildGraphDef | src/rrdtool/graph_arguments.rs:60-74 | a `DEF` argument starts with `DEF:<name>=`, ends with `:value:AVERAGE`, and holds the path in between, quoted for Remote (read back by `DefRoundTrip`) |
| GraphArgs.BuildGraphLine | src/rrdtool/graph_arguments.rs:76-91 | a `LINE` argument starts with `LINE<thickness>:<name>`, ends with `:"<legend>"`, and holds the colour in between (read back by `LineRoundTrip`) |
| GraphArgs.DefRoundTrip | src/rrdtool/graph_arguments.rs:60-74 | a `DEF` argument reads back into the symbolic name and path it was built from, quoted for Remote |
| GraphArgs.LineRoundTrip | src/rrdtool/graph_arguments.rs:76-91 | a `LINE` argument reads back into its thickness, name, colour and legend |
| GraphArgs.ParseGraphLineOf | src/rrdtool/graph_arguments.rs:83-90 | reading a `LINE` assembled from digits, name+colour and legend |
| GraphArgs.BuildGraphLineParts | src/rrdtool/graph_arguments.rs:83-90 | the layout of a `LINE` argument: `LINE`, thickness, `:`, name and colour, `:`, quoted legend |
| GraphArgs.PaletteColorsReadable | src/rrdtool/rrdtool.rs:68-73 | every palette colour has 7 characters and no `:`, so `LineRoundTrip` applies to every drawn line |
| GraphArgs.AppendLast | src/rrdtool/graph_arguments.rs:56-57 | same slot count, the last slot extended by exactly the arguments, others unchanged |
| GraphArgs.AppendLastOf | src/rrdtool/graph_arguments.rs:56-57 | appending to the last slot of `s + [x]` extends `x` |
| GraphArgs.AddToCurrentSlotShape | src/rrdtool/graph_arguments.rs:44-57 | `push` opens a slot only when there is none and extends only the last slot, by exactly its pair |
| GraphArgs.NewGraphShape | src/rrdtool/graph_arguments.rs:25-27 | `new_graph` adds one empty slot and changes no other |
| GraphArgs.FlattenPairs | src/rrdtool/graph_arguments.rs:56-57 | pairs laid one after the other: pair j at positions 2j and 2j+1 |
| GraphArgs.FlattenPairAt | src/rrdtool/graph_arguments.rs:56-57 | the two arguments of pair j are elements 2j and 2j+1 |
| GraphArgs.GraphArguments.constructor | src/rrdtool/graph_arguments.rs:17-22 | keeps the target, no slots |
| GraphArgs.GraphArguments.NewGraph | src/rrdtool/graph_arguments.rs:25-27 | one empty slot appended |
| GraphArgs.GraphArguments.Push | src/rrdtool/graph_arguments.rs:38-58 | the `DEF` and `LINE` of the legend's first word go onto the last slot, opened when there is none; a blank legend is excluded (the source panics) |
| GraphArgs.PushExample | src/rrdtool/graph_arguments.rs:147-161 | one push on a new accumulator gives one slot of exactly the two arguments |
| ProcessesData.ParseProcesses | src/processes/processes_data.rs:73-78 | every comma-separated piece, at least one, none holding a comma |
| ProcessesData.ParseProcessesInverse | src/processes/processes_data.rs:73-78 | the pieces joined with `,` are the input, one per comma plus one |
| ProcessesData.ParseProcessesOfJoin | src/processes/processes_data.rs:73-78 | a list of comma-free names is read back from its joined form |
| ProcessesData.ParseProcessesSingle | src/processes/processes_data.rs:85-92 | `firefox` gives `[firefox]` |
| ProcessesData.ParseProcessesThree | src/processes/processes_data.rs:95-102 | `firefox,chrome,dolphin` gives the three names in order |
| ProcessesData.MaxProcessesOrDefault | src/processes/processes_data.rs:53-60 | the given limit, or 20 (one per colour) when none is given |
| ProcessNames.ProcessNames | src/processes/processes_names.rs:33-43 | a name is listed exactly when `processes-<name>` is an entry; no more names than entries |
| ProcessNames.ProcessNamesAppend | src/processes/processes_names.rs:61-65 | listing order is kept: names of `a + b` are those of `a` then those of `b` |
| ProcessNames.ProcessNamesSkips | src/processes/processes_names.rs:63 | an entry without the prefix contributes nothing |
| ProcessNames.ProcessNamesKeeps | src/processes/processes_names.rs:63 | a `processes-` entry contributes its name |
| ProcessNames.ProcessNamesOfDirectories | src/processes/processes_names.rs:81-113 | the directories of any names give back exactly those names, in order, spaces included |
| ProcessNames.ProcessNamesExample | src/processes/processes_names.rs:81-113 | a listing with `memory` and `processes-rust language server` gives `firefox`, `rust language server` |
| ProcessNames.GetFromLocal | src/processes/processes_names.rs:30-46 | an error exactly when the directory cannot be read; otherwise a name exactly when its directory exists |
| ProcessNames.GetFromRemote | src/processes/processes_names.rs:49-70 | the same over the lines of the remote `ls` |
| ProcessNames.Get | src/processes/processes_names.rs:17-27 | the listing of the machine the target names, error exactly when it cannot be listed |
| Processes.Keep | src/processes/processes.rs:101-107 | a process is kept exactly when it is listed and allowed; no more than listed |
| Processes.FilterProcesses | src/processes/processes.rs:95-109 | None keeps the listing; Some keeps exactly the listed processes that are allowed |
| Processes.KeepSubsequence | src/processes/processes.rs:101-107 | the kept processes are a subsequence of the listing |
| Processes.FilterProcessesOrdered | src/processes/processes.rs:95-109 | filtering keeps the listing order |
| Processes.KeepAppend | src/processes/processes.rs:101-107 | filtering a concatenation filters each part |
| Processes.FilterProcessesExample | src/processes/processes.rs:218-241 | the source's filter test: `notes` does not select `notepad`; `firefox`, `dolphin` stay in listing order |
| Processes.ChunkCount | src/processes/processes.rs:68-69 | ceil(n/m) images: enough for all processes, not one too many; 0 when m = 0 |
| Processes.Chunk | src/processes/processes.rs:76-79 | image i's processes: non-empty, at most m |
| Processes.ChunkBounds | src/processes/processes.rs:76-77 | image i holds positions i·m up to min((i+1)·m, n) |
| Processes.ChunksUpToPrefix | src/processes/processes.rs:73-88 | the first c images hold the first c·m processes, or all |
| Processes.ChunksCover | src/processes/processes.rs:73-88 | the images together hold every process once, in order; all but the last hold exactly m |
| Processes.ChunkCountExample | src/processes/processes.rs:169-202 | five processes at two per image make three images |
| Processes.ProcessPathShape | src/processes/processes.rs:20-22 | the data file is `<dir>/processes-<name>/ps_rss.rrd` |
| Processes.PairOf | src/processes/processes.rs:20-29 | a process's pair is the `DEF` of its first word over its data file and its `LINE3` with the full name as legend |
| Processes.ProcessPairExample | src/processes/processes.rs:121-142 | the source's `firefox` test: `DEF:firefox=/some/path/processes-firefox/ps_rss.rrd:value:AVERAGE` and `LINE3:firefox#00ff00:"firefox"` |
| Processes.ProcessPairSpacesExample | src/processes/processes.rs:145-166 | the `rust language server` test: symbolic name `rust`, full name as legend and in the path |
| Processes.FirstBlank | src/processes/processes.rs:79-85 | None exactly when every name has a word; else a blank name of the list |
| Processes.ChunkArgsLength | src/processes/processes.rs:79-87 | two arguments per process of an image |
| Processes.ChunkArgsAt | src/processes/processes.rs:79-87 | the j-th process of every image is at 2j, 2j+1 and drawn in `COLORS[j]`: colours restart per image |
| Processes.ChunkDefAt | src/processes/processes.rs:79-87 | the j-th `DEF` of an image binds the j-th process's first word to its data file |
| Processes.SharedFirstWordClash | src/processes/processes.rs:79-87 | two processes of one image whose names share a first word (`rust language server`, `rust analyzer`) get `DEF`s of the same symbolic name, which rrdtool refuses |
| Processes.RssStepShape | src/processes/processes.rs:24-29 | `with_process_rss` opens a slot exactly when there are at most `no`, and extends only the last slot |
| Processes.PushAllExtend | src/processes/processes.rs:79-87 | an image whose slot exists goes whole onto the end of the last slot |
| Processes.PushAllOpen | src/processes/processes.rs:79-87 | an image numbered right after the last slot gets a new slot holding exactly its arguments |
| Processes.PushAllAppendOnly | src/processes/processes.rs:79-87 | one image's pushes only extend the last slot or add one |
| Processes.Layout | src/processes/processes.rs:73-88 | one slot per image |
| Processes.LayoutAt | src/processes/processes.rs:73-88 | slot i holds image i's arguments |
| Processes.PushImagesFresh | src/processes/processes.rs:73-88 | from no slots, image i lands in slot i |
| Processes.PushImagesAppendOnly | src/processes/processes.rs:73-88 | whatever was there, pushing images never changes a slot but the last |
| Processes.FirstImageJoinsLastSlot | src/processes/processes.rs:24-29 | after an earlier plugin's slot, image 0 is appended to that slot, not given its own |
| Processes.PushImagesOpen | src/processes/processes.rs:24-29 | an image numbered after the last slot opens its own slot |
| Processes.PushImagesAfterOne | src/processes/processes.rs:73-88 | after exactly one earlier slot: image 0 joins it, every later image gets its own slot |
| Processes.Images | src/processes/processes.rs:73-88 | ceil(n/m) images, image i with as many pairs as group i has processes |
| Processes.ImagesNonEmpty | src/processes/processes.rs:73-88 | every image has a process; there is one unless there are no processes |
| Processes.ProcessesSlotsFresh | src/processes/processes.rs:73-88 | from no slots: ceil(n/m) slots, slot i holding exactly group i's arguments |
| Processes.ProcessesSlotsAppendOnly | src/processes/processes.rs:37-91 | the plugin only appends |
| Processes.ProcessesJoinLastSlot | src/processes/processes.rs:24-26 | the first group is appended to an earlier plugin's slot |
| Processes.FiveProcessesThreeSlots | src/processes/processes.rs:169-202 | the source's test: five processes at two per image give three slots, of 4, 4 and 2 arguments |
| Processes.ProcessesStatus | src/processes/processes.rs:41-66 | a failed listing is that error; an empty listing is `NoProcesses`; otherwise no error, and a panic exactly when 20 or more processes are chosen or a blank name would be pushed |
| Processes.WithProcessRss | src/processes/processes.rs:11-32 | opens a slot when there are at most `graphArgsNo`, then pushes the process's pair, thickness 3 |
| Processes.DrawImage | src/processes/processes.rs:79-87 | the processes of one image, the j-th in `COLORS[j]` |
| Processes.DrawImages | src/processes/processes.rs:73-88 | image i holds the i-th group |
| Processes.EnterPlugin | src/processes/processes.rs:37-91 | status as `ProcessesStatus`; slots unchanged unless Done, then every group's image pushed |
| MemoryTypes.FromStr | src/memory/memory_type.rs:48-58 | a type is accepted only under its own name |
| MemoryTypes.ToFilename | src/memory/memory_type.rs:31-40 | every data file is `memory-<name>.rrd`, named after the type (injective by `ToFilenameInjective`) |
| MemoryTypes.ToString | src/memory/memory_type.rs:63-72 | a type's name is non-empty and made of lower-case letters and `_`, so it serves as a symbolic name (read back by `FromStrToString`) |
| MemoryTypes.FilenameContainsName | src/memory/memory_type.rs:108-134 | the file name holds the type name right after `memory-` |
| MemoryTypes.FromStrToString | src/memory/memory_type.rs:95-105 | every type is read back from its name |
| MemoryTypes.FromStrAcceptsOnlyNames | src/memory/memory_type.rs:48-58 | `from_str` succeeds exactly on the six names |
| MemoryTypes.ToStringInjective | src/memory/memory_type.rs:63-72 | no two types share a name |
| MemoryTypes.ToFilenameInjective | src/memory/memory_type.rs:31-40 | no two types share a data file |
| MemoryTypes.FromStrRejectsOther | src/memory/memory_type.rs:95-105 | `some other` is rejected |
| Memory.VerifyLocal | src/memory/memory.rs:91-106 | succeeds exactly when every type's file exists in the memory directory, else `MissingDataFile` |
| Memory.VerifyRemote | src/memory/memory.rs:67-89 | an unlistable directory is an error; otherwise succeeds exactly when every type's file is listed |
| Memory.VerifyDataFilesExist | src/memory/memory.rs:49-65 | succeeds exactly when every type's data file exists on the machine the target names, whose memory directory must be listable when remote (`AllPresent`) |
| Memory.VerifyTargetsAgree | src/memory/memory.rs:49-65 | on a listable directory the local and remote checks agree |
| Memory.VerifyExamples | src/memory/memory.rs:130-175 | the source's tests: with cached, free and used present, free, cached, used passes and used, slab_recl fails, locally and remotely |
| Memory.VerifyRemoteUnlisted | src/memory/memory.rs:73-76 | an unlistable remote directory fails even for no types; locally no types always pass |
| Memory.NameIsWord | src/memory/memory.rs:33 | every type name is one word, so its symbolic name is the whole name |
| Memory.MemoryPairOf | src/memory/memory.rs:32-40 | a type's pair: `DEF` of its name over its data file, `LINE5` with its name as legend |
| Memory.MemorySlotAt | src/memory/memory.rs:29-41 | the new slot holds two arguments per type, the i-th type at 2i, 2i+1, in `COLORS[i]`, thickness 5 |
| Memory.MemorySlotEmpty | src/memory/memory.rs:29-41 | no types: an empty slot |
| Memory.MemoryStatus | src/memory/memory.rs:18-34 | a failed check is that error; more than 20 types panic; otherwise Done |
| Memory.PushSeries | src/memory/memory.rs:31-41 | the loop fills the new slot with exactly the memory slot |
| Memory.EnterPlugin | src/memory/memory.rs:12-46 | status as `MemoryStatus`; unchanged slots unless Done, then exactly one slot appended |
| Commands.LastDot | src/rrdtool/rrdtool.rs:324 | the position of the last `.` |
| Commands.Appendix | src/rrdtool/rrdtool.rs:322 | `_<n>`: starts with `_`, no `.` |
| Commands.OutputFilename | src/rrdtool/rrdtool.rs:317-331 | one image keeps the name; several get a longer name that still has a `.` |
| Commands.OutputFilenameParts | src/rrdtool/rrdtool.rs:317-331 | with several images: the original stem, `_<index+1>`, the original extension |
| Commands.AppendixInjective | src/rrdtool/rrdtool.rs:322 | different numbers give different appendices |
| Commands.OutputFilenameInjective | src/rrdtool/rrdtool.rs:317-331 | different images of a run get different files |
| Commands.OutputFilenameNeverPlain | src/rrdtool/rrdtool.rs:317-331 | with several images no file is the unsuffixed name |
| Commands.FiveImagesNamed | tests/processes/multiple_processes_common.rs:106-146 | five images get five distinct names `_1` to `_5`, none the plain name |
| Commands.OutputFilenameOf | src/rrdtool/rrdtool.rs:324 | `_<n>` goes before the extension, which is the last `.` and what follows |
| Commands.OutputFilenameExamples | src/rrdtool/rrdtool.rs:479-506 | the source's tests, for any stem: one image keeps its name; images 1 and 3 of three get `_1.png`, `_3.png` |
| Commands.CompilePanic | src/rrdtool/rrdtool.rs:269-331 | `build_rrdtool_args` panics exactly when the builder is not `Compilable`: `NoExtension` exactly for several images and no `.` in the name (`rfind(".").unwrap()`), otherwise `NoScratchFile` for a remote image with no scratch name |
| Commands.Compiled | src/rrdtool/rrdtool.rs:269-314 | one command per slot |
| Commands.CompiledShape | src/rrdtool/rrdtool.rs:269-314 | command i is the subcommand, the output, the common arguments and slot i, in this order |
| Commands.RemoteOutputsShared | src/rrdtool/rrdtool.rs:289-295 | remotely every command writes the same scratch file |
| Commands.LocalOutputsDistinct | src/rrdtool/rrdtool.rs:282-288 | locally one image uses the given name, several use distinct names |
| Commands.BuildRrdtoolArgs | src/rrdtool/rrdtool.rs:269-314 | the loop builds exactly the compiled commands |
| Commands.FirstFailure | src/rrdtool/rrdtool.rs:179-207 | the steps before it succeed; the step at it fails |
| Commands.StopsAtFirstFailure | src/rrdtool/rrdtool.rs:179-266 | a run attempts a prefix of the plan; Done exactly when all steps succeed; otherwise the last attempted step failed, every earlier one succeeded, and the error is that step's |
| Commands.LocalPlan | src/rrdtool/rrdtool.rs:179-207 | one `rrdtool` call per command |
| Commands.RemotePlan | src/rrdtool/rrdtool.rs:210-266 | two calls per command |
| Commands.RemotePlanAt | src/rrdtool/rrdtool.rs:210-266 | call 2i is `ssh user@host rrdtool <command i>`, call 2i+1 is `scp user@host:<scratch> <file i>` |
| Commands.RanStep | src/rrdtool/rrdtool.rs:179-266 | a successful call extends the run |
| Commands.RanIntoFailure | src/rrdtool/rrdtool.rs:179-266 | a failing call ends the run with its error, having been attempted |
| Commands.RanThrough | src/rrdtool/rrdtool.rs:179-266 | a run through every call succeeds |
| Commands.Attempt | src/rrdtool/rrdtool.rs:185-202 | one call made and recorded; on failure the outcome is that step's error |
| Commands.ExecLocal | src/rrdtool/rrdtool.rs:179-207 | the status and the calls made are those of the local plan |
| Commands.ExecRemote | src/rrdtool/rrdtool.rs:210-266 | the status and the calls made are those of the remote plan |
| Rrdtool.PluginFromStr | src/rrdtool/rrdtool.rs:56-66 | exactly `processes` and `memory` are accepted, each as its plugin |
| Rrdtool.PluginFromStrName | src/rrdtool/rrdtool.rs:56-66 | every plugin is read back from its name |
| Rrdtool.WithContext | src/rrdtool/rrdtool.rs:139-154 | errors are wrapped naming the plugin; Done and panics pass through |
| Rrdtool.ProcessesStep | src/rrdtool/rrdtool.rs:141-145 | no options: panic; when not Done the slots are unchanged; errors name `processes` |
| Rrdtool.MemoryStep | src/rrdtool/rrdtool.rs:146-149 | the same for `memory` |
| Rrdtool.RunPluginsSnoc | src/rrdtool/rrdtool.rs:139-154 | one more plugin runs only when the earlier ones finished |
| Rrdtool.PluginStepAppendOnly | src/rrdtool/rrdtool.rs:139-154 | a plugin only adds to the slots |
| Rrdtool.RunPluginsAppendOnly | src/rrdtool/rrdtool.rs:139-154 | a whole run only adds: no slot but the last existing one changes |
| Rrdtool.RunPluginsStops | src/rrdtool/rrdtool.rs:139-154 | `?`: after a plugin that did not finish, later plugins change nothing |
| Rrdtool.RunPluginsBlames | src/rrdtool/rrdtool.rs:139-154 | a failed run names one of the selected plugins |
| Rrdtool.MemoryStepDone | src/rrdtool/rrdtool.rs:146-149 | a passing memory check appends the memory slot |
| Rrdtool.ProcessesStepDone | src/rrdtool/rrdtool.rs:141-145 | a finished processes plugin leaves its slots |
| Rrdtool.MemoryThenProcesses | src/rrdtool/rrdtool.rs:139-154 | memory then processes: ceil(n/m) slots in all, the first group drawn into the memory image |
| Rrdtool.RunTwo | src/rrdtool/rrdtool.rs:139-154 | the second plugin runs on the first one's slots when it finishes |
| Rrdtool.Rrdtool.constructor | src/rrdtool/rrdtool.rs:75-90 | the locator's parts, `rrdtool`, empty subcommand and name, no arguments, a fresh accumulator for the target |
| Rrdtool.Rrdtool.WithSubcommand | src/rrdtool/rrdtool.rs:93-96 | sets the subcommand |
| Rrdtool.Rrdtool.WithOutputFile | src/rrdtool/rrdtool.rs:99-108 | sets the name; remotely also the scratch image `/tmp/cgg-out.png` |
| Rrdtool.Rrdtool.WithFlag | src/rrdtool/rrdtool.rs:111-136 | appends a flag and its value, which reads back |
| Rrdtool.Rrdtool.WithWidth | src/rrdtool/rrdtool.rs:111-115 | appends `-w <width>` |
| Rrdtool.Rrdtool.WithHeight | src/rrdtool/rrdtool.rs:118-122 | appends `-h <height>` |
| Rrdtool.Rrdtool.WithStart | src/rrdtool/rrdtool.rs:125-129 | appends `--start <start>` |
| Rrdtool.Rrdtool.WithEnd | src/rrdtool/rrdtool.rs:132-136 | appends `--end <end>` |
| Rrdtool.Rrdtool.WithCustomArgument | src/rrdtool/rrdtool.rs:157-160 | appends the argument |
| Rrdtool.Rrdtool.RunProcesses | src/rrdtool/rrdtool.rs:141-145 | the slots and status are those of `ProcessesStep` |
| Rrdtool.Rrdtool.RunMemory | src/rrdtool/rrdtool.rs:146-149 | the slots and status are those of `MemoryStep` |
| Rrdtool.Rrdtool.RunPlugin | src/rrdtool/rrdtool.rs:140-150 | one iteration: the plugin's step |
| Rrdtool.Rrdtool.WithPlugins | src/rrdtool/rrdtool.rs:139-154 | the slots and status are those of `RunPlugins` over the selected list |
| Rrdtool.Rrdtool.GetOutputFilename | src/rrdtool/rrdtool.rs:317-331 | one slot: the name; otherwise the stem, `_<index+1>` and the extension |
| Rrdtool.Rrdtool.BuildRrdtoolArgs | src/rrdtool/rrdtool.rs:269-314 | the compiled commands of the builder's state |
| Rrdtool.Rrdtool.Plan | src/rrdtool/rrdtool.rs:179-266 | one call per image locally, two (ssh, scp) remotely |
| Rrdtool.Rrdtool.Exec | src/rrdtool/rrdtool.rs:163-331 | when compiling panics (`CompilePanic`), that panic with no call made; otherwise the status and the calls made are those of the builder's plan |
| Rrdtool.BuilderExample | src/rrdtool/rrdtool.rs:393-407 | the builder test, for any start and end: `rrdtool`, `graph`, `out.png`, `--start`, `--end` in order, no slots |
| Rrdtool.RemoteOutputExample | src/rrdtool/rrdtool.rs:431-437 | a remote builder renders into the scratch image and keeps the requested name |
| LegacyRrdtool.LegacyRssStep | src/rrdtool.rs:319-356 | opens a slot when there are at most `no`, extends slot `no` (not the last) by the pair, other slots unchanged |
| LegacyRrdtool.TwoPushes | src/rrdtool.rs:336-353 | the two separate pushes equal one step with the pair |
| LegacyRrdtool.LegacyPushAll | src/rrdtool.rs:152-160 | an image's pushes leave max(count, no+1) slots |
| LegacyRrdtool.LegacyPushAllAt | src/rrdtool.rs:152-160 | an image lands whole in slot `no`; every other slot keeps its arguments |
| LegacyRrdtool.LegacyPushImages | src/rrdtool.rs:146-162 | max(old count, images) slots |
| LegacyRrdtool.LegacyPushImagesAt | src/rrdtool.rs:146-162 | image i goes into slot i, after whatever that slot held |
| LegacyRrdtool.LegacyPushImagesFresh | src/rrdtool.rs:146-162 | from no slots both versions lay image i out in slot i |
| LegacyRrdtool.LegacyFirstImageInFirstSlot | src/rrdtool.rs:332-336 | with slots already there the versions differ: the older draws image 0 into slot 0, the newer into the last slot |
| LegacyRrdtool.LegacyProcessesSlotsFresh | src/rrdtool.rs:122-165 | from no slots: ceil(n/m) slots, slot i holding group i, as in the newer version |
| LegacyRrdtool.LegacyProcessesStatus | src/rrdtool.rs:125-142 | a failed listing is that error; otherwise a panic exactly when 20 or more chosen or a blank name would be pushed |
| LegacyRrdtool.StatusVersions | src/rrdtool.rs:125-142 | the versions agree except on an empty listing, which the older draws as nothing and the newer reports as an error |
| LegacyRrdtool.InlineArguments | src/rrdtool.rs:336-353 | the strings spelled out inline equal the newer `build_graph_def` and `build_graph_line` with thickness 3 |
| LegacyRrdtool.Rrdtool.constructor | src/rrdtool.rs:48-64 | the locator's parts, `rrdtool`, 20 processes per image, no arguments, no slots |
| LegacyRrdtool.Rrdtool.WithSubcommand | src/rrdtool.rs:67-70 | sets the subcommand |
| LegacyRrdtool.Rrdtool.WithOutputFile | src/rrdtool.rs:73-82 | sets the name; remotely also the scratch image |
| LegacyRrdtool.Rrdtool.WithMaxProcesses | src/rrdtool.rs:85-91 | the given limit, or one per colour |
| LegacyRrdtool.Rrdtool.WithFlag | src/rrdtool.rs:94-119 | appends a flag and its value, which reads back |
| LegacyRrdtool.Rrdtool.WithWidth | src/rrdtool.rs:94-98 | appends `-w <width>` |
| LegacyRrdtool.Rrdtool.WithHeight | src/rrdtool.rs:101-105 | appends `-h <height>` |
| LegacyRrdtool.Rrdtool.WithStart | src/rrdtool.rs:108-112 | appends `--start <start>` |
| LegacyRrdtool.Rrdtool.WithEnd | src/rrdtool.rs:115-119 | appends `--end <end>` |
| LegacyRrdtool.Rrdtool.WithCustomArgument | src/rrdtool.rs:168-171 | appends the argument |
| LegacyRrdtool.Rrdtool.WithProcessRss | src/rrdtool.rs:319-356 | the slots become `LegacyRssStep` of the process's pair |
| LegacyRrdtool.Rrdtool.DrawImage | src/rrdtool.rs:152-160 | the processes of one image into slot `no`, the j-th in `COLORS[j]` |
| LegacyRrdtool.Rrdtool.DrawImages | src/rrdtool.rs:146-162 | image i into slot i |
| LegacyRrdtool.Rrdtool.WithProcessesRss | src/rrdtool.rs:122-165 | status as `LegacyProcessesStatus`; slots unchanged unless Done, then every group pushed |
| LegacyRrdtool.Rrdtool.GetOutputFilename | src/rrdtool.rs:304-316 | one slot: the name; otherwise the stem, `_<index+1>` and the extension |
| LegacyRrdtool.Rrdtool.BuildRrdtoolArgs | src/rrdtool.rs:271-301 | the compiled commands of the builder's state |
| LegacyRrdtool.Rrdtool.Plan | src/rrdtool.rs:192-268 | one call per image locally, two (ssh, scp) remotely |
| LegacyRrdtool.Rrdtool.Exec | src/rrdtool.rs:174-316 | when compiling panics (`CompilePanic`), that panic with no call made; otherwise the status and the calls made are those of the builder's plan |
| LegacyRrdtool.BuilderExample | src/rrdtool.rs:491-505 | the builder test, for any start and end |

## Left out

- Files: `remote.rs` (the ssh `ls` helper), `config.rs`, `main.rs`, `lib.rs`, `memory_data.rs` and the command line are not part of this model. A remote listing is an entry of `World.remote`, and the plugins' options arrive as `PluginsConfig`.
- Directory listings, file existence and the exit status of `rrdtool`, `ssh` and `scp` are oracles: the `World` file systems and the `run` predicate. Listing order is the order of the map's sequence. Output capture and `print_process_command_output` are not modelled.
- Logging (`debug!`, `trace!`, `info!`) and the exact texts of error messages are not modelled. Errors are the `Error` datatype, and `.context(..)` is kept only where it names the plugin.
- `ProcessesData.get_processes_data` and `MemoryType::get_memory_types` read clap arguments. Only their defaults are modelled (`MaxProcessesOrDefault`) and the list parsing (`ParseProcesses`, `FromStr`).
- Processes.EnterPlugin: a panic (20 or more processes, or a blank name) is decided before the first push, so the slots are unchanged. The source asserts the count before pushing, but a blank name panics only on reaching it, after the earlier pushes. `LegacyRrdtool.Rrdtool.WithProcessesRss` and `Memory.EnterPlugin` (more than 20 types) are modelled the same way.
- Processes.ChunkCount: the source computes `ceil(len / max_processes)` in floating point and casts to `u32`. With `max_processes = 0` that is `ceil(NaN)` or `ceil(inf)`: `0` for no processes, `u32::MAX` otherwise. That large count makes every group empty, so nothing is drawn; the model uses `0` images for `m = 0`. Drawing the same nothing, it does not spend the empty iterations.
- Commands.BuildRrdtoolArgs, Commands.ExecRemote, Rrdtool.Rrdtool.BuildRrdtoolArgs, LegacyRrdtool.Rrdtool.BuildRrdtoolArgs, Rrdtool.Rrdtool.GetOutputFilename, LegacyRrdtool.Rrdtool.GetOutputFilename: require `Compilable` (a `.` in the output name when there are several images, a scratch name for a remote image) instead of panicking; the panic itself is an outcome of `Exec`, which meets it before any call (`CompilePanic`).
- The symbolic name of a process is the first word of its name, and nothing keeps two names in one image apart: `Processes.SharedFirstWordClash` shows the duplicate `DEF`s, and the rrdtool rejection that follows is a failed call of the `run` oracle.
- Locator.ParseInputPath: requires that the string holds no newline, because the regex `.*` does not cross one. The source also panics on a non-UTF-8 path; that case is not modelled.
- Rrdtool.BuilderExample and LegacyRrdtool.BuilderExample: the builder test is stated for any start and end, with the common arguments as `NatToString` of them rather than the literal digits.
- Commands.OutputFilenameExamples: the output-name tests are stated for any stem followed by `.png`, rather than the literal `some other file`.
- Update in place of the Rust vectors is modelled by reassigning `seq` fields. The accumulator is a class; the older builder's slots are a field of its class.
- The older builder's own listing functions (`get_processes_names_from_*`, src/rrdtool.rs:396-456) do the same as `processes_names::get` and are modelled by `ProcessNames.Get`. The only difference is the error text when the remote `ssh ls` fails.
- `u32`/`u64` settings are natural numbers bounded by subset types. `usize` indices and counts are unbounded naturals, since the counts stay below 20 colours.
