/**
  The newer `Rrdtool` builder: it holds the locator's parts, the rrdtool
  command line settings and a `GraphArguments` accumulator, runs the
  selected plugins in order, compiles one argument vector per image and
  runs them locally or over ssh.
*/
module Rrdtool {
  import opened Wrappers
  import opened Common
  import opened Text
  import opened Locator
  import opened GraphArgs
  import opened ProcessesData
  import opened MemoryTypes
  import Processes
  import Memory
  import ProcessNames
  import opened Commands

  // ---------------------------------------------------------------------------
  // `Plugins`

  /** The collectd plugins the tool can draw. */
  datatype Plugin = ProcessesPlugin | MemoryPlugin

  /** The name a plugin is selected by, also used in its error context. */
  function PluginName(p: Plugin): string {
    match p
    case ProcessesPlugin => "processes"
    case MemoryPlugin => "memory"
  }

  /** `Plugins::from_str`: exactly the two plugin names are accepted. */
  function PluginFromStr(s: string): (r: Option<Plugin>)
    ensures r == Some(ProcessesPlugin) <==> s == "processes"
    ensures r == Some(MemoryPlugin) <==> s == "memory"
    ensures r.None? <==> s != "processes" && s != "memory"
  {
    if s == "processes" then Some(ProcessesPlugin)
    else if s == "memory" then Some(MemoryPlugin)
    else None
  }

  /** Every plugin is read back from its own name. */
  lemma PluginFromStrName(p: Plugin)
    ensures PluginFromStr(PluginName(p)) == Some(p)
  {
  }

  /**
    The plugin selection of the configuration: the plugins in the order to
    run them, and each plugin's options when it was configured.
  */
  datatype PluginsConfig = PluginsConfig(
    plugins: seq<Plugin>,
    processes: Option<ProcessesData>,
    memory: Option<seq<MemoryType>>)

  // ---------------------------------------------------------------------------
  // `with_plugins`, as a function of the slots

  /** `.context("Failed \"<name>\" plugin")`: errors name the plugin, panics pass through. */
  function WithContext(p: Plugin, st: Status): (r: Status)
    ensures r.Done? <==> st.Done?
    ensures r.Aborted? ==> r == st
    ensures st.Failed? ==> r == Failed(PluginFailed(PluginName(p), st.error))
  {
    if st.Failed? then Failed(PluginFailed(PluginName(p), st.error)) else st
  }

  /**
    The processes plugin on the slots `s`: the new slots and the status.
    Selected without options, it panics on `unwrap`; when it does not
    finish, the slots are as they were.
  */
  function ProcessesStep(s: Slots, options: Option<ProcessesData>, target: Target, inputDir: string, world: World)
    : (r: (Slots, Status))
    ensures options.None? ==> r == (s, Aborted(MissingPluginData("processes")))
    ensures !r.1.Done? ==> r.0 == s
    ensures r.1.Failed? ==> r.1.error.PluginFailed? && r.1.error.plugin == "processes"
  {
    if options.None? then (s, Aborted(MissingPluginData(PluginName(ProcessesPlugin))))
    else
      var data := options.value;
      var listing := ProcessNames.Get(target, inputDir, world);
      var st := Processes.ProcessesStatus(listing, data);
      if st.Done? then
        (Processes.ProcessesSlots(s, target, inputDir,
                                  Processes.FilterProcesses(listing.value, data.processesToDraw),
                                  data.maxProcesses), Done)
      else (s, WithContext(ProcessesPlugin, st))
  }

  /** The memory plugin on the slots `s`, in the same terms. */
  function MemoryStep(s: Slots, options: Option<seq<MemoryType>>, target: Target, inputDir: string, world: World)
    : (r: (Slots, Status))
    ensures options.None? ==> r == (s, Aborted(MissingPluginData("memory")))
    ensures !r.1.Done? ==> r.0 == s
    ensures r.1.Failed? ==> r.1.error.PluginFailed? && r.1.error.plugin == "memory"
  {
    if options.None? then (s, Aborted(MissingPluginData(PluginName(MemoryPlugin))))
    else
      var types := options.value;
      var memoryDir := Memory.MemoryDir(inputDir);
      var st := Memory.MemoryStatus(Memory.VerifyDataFilesExist(target, memoryDir, types, world), types);
      if st.Done? then (s + [Memory.MemorySlot(target, memoryDir, types)], Done)
      else (s, WithContext(MemoryPlugin, st))
  }

  function PluginStep(s: Slots, p: Plugin, config: PluginsConfig, target: Target, inputDir: string, world: World)
    : (Slots, Status)
  {
    match p
    case ProcessesPlugin => ProcessesStep(s, config.processes, target, inputDir, world)
    case MemoryPlugin => MemoryStep(s, config.memory, target, inputDir, world)
  }

  /** The plugins in list order, stopping at the first that does not finish. */
  function RunPlugins(s: Slots, plugins: seq<Plugin>, config: PluginsConfig, target: Target, inputDir: string,
                      world: World): (Slots, Status)
  {
    if plugins == [] then (s, Done)
    else
      var k := |plugins| - 1;
      var r := RunPlugins(s, plugins[..k], config, target, inputDir, world);
      if !r.1.Done? then r else PluginStep(r.0, plugins[k], config, target, inputDir, world)
  }

  lemma RunPluginsSnoc(s: Slots, plugins: seq<Plugin>, config: PluginsConfig, target: Target, inputDir: string,
                       world: World, k: nat)
    requires k < |plugins|
    ensures var r := RunPlugins(s, plugins[..k], config, target, inputDir, world);
      RunPlugins(s, plugins[..k + 1], config, target, inputDir, world)
        == if !r.1.Done? then r else PluginStep(r.0, plugins[k], config, target, inputDir, world)
  {
    assert plugins[..k + 1][..k] == plugins[..k];
  }

  /** Plugins only add: no existing slot but the last one changes. */
  lemma PluginStepAppendOnly(s: Slots, p: Plugin, config: PluginsConfig, target: Target, inputDir: string,
                             world: World)
    ensures AppendOnly(s, PluginStep(s, p, config, target, inputDir, world).0)
  {
    var r := PluginStep(s, p, config, target, inputDir, world);
    if r.0 == s || p.MemoryPlugin? {
      assert Grows(s, r.0) by {
        forall i | 0 <= i < |s| ensures s[i] <= r.0[i] {
          assert r.0[i] == s[i];
        }
      }
    } else {
      var data := config.processes.value;
      var listing := ProcessNames.Get(target, inputDir, world);
      Processes.ProcessesSlotsAppendOnly(s, target, inputDir,
                                         Processes.FilterProcesses(listing.value, data.processesToDraw),
                                         data.maxProcesses);
    }
  }

  /** A whole run of plugins only adds: slots before the last one are never touched. */
  lemma {:induction false} RunPluginsAppendOnly(s: Slots, plugins: seq<Plugin>, config: PluginsConfig,
                                                target: Target, inputDir: string, world: World)
    ensures AppendOnly(s, RunPlugins(s, plugins, config, target, inputDir, world).0)
  {
    if plugins == [] {
      assert Grows(s, s) by {
        forall i | 0 <= i < |s| ensures s[i] <= s[i] { }
      }
    } else {
      var k := |plugins| - 1;
      RunPluginsAppendOnly(s, plugins[..k], config, target, inputDir, world);
      var r := RunPlugins(s, plugins[..k], config, target, inputDir, world);
      if r.1.Done? {
        PluginStepAppendOnly(r.0, plugins[k], config, target, inputDir, world);
        AppendOnlyTransitive(s, r.0, RunPlugins(s, plugins, config, target, inputDir, world).0);
      }
    }
  }

  /**
    `?` stops the loop: once a prefix of the plugins did not finish, the
    plugins after it change neither the slots nor the status.
  */
  lemma {:induction false} RunPluginsStops(s: Slots, plugins: seq<Plugin>, more: seq<Plugin>, config: PluginsConfig,
                                           target: Target, inputDir: string, world: World)
    requires !RunPlugins(s, plugins, config, target, inputDir, world).1.Done?
    ensures RunPlugins(s, plugins + more, config, target, inputDir, world)
         == RunPlugins(s, plugins, config, target, inputDir, world)
  {
    if more == [] {
      assert plugins + more == plugins;
    } else {
      var k := |more| - 1;
      RunPluginsStops(s, plugins, more[..k], config, target, inputDir, world);
      assert (plugins + more)[..|plugins + more| - 1] == plugins + more[..k];
    }
  }

  /** A run fails only with an error naming one of the plugins of the list. */
  lemma {:induction false} RunPluginsBlames(s: Slots, plugins: seq<Plugin>, config: PluginsConfig,
                                            target: Target, inputDir: string, world: World)
    ensures var st := RunPlugins(s, plugins, config, target, inputDir, world).1;
      st.Failed? ==> exists p :: p in plugins && st.error.PluginFailed? && st.error.plugin == PluginName(p)
  {
    if plugins != [] {
      var k := |plugins| - 1;
      RunPluginsBlames(s, plugins[..k], config, target, inputDir, world);
      var r := RunPlugins(s, plugins[..k], config, target, inputDir, world);
      if !r.1.Done? && r.1.Failed? {
        var p :| p in plugins[..k] && r.1.error.PluginFailed? && r.1.error.plugin == PluginName(p);
        assert p in plugins;
      } else if r.1.Done? {
        assert plugins[k] in plugins;
      }
    }
  }

  /** The memory plugin, when its check passes, appends its slot. */
  lemma MemoryStepDone(s: Slots, config: PluginsConfig, target: Target, inputDir: string, world: World)
    requires config.memory.Some?
    requires var types := config.memory.value;
      Memory.MemoryStatus(Memory.VerifyDataFilesExist(target, Memory.MemoryDir(inputDir), types, world), types).Done?
    ensures |config.memory.value| <= |COLORS|
    ensures PluginStep(s, MemoryPlugin, config, target, inputDir, world)
         == (s + [Memory.MemorySlot(target, Memory.MemoryDir(inputDir), config.memory.value)], Done)
  {
  }

  /** The processes plugin, when it finishes, pushes the images of the chosen processes. */
  lemma ProcessesStepDone(s: Slots, config: PluginsConfig, target: Target, inputDir: string, world: World)
    requires config.processes.Some?
    requires Processes.ProcessesStatus(ProcessNames.Get(target, inputDir, world), config.processes.value).Done?
    ensures var listing := ProcessNames.Get(target, inputDir, world);
      var data := config.processes.value;
      var chosen := Processes.FilterProcesses(listing.value, data.processesToDraw);
      && listing.Ok? && |chosen| < |COLORS| && (data.maxProcesses > 0 ==> Processes.AllHaveWords(chosen))
      && PluginStep(s, ProcessesPlugin, config, target, inputDir, world)
         == (Processes.ProcessesSlots(s, target, inputDir, chosen, data.maxProcesses), Done)
  {
  }

  /**
    Memory before processes: the memory image is the last slot when the
    processes plugin starts, so the first group of processes is drawn into
    the memory image and only the later groups get images of their own.
  */
  lemma MemoryThenProcesses(types: seq<MemoryType>, data: ProcessesData, target: Target, inputDir: string,
                            world: World)
    requires Memory.MemoryStatus(Memory.VerifyDataFilesExist(target, Memory.MemoryDir(inputDir), types, world), types).Done?
    requires Processes.ProcessesStatus(ProcessNames.Get(target, inputDir, world), data).Done?
    requires Processes.FilterProcesses(ProcessNames.Get(target, inputDir, world).value, data.processesToDraw) != []
    requires data.maxProcesses > 0
    ensures var chosen := Processes.FilterProcesses(ProcessNames.Get(target, inputDir, world).value, data.processesToDraw);
      var config := PluginsConfig([MemoryPlugin, ProcessesPlugin], Some(data), Some(types));
      var r := RunPlugins([], config.plugins, config, target, inputDir, world);
      && r.1 == Done
      && |r.0| == Processes.ChunkCount(|chosen|, data.maxProcesses)
      && r.0[0] == Memory.MemorySlot(target, Memory.MemoryDir(inputDir), types)
                   + Processes.ChunkArgs(target, inputDir, Processes.Chunk(chosen, data.maxProcesses, 0))
  {
    var config := PluginsConfig([MemoryPlugin, ProcessesPlugin], Some(data), Some(types));
    var chosen := Processes.FilterProcesses(ProcessNames.Get(target, inputDir, world).value, data.processesToDraw);
    var m := data.maxProcesses;
    var memSlot := Memory.MemorySlot(target, Memory.MemoryDir(inputDir), types);
    RunTwo([], MemoryPlugin, ProcessesPlugin, config, target, inputDir, world);
    MemoryStepDone([], config, target, inputDir, world);
    assert [] + [memSlot] == [memSlot];
    ProcessesStepDone([memSlot], config, target, inputDir, world);
    var images := Processes.Images(target, inputDir, chosen, m);
    Processes.ImagesNonEmpty(target, inputDir, chosen, m);
    Processes.PushImagesAfterOne(memSlot, images);
    assert images[0] == Processes.ChunkPairs(target, inputDir, Processes.Chunk(chosen, m, 0));
  }

  /** Two plugins: the second runs on the first one's slots when the first finishes. */
  lemma RunTwo(s: Slots, p: Plugin, q: Plugin, config: PluginsConfig, target: Target, inputDir: string, world: World)
    ensures var first := PluginStep(s, p, config, target, inputDir, world);
      RunPlugins(s, [p, q], config, target, inputDir, world)
        == if first.1.Done? then PluginStep(first.0, q, config, target, inputDir, world) else first
  {
    assert [p, q][..1] == [p];
    assert [p][..0] == [];
    assert RunPlugins(s, [p], config, target, inputDir, world) == PluginStep(s, p, config, target, inputDir, world);
  }

  // ---------------------------------------------------------------------------
  // The builder

  class Rrdtool {
    /** Local or Remote. */
    var target: Target
    /** The collectd data directory, on the machine `target` names. */
    var inputDir: string
    /** The main command, `rrdtool`. */
    var command: string
    /** The rrdtool subcommand, e.g. `graph`. */
    var subcommand: string
    /** The name of the image, or the pattern of the images' names. */
    var outputFilename: string
    /** Arguments shared by every image. */
    var commonArgs: seq<string>
    /** The per-image `DEF`/`LINE` arguments. */
    var graphArgs: GraphArguments
    /** Set for a remote target. */
    var username: Option<string>
    /** Set for a remote target. */
    var hostname: Option<string>
    /** The scratch image on the remote host. */
    var remoteFilename: Option<string>

    /** The accumulator quotes paths for this builder's target, and a remote target has a user and host. */
    predicate Valid()
      reads this, graphArgs
    {
      graphArgs.target == target && (target == Remote ==> username.Some? && hostname.Some?)
    }

    /**
      `new`: parses the locator and starts with `rrdtool`, an empty
      subcommand and output name, no common arguments and no slots.
    */
    constructor (inputPath: string)
      requires '\n' !in inputPath
      ensures var p := ParseInputPath(inputPath);
        && target == p.target && inputDir == p.path && username == p.username && hostname == p.hostname
      ensures command == "rrdtool" && subcommand == "" && outputFilename == ""
      ensures commonArgs == [] && remoteFilename == None
      ensures fresh(graphArgs) && graphArgs.args == []
      ensures Valid()
    {
      var p := ParseInputPath(inputPath);
      target := p.target;
      inputDir := p.path;
      command := "rrdtool";
      subcommand := "";
      outputFilename := "";
      commonArgs := [];
      graphArgs := new GraphArguments(p.target);
      username := p.username;
      hostname := p.hostname;
      remoteFilename := None;
    }

    /** `with_subcommand`. */
    method WithSubcommand(subcommand: string)
      modifies this`subcommand
      ensures this.subcommand == subcommand
    {
      this.subcommand := subcommand;
    }

    /** `with_output_file`: a remote run also renders into the scratch image. */
    method WithOutputFile(output: string)
      modifies this`outputFilename, this`remoteFilename
      ensures outputFilename == output
      ensures remoteFilename == if target == Remote then Some(REMOTE_SCRATCH) else old(remoteFilename)
    {
      match target {
        case Local =>
          outputFilename := output;
        case Remote =>
          remoteFilename := Some(REMOTE_SCRATCH);
          outputFilename := output;
      }
    }

    /** Appends a flag and its value in decimal; the value reads back. */
    method WithFlag(flag: string, value: nat)
      modifies this`commonArgs
      ensures commonArgs == old(commonArgs) + [flag, NatToString(value)]
      ensures IsDigits(commonArgs[|commonArgs| - 1]) && DecimalValue(commonArgs[|commonArgs| - 1]) == value
    {
      commonArgs := commonArgs + [flag];
      commonArgs := commonArgs + [NatToString(value)];
      DecimalRoundTrip(value);
    }

    /** `with_width`: `-w <width>`. */
    method WithWidth(width: u32)
      modifies this`commonArgs
      ensures commonArgs == old(commonArgs) + ["-w", NatToString(width)]
      ensures DecimalValue(commonArgs[|commonArgs| - 1]) == width
    {
      WithFlag("-w", width);
    }

    /** `with_height`: `-h <height>`. */
    method WithHeight(height: u32)
      modifies this`commonArgs
      ensures commonArgs == old(commonArgs) + ["-h", NatToString(height)]
      ensures DecimalValue(commonArgs[|commonArgs| - 1]) == height
    {
      WithFlag("-h", height);
    }

    /** `with_start`: `--start <timestamp>`. */
    method WithStart(start: u64)
      modifies this`commonArgs
      ensures commonArgs == old(commonArgs) + ["--start", NatToString(start)]
      ensures DecimalValue(commonArgs[|commonArgs| - 1]) == start
    {
      WithFlag("--start", start);
    }

    /** `with_end`: `--end <timestamp>`. */
    method WithEnd(end: u64)
      modifies this`commonArgs
      ensures commonArgs == old(commonArgs) + ["--end", NatToString(end)]
      ensures DecimalValue(commonArgs[|commonArgs| - 1]) == end
    {
      WithFlag("--end", end);
    }

    /** `with_custom_argument`. */
    method WithCustomArgument(arg: string)
      modifies this`commonArgs
      ensures commonArgs == old(commonArgs) + [arg]
    {
      commonArgs := commonArgs + [arg];
    }

    /** The processes arm of `with_plugins`. */
    method RunProcesses(options: Option<ProcessesData>, world: World) returns (status: Status)
      requires Valid()
      modifies graphArgs`args
      ensures (graphArgs.args, status) == ProcessesStep(old(graphArgs.args), options, target, inputDir, world)
    {
      if options.None? {
        return Aborted(MissingPluginData(PluginName(ProcessesPlugin)));
      }
      status := Processes.EnterPlugin(graphArgs, inputDir, options.value, world);
      status := WithContext(ProcessesPlugin, status);
    }

    /** The memory arm of `with_plugins`. */
    method RunMemory(options: Option<seq<MemoryType>>, world: World) returns (status: Status)
      requires Valid()
      modifies graphArgs`args
      ensures (graphArgs.args, status) == MemoryStep(old(graphArgs.args), options, target, inputDir, world)
    {
      if options.None? {
        return Aborted(MissingPluginData(PluginName(MemoryPlugin)));
      }
      status := Memory.EnterPlugin(graphArgs, inputDir, options.value, world);
      status := WithContext(MemoryPlugin, status);
    }

    /** One iteration of `with_plugins`: the plugin's own arm. */
    method RunPlugin(p: Plugin, config: PluginsConfig, world: World) returns (status: Status)
      requires Valid()
      modifies graphArgs`args
      ensures (graphArgs.args, status) == PluginStep(old(graphArgs.args), p, config, target, inputDir, world)
    {
      match p {
        case ProcessesPlugin =>
          status := RunProcesses(config.processes, world);
        case MemoryPlugin =>
          status := RunMemory(config.memory, world);
      }
    }

    /**
      `with_plugins`: runs the plugins in list order on the accumulator and
      stops at the first one that does not finish.
    */
    method WithPlugins(config: PluginsConfig, world: World) returns (status: Status)
      requires Valid()
      modifies graphArgs`args
      ensures (graphArgs.args, status) == RunPlugins(old(graphArgs.args), config.plugins, config, target, inputDir, world)
    {
      var plugins := config.plugins;
      ghost var start := graphArgs.args;
      var i := 0;
      while i < |plugins|
        invariant 0 <= i <= |plugins| && Valid()
        invariant (graphArgs.args, Done) == RunPlugins(start, plugins[..i], config, target, inputDir, world)
      {
        RunPluginsSnoc(start, plugins, config, target, inputDir, world, i);
        status := RunPlugin(plugins[i], config, world);
        if !status.Done? {
          RunPluginsStops(start, plugins[..i + 1], plugins[i + 1..], config, target, inputDir, world);
          assert plugins[..i + 1] + plugins[i + 1..] == plugins;
          return;
        }
        i := i + 1;
      }
      assert plugins[..|plugins|] == plugins;
      status := Done;
    }

    /** `get_output_filename`: the name image `index` is saved under. */
    function GetOutputFilename(index: nat): (r: string)
      reads this, graphArgs
      requires |graphArgs.args| == 1 || '.' in outputFilename
      ensures |graphArgs.args| == 1 ==> r == outputFilename
      ensures |graphArgs.args| != 1 ==>
        '.' in r && Stem(r) == Stem(outputFilename) + Appendix(index) && Extension(r) == Extension(outputFilename)
    {
      var r := OutputFilename(outputFilename, |graphArgs.args|, index);
      if |graphArgs.args| == 1 then r
      else
        OutputFilenameParts(outputFilename, |graphArgs.args|, index);
        r
    }

    /** `build_rrdtool_args`: one argument vector per image. */
    method BuildRrdtoolArgs() returns (commands: seq<seq<string>>)
      requires Compilable(target, outputFilename, remoteFilename, |graphArgs.args|)
      ensures commands == Compiled(target, subcommand, outputFilename, remoteFilename, commonArgs, graphArgs.args)
    {
      commands := Commands.BuildRrdtoolArgs(target, subcommand, outputFilename, remoteFilename,
                                            commonArgs, graphArgs.args);
    }

    /**
      The external calls `exec` makes, in order: every compiled command run
      locally, or for every image the ssh call and the copy back.
    */
    function Plan(): (plan: seq<Step>)
      reads this, graphArgs
      requires Valid() && Compilable(target, outputFilename, remoteFilename, |graphArgs.args|)
      ensures |plan| == (if target == Local then 1 else 2) * |graphArgs.args|
    {
      var commands := Compiled(target, subcommand, outputFilename, remoteFilename, commonArgs, graphArgs.args);
      match target
      case Local => LocalPlan(command, commands)
      case Remote =>
        RemotePlan(username.value + "@" + hostname.value, command, ScratchOf(remoteFilename), outputFilename,
                   commands, |commands|)
    }

    /**
      `exec`: panics while compiling, before any call, or runs the plan and
      stops at the first failing call; `run` says whether a call succeeds.
    */
    method Exec(run: Invocation -> bool) returns (status: Status, attempted: seq<Invocation>)
      requires Valid()
      ensures var panic := CompilePanic(target, outputFilename, remoteFilename, |graphArgs.args|);
        && (panic.Some? ==> status == Aborted(panic.value) && attempted == [])
        && (panic.None? ==> status == Outcome(Plan(), run) && attempted == Attempted(Plan(), run))
    {
      var panic := CompilePanic(target, outputFilename, remoteFilename, |graphArgs.args|);
      if panic.Some? {
        return Aborted(panic.value), [];
      }
      var commands := BuildRrdtoolArgs();
      match target {
        case Local =>
          status, attempted := ExecLocal(command, commands, run);
        case Remote =>
          status, attempted := ExecRemote(username.value, hostname.value, command, ScratchOf(remoteFilename),
                                          outputFilename, commands, run);
      }
    }
  }

  /**
    The remote scratch name; only read when there is an image, and then
    `Compilable` guarantees it was set.
  */
  function ScratchOf(remoteFilename: Option<string>): string {
    if remoteFilename.Some? then remoteFilename.value else REMOTE_SCRATCH
  }

  /**
    The source's builder test, for any start and end: output, subcommand,
    start and end leave the command `rrdtool`, four common arguments in
    order and no slots.
  */
  method BuilderExample(start: u64, end: u64) returns (r: Rrdtool)
    ensures r.command == "rrdtool" && r.outputFilename == "out.png" && r.subcommand == "graph"
    ensures r.graphArgs.args == []
    ensures r.commonArgs == ["--start", NatToString(start), "--end", NatToString(end)]
  {
    r := new Rrdtool("/some/local/");
    r.WithOutputFile("out.png");
    r.WithSubcommand("graph");
    r.WithStart(start);
    r.WithEnd(end);
  }

  /** A remote builder renders into `/tmp/cgg-out.png` and keeps the requested name. */
  method RemoteOutputExample() returns (r: Rrdtool)
    ensures r.target == Remote && r.remoteFilename == Some(REMOTE_SCRATCH) && r.outputFilename == "out.png"
    ensures r.username == Some("marcin") && r.hostname == Some("10.0.0.1") && r.inputDir == "/remote"
  {
    ParseRemoteParts("marcin", "10.0.0.1", "/remote");
    r := new Rrdtool("marcin" + "@" + "10.0.0.1" + ":" + "/remote");
    r.WithOutputFile("out.png");
  }
}
