/**
  The older, self-contained `Rrdtool` of `src/rrdtool.rs`. It holds the
  slots itself, draws processes only, keeps `max_processes` on the builder
  and pushes every image's series into slot `graph_args[i]` directly,
  instead of into the last slot. It has no check for an empty listing.
*/
module LegacyRrdtool {
  import opened Wrappers
  import opened Common
  import opened Text
  import opened Locator
  import opened GraphArgs
  import opened ProcessesData
  import ProcessNames
  import opened Processes
  import opened Commands

  function Max(a: nat, b: nat): nat {
    if a < b then b else a
  }

  // ---------------------------------------------------------------------------
  // The effect on the slots

  /**
    `with_process_rss` for image `no`: opens a slot when there are at most
    `no` (the source then indexes `graph_args[no]`, so `no` never exceeds
    the count), and extends slot `no` by the pair.
  */
  function LegacyRssStep(s: Slots, no: nat, pair: seq<string>): (r: Slots)
    requires no <= |s|
    ensures |r| == (if no == |s| then |s| + 1 else |s|)
    ensures r[no] == (if no == |s| then [] else s[no]) + pair
    ensures forall i :: 0 <= i < |s| && i != no ==> r[i] == s[i]
  {
    var t := if |s| <= no then s + [[]] else s;
    t[no := t[no] + pair]
  }

  /** The source pushes the two arguments one at a time. */
  lemma TwoPushes(s: Slots, no: nat, def: string, line: string)
    requires no <= |s|
    ensures var t := if |s| <= no then s + [[]] else s;
      var u := t[no := t[no] + [def]];
      u[no := u[no] + [line]] == LegacyRssStep(s, no, [def, line])
  {
    var t := if |s| <= no then s + [[]] else s;
    var u := t[no := t[no] + [def]];
    var v := u[no := u[no] + [line]];
    assert t[no] + [def] + [line] == t[no] + [def, line];
    assert v == t[no := t[no] + [def, line]];
  }

  /** The pushes of one image, numbered `no`, one pair after the other. */
  function LegacyPushAll(s: Slots, no: nat, pairs: seq<seq<string>>): (r: Slots)
    requires no <= |s|
    ensures |r| == if pairs == [] then |s| else Max(|s|, no + 1)
  {
    if pairs == [] then s
    else LegacyRssStep(LegacyPushAll(s, no, pairs[..|pairs| - 1]), no, pairs[|pairs| - 1])
  }

  lemma LegacyPushAllSnoc(s: Slots, no: nat, pairs: seq<seq<string>>, k: nat)
    requires no <= |s| && k < |pairs|
    ensures LegacyPushAll(s, no, pairs[..k + 1]) == LegacyRssStep(LegacyPushAll(s, no, pairs[..k]), no, pairs[k])
  {
    assert pairs[..k + 1][..k] == pairs[..k];
  }

  /**
    A non-empty image lands, whole, in slot `no`, which is opened when it
    does not exist yet; every other slot keeps its arguments.
  */
  lemma {:induction false} LegacyPushAllAt(s: Slots, no: nat, pairs: seq<seq<string>>, i: nat)
    requires no <= |s| && pairs != [] && i < Max(|s|, no + 1)
    ensures LegacyPushAll(s, no, pairs)[i]
         == (if i < |s| then s[i] else []) + (if i == no then Flatten(pairs) else [])
  {
    var k := |pairs| - 1;
    var prev := LegacyPushAll(s, no, pairs[..k]);
    assert Flatten(pairs) == Flatten(pairs[..k]) + pairs[k];
    if i < |s| {
      AppendEmpty(s[i]);
    }
    if k == 0 {
      assert pairs[..k] == [];
      AppendEmpty(pairs[k]);
    } else {
      LegacyPushAllAt(s, no, pairs[..k], i);
    }
  }

  /** Image i's pairs pushed for image number i, image after image. */
  function LegacyPushImages(s: Slots, images: seq<seq<seq<string>>>): (r: Slots)
    requires Drawable(images)
    ensures |r| == Max(|s|, |images|)
  {
    if images == [] then s
    else
      var k := |images| - 1;
      LegacyPushAll(LegacyPushImages(s, images[..k]), k, images[k])
  }

  lemma LegacyPushImagesSnoc(s: Slots, images: seq<seq<seq<string>>>, k: nat)
    requires Drawable(images)
    requires k < |images|
    ensures LegacyPushImages(s, images[..k + 1]) == LegacyPushAll(LegacyPushImages(s, images[..k]), k, images[k])
  {
    assert images[..k + 1][..k] == images[..k];
  }

  /**
    Image i goes into slot i, after whatever that slot held: the slot
    count is the larger of the old count and the number of images.
  */
  lemma {:induction false} LegacyPushImagesAt(s: Slots, images: seq<seq<seq<string>>>, i: nat)
    requires Drawable(images)
    requires i < Max(|s|, |images|)
    ensures LegacyPushImages(s, images)[i]
         == (if i < |s| then s[i] else []) + (if i < |images| then Flatten(images[i]) else [])
  {
    if images != [] {
      var k := |images| - 1;
      var init := images[..k];
      assert Drawable(init);
      var prev := LegacyPushImages(s, init);
      var r := LegacyPushImages(s, images);
      assert r == LegacyPushAll(prev, k, images[k]);
      LegacyPushAllAt(prev, k, images[k], i);
      var own := if i < |s| then s[i] else [];
      if i < k {
        LegacyPushImagesAt(s, init, i);
        assert init[i] == images[i];
        AppendEmpty(prev[i]);
      } else if i < |prev| {
        LegacyPushImagesAt(s, init, i);
        AppendEmpty(own);
        AppendEmpty(prev[i]);
      } else {
        AppendEmpty(Flatten(images[k]));
      }
    }
  }

  /** From no slots, both versions lay image i out in slot i. */
  lemma LegacyPushImagesFresh(images: seq<seq<seq<string>>>)
    requires Drawable(images)
    ensures LegacyPushImages([], images) == Layout(images)
    ensures LegacyPushImages([], images) == PushImages([], images)
  {
    var r := LegacyPushImages([], images);
    forall i | 0 <= i < |images| ensures r[i] == Layout(images)[i] {
      LegacyPushImagesAt([], images, i);
      LayoutAt(images, i);
      AppendEmpty(Flatten(images[i]));
    }
    assert r == Layout(images);
    PushImagesFresh(images);
  }

  /**
    With slots already there the versions differ: the older one draws image
    0 into slot 0, the newer one into the last slot.
  */
  lemma LegacyFirstImageInFirstSlot(s: Slots, images: seq<seq<seq<string>>>)
    requires |s| >= 2 && |images| == 1 && images[0] != [] && Flatten(images[0]) != []
    ensures LegacyPushImages(s, images)[0] == s[0] + Flatten(images[0])
    ensures PushImages(s, images)[0] == s[0]
    ensures LegacyPushImages(s, images) != PushImages(s, images)
  {
    LegacyPushImagesAt(s, images, 0);
    assert images[..1] == images;
    FirstImageJoinsLastSlot(s, images);
    assert s[0] + Flatten(images[0]) != s[0] by {
      assert |s[0] + Flatten(images[0])| > |s[0]|;
    }
  }

  /** The slots after `with_processes_rss` finished for the chosen processes. */
  function LegacyProcessesSlots(s: Slots, target: Target, inputDir: string, chosen: seq<string>, m: nat): Slots
    requires |chosen| < |COLORS| && (m > 0 ==> AllHaveWords(chosen))
  {
    if m == 0 then s else LegacyPushImages(s, Images(target, inputDir, chosen, m))
  }

  /**
    From no slots the plugin fills ceil(n/m) slots, slot i holding exactly
    the i-th group of processes, as in the newer version.
  */
  lemma LegacyProcessesSlotsFresh(target: Target, inputDir: string, chosen: seq<string>, m: nat)
    requires |chosen| < |COLORS| && AllHaveWords(chosen) && m > 0
    ensures var r := LegacyProcessesSlots([], target, inputDir, chosen, m);
      && r == ProcessesSlots([], target, inputDir, chosen, m)
      && |r| == ChunkCount(|chosen|, m)
      && forall i :: 0 <= i < |r| ==> r[i] == ChunkArgs(target, inputDir, Chunk(chosen, m, i))
  {
    LegacyPushImagesFresh(Images(target, inputDir, chosen, m));
    ProcessesSlotsFresh(target, inputDir, chosen, m);
  }

  /**
    The outcome of `with_processes_rss` once the directory was listed: a
    failed listing is an error; 20 or more chosen processes, or a blank name
    about to be drawn, is a panic. An empty listing is not an error.
  */
  function LegacyProcessesStatus(listing: Result<seq<string>, Error>, processesToDraw: Option<seq<string>>, m: nat)
    : (st: Status)
    ensures listing.Err? <==> st.Failed?
    ensures listing.Err? ==> st == Failed(listing.error)
    ensures listing.Ok? ==>
      var chosen := FilterProcesses(listing.value, processesToDraw);
      (st.Aborted? <==> |chosen| >= |COLORS| || (m > 0 && !AllHaveWords(chosen)))
  {
    match listing
    case Err(e) => Failed(e)
    case Ok(names) =>
      var chosen := FilterProcesses(names, processesToDraw);
      if |chosen| >= |COLORS| then Aborted(TooManyProcesses(|chosen|))
      else if m > 0 && FirstBlank(chosen).Some? then Aborted(BlankLegend(FirstBlank(chosen).value))
      else Done
  }

  /**
    The versions agree on every listing but the empty one, which the older
    version draws as nothing and the newer one reports as an error.
  */
  lemma StatusVersions(listing: Result<seq<string>, Error>, data: ProcessesData)
    ensures listing != Ok([]) ==>
      LegacyProcessesStatus(listing, data.processesToDraw, data.maxProcesses) == ProcessesStatus(listing, data)
    ensures listing == Ok([]) ==>
      LegacyProcessesStatus(listing, data.processesToDraw, data.maxProcesses) == Done
      && ProcessesStatus(listing, data) == Failed(NoProcesses)
  {
  }

  /** The arguments `with_process_rss` spells out are those of the newer version's builders. */
  lemma InlineArguments(target: Target, word: string, path: string, process: string, color: string)
    ensures var quote := if target == Remote then "\"" else "";
      "DEF:" + word + "=" + quote + path + quote + ":value:AVERAGE" == BuildGraphDef(target, word, path)
    ensures "LINE3:" + word + color + ":\"" + process + "\"" == BuildGraphLine(word, process, color, RSS_THICKNESS)
  {
    assert NatToString(RSS_THICKNESS) == "3";
    assert "LINE" + "3" + ":" == "LINE3:";
  }

  // ---------------------------------------------------------------------------
  // The builder

  class Rrdtool {
    /** Local or Remote. */
    var target: Target
    /** The collectd data directory, on the machine `target` names. */
    var inputDir: string
    /** The main command, `rrdtool`. */
    var command: string
    /** The rrdtool subcommand, e.g. `graph`. */
    var subcommand: string
    /** The name of the image, or the pattern of the images' names. */
    var outputFilename: string
    /** The largest number of processes drawn in one image. */
    var maxProcesses: nat
    /** Arguments shared by every image. */
    var commonArgs: seq<string>
    /** The per-image `DEF`/`LINE` arguments. */
    var graphArgs: Slots
    /** Set for a remote target. */
    var username: Option<string>
    /** Set for a remote target. */
    var hostname: Option<string>
    /** The scratch image on the remote host. */
    var remoteFilename: Option<string>

    /** A remote target has a user and a host. */
    predicate Valid()
      reads this
    {
      target == Remote ==> username.Some? && hostname.Some?
    }

    /**
      `new`: parses the locator and starts with `rrdtool`, an empty
      subcommand and output name, one colour's worth of processes per
      image for every colour, no arguments and no slots.
    */
    constructor (inputPath: string)
      requires '\n' !in inputPath
      ensures var p := ParseInputPath(inputPath);
        && target == p.target && inputDir == p.path && username == p.username && hostname == p.hostname
      ensures command == "rrdtool" && subcommand == "" && outputFilename == ""
      ensures maxProcesses == |COLORS| && commonArgs == [] && graphArgs == [] && remoteFilename == None
      ensures Valid()
    {
      var p := ParseInputPath(inputPath);
      target := p.target;
      inputDir := p.path;
      command := "rrdtool";
      subcommand := "";
      maxProcesses := |COLORS|;
      outputFilename := "";
      commonArgs := [];
      graphArgs := [];
      username := p.username;
      hostname := p.hostname;
      remoteFilename := None;
    }

    /** `with_subcommand`. */
    method WithSubcommand(subcommand: string)
      modifies this`subcommand
      ensures this.subcommand == subcommand
    {
      this.subcommand := subcommand;
    }

    /** `with_output_file`: a remote run also renders into the scratch image. */
    method WithOutputFile(output: string)
      modifies this`outputFilename, this`remoteFilename
      ensures outputFilename == output
      ensures remoteFilename == if target == Remote then Some(REMOTE_SCRATCH) else old(remoteFilename)
    {
      match target {
        case Local =>
          outputFilename := output;
        case Remote =>
          remoteFilename := Some(REMOTE_SCRATCH);
          outputFilename := output;
      }
    }

    /** `with_max_processes`: the given bound, or one per colour when none is given. */
    method WithMaxProcesses(maxProcesses: Option<nat>)
      modifies this`maxProcesses
      ensures this.maxProcesses == MaxProcessesOrDefault(maxProcesses)
    {
      match maxProcesses {
        case Some(m) => this.maxProcesses := m;
        case None => this.maxProcesses := |COLORS|;
      }
    }

    /** Appends a flag and its value in decimal; the value reads back. */
    method WithFlag(flag: string, value: nat)
      modifies this`commonArgs
      ensures commonArgs == old(commonArgs) + [flag, NatToString(value)]
      ensures IsDigits(commonArgs[|commonArgs| - 1]) && DecimalValue(commonArgs[|commonArgs| - 1]) == value
    {
      commonArgs := commonArgs + [flag];
      commonArgs := commonArgs + [NatToString(value)];
      DecimalRoundTrip(value);
    }

    /** `with_width`: `-w <width>`. */
    method WithWidth(width: u32)
      modifies this`commonArgs
      ensures commonArgs == old(commonArgs) + ["-w", NatToString(width)]
      ensures DecimalValue(commonArgs[|commonArgs| - 1]) == width
    {
      WithFlag("-w", width);
    }

    /** `with_height`: `-h <height>`. */
    method WithHeight(height: u32)
      modifies this`commonArgs
      ensures commonArgs == old(commonArgs) + ["-h", NatToString(height)]
      ensures DecimalValue(commonArgs[|commonArgs| - 1]) == height
    {
      WithFlag("-h", height);
    }

    /** `with_start`: `--start <timestamp>`. */
    method WithStart(start: u64)
      modifies this`commonArgs
      ensures commonArgs == old(commonArgs) + ["--start", NatToString(start)]
      ensures DecimalValue(commonArgs[|commonArgs| - 1]) == start
    {
      WithFlag("--start", start);
    }

    /** `with_end`: `--end <timestamp>`. */
    method WithEnd(end: u64)
      modifies this`commonArgs
      ensures commonArgs == old(commonArgs) + ["--end", NatToString(end)]
      ensures DecimalValue(commonArgs[|commonArgs| - 1]) == end
    {
      WithFlag("--end", end);
    }

    /** `with_custom_argument`. */
    method WithCustomArgument(arg: string)
      modifies this`commonArgs
      ensures commonArgs == old(commonArgs) + [arg]
    {
      commonArgs := commonArgs + [arg];
    }

    /**
      `with_process_rss`: builds the `DEF` and `LINE3` arguments of one
      process (the strings it spells out are those of `InlineArguments`)
      and appends them to slot `graphArgsNo`, opening it when there are at
      most `graphArgsNo` slots.
    */
    method WithProcessRss(dir: string, process: string, color: string, graphArgsNo: nat)
      requires HasWord(process) && graphArgsNo <= |graphArgs|
      modifies this`graphArgs
      ensures graphArgs == LegacyRssStep(old(graphArgs), graphArgsNo, ProcessPair(target, dir, process, color))
    {
      var path := ProcessPath(dir, process);
      var word := FirstWord(process);
      var args := graphArgs;
      if |args| <= graphArgsNo {
        args := args + [[]];
      }
      var def := BuildGraphDef(target, word, path);
      var line := BuildGraphLine(word, process, color, RSS_THICKNESS);
      args := args[graphArgsNo := args[graphArgsNo] + [def]];
      args := args[graphArgsNo := args[graphArgsNo] + [line]];
      graphArgs := args;
      TwoPushes(old(graphArgs), graphArgsNo, def, line);
      assert ProcessPair(target, dir, process, color) == [def, line];
    }

    /** The inner loop of `with_processes_rss`: the processes of image `no`, the j-th in `COLORS[j]`. */
    method DrawImage(chunk: seq<string>, no: nat)
      requires |chunk| <= |COLORS| && AllHaveWords(chunk) && no <= |graphArgs|
      modifies this`graphArgs
      ensures graphArgs == LegacyPushAll(old(graphArgs), no, ChunkPairs(target, inputDir, chunk))
    {
      ghost var pairs := ChunkPairs(target, inputDir, chunk);
      var color := 0;
      while color < |chunk|
        invariant 0 <= color <= |chunk|
        invariant graphArgs == LegacyPushAll(old(graphArgs), no, pairs[..color])
      {
        assert pairs[color] == ProcessPair(target, inputDir, chunk[color], COLORS[color]);
        WithProcessRss(inputDir, chunk[color], COLORS[color], no);
        LegacyPushAllSnoc(old(graphArgs), no, pairs, color);
        color := color + 1;
      }
      assert pairs[..|chunk|] == pairs;
    }

    /** The outer loop of `with_processes_rss`: image i holds the i-th group of `m` processes. */
    method DrawImages(processes: seq<string>, m: nat)
      requires |processes| <= |COLORS| && AllHaveWords(processes) && m > 0
      modifies this`graphArgs
      ensures graphArgs == LegacyPushImages(old(graphArgs), Images(target, inputDir, processes, m))
    {
      ghost var images := Images(target, inputDir, processes, m);
      ghost var start := graphArgs;
      ImagesNonEmpty(target, inputDir, processes, m);
      var loops := ChunkCount(|processes|, m);
      var i := 0;
      DrawablePrefix(images, 0);
      while i < loops
        invariant 0 <= i <= loops && Drawable(images[..i])
        invariant graphArgs == LegacyPushImages(start, images[..i])
      {
        var lower := i * m;
        var upper := Min((i + 1) * m, |processes|);
        ChunkBounds(processes, m, i);
        var chunk := processes[lower..upper];
        assert images[i] == ChunkPairs(target, inputDir, chunk);
        assert |graphArgs| == Max(|start|, i);
        DrawImage(chunk, i);
        LegacyPushImagesSnoc(start, images, i);
        DrawablePrefix(images, i + 1);
        i := i + 1;
      }
      assert images[..loops] == images;
    }

    /**
      `with_processes_rss`: lists the processes, filters them and draws them
      `maxProcesses` to an image. On an error or a panic the slots are left
      as they were.
    */
    method WithProcessesRss(processesToDraw: Option<seq<string>>, world: World) returns (status: Status)
      modifies this`graphArgs
      ensures var listing := ProcessNames.Get(target, inputDir, world);
        && status == LegacyProcessesStatus(listing, processesToDraw, maxProcesses)
        && (!status.Done? ==> graphArgs == old(graphArgs))
        && (status.Done? ==> graphArgs == LegacyProcessesSlots(old(graphArgs), target, inputDir,
                                                               FilterProcesses(listing.value, processesToDraw),
                                                               maxProcesses))
    {
      var listing := ProcessNames.Get(target, inputDir, world);
      if listing.Err? {
        return Failed(listing.error);
      }
      var processes := FilterProcesses(listing.value, processesToDraw);
      if |processes| >= |COLORS| {
        return Aborted(TooManyProcesses(|processes|));
      }
      var m := maxProcesses;
      if m > 0 && FirstBlank(processes).Some? {
        return Aborted(BlankLegend(FirstBlank(processes).value));
      }
      status := Done;
      if m == 0 {
        return;
      }
      DrawImages(processes, m);
    }

    /** `get_output_filename`: the name image `index` is saved under. */
    function GetOutputFilename(index: nat): (r: string)
      reads this
      requires |graphArgs| == 1 || '.' in outputFilename
      ensures |graphArgs| == 1 ==> r == outputFilename
      ensures |graphArgs| != 1 ==>
        '.' in r && Stem(r) == Stem(outputFilename) + Appendix(index) && Extension(r) == Extension(outputFilename)
    {
      var r := OutputFilename(outputFilename, |graphArgs|, index);
      if |graphArgs| == 1 then r
      else
        OutputFilenameParts(outputFilename, |graphArgs|, index);
        r
    }

    /** `build_rrdtool_args`: one argument vector per image, as in the newer version. */
    method BuildRrdtoolArgs() returns (commands: seq<seq<string>>)
      requires Compilable(target, outputFilename, remoteFilename, |graphArgs|)
      ensures commands == Compiled(target, subcommand, outputFilename, remoteFilename, commonArgs, graphArgs)
    {
      commands := Commands.BuildRrdtoolArgs(target, subcommand, outputFilename, remoteFilename,
                                            commonArgs, graphArgs);
    }

    /** The external calls `exec` makes, in order. */
    function Plan(): (plan: seq<Step>)
      reads this
      requires Valid() && Compilable(target, outputFilename, remoteFilename, |graphArgs|)
      ensures |plan| == (if target == Local then 1 else 2) * |graphArgs|
    {
      var commands := Compiled(target, subcommand, outputFilename, remoteFilename, commonArgs, graphArgs);
      match target
      case Local => LocalPlan(command, commands)
      case Remote =>
        RemotePlan(username.value + "@" + hostname.value, command,
                   if remoteFilename.Some? then remoteFilename.value else REMOTE_SCRATCH,
                   outputFilename, commands, |commands|)
    }

    /** `exec`: panics while compiling, before any call, or runs the plan and stops at the first failing call. */
    method Exec(run: Invocation -> bool) returns (status: Status, attempted: seq<Invocation>)
      requires Valid()
      ensures var panic := CompilePanic(target, outputFilename, remoteFilename, |graphArgs|);
        && (panic.Some? ==> status == Aborted(panic.value) && attempted == [])
        && (panic.None? ==> status == Outcome(Plan(), run) && attempted == Attempted(Plan(), run))
    {
      var panic := CompilePanic(target, outputFilename, remoteFilename, |graphArgs|);
      if panic.Some? {
        return Aborted(panic.value), [];
      }
      var commands := BuildRrdtoolArgs();
      match target {
        case Local =>
          status, attempted := ExecLocal(command, commands, run);
        case Remote =>
          status, attempted := ExecRemote(username.value, hostname.value, command,
                                          if remoteFilename.Some? then remoteFilename.value else REMOTE_SCRATCH,
                                          outputFilename, commands, run);
      }
    }
  }

  /**
    The source's builder test, for any start and end: output, subcommand,
    start and end leave the command `rrdtool`, four common arguments in
    order and no slots.
  */
  method BuilderExample(start: u64, end: u64) returns (r: Rrdtool)
    ensures r.command == "rrdtool" && r.outputFilename == "out.png" && r.subcommand == "graph"
    ensures r.commonArgs == ["--start", NatToString(start), "--end", NatToString(end)]
    ensures r.graphArgs == [] && r.maxProcesses == |COLORS|
  {
    r := new Rrdtool("/some/local/");
    r.WithOutputFile("out.png");
    r.WithSubcommand("graph");
    r.WithStart(start);
    r.WithEnd(end);
  }
}
