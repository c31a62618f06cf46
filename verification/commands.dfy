/**
  What both versions of `Rrdtool` share once the graph arguments are
  collected: naming the output files, compiling one `rrdtool` argument
  vector per slot, and running those vectors locally or over ssh, stopping
  at the first step that fails.
*/
module Commands {
  import opened Wrappers
  import opened Common
  import opened Text

  // ---------------------------------------------------------------------------
  // `get_output_filename`

  /** The position of the last `.` of a name that has one. */
  function LastDot(name: string): (d: nat)
    requires '.' in name
    ensures d < |name| && name[d] == '.' && '.' !in name[d + 1..]
  {
    LastIndexOf(name, '.').value
  }

  /** The part of a name before its last `.`. */
  function Stem(name: string): string
    requires '.' in name
  {
    name[..LastDot(name)]
  }

  /** The part of a name from its last `.` on: `.png` for `out.png`. */
  function Extension(name: string): string
    requires '.' in name
  {
    name[LastDot(name)..]
  }

  /** The `_<n>` inserted before the extension of the n-th of several images. */
  function Appendix(index: nat): (a: string)
    ensures '.' !in a && |a| >= 2 && a[0] == '_'
  {
    var digits := NatToString(index + 1);
    assert forall k :: 0 <= k < |digits| ==> digits[k] != '.';
    "_" + digits
  }

  /**
    `get_output_filename`: the file of image `index` when there are
    `slotCount` images. A single image keeps the name; otherwise `_<index+1>`
    goes before the last `.`, which must exist (the source unwraps `rfind`).
  */
  function OutputFilename(name: string, slotCount: nat, index: nat): (r: string)
    requires slotCount == 1 || '.' in name
    ensures slotCount == 1 ==> r == name
    ensures slotCount != 1 ==> '.' in r && |r| > |name|
  {
    if slotCount == 1 then name
    else
      var d := LastDot(name);
      var r := name[..d] + Appendix(index) + name[d..];
      assert r[d + |Appendix(index)|] == '.';
      r
  }

  /**
    With several images the name is the original stem, then `_` and the
    image's 1-based number, then the original extension.
  */
  lemma OutputFilenameParts(name: string, slotCount: nat, index: nat)
    requires slotCount != 1 && '.' in name
    ensures var r := OutputFilename(name, slotCount, index);
      '.' in r && Stem(r) == Stem(name) + Appendix(index) && Extension(r) == Extension(name)
  {
    var d := LastDot(name);
    var a := Appendix(index);
    var r := OutputFilename(name, slotCount, index);
    assert r == (name[..d] + a) + name[d..];
    var e := |name[..d] + a|;
    assert r[e] == '.';
    assert r[e + 1..] == name[d + 1..];
    assert LastDot(r) == e;
  }

  /** Different numbers give different appendices. */
  lemma AppendixInjective(i: nat, j: nat)
    requires Appendix(i) == Appendix(j)
    ensures i == j
  {
    assert NatToString(i + 1) == Appendix(i)[1..];
    assert NatToString(j + 1) == Appendix(j)[1..];
    NatToStringInjective(i + 1, j + 1);
  }

  /** Different images of the same run get different files. */
  lemma OutputFilenameInjective(name: string, slotCount: nat, i: nat, j: nat)
    requires slotCount != 1 && '.' in name && i != j
    ensures OutputFilename(name, slotCount, i) != OutputFilename(name, slotCount, j)
  {
    var ri := OutputFilename(name, slotCount, i);
    var rj := OutputFilename(name, slotCount, j);
    if ri == rj {
      OutputFilenameParts(name, slotCount, i);
      OutputFilenameParts(name, slotCount, j);
      var s := Stem(name);
      var si := s + Appendix(i);
      var sj := s + Appendix(j);
      assert si == sj;
      assert si[|s|..] == Appendix(i) && sj[|s|..] == Appendix(j);
      AppendixInjective(i, j);
    }
  }

  /** And none of them is the unsuffixed name. */
  lemma OutputFilenameNeverPlain(name: string, slotCount: nat, index: nat)
    requires slotCount != 1 && '.' in name
    ensures OutputFilename(name, slotCount, index) != name
  {
  }

  /**
    A run of five images writes five distinct files, `_1` to `_5`: none is
    the unsuffixed name and none is the name a sixth image would get.
  */
  lemma FiveImagesNamed(name: string)
    requires '.' in name
    ensures forall i, j :: 0 <= i < j < 5 ==> OutputFilename(name, 5, i) != OutputFilename(name, 5, j)
    ensures forall i :: 0 <= i < 5 ==> OutputFilename(name, 5, i) != name
    ensures forall i :: 0 <= i < 5 ==> OutputFilename(name, 5, i) != OutputFilename(name, 5, 5)
    ensures forall i :: 0 <= i < 5 ==> Stem(OutputFilename(name, 5, i)) == Stem(name) + Appendix(i)
  {
    forall i, j | 0 <= i < j < 5 ensures OutputFilename(name, 5, i) != OutputFilename(name, 5, j) {
      OutputFilenameInjective(name, 5, i, j);
    }
    forall i | 0 <= i < 5
      ensures OutputFilename(name, 5, i) != OutputFilename(name, 5, 5)
      ensures Stem(OutputFilename(name, 5, i)) == Stem(name) + Appendix(i)
    {
      OutputFilenameInjective(name, 5, i, 5);
      OutputFilenameParts(name, 5, i);
    }
  }

  /** A name whose extension is its one last `.` and what follows. */
  lemma OutputFilenameOf(stem: string, ext: string, slotCount: nat, index: nat)
    requires slotCount != 1 && ext != [] && ext[0] == '.' && '.' !in ext[1..]
    ensures '.' in stem + ext
    ensures OutputFilename(stem + ext, slotCount, index) == stem + Appendix(index) + ext
  {
    var name := stem + ext;
    assert name[|stem|] == '.';
    var d := LastDot(name);
    assert d == |stem| by {
      assert name[|stem| + 1..] == ext[1..];
    }
    assert name[..d] == stem && name[d..] == ext;
  }

  /**
    The source's tests, for any stem: a single image keeps its name, and
    the first and third of three images of `<stem>.png` are
    `<stem>_1.png` and `<stem>_3.png`.
  */
  lemma OutputFilenameExamples(name: string, stem: string)
    ensures OutputFilename(name, 1, 0) == name
    ensures '.' in stem + ".png"
    ensures OutputFilename(stem + ".png", 3, 0) == stem + "_1.png"
    ensures OutputFilename(stem + ".png", 3, 2) == stem + "_3.png"
  {
    OutputFilenameOf(stem, ".png", 3, 0);
    OutputFilenameOf(stem, ".png", 3, 2);
    assert Appendix(0) == "_1" && Appendix(2) == "_3" by {
      assert NatToString(1) == "1" && NatToString(3) == "3";
    }
    PngNames(stem);
  }

  lemma PngNames(stem: string)
    ensures stem + "_1" + ".png" == stem + "_1.png" && stem + "_3" + ".png" == stem + "_3.png"
  {
  }

  // ---------------------------------------------------------------------------
  // `build_rrdtool_args`

  /** The file `rrdtool` writes for image `index`: the named file locally, the scratch file remotely. */
  function OutputArgument(target: Target, outputFilename: string, remoteFilename: Option<string>,
                          slotCount: nat, index: nat): string
    requires slotCount == 1 || '.' in outputFilename
    requires target == Remote ==> remoteFilename.Some?
  {
    match target
    case Local => OutputFilename(outputFilename, slotCount, index)
    case Remote => remoteFilename.value
  }

  /**
    What `build_rrdtool_args` demands of the builder: several images need a
    `.` in the output name, and a remote run needs the scratch name that
    `with_output_file` sets.
  */
  predicate Compilable(target: Target, outputFilename: string, remoteFilename: Option<string>, slotCount: nat) {
    (slotCount <= 1 || '.' in outputFilename) && (target == Remote && slotCount > 0 ==> remoteFilename.Some?)
  }

  /**
    The panic `build_rrdtool_args` meets at its first image, if any: several
    images and no `.` in the output name, then a remote run whose scratch
    name was never set. Both are met before `exec` makes any call.
  */
  function CompilePanic(target: Target, outputFilename: string, remoteFilename: Option<string>,
                        slotCount: nat): (r: Option<Abort>)
    ensures r.None? <==> Compilable(target, outputFilename, remoteFilename, slotCount)
    ensures r == Some(NoExtension(outputFilename)) <==> slotCount > 1 && '.' !in outputFilename
    ensures r == Some(NoScratchFile) <==>
      (slotCount <= 1 || '.' in outputFilename) && target == Remote && slotCount > 0 && remoteFilename.None?
  {
    if slotCount > 1 && '.' !in outputFilename then Some(NoExtension(outputFilename))
    else if target == Remote && slotCount > 0 && remoteFilename.None? then Some(NoScratchFile)
    else None
  }

  /** One argument vector per slot: subcommand, output, the common arguments, the slot's arguments. */
  function Compiled(target: Target, subcommand: string, outputFilename: string, remoteFilename: Option<string>,
                    commonArgs: seq<string>, slots: Slots): (commands: seq<seq<string>>)
    requires Compilable(target, outputFilename, remoteFilename, |slots|)
    ensures |commands| == |slots|
  {
    seq(|slots|, i requires 0 <= i < |slots| =>
      [subcommand, OutputArgument(target, outputFilename, remoteFilename, |slots|, i)] + commonArgs + slots[i])
  }

  /**
    Command i is 2 + |common| + |slot i| long and holds, in this order, the
    subcommand, the output, the common arguments and slot i's arguments.
  */
  lemma CompiledShape(target: Target, subcommand: string, outputFilename: string, remoteFilename: Option<string>,
                      commonArgs: seq<string>, slots: Slots, i: nat)
    requires Compilable(target, outputFilename, remoteFilename, |slots|) && i < |slots|
    ensures var c := Compiled(target, subcommand, outputFilename, remoteFilename, commonArgs, slots)[i];
      && |c| == 2 + |commonArgs| + |slots[i]|
      && c[0] == subcommand
      && c[1] == OutputArgument(target, outputFilename, remoteFilename, |slots|, i)
      && c[2..2 + |commonArgs|] == commonArgs
      && c[2 + |commonArgs|..] == slots[i]
  {
    var c := Compiled(target, subcommand, outputFilename, remoteFilename, commonArgs, slots)[i];
    var out := OutputArgument(target, outputFilename, remoteFilename, |slots|, i);
    assert c == [subcommand, out] + commonArgs + slots[i];
    assert c[2..2 + |commonArgs|] == commonArgs;
  }

  /** Remotely every image is first written to the same scratch file. */
  lemma RemoteOutputsShared(subcommand: string, outputFilename: string, remote: string,
                            commonArgs: seq<string>, slots: Slots, i: nat, j: nat)
    requires Compilable(Remote, outputFilename, Some(remote), |slots|) && i < |slots| && j < |slots|
    ensures var commands := Compiled(Remote, subcommand, outputFilename, Some(remote), commonArgs, slots);
      commands[i][1] == commands[j][1] == remote
  {
  }

  /** Locally a single image is written to the given name, several ones to distinct names. */
  lemma LocalOutputsDistinct(subcommand: string, outputFilename: string, commonArgs: seq<string>,
                             slots: Slots, i: nat, j: nat)
    requires Compilable(Local, outputFilename, None, |slots|) && i < |slots| && j < |slots|
    ensures var commands := Compiled(Local, subcommand, outputFilename, None, commonArgs, slots);
      && (|slots| == 1 ==> commands[i][1] == outputFilename)
      && (i != j ==> commands[i][1] != commands[j][1])
  {
    if i != j {
      OutputFilenameInjective(outputFilename, |slots|, i, j);
    }
  }

  /** `build_rrdtool_args`: builds the vectors slot by slot. */
  method BuildRrdtoolArgs(target: Target, subcommand: string, outputFilename: string, remoteFilename: Option<string>,
                          commonArgs: seq<string>, slots: Slots)
    returns (commands: seq<seq<string>>)
    requires Compilable(target, outputFilename, remoteFilename, |slots|)
    ensures commands == Compiled(target, subcommand, outputFilename, remoteFilename, commonArgs, slots)
  {
    commands := [];
    var index := 0;
    while index < |slots|
      invariant 0 <= index <= |slots|
      invariant commands == Compiled(target, subcommand, outputFilename, remoteFilename, commonArgs, slots)[..index]
    {
      var command := [subcommand];
      var out := OutputFilename(outputFilename, |slots|, index);
      match target {
        case Local => command := command + [out];
        case Remote => command := command + [remoteFilename.value];
      }
      command := command + commonArgs;
      command := command + slots[index];
      assert command == Compiled(target, subcommand, outputFilename, remoteFilename, commonArgs, slots)[index];
      commands := commands + [command];
      index := index + 1;
    }
  }

  // ---------------------------------------------------------------------------
  // Running the commands

  /** A program and its arguments, as handed to `Command::new(..).args(..)`. */
  datatype Invocation = Invocation(program: string, args: seq<string>)

  /** One external call and the error reported when it does not succeed. */
  datatype Step = Step(call: Invocation, onFailure: Error)

  /**
    The number of leading steps that succeed: every step before it succeeds
    and, unless all do, the step at it fails. `run` says whether a call
    started and exited successfully.
  */
  function FirstFailure(plan: seq<Step>, run: Invocation -> bool): (k: nat)
    ensures k <= |plan|
    ensures forall j :: 0 <= j < k ==> run(plan[j].call)
    ensures k < |plan| ==> !run(plan[k].call)
  {
    if plan == [] || !run(plan[0].call) then 0
    else
      var k := FirstFailure(plan[1..], run);
      assert forall j :: 1 <= j < k + 1 ==> plan[j] == plan[1..][j - 1];
      k + 1
  }

  /** The calls a run makes: every step up to and including the first failing one. */
  function Attempted(plan: seq<Step>, run: Invocation -> bool): (calls: seq<Invocation>)
    ensures |calls| <= |plan|
  {
    var k := FirstFailure(plan, run);
    var n := if k < |plan| then k + 1 else k;
    seq(n, j requires 0 <= j < n => plan[j].call)
  }

  /** `Ok(())` only when every step succeeded, else the first failing step's error. */
  function Outcome(plan: seq<Step>, run: Invocation -> bool): Status {
    var k := FirstFailure(plan, run);
    if k == |plan| then Done else Failed(plan[k].onFailure)
  }

  /**
    Runs stop at the first failure: the calls made are a prefix of the plan,
    all but the last succeeded, and the last failed exactly when the outcome
    is an error, which is then that step's error.
  */
  lemma StopsAtFirstFailure(plan: seq<Step>, run: Invocation -> bool)
    ensures var calls, st := Attempted(plan, run), Outcome(plan, run);
      && (forall j :: 0 <= j < |calls| ==> calls[j] == plan[j].call)
      && (st == Done <==> |calls| == |plan| && forall j :: 0 <= j < |plan| ==> run(plan[j].call))
      && (st != Done ==> calls != [] && !run(calls[|calls| - 1])
                         && st == Failed(plan[|calls| - 1].onFailure)
                         && forall j :: 0 <= j < |calls| - 1 ==> run(calls[j]))
  {
  }

  /** The local plan: `rrdtool <args>` for every image, in order. */
  function LocalPlan(command: string, commands: seq<seq<string>>): (plan: seq<Step>)
    ensures |plan| == |commands|
  {
    seq(|commands|, i requires 0 <= i < |commands| => Step(Invocation(command, commands[i]), RenderFailed(i)))
  }

  /** `ssh user@host <command> <args>` renders image i on the remote host. */
  function SshStep(network: string, command: string, args: seq<string>, i: nat): Step {
    Step(Invocation("ssh", [network, command] + args), SshFailed(i))
  }

  /** `scp user@host:<scratch> <output i>` copies it back. */
  function ScpStep(network: string, remote: string, output: string, i: nat): Step {
    Step(Invocation("scp", [network + ":" + remote, output]), ScpFailed(i))
  }

  /**
    Step 2i of the remote plan runs command i over ssh, step 2i + 1 copies
    its image to output file i.
  */
  lemma RemotePlanAt(network: string, command: string, remote: string, outputFilename: string,
                     commands: seq<seq<string>>, n: nat, i: nat)
    requires n <= |commands| && (|commands| <= 1 || '.' in outputFilename) && i < n
    ensures RemotePlan(network, command, remote, outputFilename, commands, n)[2 * i]
         == SshStep(network, command, commands[i], i)
    ensures RemotePlan(network, command, remote, outputFilename, commands, n)[2 * i + 1]
         == ScpStep(network, remote, OutputFilename(outputFilename, |commands|, i), i)
  {
    if i < n - 1 {
      RemotePlanAt(network, command, remote, outputFilename, commands, n - 1, i);
    }
  }

  /**
    The remote plan for the first n images, for every image the ssh call
    and then the copy back; output names are those of a run of all of
    `commands`.
  */
  function RemotePlan(network: string, command: string, remote: string, outputFilename: string,
                         commands: seq<seq<string>>, n: nat): (plan: seq<Step>)
    requires n <= |commands| && (|commands| <= 1 || '.' in outputFilename)
    ensures |plan| == 2 * n
  {
    if n == 0 then []
    else
      RemotePlan(network, command, remote, outputFilename, commands, n - 1)
        + [SshStep(network, command, commands[n - 1], n - 1),
           ScpStep(network, remote, OutputFilename(outputFilename, |commands|, n - 1), n - 1)]
  }

  /** Running a plan whose first k steps succeeded, in state terms. */
  ghost predicate RanUpTo(plan: seq<Step>, run: Invocation -> bool, k: nat, attempted: seq<Invocation>) {
    k <= |plan| && |attempted| == k
    && forall j :: 0 <= j < k ==> attempted[j] == plan[j].call && run(plan[j].call)
  }

  /** One more successful step. */
  lemma RanStep(plan: seq<Step>, run: Invocation -> bool, k: nat, attempted: seq<Invocation>)
    requires RanUpTo(plan, run, k, attempted) && k < |plan| && run(plan[k].call)
    ensures RanUpTo(plan, run, k + 1, attempted + [plan[k].call])
  {
  }

  /** A failing step ends the run with its error, having been attempted. */
  lemma RanIntoFailure(plan: seq<Step>, run: Invocation -> bool, k: nat, attempted: seq<Invocation>)
    requires RanUpTo(plan, run, k, attempted) && k < |plan| && !run(plan[k].call)
    ensures Outcome(plan, run) == Failed(plan[k].onFailure)
    ensures Attempted(plan, run) == attempted + [plan[k].call]
  {
    assert FirstFailure(plan, run) == k;
  }

  /** A run through every step succeeds, having attempted all of them. */
  lemma RanThrough(plan: seq<Step>, run: Invocation -> bool, attempted: seq<Invocation>)
    requires RanUpTo(plan, run, |plan|, attempted)
    ensures Outcome(plan, run) == Done
    ensures Attempted(plan, run) == attempted
  {
    assert FirstFailure(plan, run) == |plan|;
  }

  /**
    Makes the k-th call of a plan whose first k calls succeeded, and records
    it: either the run goes on, or it ends here with the step's error.
  */
  method Attempt(ghost plan: seq<Step>, run: Invocation -> bool, ghost k: nat, attempted: seq<Invocation>,
                 call: Invocation)
    returns (ok: bool, calls: seq<Invocation>)
    requires RanUpTo(plan, run, k, attempted) && k < |plan| && plan[k].call == call
    ensures ok == run(call) && calls == attempted + [call]
    ensures ok ==> RanUpTo(plan, run, k + 1, calls)
    ensures !ok ==> Outcome(plan, run) == Failed(plan[k].onFailure) && Attempted(plan, run) == calls
  {
    ok := run(call);
    calls := attempted + [call];
    if ok {
      RanStep(plan, run, k, attempted);
    } else {
      RanIntoFailure(plan, run, k, attempted);
    }
  }

  /** `exec_local`: runs every command in order and stops at the first failure. */
  method ExecLocal(command: string, commands: seq<seq<string>>, run: Invocation -> bool)
    returns (status: Status, attempted: seq<Invocation>)
    ensures status == Outcome(LocalPlan(command, commands), run)
    ensures attempted == Attempted(LocalPlan(command, commands), run)
  {
    ghost var plan := LocalPlan(command, commands);
    attempted := [];
    var i := 0;
    while i < |commands|
      invariant 0 <= i <= |commands|
      invariant RanUpTo(plan, run, i, attempted)
    {
      var call := Invocation(command, commands[i]);
      assert plan[i] == Step(call, RenderFailed(i));
      var ok;
      ok, attempted := Attempt(plan, run, i, attempted, call);
      if !ok {
        return Failed(RenderFailed(i)), attempted;
      }
      i := i + 1;
    }
    RanThrough(plan, run, attempted);
    status := Done;
  }

  /**
    `exec_remote`: for every command, runs `rrdtool` over ssh and copies the
    image back, stopping at the first failure.
  */
  method ExecRemote(user: string, host: string, command: string, remote: string, outputFilename: string,
                    commands: seq<seq<string>>, run: Invocation -> bool)
    returns (status: Status, attempted: seq<Invocation>)
    requires |commands| <= 1 || '.' in outputFilename
    ensures var plan := RemotePlan(user + "@" + host, command, remote, outputFilename, commands, |commands|);
      status == Outcome(plan, run) && attempted == Attempted(plan, run)
  {
    var network := user + "@" + host;
    ghost var plan := RemotePlan(network, command, remote, outputFilename, commands, |commands|);
    attempted := [];
    var index := 0;
    while index < |commands|
      invariant 0 <= index <= |commands|
      invariant RanUpTo(plan, run, 2 * index, attempted)
    {
      RemotePlanAt(network, command, remote, outputFilename, commands, |commands|, index);
      ghost var k := 2 * index;
      var ssh := Invocation("ssh", [network, command] + commands[index]);
      assert plan[k] == Step(ssh, SshFailed(index));
      var ok;
      ok, attempted := Attempt(plan, run, k, attempted, ssh);
      if !ok {
        return Failed(SshFailed(index)), attempted;
      }
      var output := OutputFilename(outputFilename, |commands|, index);
      var scp := Invocation("scp", [network + ":" + remote, output]);
      assert plan[k + 1] == Step(scp, ScpFailed(index));
      ok, attempted := Attempt(plan, run, k + 1, attempted, scp);
      if !ok {
        return Failed(ScpFailed(index)), attempted;
      }
      assert k + 2 == 2 * (index + 1);
      index := index + 1;
    }
    assert |plan| == 2 * index;
    RanThrough(plan, run, attempted);
    status := Done;
    assert network == user + "@" + host;
  }
}
