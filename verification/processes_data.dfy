/** `ProcessesData`: the options of the processes plugin. */
module ProcessesData {
  import opened Wrappers
  import opened Common
  import opened Text

  /**
    At most `maxProcesses` processes per image; `processesToDraw` names the
    processes to draw, all of them when absent.
  */
  datatype ProcessesData = ProcessesData(maxProcesses: nat, processesToDraw: Option<seq<string>>)

  /** `parse_processes`: the comma-separated list, every piece kept. */
  function ParseProcesses(processes: string): (names: seq<string>)
    ensures |names| >= 1
    ensures forall k :: 0 <= k < |names| ==> ',' !in names[k]
  {
    Split(processes, ',')
  }

  /** The pieces joined with `,` are the input, and there is one per comma plus one. */
  lemma ParseProcessesInverse(processes: string)
    ensures Join(ParseProcesses(processes), ',') == processes
    ensures |ParseProcesses(processes)| == Count(processes, ',') + 1
  {
    JoinSplit(processes, ',');
    SplitLength(processes, ',');
  }

  /** Any list of comma-free names is read back from its joined form. */
  lemma ParseProcessesOfJoin(names: seq<string>)
    requires |names| >= 1
    requires forall k :: 0 <= k < |names| ==> ',' !in names[k]
    ensures ParseProcesses(Join(names, ',')) == names
  {
    SplitJoin(names, ',');
  }

  lemma ParseProcessesSingle()
    ensures ParseProcesses("firefox") == ["firefox"]
  {
    var one := ["firefox"];
    assert Join(one, ',') == "firefox";
    ParseProcessesOfJoin(one);
  }

  lemma ParseProcessesThree()
    ensures ParseProcesses("firefox,chrome,dolphin") == ["firefox", "chrome", "dolphin"]
  {
    var three := ["firefox", "chrome", "dolphin"];
    assert Join(three[2..], ',') == "dolphin";
    assert "chrome" + [','] + "dolphin" == "chrome,dolphin";
    assert Join(three[1..], ',') == "chrome,dolphin";
    assert "firefox" + [','] + "chrome,dolphin" == "firefox,chrome,dolphin";
    ParseProcessesOfJoin(three);
  }

  /** The limit used when the command line gives none: one image holds every colour. */
  function MaxProcessesOrDefault(maxProcesses: Option<nat>): (m: nat)
    ensures maxProcesses.Some? ==> m == maxProcesses.value
    ensures maxProcesses.None? ==> m == |COLORS| == 20
  {
    match maxProcesses
    case Some(n) => n
    case None => |COLORS|
  }
}
