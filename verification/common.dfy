/**
  Vocabulary shared by both versions of the builder: the data target, the
  colour palette, the slot layout of graph arguments, run statuses and the
  abstraction of the file systems the tool lists.
*/
module Common {
  import opened Wrappers

  /** Where the collectd data lives. */
  datatype Target = Local | Remote

  /** Rust's `u32` and `u64`, the types of the size and time settings. */
  type u32 = x: nat | x < 0x1_0000_0000
  type u64 = x: nat | x < 0x1_0000_0000_0000_0000

  /** `Rrdtool::COLORS`: one colour per series of an image. */
  const COLORS: seq<string> := [
    "#e6194b", "#3cb44b", "#ffe119", "#4363d8", "#f58231", "#911eb4", "#46f0f0", "#f032e6",
    "#bcf60c", "#fabebe", "#008080", "#e6beff", "#9a6324", "#800000", "#aaffc3", "#808000",
    "#ffd8b1", "#000075", "#808080", "#000000"
  ]

  /** The remote scratch image every remote command writes. */
  const REMOTE_SCRATCH: string := "/tmp/cgg-out.png"

  /** `Vec<Vec<String>>`: one slot of `DEF`/`LINE` arguments per output image. */
  type Slots = seq<seq<string>>

  /**
    Every existing slot only gained arguments at its end, and new slots may
    follow: nothing was removed or reordered.
  */
  ghost predicate Grows(s: Slots, t: Slots) {
    |s| <= |t| && forall i :: 0 <= i < |s| ==> s[i] <= t[i]
  }

  /** `Grows`, and only the last existing slot may have gained arguments. */
  ghost predicate AppendOnly(s: Slots, t: Slots) {
    Grows(s, t) && forall i :: 0 <= i < |s| - 1 ==> t[i] == s[i]
  }

  lemma AppendOnlyTransitive(s: Slots, t: Slots, u: Slots)
    requires AppendOnly(s, t) && AppendOnly(t, u)
    ensures AppendOnly(s, u)
  {
    forall i | 0 <= i < |s|
      ensures s[i] <= u[i]
    {
      assert s[i] <= t[i] <= u[i];
    }
  }

  lemma GrowsTransitive(s: Slots, t: Slots, u: Slots)
    requires Grows(s, t) && Grows(t, u)
    ensures Grows(s, u)
  {
    forall i | 0 <= i < |s|
      ensures s[i] <= u[i]
    {
      assert s[i] <= t[i] <= u[i];
    }
  }

  /** Why a step returned an error (`anyhow::bail!` and `?` in the source). */
  datatype Error =
    | ListingFailed(dir: string)          // read_dir or `ssh ls` failed
    | NoProcesses                         // the listing held no `processes-` entry
    | MissingDataFile(dir: string)        // a memory data file is absent
    | PluginFailed(plugin: string, cause: Error)
    | RenderFailed(slot: nat)             // rrdtool exited unsuccessfully
    | SshFailed(slot: nat)                // remote rrdtool exited unsuccessfully
    | ScpFailed(slot: nat)                // copying the image back failed

  /** Why the source panics (`assert!`, `unwrap`, an index out of range). */
  datatype Abort =
    | TooManyProcesses(count: nat)        // at least |COLORS| processes to draw
    | BlankLegend(name: string)           // `split_whitespace().next().unwrap()` on a blank name
    | OutOfColors(count: nat)             // `COLORS[i]` with i >= |COLORS|
    | MissingPluginData(plugin: string)   // plugin selected without its options
    | NoExtension(filename: string)       // `rfind(".").unwrap()` on an output name without `.`
    | NoScratchFile                       // `remote_filename.unwrap()` before `with_output_file`

  /** Outcome of a step: finished, returned an error, or panicked. */
  datatype Status = Done | Failed(error: Error) | Aborted(reason: Abort)

  /**
    A file system as seen by directory listings: each listable directory maps
    to the names it holds, in listing order. A directory that is not a key
    cannot be listed.
  */
  datatype FileSystem = FileSystem(dirs: map<string, seq<string>>)

  /** The local machine and the remote host named by the locator. */
  datatype World = World(local: FileSystem, remote: FileSystem)

  /** `read_dir(dir)` or `ssh user@host ls dir`. */
  function Listing(fs: FileSystem, dir: string): Option<seq<string>> {
    if dir in fs.dirs then Some(fs.dirs[dir]) else None
  }

  /** `dir/name` exists. */
  predicate Exists(fs: FileSystem, dir: string, name: string) {
    dir in fs.dirs && name in fs.dirs[dir]
  }
}
