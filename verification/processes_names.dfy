/**
  `processes_names`: the processes collectd recorded, read off the names of
  the `processes-<name>` directories in the data directory.
*/
module ProcessNames {
  import opened Wrappers
  import opened Common
  import opened Text

  const PROCESS_DIR_PREFIX: string := "processes-"

  /**
    The `filter_map(strip_prefix("processes-"))` both listings go through:
    the entries that start with the prefix, prefix removed, in listing order.
  */
  function ProcessNames(listing: seq<string>): (names: seq<string>)
    ensures |names| <= |listing|
    ensures forall x :: x in names <==> PROCESS_DIR_PREFIX + x in listing
  {
    if listing == [] then []
    else
      var rest := ProcessNames(listing[1..]);
      assert forall y :: y in listing <==> y == listing[0] || y in listing[1..];
      match StripPrefix(listing[0], PROCESS_DIR_PREFIX)
      case None => rest
      case Some(name) => [name] + rest
  }

  /** Listing two parts one after the other gives their names one after the other. */
  lemma {:induction false} ProcessNamesAppend(a: seq<string>, b: seq<string>)
    ensures ProcessNames(a + b) == ProcessNames(a) + ProcessNames(b)
  {
    if a != [] {
      assert (a + b)[0] == a[0] && (a + b)[1..] == a[1..] + b;
      ProcessNamesAppend(a[1..], b);
    } else {
      assert a + b == b;
    }
  }

  /** An entry without the prefix contributes nothing. */
  lemma ProcessNamesSkips(entry: string)
    requires !(PROCESS_DIR_PREFIX <= entry)
    ensures ProcessNames([entry]) == []
  {
  }

  /** The directories collectd writes for `names` give back exactly `names`, spaces and all. */
  lemma {:induction false} ProcessNamesOfDirectories(names: seq<string>)
    ensures ProcessNames(seq(|names|, i requires 0 <= i < |names| => PROCESS_DIR_PREFIX + names[i])) == names
  {
    var dirs := seq(|names|, i requires 0 <= i < |names| => PROCESS_DIR_PREFIX + names[i]);
    if names != [] {
      var tail := seq(|names| - 1, i requires 0 <= i < |names| - 1 => PROCESS_DIR_PREFIX + names[1..][i]);
      assert dirs[1..] == tail;
      ProcessNamesOfDirectories(names[1..]);
      assert StripPrefix(dirs[0], PROCESS_DIR_PREFIX) == Some(names[0]);
      assert names == [names[0]] + names[1..];
    }
  }

  /** `get_from_local`: the names in the local directory; an unreadable directory is an error. */
  function GetFromLocal(inputDir: string, local: FileSystem): (r: Result<seq<string>, Error>)
    ensures r.Err? <==> Listing(local, inputDir).None?
    ensures r.Err? ==> r.error == ListingFailed(inputDir)
    ensures r.Ok? ==> forall x :: x in r.value <==> Exists(local, inputDir, PROCESS_DIR_PREFIX + x)
  {
    match Listing(local, inputDir)
    case None => Err(ListingFailed(inputDir))
    case Some(entries) => Ok(ProcessNames(entries))
  }

  /** `get_from_remote`: the same over the lines `ssh ls` prints; a failed `ls` is an error. */
  function GetFromRemote(inputDir: string, remote: FileSystem): (r: Result<seq<string>, Error>)
    ensures r.Err? <==> Listing(remote, inputDir).None?
    ensures r.Err? ==> r.error == ListingFailed(inputDir)
    ensures r.Ok? ==> forall x :: x in r.value <==> Exists(remote, inputDir, PROCESS_DIR_PREFIX + x)
  {
    match Listing(remote, inputDir)
    case None => Err(ListingFailed(inputDir))
    case Some(lines) => Ok(ProcessNames(lines))
  }

  /** `get`: reads the local directory or the remote one, as the target says. */
  function Get(target: Target, inputDir: string, world: World): (r: Result<seq<string>, Error>)
    ensures var fs := if target == Local then world.local else world.remote;
      && (r.Err? <==> Listing(fs, inputDir).None?)
      && (r.Ok? ==> r.value == ProcessNames(Listing(fs, inputDir).value))
  {
    match target
    case Local => GetFromLocal(inputDir, world.local)
    case Remote => GetFromRemote(inputDir, world.remote)
  }

  /** The entry of a `processes-` directory contributes its process name. */
  lemma ProcessNamesKeeps(name: string)
    ensures ProcessNames([PROCESS_DIR_PREFIX + name]) == [name]
  {
    var entry := PROCESS_DIR_PREFIX + name;
    assert entry[|PROCESS_DIR_PREFIX|..] == name;
  }

  lemma ExampleEntries()
    ensures "processes-firefox" == PROCESS_DIR_PREFIX + "firefox"
    ensures "processes-rust language server" == PROCESS_DIR_PREFIX + "rust language server"
  {
  }

  /** A listing with one non-process entry and a process name holding spaces. */
  lemma ProcessNamesExample()
    ensures ProcessNames(["processes-firefox", "memory", "processes-rust language server"])
         == ["firefox", "rust language server"]
  {
    var a, b, c := "processes-firefox", "memory", "processes-rust language server";
    ExampleEntries();
    ProcessNamesKeeps("firefox");
    ProcessNamesKeeps("rust language server");
    assert !(PROCESS_DIR_PREFIX <= b) by {
      assert |b| < |PROCESS_DIR_PREFIX|;
    }
    ProcessNamesSkips(b);
    ProcessNamesAppend([a], [b]);
    ProcessNamesAppend([a] + [b], [c]);
    assert [a, b, c] == [a] + [b] + [c];
  }
}
