/**
  The memory plugin: checks that the data file of every requested memory
  type exists, then draws all of them in one new image, the i-th type in
  the i-th colour with thickness 5.
*/
module Memory {
  import opened Wrappers
  import opened Common
  import opened Text
  import opened GraphArgs
  import opened MemoryTypes

  const MEMORY_THICKNESS: u32 := 5

  /** `<input_dir>/memory`. */
  function MemoryDir(inputDir: string): string {
    JoinPath(inputDir, "memory")
  }

  /** The data file of `t` in the memory directory. */
  function DataPath(memoryDir: string, t: MemoryType): string {
    JoinPath(memoryDir, ToFilename(t))
  }

  // ---------------------------------------------------------------------------
  // `verify_data_files_exist`

  /** Every type's data file is in `entries`. */
  predicate AllListed(types: seq<MemoryType>, entries: seq<string>) {
    forall i :: 0 <= i < |types| ==> ToFilename(types[i]) in entries
  }

  /**
    `verify_data_files_exist_local`: succeeds exactly when the file of every
    type exists in the memory directory; an empty list always succeeds.
  */
  function VerifyLocal(memoryDir: string, types: seq<MemoryType>, local: FileSystem): (r: Result<(), Error>)
    ensures r.Ok? <==> forall i :: 0 <= i < |types| ==> Exists(local, memoryDir, ToFilename(types[i]))
    ensures r.Err? ==> r.error == MissingDataFile(memoryDir)
  {
    if forall i :: 0 <= i < |types| ==> Exists(local, memoryDir, ToFilename(types[i]))
    then Ok(())
    else Err(MissingDataFile(memoryDir))
  }

  /**
    `verify_data_files_exist_remote`: lists the memory directory over ssh
    (failing when that fails, even for an empty list) and succeeds exactly
    when every type's file name is one of the listed lines.
  */
  function VerifyRemote(memoryDir: string, types: seq<MemoryType>, remote: FileSystem): (r: Result<(), Error>)
    ensures r.Ok? <==> Listing(remote, memoryDir).Some? && AllListed(types, Listing(remote, memoryDir).value)
    ensures Listing(remote, memoryDir).None? ==> r == Err(ListingFailed(memoryDir))
    ensures Listing(remote, memoryDir).Some? && r.Err? ==> r.error == MissingDataFile(memoryDir)
  {
    match Listing(remote, memoryDir)
    case None => Err(ListingFailed(memoryDir))
    case Some(lines) => if AllListed(types, lines) then Ok(()) else Err(MissingDataFile(memoryDir))
  }

  /**
    Every type's data file exists on the machine the target names, whose
    memory directory can be listed when it is the remote host.
  */
  predicate AllPresent(target: Target, memoryDir: string, types: seq<MemoryType>, world: World) {
    var fs := if target == Local then world.local else world.remote;
    && (target == Remote ==> memoryDir in fs.dirs)
    && forall i :: 0 <= i < |types| ==> Exists(fs, memoryDir, ToFilename(types[i]))
  }

  /**
    `verify_data_files_exist`: checks on the machine the target names, and
    succeeds exactly when every type's data file is present there.
  */
  function VerifyDataFilesExist(target: Target, memoryDir: string, types: seq<MemoryType>, world: World)
    : (r: Result<(), Error>)
    ensures r.Ok? <==> AllPresent(target, memoryDir, types, world)
  {
    match target
    case Local => VerifyLocal(memoryDir, types, world.local)
    case Remote => VerifyRemote(memoryDir, types, world.remote)
  }

  /**
    Locally and remotely the check agrees on a listable directory: a file
    exists exactly when its name is listed.
  */
  lemma VerifyTargetsAgree(memoryDir: string, types: seq<MemoryType>, fs: FileSystem)
    requires memoryDir in fs.dirs
    ensures VerifyLocal(memoryDir, types, fs) == VerifyRemote(memoryDir, types, fs)
  {
  }

  // ---------------------------------------------------------------------------
  // The image

  /** Every type's name is a single word: its own symbolic name. */
  lemma NameIsWord(t: MemoryType)
    ensures HasWord(ToString(t)) && FirstWord(ToString(t)) == ToString(t)
  {
    var n := ToString(t);
    assert NoWhitespace(n) by {
      match t
      case Buffered =>
      case Cached =>
      case Free =>
      case SlabRecl =>
      case SlabUnrecl =>
      case Used =>
    }
    assert n + [] == n;
    FirstWordOfPrefix(n, []);
  }

  /** The `DEF`/`LINE5` pair of the i-th type, in the i-th colour. */
  function MemoryPair(target: Target, memoryDir: string, t: MemoryType, color: string): (pair: seq<string>)
    ensures |pair| == 2
  {
    NameIsWord(t);
    DrawPair(target, ToString(t), color, MEMORY_THICKNESS, DataPath(memoryDir, t))
  }

  function MemoryPairs(target: Target, memoryDir: string, types: seq<MemoryType>): (pairs: seq<seq<string>>)
    requires |types| <= |COLORS|
    ensures |pairs| == |types|
  {
    seq(|types|, i requires 0 <= i < |types| => MemoryPair(target, memoryDir, types[i], COLORS[i]))
  }

  /** The one slot the plugin appends. */
  function MemorySlot(target: Target, memoryDir: string, types: seq<MemoryType>): seq<string>
    requires |types| <= |COLORS|
  {
    Flatten(MemoryPairs(target, memoryDir, types))
  }

  /**
    The slot holds two arguments per type, in the order of the list: the
    i-th type's values named after the type, drawn from its data file in
    `COLORS[i]` with thickness 5 and with the type's name as legend.
  */
  lemma MemorySlotAt(target: Target, memoryDir: string, types: seq<MemoryType>, i: nat)
    requires |types| <= |COLORS| && i < |types|
    ensures var slot := MemorySlot(target, memoryDir, types);
      && |slot| == 2 * |types|
      && slot[2 * i] == BuildGraphDef(target, ToString(types[i]), DataPath(memoryDir, types[i]))
      && slot[2 * i + 1] == BuildGraphLine(ToString(types[i]), ToString(types[i]), COLORS[i], MEMORY_THICKNESS)
  {
    var pairs := MemoryPairs(target, memoryDir, types);
    assert forall j :: 0 <= j < |pairs| ==> |pairs[j]| == 2;
    FlattenPairAt(pairs, i);
    var t := types[i];
    assert pairs[i] == MemoryPair(target, memoryDir, t, COLORS[i]);
    MemoryPairOf(target, memoryDir, t, COLORS[i]);
  }

  /** A type's pair uses its name both as symbolic name and as legend. */
  lemma MemoryPairOf(target: Target, memoryDir: string, t: MemoryType, color: string)
    ensures MemoryPair(target, memoryDir, t, color)
         == [BuildGraphDef(target, ToString(t), DataPath(memoryDir, t)),
             BuildGraphLine(ToString(t), ToString(t), color, MEMORY_THICKNESS)]
  {
    NameIsWord(t);
  }

  /** No types: an empty slot. */
  lemma MemorySlotEmpty(target: Target, memoryDir: string)
    ensures MemorySlot(target, memoryDir, []) == []
  {
  }

  // ---------------------------------------------------------------------------
  // `enter_plugin`

  /**
    The outcome of the memory plugin: a failed check is an error; more types
    than colours make `COLORS[i]` panic.
  */
  function MemoryStatus(verified: Result<(), Error>, types: seq<MemoryType>): (st: Status)
    ensures verified.Err? <==> st.Failed?
    ensures verified.Err? ==> st == Failed(verified.error)
    ensures st.Aborted? <==> verified.Ok? && |types| > |COLORS|
  {
    if verified.Err? then Failed(verified.error)
    else if |types| > |COLORS| then Aborted(OutOfColors(|types|))
    else Done
  }

  /** Pushing the i-th type extends the new slot by the i-th pair. */
  lemma MemoryPushStep(target: Target, memoryDir: string, types: seq<MemoryType>, i: nat, before: Slots)
    requires |types| <= |COLORS| && i < |types|
    ensures HasWord(ToString(types[i]))
    ensures var pairs := MemoryPairs(target, memoryDir, types);
      AddToCurrentSlot(before + [Flatten(pairs[..i])],
                       DrawPair(target, ToString(types[i]), COLORS[i], MEMORY_THICKNESS, DataPath(memoryDir, types[i])))
        == before + [Flatten(pairs[..i + 1])]
  {
    var pairs := MemoryPairs(target, memoryDir, types);
    NameIsWord(types[i]);
    AppendLastOf(before, Flatten(pairs[..i]), pairs[i]);
    FlattenPrefixStep(pairs, i);
  }

  /** The loop of `enter_plugin`: the i-th type in the i-th colour, into the new slot. */
  method PushSeries(graphArgs: GraphArguments, memoryDir: string, types: seq<MemoryType>, ghost before: Slots)
    requires |types| <= |COLORS| && graphArgs.args == before + [[]]
    modifies graphArgs`args
    ensures graphArgs.args == before + [MemorySlot(graphArgs.target, memoryDir, types)]
  {
    ghost var pairs := MemoryPairs(graphArgs.target, memoryDir, types);
    assert pairs[..0] == [];
    var i := 0;
    while i < |types|
      invariant 0 <= i <= |types|
      invariant graphArgs.args == before + [Flatten(pairs[..i])]
    {
      MemoryPushStep(graphArgs.target, memoryDir, types, i, before);
      graphArgs.Push(ToString(types[i]), COLORS[i], MEMORY_THICKNESS, DataPath(memoryDir, types[i]));
      i := i + 1;
    }
    assert pairs[..|types|] == pairs;
  }

  /**
    `enter_plugin` for memory: on success exactly one slot, holding every
    type's pair, is added after the existing ones, which are unchanged; on a
    failed check nothing changes.
  */
  method EnterPlugin(graphArgs: GraphArguments, inputDir: string, types: seq<MemoryType>, world: World)
    returns (status: Status)
    modifies graphArgs`args
    ensures status == MemoryStatus(VerifyDataFilesExist(graphArgs.target, MemoryDir(inputDir), types, world), types)
    ensures !status.Done? ==> graphArgs.args == old(graphArgs.args)
    ensures status.Done? ==> graphArgs.args == old(graphArgs.args) + [MemorySlot(graphArgs.target, MemoryDir(inputDir), types)]
  {
    var memoryDir := MemoryDir(inputDir);
    var target := graphArgs.target;
    var verified := VerifyDataFilesExist(target, memoryDir, types, world);
    if verified.Err? {
      return Failed(verified.error);
    }
    if |types| > |COLORS| {
      return Aborted(OutOfColors(|types|));
    }
    graphArgs.NewGraph();
    PushSeries(graphArgs, memoryDir, types, old(graphArgs.args));
    status := Done;
  }

  /**
    The source's tests: with the cached, free and used files present, the
    list free, cached, used passes and the list used, slab_recl does not,
    locally and remotely.
  */
  lemma VerifyExamples(memoryDir: string)
    ensures var fs := FileSystem(map[memoryDir := [ToFilename(Cached), ToFilename(Free), ToFilename(Used)]]);
      && VerifyLocal(memoryDir, [Free, Cached, Used], fs).Ok?
      && VerifyLocal(memoryDir, [Used, SlabRecl], fs) == Err(MissingDataFile(memoryDir))
      && VerifyRemote(memoryDir, [Free, Cached, Used], fs).Ok?
      && VerifyRemote(memoryDir, [Used, SlabRecl], fs) == Err(MissingDataFile(memoryDir))
  {
    var fs := FileSystem(map[memoryDir := [ToFilename(Cached), ToFilename(Free), ToFilename(Used)]]);
    var listed := [ToFilename(Cached), ToFilename(Free), ToFilename(Used)];
    assert ToFilename(SlabRecl) !in listed by {
      if ToFilename(SlabRecl) == ToFilename(Cached) { ToFilenameInjective(SlabRecl, Cached); }
      if ToFilename(SlabRecl) == ToFilename(Free) { ToFilenameInjective(SlabRecl, Free); }
      if ToFilename(SlabRecl) == ToFilename(Used) { ToFilenameInjective(SlabRecl, Used); }
    }
    assert !Exists(fs, memoryDir, ToFilename([Used, SlabRecl][1]));
    assert !AllListed([Used, SlabRecl], listed);
  }

  /** A remote directory that cannot be listed fails the check even for an empty list. */
  lemma VerifyRemoteUnlisted(memoryDir: string, remote: FileSystem)
    requires memoryDir !in remote.dirs
    ensures VerifyRemote(memoryDir, [], remote) == Err(ListingFailed(memoryDir))
    ensures VerifyLocal(memoryDir, [], remote).Ok?
  {
  }
}
