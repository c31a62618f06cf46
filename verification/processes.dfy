/**
  The processes plugin: one `ps_rss` series per process, at most
  `max_processes` series per image, each image's colours starting again at
  the first colour of the palette.
*/
module Processes {
  import opened Wrappers
  import opened Common
  import opened Text
  import opened GraphArgs
  import opened ProcessesData
  import ProcessNames

  // ---------------------------------------------------------------------------
  // `filter_processes`

  /** The elements of `processes` that occur in `allowed`, in their order. */
  function Keep(processes: seq<string>, allowed: seq<string>): (r: seq<string>)
    ensures |r| <= |processes|
    ensures forall x :: x in r <==> x in processes && x in allowed
  {
    if processes == [] then []
    else
      var rest := Keep(processes[1..], allowed);
      assert forall y :: y in processes <==> y == processes[0] || y in processes[1..];
      if processes[0] in allowed then [processes[0]] + rest else rest
  }

  /** `r` is `xs` with some elements dropped and the others in their order. */
  ghost predicate Subsequence(r: seq<string>, xs: seq<string>)
    decreases |xs|
  {
    if r == [] then true
    else if xs == [] then false
    else if r[0] == xs[0] then Subsequence(r[1..], xs[1..])
    else Subsequence(r, xs[1..])
  }

  /**
    `filter_processes`: all processes when no list was given; otherwise those
    equal to an entry of the list, nothing else, in listing order.
  */
  function FilterProcesses(processes: seq<string>, toDraw: Option<seq<string>>): (r: seq<string>)
    ensures |r| <= |processes|
    ensures toDraw.None? ==> r == processes
    ensures toDraw.Some? ==> forall x :: x in r <==> x in processes && x in toDraw.value
  {
    match toDraw
    case None => processes
    case Some(allowed) => Keep(processes, allowed)
  }

  lemma {:induction false} KeepSubsequence(processes: seq<string>, allowed: seq<string>)
    ensures Subsequence(Keep(processes, allowed), processes)
  {
    if processes != [] {
      KeepSubsequence(processes[1..], allowed);
      var r := Keep(processes, allowed);
      if processes[0] !in allowed && r != [] {
        assert r[0] in r;
      }
    }
  }

  /** Filtering keeps the listing order: the result is a subsequence of the input. */
  lemma FilterProcessesOrdered(processes: seq<string>, toDraw: Option<seq<string>>)
    ensures Subsequence(FilterProcesses(processes, toDraw), processes)
  {
    match toDraw
    case None => SubsequenceReflexive(processes);
    case Some(allowed) => KeepSubsequence(processes, allowed);
  }

  lemma {:induction false} SubsequenceReflexive(xs: seq<string>)
    ensures Subsequence(xs, xs)
  {
    if xs != [] {
      SubsequenceReflexive(xs[1..]);
    }
  }

  /** Filtering two listings one after the other filters each. */
  lemma {:induction false} KeepAppend(a: seq<string>, b: seq<string>, allowed: seq<string>)
    ensures Keep(a + b, allowed) == Keep(a, allowed) + Keep(b, allowed)
  {
    if a == [] {
      assert a + b == b;
    } else {
      assert (a + b)[0] == a[0] && (a + b)[1..] == a[1..] + b;
      KeepAppend(a[1..], b, allowed);
    }
  }

  /** Matching is on whole names: `notes` does not select `notepad`. */
  lemma FilterProcessesExample()
    ensures FilterProcesses(["firefox", "chrome", "dolphin", "notepad"],
                            Some(["dolphin", "firefox", "notes"])) == ["firefox", "dolphin"]
  {
    ExampleAllowed();
    KeepOfFour("firefox", "chrome", "dolphin", "notepad", ["dolphin", "firefox", "notes"]);
  }

  /** Of four processes, the first and the third are allowed. */
  lemma KeepOfFour(a: string, b: string, c: string, d: string, allowed: seq<string>)
    requires a in allowed && b !in allowed && c in allowed && d !in allowed
    ensures Keep([a, b, c, d], allowed) == [a, c]
  {
    assert Keep([d], allowed) == [] by {
      assert [d][1..] == [];
    }
    assert Keep([c, d], allowed) == [c] by {
      assert [c, d][1..] == [d];
    }
    assert Keep([b, c, d], allowed) == [c] by {
      assert [b, c, d][1..] == [c, d];
    }
    assert [a, b, c, d][1..] == [b, c, d];
  }

  lemma ExampleAllowed()
    ensures var allowed := ["dolphin", "firefox", "notes"];
      && "firefox" in allowed && "dolphin" in allowed
      && "chrome" !in allowed && "notepad" !in allowed
  {
  }

  // ---------------------------------------------------------------------------
  // Splitting into images of at most `m` processes

  /**
    The number of images for `n` processes at `m` per image: the ceiling of
    n/m. For m = 0 the source's floating-point loop count draws nothing,
    which zero images reproduce.
  */
  function ChunkCount(n: nat, m: nat): (k: nat)
    ensures m == 0 ==> k == 0
    ensures m > 0 ==> n <= k * m && (k == 0 || (k - 1) * m < n)
  {
    if m == 0 then 0
    else
      var k := (n + m - 1) / m;
      assert k * m + (n + m - 1) % m == n + m - 1;
      assert (k - 1) * m == k * m - m;
      k
  }

  lemma MulMonotone(a: nat, b: nat, m: nat)
    requires a <= b
    ensures a * m <= b * m
  {
  }

  function Min(a: nat, b: nat): nat {
    if a < b then a else b
  }

  /** The `i`-th image's processes: never empty, at most `m` of them. */
  function Chunk(names: seq<string>, m: nat, i: nat): (c: seq<string>)
    requires i < ChunkCount(|names|, m)
    ensures 0 < |c| <= m && |c| <= |names|
    ensures AllHaveWords(names) ==> AllHaveWords(c)
  {
    var k := ChunkCount(|names|, m);
    MulMonotone(i, k - 1, m);
    assert (i + 1) * m == i * m + m;
    names[i * m..Min((i + 1) * m, |names|)]
  }

  /** The `i`-th image's processes lie between positions i·m and (i+1)·m. */
  lemma ChunkBounds(names: seq<string>, m: nat, i: nat)
    requires i < ChunkCount(|names|, m)
    ensures i * m <= Min((i + 1) * m, |names|) <= |names|
    ensures Chunk(names, m, i) == names[i * m..Min((i + 1) * m, |names|)]
  {
    var k := ChunkCount(|names|, m);
    MulMonotone(i, k - 1, m);
    assert (i + 1) * m == i * m + m;
  }

  /** The processes of the first `c` images, one image after the other. */
  function ChunksUpTo(names: seq<string>, m: nat, c: nat): seq<string>
    requires c <= ChunkCount(|names|, m)
  {
    if c == 0 then [] else ChunksUpTo(names, m, c - 1) + Chunk(names, m, c - 1)
  }

  lemma MulPred(c: nat, m: nat)
    requires c > 0
    ensures c * m == (c - 1) * m + m
  {
  }

  /** The first `c` images hold the first c·m processes, or all of them. */
  lemma {:induction false} ChunksUpToPrefix(names: seq<string>, m: nat, c: nat)
    requires c <= ChunkCount(|names|, m)
    ensures m > 0 ==> ChunksUpTo(names, m, c) == names[..Min(c * m, |names|)]
  {
    if c > 0 {
      ChunksUpToPrefix(names, m, c - 1);
      ChunkBounds(names, m, c - 1);
      var lo := (c - 1) * m;
      MulPred(c, m);
      var hi := Min(c * m, |names|);
      assert ChunksUpTo(names, m, c) == ChunksUpTo(names, m, c - 1) + names[lo..hi];
      assert names[..lo] + names[lo..hi] == names[..hi];
    }
  }

  /**
    The images together hold every selected process exactly once, in order;
    every image but the last is full.
  */
  lemma ChunksCover(names: seq<string>, m: nat)
    requires m > 0
    ensures ChunksUpTo(names, m, ChunkCount(|names|, m)) == names
    ensures forall i :: 0 <= i < ChunkCount(|names|, m) - 1 ==> |Chunk(names, m, i)| == m
  {
    var k := ChunkCount(|names|, m);
    ChunksUpToPrefix(names, m, k);
    assert names[..|names|] == names;
    forall i | 0 <= i && i + 1 < k
      ensures |Chunk(names, m, i)| == m
    {
      MulMonotone(i + 1, k - 1, m);
    }
  }

  /** Five processes at two per image make three images. */
  lemma ChunkCountExample()
    ensures ChunkCount(5, 2) == 3
  {
  }

  // ---------------------------------------------------------------------------
  // One process's series

  const RSS_FILE: string := "ps_rss.rrd"
  const RSS_THICKNESS: u32 := 3

  /** `<input_dir>/processes-<name>/ps_rss.rrd`. */
  function ProcessPath(inputDir: string, process: string): string {
    JoinPath(JoinPath(inputDir, ProcessNames.PROCESS_DIR_PREFIX + process), RSS_FILE)
  }

  /**
    Below a relative or absolute directory that does not end in `/`, the
    path is the directory, `/processes-`, the name and `/ps_rss.rrd`.
  */
  lemma ProcessPathShape(inputDir: string, process: string)
    requires inputDir != [] && inputDir[|inputDir| - 1] != '/'
    requires process == [] || process[|process| - 1] != '/'
    ensures ProcessPath(inputDir, process)
         == inputDir + "/" + (ProcessNames.PROCESS_DIR_PREFIX + process) + "/" + RSS_FILE
  {
    var dir := ProcessNames.PROCESS_DIR_PREFIX + process;
    assert dir[0] == 'p';
    var d := inputDir + "/" + dir;
    assert d[|d| - 1] == dir[|dir| - 1] != '/';
    assert RSS_FILE[0] == 'p';
  }

  /** The `DEF` and `LINE3` arguments of one process, drawn in `color`. */
  function ProcessPair(target: Target, inputDir: string, process: string, color: string): seq<string>
    requires HasWord(process)
  {
    DrawPair(target, process, color, RSS_THICKNESS, ProcessPath(inputDir, process))
  }

  /**
    A process's pair below a directory not ending in `/`: the symbolic name
    is the first word, the legend the whole name, the thickness 3.
  */
  lemma PairOf(target: Target, inputDir: string, process: string, color: string)
    requires inputDir != [] && inputDir[|inputDir| - 1] != '/'
    requires process == [] || process[|process| - 1] != '/'
    requires HasWord(process)
    ensures ProcessPair(target, inputDir, process, color)
         == [BuildGraphDef(target, FirstWord(process),
                           inputDir + "/" + (ProcessNames.PROCESS_DIR_PREFIX + process) + "/" + RSS_FILE),
             BuildGraphLine(FirstWord(process), process, color, RSS_THICKNESS)]
  {
    ProcessPathShape(inputDir, process);
  }

  /**
    The source's test: one process in green under `/some/path` is drawn
    from `/some/path/processes-firefox/ps_rss.rrd` under the name `firefox`.
  */
  lemma ProcessPairExample()
    ensures HasWord("firefox")
    ensures ProcessPair(Local, "/some/path", "firefox", "#00ff00")
         == [BuildGraphDef(Local, "firefox", "/some/path/processes-" + "firefox" + "/ps_rss.rrd"),
             BuildGraphLine("firefox", "firefox", "#00ff00", 3)]
  {
    FirstWordOfPrefix("firefox", []);
    assert "firefox" + [] == "firefox";
    PairOf(Local, "/some/path", "firefox", "#00ff00");
    ExamplePath("firefox");
  }

  /**
    A name with spaces: the symbolic name is its first word, `rust`, while
    the legend and the directory keep the whole name.
  */
  lemma ProcessPairSpacesExample()
    ensures HasWord("rust language server")
    ensures ProcessPair(Local, "/some/path", "rust language server", "#00ff00")
         == [BuildGraphDef(Local, "rust", "/some/path/processes-" + "rust language server" + "/ps_rss.rrd"),
             BuildGraphLine("rust", "rust language server", "#00ff00", 3)]
  {
    FirstWordOfPrefix("rust", " language server");
    RustName();
    PairOf(Local, "/some/path", "rust language server", "#00ff00");
    ExamplePath("rust language server");
  }

  lemma RustName()
    ensures "rust" + " language server" == "rust language server"
  {
  }

  lemma ExamplePath(process: string)
    ensures "/some/path" + "/" + (ProcessNames.PROCESS_DIR_PREFIX + process) + "/" + RSS_FILE
         == "/some/path/processes-" + process + "/ps_rss.rrd"
  {
    assert "/some/path" + "/" + ProcessNames.PROCESS_DIR_PREFIX == "/some/path/processes-";
    assert "/" + RSS_FILE == "/ps_rss.rrd";
  }

  /** Every name that will be pushed has a first word. */
  predicate AllHaveWords(xs: seq<string>) {
    forall k :: 0 <= k < |xs| ==> HasWord(xs[k])
  }

  /** The first blank name, whose push would panic. */
  function FirstBlank(xs: seq<string>): (r: Option<string>)
    ensures r.None? <==> AllHaveWords(xs)
    ensures r.Some? ==> r.value in xs && !HasWord(r.value)
  {
    if xs == [] then None
    else if !HasWord(xs[0]) then Some(xs[0])
    else
      var r := FirstBlank(xs[1..]);
      assert forall k :: 1 <= k < |xs| ==> xs[k] == xs[1..][k - 1];
      r
  }

  /** The pair of each process of an image, the j-th drawn in the j-th colour. */
  function ChunkPairs(target: Target, inputDir: string, chunk: seq<string>): (pairs: seq<seq<string>>)
    requires |chunk| <= |COLORS| && AllHaveWords(chunk)
    ensures |pairs| == |chunk|
  {
    seq(|chunk|, j requires 0 <= j < |chunk| => ProcessPair(target, inputDir, chunk[j], COLORS[j]))
  }

  /** The arguments of one image. */
  function ChunkArgs(target: Target, inputDir: string, chunk: seq<string>): seq<string>
    requires |chunk| <= |COLORS| && AllHaveWords(chunk)
  {
    Flatten(ChunkPairs(target, inputDir, chunk))
  }

  /** Two arguments per process. */
  lemma ChunkArgsLength(target: Target, inputDir: string, chunk: seq<string>)
    requires |chunk| <= |COLORS| && AllHaveWords(chunk)
    ensures |ChunkArgs(target, inputDir, chunk)| == 2 * |chunk|
  {
    var pairs := ChunkPairs(target, inputDir, chunk);
    assert forall i :: 0 <= i < |pairs| ==> |pairs[i]| == 2;
    FlattenPairs(pairs);
  }

  /**
    Colours restart with every image: the j-th process of an image is drawn
    in `COLORS[j]`, whichever image it is in, at positions 2j (`DEF`) and
    2j + 1 (`LINE`).
  */
  lemma ChunkArgsAt(target: Target, inputDir: string, chunk: seq<string>, j: nat)
    requires |chunk| <= |COLORS| && AllHaveWords(chunk) && j < |chunk|
    ensures var r := ChunkArgs(target, inputDir, chunk);
      && |r| == 2 * |chunk|
      && r[2 * j..2 * j + 2] == ProcessPair(target, inputDir, chunk[j], COLORS[j])
  {
    var pairs := ChunkPairs(target, inputDir, chunk);
    assert forall i :: 0 <= i < |pairs| ==> |pairs[i]| == 2;
    FlattenPairs(pairs);
    assert Flatten(pairs)[2 * j..2 * j + 2] == pairs[j];
    assert pairs[j] == ProcessPair(target, inputDir, chunk[j], COLORS[j]);
  }

  /** The j-th `DEF` of an image binds the j-th process's first word to its data file. */
  lemma ChunkDefAt(target: Target, inputDir: string, chunk: seq<string>, j: nat)
    requires |chunk| <= |COLORS| && AllHaveWords(chunk) && j < |chunk|
    ensures var r := ChunkArgs(target, inputDir, chunk);
      2 * j < |r| && r[2 * j] == BuildGraphDef(target, FirstWord(chunk[j]), ProcessPath(inputDir, chunk[j]))
  {
    var r := ChunkArgs(target, inputDir, chunk);
    ChunkArgsAt(target, inputDir, chunk, j);
    var pair := ProcessPair(target, inputDir, chunk[j], COLORS[j]);
    assert r[2 * j] == r[2 * j..2 * j + 2][0] == pair[0];
  }

  /**
    Two processes of one image whose names share a first word, such as
    `rust language server` and `rust analyzer`, get `DEF`s that bind the
    same symbolic name, each to its own file: the names are not kept apart,
    and rrdtool refuses a name defined twice.
  */
  lemma SharedFirstWordClash(target: Target, inputDir: string, chunk: seq<string>, i: nat, j: nat)
    requires |chunk| <= |COLORS| && AllHaveWords(chunk) && i < j < |chunk|
    requires FirstWord(chunk[i]) == FirstWord(chunk[j])
    ensures var r := ChunkArgs(target, inputDir, chunk);
      var head := "DEF:" + FirstWord(chunk[i]) + "=";
      && 2 * j < |r| && |head| <= |r[2 * i]| && |head| <= |r[2 * j]|
      && r[2 * i][..|head|] == head == r[2 * j][..|head|]
      && r[2 * i] == BuildGraphDef(target, FirstWord(chunk[i]), ProcessPath(inputDir, chunk[i]))
      && r[2 * j] == BuildGraphDef(target, FirstWord(chunk[i]), ProcessPath(inputDir, chunk[j]))
  {
    ChunkDefAt(target, inputDir, chunk, i);
    ChunkDefAt(target, inputDir, chunk, j);
  }

  // ---------------------------------------------------------------------------
  // The effect on the slots

  /**
    `with_process_rss` for image `no`: opens a slot when there are at most
    `no`, then adds the pair to the last slot.
  */
  function RssStep(s: Slots, no: nat, pair: seq<string>): Slots {
    AddToCurrentSlot(if |s| <= no then s + [[]] else s, pair)
  }

  /**
    A push for image `no` adds one slot exactly when there are at most `no`,
    and extends only the last slot.
  */
  lemma RssStepShape(s: Slots, no: nat, pair: seq<string>)
    ensures var r := RssStep(s, no, pair);
      && |r| == (if |s| <= no then |s| + 1 else |s|)
      && r[|r| - 1] == (if |s| <= no then [] else s[|s| - 1]) + pair
      && AppendOnly(s, r)
  {
    if |s| <= no {
      NewGraphShape(s);
      AddToCurrentSlotShape(s + [[]], pair);
      AppendOnlyTransitive(s, s + [[]], RssStep(s, no, pair));
    } else {
      AddToCurrentSlotShape(s, pair);
    }
  }

  /** The pushes of one image, numbered `no`, one pair after the other. */
  function PushAll(s: Slots, no: nat, pairs: seq<seq<string>>): Slots {
    if pairs == [] then s
    else RssStep(PushAll(s, no, pairs[..|pairs| - 1]), no, pairs[|pairs| - 1])
  }

  lemma PushAllSnoc(s: Slots, no: nat, pairs: seq<seq<string>>, k: nat)
    requires k < |pairs|
    ensures PushAll(s, no, pairs[..k + 1]) == RssStep(PushAll(s, no, pairs[..k]), no, pairs[k])
  {
    assert pairs[..k + 1][..k] == pairs[..k];
  }

  /** A push for an image whose slot exists extends the last slot. */
  lemma RssStepExtend(s: Slots, no: nat, pair: seq<string>)
    requires |s| > no
    ensures RssStep(s, no, pair) == AppendLast(s, pair)
  {
  }

  lemma AppendLastTwice(s: Slots, a: seq<string>, b: seq<string>)
    requires s != []
    ensures AppendLast(AppendLast(s, a), b) == AppendLast(s, a + b)
  {
    var n := |s| - 1;
    assert AppendLast(s, a)[..n] == s[..n];
    assert s[n] + a + b == s[n] + (a + b);
  }

  /** An image whose slot already exists goes, whole, onto the end of the last slot. */
  lemma {:induction false} PushAllExtend(s: Slots, no: nat, pairs: seq<seq<string>>)
    requires |s| > no
    ensures PushAll(s, no, pairs) == AppendLast(s, Flatten(pairs))
  {
    if pairs == [] {
      var n := |s| - 1;
      AppendEmpty(s[n]);
      assert s[..n] + [s[n]] == s;
    } else {
      var k := |pairs| - 1;
      var f := Flatten(pairs[..k]);
      PushAllExtend(s, no, pairs[..k]);
      var prev := PushAll(s, no, pairs[..k]);
      assert prev == AppendLast(s, f);
      RssStepExtend(prev, no, pairs[k]);
      AppendLastTwice(s, f, pairs[k]);
    }
  }

  /** An image numbered right after the last slot gets a new slot holding exactly its arguments. */
  lemma {:induction false} PushAllOpen(s: Slots, no: nat, pairs: seq<seq<string>>)
    requires |s| == no && pairs != []
    ensures PushAll(s, no, pairs) == s + [Flatten(pairs)]
  {
    var k := |pairs| - 1;
    if k == 0 {
      assert pairs[..k] == [];
      assert Flatten(pairs) == [] + pairs[0];
      AppendEmpty(pairs[0]);
    } else {
      PushAllOpen(s, no, pairs[..k]);
      var prev := s + [Flatten(pairs[..k])];
      assert prev[..|prev| - 1] == s;
    }
  }

  lemma {:induction false} PushAllAppendOnly(s: Slots, no: nat, pairs: seq<seq<string>>)
    ensures AppendOnly(s, PushAll(s, no, pairs))
  {
    if pairs == [] {
      assert Grows(s, s) by {
        forall i | 0 <= i < |s| ensures s[i] <= s[i] { }
      }
    } else {
      var k := |pairs| - 1;
      var prev := PushAll(s, no, pairs[..k]);
      PushAllAppendOnly(s, no, pairs[..k]);
      RssStepShape(prev, no, pairs[k]);
      AppendOnlyTransitive(s, prev, PushAll(s, no, pairs));
    }
  }

  /** Image i's pairs pushed for image number i, image after image. */
  function PushImages(s: Slots, images: seq<seq<seq<string>>>): Slots {
    if images == [] then s
    else
      var k := |images| - 1;
      PushAll(PushImages(s, images[..k]), k, images[k])
  }

  lemma PushImagesSnoc(s: Slots, images: seq<seq<seq<string>>>, k: nat)
    requires k < |images|
    ensures PushImages(s, images[..k + 1]) == PushAll(PushImages(s, images[..k]), k, images[k])
  {
    assert images[..k + 1][..k] == images[..k];
  }

  /** One slot per image, holding the image's arguments. */
  function Layout(images: seq<seq<seq<string>>>): (r: Slots)
    ensures |r| == |images|
  {
    if images == [] then [] else Layout(images[..|images| - 1]) + [Flatten(images[|images| - 1])]
  }

  lemma {:induction false} LayoutAt(images: seq<seq<seq<string>>>, i: nat)
    requires i < |images|
    ensures Layout(images)[i] == Flatten(images[i])
  {
    var k := |images| - 1;
    if i < k {
      LayoutAt(images[..k], i);
    }
  }

  /** Every image has a process: it opens its slot. */
  predicate Drawable(images: seq<seq<seq<string>>>) {
    forall i :: 0 <= i < |images| ==> images[i] != []
  }

  lemma DrawablePrefix(images: seq<seq<seq<string>>>, k: nat)
    requires Drawable(images) && k <= |images|
    ensures Drawable(images[..k])
  {
  }

  /**
    Starting from no slots, images that are not empty fill one slot each,
    slot i holding exactly image i's arguments.
  */
  lemma {:induction false} PushImagesFresh(images: seq<seq<seq<string>>>)
    requires Drawable(images)
    ensures PushImages([], images) == Layout(images)
  {
    if images != [] {
      var k := |images| - 1;
      PushImagesFresh(images[..k]);
      PushAllOpen(Layout(images[..k]), k, images[k]);
    }
  }

  /** Whatever the slots held before, pushing only appends: no slot but the last is changed. */
  lemma {:induction false} PushImagesAppendOnly(s: Slots, images: seq<seq<seq<string>>>)
    ensures AppendOnly(s, PushImages(s, images))
  {
    if images == [] {
      assert Grows(s, s) by {
        forall i | 0 <= i < |s| ensures s[i] <= s[i] { }
      }
    } else {
      var k := |images| - 1;
      PushImagesAppendOnly(s, images[..k]);
      var prev := PushImages(s, images[..k]);
      PushAllAppendOnly(prev, k, images[k]);
      AppendOnlyTransitive(s, prev, PushImages(s, images));
    }
  }

  /**
    When an earlier plugin already opened a slot, the first image does not
    get a slot of its own: it is appended to that last slot.
  */
  lemma FirstImageJoinsLastSlot(s: Slots, images: seq<seq<seq<string>>>)
    requires s != [] && images != []
    ensures PushImages(s, images[..1]) == AppendLast(s, Flatten(images[0]))
  {
    assert images[..1][..0] == [];
    PushAllExtend(s, 0, images[0]);
  }

  /** An image numbered after the last slot opens its own slot. */
  lemma PushImagesOpen(s: Slots, images: seq<seq<seq<string>>>)
    requires images != [] && images[|images| - 1] != []
    requires |PushImages(s, images[..|images| - 1])| == |images| - 1
    ensures PushImages(s, images) == PushImages(s, images[..|images| - 1]) + [Flatten(images[|images| - 1])]
  {
    var k := |images| - 1;
    PushAllOpen(PushImages(s, images[..k]), k, images[k]);
  }

  lemma SlotsAssoc(a: Slots, b: Slots, c: Slots)
    ensures a + b + c == a + (b + c)
  {
  }

  /** Dropping the first image and the last one commute. */
  lemma DropFirstOfInit(images: seq<seq<seq<string>>>)
    requires |images| >= 2
    ensures var k := |images| - 1;
      images[1..][..k - 1] == images[..k][1..] && images[1..][k - 1] == images[k]
  {
  }

  /**
    After exactly one earlier slot, image 0 is appended to that slot and
    every later image gets a slot of its own.
  */
  lemma {:induction false} PushImagesAfterOne(x: seq<string>, images: seq<seq<seq<string>>>)
    requires images != [] && Drawable(images)
    ensures PushImages([x], images) == [x + Flatten(images[0])] + Layout(images[1..])
  {
    var k := |images| - 1;
    if k == 0 {
      FirstImageJoinsLastSlot([x], images);
      assert images[..1] == images && images[1..] == [];
    } else {
      var init := images[..k];
      DrawablePrefix(images, k);
      PushImagesAfterOne(x, init);
      assert init[0] == images[0];
      var head := [x + Flatten(images[0])];
      var prev := PushImages([x], init);
      assert prev == head + Layout(init[1..]);
      PushImagesOpen([x], images);
      var rest := images[1..];
      DropFirstOfInit(images);
      var last := [Flatten(images[k])];
      assert PushImages([x], images) == prev + last;
      assert Layout(rest) == Layout(rest[..k - 1]) + [Flatten(rest[k - 1])];
      SlotsAssoc(head, Layout(init[1..]), last);
    }
  }

  /** The pairs of every image of `names` at `m` processes per image. */
  function Images(target: Target, inputDir: string, names: seq<string>, m: nat): (images: seq<seq<seq<string>>>)
    requires |names| <= |COLORS| && AllHaveWords(names)
    ensures |images| == ChunkCount(|names|, m)
    ensures forall i :: 0 <= i < |images| ==> |images[i]| == |Chunk(names, m, i)| > 0
  {
    var k := ChunkCount(|names|, m);
    seq(k, i requires 0 <= i < k => ChunkPairs(target, inputDir, Chunk(names, m, i)))
  }

  /** Every image has a process, and there is one unless there are no processes. */
  lemma ImagesNonEmpty(target: Target, inputDir: string, names: seq<string>, m: nat)
    requires |names| <= |COLORS| && AllHaveWords(names)
    ensures var images := Images(target, inputDir, names, m);
      && (names != [] && m > 0 ==> images != [])
      && Drawable(images)
  {
  }

  /** The slots after a successful run: every image of the selected processes, in order. */
  function ProcessesSlots(s: Slots, target: Target, inputDir: string, chosen: seq<string>, m: nat): Slots
    requires |chosen| < |COLORS| && (m > 0 ==> AllHaveWords(chosen))
  {
    if m == 0 then s else PushImages(s, Images(target, inputDir, chosen, m))
  }

  /**
    From no slots, n processes at m > 0 per image fill ceil(n/m) slots, slot
    i holding exactly the arguments of the i-th group of m processes.
  */
  lemma ProcessesSlotsFresh(target: Target, inputDir: string, names: seq<string>, m: nat)
    requires |names| < |COLORS| && AllHaveWords(names) && m > 0
    ensures var r := ProcessesSlots([], target, inputDir, names, m);
      && |r| == ChunkCount(|names|, m)
      && forall i :: 0 <= i < |r| ==> r[i] == ChunkArgs(target, inputDir, Chunk(names, m, i))
  {
    var images := Images(target, inputDir, names, m);
    forall i | 0 <= i < |images|
      ensures images[i] != [] && Layout(images)[i] == ChunkArgs(target, inputDir, Chunk(names, m, i))
    {
      LayoutAt(images, i);
    }
    PushImagesFresh(images);
  }

  /** Whatever the slots held before, the plugin only appends. */
  lemma ProcessesSlotsAppendOnly(s: Slots, target: Target, inputDir: string, chosen: seq<string>, m: nat)
    requires |chosen| < |COLORS| && (m > 0 ==> AllHaveWords(chosen))
    ensures AppendOnly(s, ProcessesSlots(s, target, inputDir, chosen, m))
  {
    if m > 0 {
      PushImagesAppendOnly(s, Images(target, inputDir, chosen, m));
    } else {
      PushImagesAppendOnly(s, []);
    }
  }

  /**
    After an earlier plugin's slot, the first group of processes lands in
    that slot rather than in a new one.
  */
  lemma ProcessesJoinLastSlot(s: Slots, target: Target, inputDir: string, names: seq<string>, m: nat)
    requires |names| < |COLORS| && AllHaveWords(names) && m > 0
    requires s != [] && names != []
    ensures var images := Images(target, inputDir, names, m);
      images != [] && PushImages(s, images[..1]) == AppendLast(s, ChunkArgs(target, inputDir, Chunk(names, m, 0)))
  {
    var images := Images(target, inputDir, names, m);
    FirstImageJoinsLastSlot(s, images);
  }

  /** Five processes at two per image: images of 2, 2 and 1. */
  lemma FiveByTwo(names: seq<string>)
    requires |names| == 5
    ensures ChunkCount(5, 2) == 3
    ensures |Chunk(names, 2, 0)| == 2 && |Chunk(names, 2, 1)| == 2 && |Chunk(names, 2, 2)| == 1
  {
    assert ChunkCount(5, 2) == 3;
    assert Chunk(names, 2, 0) == names[0..2];
    assert Chunk(names, 2, 1) == names[2..4];
    assert Chunk(names, 2, 2) == names[4..5];
  }

  /** Five processes at two per image, from no slots: three slots of 4, 4 and 2 arguments. */
  lemma FiveProcessesThreeSlots(target: Target, inputDir: string, names: seq<string>)
    requires |names| == 5 && AllHaveWords(names)
    ensures var r := ProcessesSlots([], target, inputDir, names, 2);
      |r| == 3 && |r[0]| == 4 && |r[1]| == 4 && |r[2]| == 2
  {
    FiveByTwo(names);
    ProcessesSlotsFresh(target, inputDir, names, 2);
    var r := ProcessesSlots([], target, inputDir, names, 2);
    var c0, c1, c2 := Chunk(names, 2, 0), Chunk(names, 2, 1), Chunk(names, 2, 2);
    ChunkArgsLength(target, inputDir, c0);
    ChunkArgsLength(target, inputDir, c1);
    ChunkArgsLength(target, inputDir, c2);
    assert r[0] == ChunkArgs(target, inputDir, c0);
    assert r[1] == ChunkArgs(target, inputDir, c1);
    assert r[2] == ChunkArgs(target, inputDir, c2);
  }

  // ---------------------------------------------------------------------------
  // `enter_plugin`

  /**
    The outcome of the processes plugin once the data directory has been
    listed: a failed listing or an empty one is an error; 20 or more
    selected processes, or a blank name about to be drawn, is a panic.
  */
  function ProcessesStatus(listing: Result<seq<string>, Error>, data: ProcessesData): (st: Status)
    ensures listing.Err? ==> st == Failed(listing.error)
    ensures listing.Ok? && listing.value == [] ==> st == Failed(NoProcesses)
    ensures listing.Ok? && listing.value != [] ==>
      var chosen := FilterProcesses(listing.value, data.processesToDraw);
      && !st.Failed?
      && (st.Aborted? <==> |chosen| >= |COLORS| || (data.maxProcesses > 0 && !AllHaveWords(chosen)))
  {
    match listing
    case Err(e) => Failed(e)
    case Ok(names) =>
      if names == [] then Failed(NoProcesses)
      else
        var chosen := FilterProcesses(names, data.processesToDraw);
        if |chosen| >= |COLORS| then Aborted(TooManyProcesses(|chosen|))
        else if data.maxProcesses > 0 && FirstBlank(chosen).Some? then Aborted(BlankLegend(FirstBlank(chosen).value))
        else Done
  }

  /**
    `with_process_rss`: pushes one process's series in `color` for image
    `graphArgsNo`, opening a slot first when there are at most `graphArgsNo`.
  */
  method WithProcessRss(graphArgs: GraphArguments, inputDir: string, process: string, color: string, graphArgsNo: nat)
    requires HasWord(process)
    modifies graphArgs`args
    ensures graphArgs.args == RssStep(old(graphArgs.args), graphArgsNo,
                                      ProcessPair(graphArgs.target, inputDir, process, color))
  {
    var path := ProcessPath(inputDir, process);
    if |graphArgs.args| <= graphArgsNo {
      graphArgs.NewGraph();
    }
    graphArgs.Push(process, color, RSS_THICKNESS, path);
  }

  /**
    The inner loop of `enter_plugin`: pushes the processes of one image,
    numbered `no`, the j-th in the j-th colour.
  */
  method DrawImage(graphArgs: GraphArguments, inputDir: string, chunk: seq<string>, no: nat)
    requires |chunk| <= |COLORS| && AllHaveWords(chunk)
    modifies graphArgs`args
    ensures graphArgs.args == PushAll(old(graphArgs.args), no, ChunkPairs(graphArgs.target, inputDir, chunk))
  {
    ghost var pairs := ChunkPairs(graphArgs.target, inputDir, chunk);
    var color := 0;
    while color < |chunk|
      invariant 0 <= color <= |chunk|
      invariant graphArgs.args == PushAll(old(graphArgs.args), no, pairs[..color])
    {
      assert pairs[color] == ProcessPair(graphArgs.target, inputDir, chunk[color], COLORS[color]);
      WithProcessRss(graphArgs, inputDir, chunk[color], COLORS[color], no);
      PushAllSnoc(old(graphArgs.args), no, pairs, color);
      color := color + 1;
    }
    assert pairs[..|chunk|] == pairs;
  }

  /**
    The outer loop of `enter_plugin`: image i holds the i-th group of `m`
    processes and is pushed with number i.
  */
  method DrawImages(graphArgs: GraphArguments, inputDir: string, processes: seq<string>, m: nat)
    requires |processes| <= |COLORS| && AllHaveWords(processes) && m > 0
    modifies graphArgs`args
    ensures graphArgs.args == PushImages(old(graphArgs.args), Images(graphArgs.target, inputDir, processes, m))
  {
    ghost var images := Images(graphArgs.target, inputDir, processes, m);
    var loops := ChunkCount(|processes|, m);
    var i := 0;
    while i < loops
      invariant 0 <= i <= loops
      invariant graphArgs.args == PushImages(old(graphArgs.args), images[..i])
    {
      var lower := i * m;
      var upper := Min((i + 1) * m, |processes|);
      ChunkBounds(processes, m, i);
      var chunk := processes[lower..upper];
      assert images[i] == ChunkPairs(graphArgs.target, inputDir, chunk);
      DrawImage(graphArgs, inputDir, chunk, i);
      PushImagesSnoc(old(graphArgs.args), images, i);
      i := i + 1;
    }
    assert images[..loops] == images;
  }

  /**
    `enter_plugin` for processes: lists the processes, filters them, and
    draws them `maxProcesses` to an image, colours restarting per image.
    On any error or panic the slots are left as they were.
  */
  method EnterPlugin(graphArgs: GraphArguments, inputDir: string, data: ProcessesData, world: World)
    returns (status: Status)
    modifies graphArgs`args
    ensures var listing := ProcessNames.Get(graphArgs.target, inputDir, world);
      && status == ProcessesStatus(listing, data)
      && (!status.Done? ==> graphArgs.args == old(graphArgs.args))
      && (status.Done? ==> graphArgs.args == ProcessesSlots(old(graphArgs.args), graphArgs.target, inputDir,
                                                             FilterProcesses(listing.value, data.processesToDraw),
                                                             data.maxProcesses))
  {
    var listing := ProcessNames.Get(graphArgs.target, inputDir, world);
    if listing.Err? {
      return Failed(listing.error);
    }
    var processes := listing.value;
    if |processes| == 0 {
      return Failed(NoProcesses);
    }
    processes := FilterProcesses(processes, data.processesToDraw);
    if |processes| >= |COLORS| {
      return Aborted(TooManyProcesses(|processes|));
    }
    var m := data.maxProcesses;
    if m > 0 && FirstBlank(processes).Some? {
      return Aborted(BlankLegend(FirstBlank(processes).value));
    }
    status := Done;
    if m == 0 {
      return;
    }
    DrawImages(graphArgs, inputDir, processes, m);
  }
}
