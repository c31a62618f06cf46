/**
  `GraphArguments`: the accumulator of per-image `DEF`/`LINE` arguments, and
  the two string builders that format them.
*/
module GraphArgs {
  import opened Wrappers
  import opened Common
  import opened Text

  /** The quote put around data paths: remote paths pass through a shell. */
  function Quote(target: Target): string {
    if target == Remote then "\"" else ""
  }

  const DEF_TAIL: string := ":value:AVERAGE"

  /** `build_graph_def`: binds `name` to the averaged values of the file at `path`. */
  function BuildGraphDef(target: Target, name: string, path: string): (r: string)
    ensures var head := "DEF:" + name + "=";
      && |r| == |head| + 2 * |Quote(target)| + |path| + |DEF_TAIL|
      && r[..|head|] == head && r[|r| - |DEF_TAIL|..] == DEF_TAIL
  {
    var head := "DEF:" + name + "=";
    var r := "DEF:" + name + "=" + Quote(target) + path + Quote(target) + DEF_TAIL;
    assert r == head + (Quote(target) + path + Quote(target) + DEF_TAIL);
    r
  }

  /** `build_graph_line`: draws `name` in `color` with `thickness`, legend quoted. */
  function BuildGraphLine(name: string, legend: string, color: string, thickness: u32): (r: string)
    ensures var head, tail := "LINE" + NatToString(thickness) + ":" + name, ":\"" + legend + "\"";
      && |r| == |head| + |color| + |tail|
      && r[..|head|] == head && r[|r| - |tail|..] == tail
  {
    var head, tail := "LINE" + NatToString(thickness) + ":" + name, ":\"" + legend + "\"";
    var r := "LINE" + NatToString(thickness) + ":" + name + color + ":\"" + legend + "\"";
    assert r == head + (color + tail);
    r
  }

  /** The two arguments `push` adds: the symbolic name is the legend's first word. */
  function DrawPair(target: Target, legend: string, color: string, thickness: u32, path: string): seq<string>
    requires HasWord(legend)
  {
    var name := FirstWord(legend);
    [BuildGraphDef(target, name, path), BuildGraphLine(name, legend, color, thickness)]
  }

  // ---------------------------------------------------------------------------
  // Reading the arguments back

  datatype DefParts = DefParts(name: string, path: string)

  datatype LineParts = LineParts(thickness: nat, name: string, color: string, legend: string)

  /** Every colour of the palette is `#` and six characters. */
  const COLOR_WIDTH: nat := 7

  /** Reads a `DEF` argument written for `target` back into its name and path. */
  function ParseGraphDef(target: Target, s: string): Option<DefParts> {
    match Between(s, "DEF:", DEF_TAIL)
    case None => None
    case Some(body) =>
      match SplitFirst(body, '=')
      case None => None
      case Some((name, quoted)) =>
        match Between(quoted, Quote(target), Quote(target))
        case None => None
        case Some(path) => Some(DefParts(name, path))
  }

  /**
    Reads a `LINE` argument back into thickness, name, colour and legend,
    taking the colour to be the `COLOR_WIDTH` characters before the first `:"`
    after the thickness.
  */
  function ParseGraphLine(s: string): Option<LineParts> {
    match Between(s, "LINE", "\"")
    case None => None
    case Some(body) =>
      match SplitFirst(body, ':')
      case None => None
      case Some((digits, rest)) =>
        match SplitFirst(rest, ':')
        case None => None
        case Some((nameColor, quotedLegend)) =>
          match Between(quotedLegend, "\"", "")
          case None => None
          case Some(legend) =>
            if digits != [] && IsDigits(digits) && |nameColor| >= COLOR_WIDTH then
              var cut := |nameColor| - COLOR_WIDTH;
              Some(LineParts(DecimalValue(digits), nameColor[..cut], nameColor[cut..], legend))
            else None
  }

  /** A `DEF` argument gives back the symbolic name and the path it was built from. */
  lemma DefRoundTrip(target: Target, name: string, path: string)
    requires '=' !in name
    ensures ParseGraphDef(target, BuildGraphDef(target, name, path)) == Some(DefParts(name, path))
  {
    var q := Quote(target);
    var quoted := q + path + q;
    var body := name + ['='] + quoted;
    assert BuildGraphDef(target, name, path) == "DEF:" + body + DEF_TAIL;
    BetweenOf("DEF:", body, DEF_TAIL);
    SplitFirstOf(name, '=', quoted);
    BetweenOf(q, path, q);
  }

  /** Reading a `LINE` argument assembled from its parts. */
  lemma ParseGraphLineOf(digits: string, nameColor: string, legend: string)
    requires digits != [] && IsDigits(digits) && ':' !in digits
    requires ':' !in nameColor && |nameColor| >= COLOR_WIDTH
    ensures var cut := |nameColor| - COLOR_WIDTH;
      ParseGraphLine("LINE" + (digits + [':'] + (nameColor + [':'] + ("\"" + legend + ""))) + "\"")
        == Some(LineParts(DecimalValue(digits), nameColor[..cut], nameColor[cut..], legend))
  {
    var quotedLegend := "\"" + legend + "";
    var rest := nameColor + [':'] + quotedLegend;
    var body := digits + [':'] + rest;
    BetweenOf("LINE", body, "\"");
    SplitFirstOf(digits, ':', rest);
    SplitFirstOf(nameColor, ':', quotedLegend);
    BetweenOf("\"", legend, "");
    assert Between("LINE" + body + "\"", "LINE", "\"") == Some(body);
    assert SplitFirst(body, ':') == Some((digits, rest));
    assert SplitFirst(rest, ':') == Some((nameColor, quotedLegend));
    assert Between(quotedLegend, "\"", "") == Some(legend);
    var cut := |nameColor| - COLOR_WIDTH;
    var parts := LineParts(DecimalValue(digits), nameColor[..cut], nameColor[cut..], legend);
    assert ParseGraphLine("LINE" + body + "\"") == Some(parts);
  }

  /** A `LINE` argument is `LINE`, the thickness, `:`, name and colour, `:` and the quoted legend. */
  lemma BuildGraphLineParts(name: string, legend: string, color: string, thickness: u32)
    ensures BuildGraphLine(name, legend, color, thickness)
         == "LINE" + (NatToString(thickness) + [':'] + ((name + color) + [':'] + ("\"" + legend + ""))) + "\""
  {
  }

  /**
    A `LINE` argument gives back its thickness, symbolic name, colour and
    legend, provided the name and colour hold no `:` and the colour has the
    palette's width.
  */
  lemma LineRoundTrip(name: string, legend: string, color: string, thickness: u32)
    requires ':' !in name && ':' !in color && |color| == COLOR_WIDTH
    ensures ParseGraphLine(BuildGraphLine(name, legend, color, thickness))
         == Some(LineParts(thickness, name, color, legend))
  {
    var digits := NatToString(thickness);
    assert ':' !in digits by {
      forall k | 0 <= k < |digits| ensures digits[k] != ':' { }
    }
    var nameColor := name + color;
    assert ':' !in nameColor;
    BuildGraphLineParts(name, legend, color, thickness);
    ParseGraphLineOf(digits, nameColor, legend);
    assert nameColor[..|name|] == name && nameColor[|name|..] == color;
    DecimalRoundTrip(thickness);
  }

  lemma PaletteColorsReadable()
    ensures forall k :: 0 <= k < |COLORS| ==> |COLORS[k]| == COLOR_WIDTH && ':' !in COLORS[k]
  {
  }

  // ---------------------------------------------------------------------------
  // The accumulator, as a value

  /** Appends `xs` to the last slot. */
  function AppendLast(s: Slots, xs: seq<string>): (r: Slots)
    requires s != []
    ensures |r| == |s| && r[|s| - 1] == s[|s| - 1] + xs
    ensures forall i :: 0 <= i < |s| - 1 ==> r[i] == s[i]
  {
    s[..|s| - 1] + [s[|s| - 1] + xs]
  }

  /** The effect of `push`: add to the current (last) slot, opening one if there is none. */
  function AddToCurrentSlot(s: Slots, xs: seq<string>): Slots {
    AppendLast(if s == [] then [[]] else s, xs)
  }

  /** Appending to the last slot of `s + [x]` extends `x`. */
  lemma AppendLastOf(s: Slots, x: seq<string>, xs: seq<string>)
    ensures AppendLast(s + [x], xs) == s + [x + xs]
  {
    assert (s + [x])[..|s|] == s;
  }

  /** The empty sequence is neutral for concatenation. */
  lemma AppendEmpty(x: seq<string>)
    ensures x + [] == x && [] + x == x
  {
  }

  /** The pairs one after the other. */
  function Flatten(pairs: seq<seq<string>>): seq<string> {
    if pairs == [] then [] else Flatten(pairs[..|pairs| - 1]) + pairs[|pairs| - 1]
  }

  /** One more pair extends the flattened prefix by that pair. */
  lemma FlattenPrefixStep(pairs: seq<seq<string>>, i: nat)
    requires i < |pairs|
    ensures Flatten(pairs[..i + 1]) == Flatten(pairs[..i]) + pairs[i]
  {
    assert pairs[..i + 1][..i] == pairs[..i];
  }

  /** Pairs of two arguments each: pair j sits at positions 2j and 2j + 1. */
  lemma {:induction false} FlattenPairs(pairs: seq<seq<string>>)
    requires forall j :: 0 <= j < |pairs| ==> |pairs[j]| == 2
    ensures |Flatten(pairs)| == 2 * |pairs|
    ensures forall j :: 0 <= j < |pairs| ==> Flatten(pairs)[2 * j..2 * j + 2] == pairs[j]
  {
    if pairs != [] {
      var k := |pairs| - 1;
      FlattenPairs(pairs[..k]);
      var f := Flatten(pairs[..k]);
      assert Flatten(pairs) == f + pairs[k];
      forall j | 0 <= j < |pairs|
        ensures Flatten(pairs)[2 * j..2 * j + 2] == pairs[j]
      {
        if j < k {
          assert pairs[..k][j] == pairs[j];
          assert (f + pairs[k])[2 * j..2 * j + 2] == f[2 * j..2 * j + 2];
        } else {
          assert (f + pairs[k])[2 * j..2 * j + 2] == pairs[k];
        }
      }
    }
  }

  /** The two arguments of pair j are at positions 2j and 2j + 1. */
  lemma FlattenPairAt(pairs: seq<seq<string>>, j: nat)
    requires forall k :: 0 <= k < |pairs| ==> |pairs[k]| == 2
    requires j < |pairs|
    ensures |Flatten(pairs)| == 2 * |pairs|
    ensures Flatten(pairs)[2 * j] == pairs[j][0] && Flatten(pairs)[2 * j + 1] == pairs[j][1]
  {
    FlattenPairs(pairs);
    var f := Flatten(pairs);
    assert f[2 * j..2 * j + 2] == pairs[j];
    assert f[2 * j] == f[2 * j..2 * j + 2][0];
    assert f[2 * j + 1] == f[2 * j..2 * j + 2][1];
  }

  /**
    `push` opens a slot only when there is none, keeps the slot count
    otherwise, and only extends the last slot, by exactly `xs`.
  */
  lemma AddToCurrentSlotShape(s: Slots, xs: seq<string>)
    ensures var r := AddToCurrentSlot(s, xs);
      && |r| == (if s == [] then 1 else |s|)
      && r[|r| - 1] == (if s == [] then [] else s[|s| - 1]) + xs
      && AppendOnly(s, r)
  {
  }

  /** `new_graph` appends one empty slot and changes no other. */
  lemma NewGraphShape(s: Slots)
    ensures AppendOnly(s, s + [[]]) && |s + [[]]| == |s| + 1 && (s + [[]])[|s|] == []
  {
  }

  // ---------------------------------------------------------------------------
  // The accumulator, as the source's object

  class GraphArguments {
    /** Local or Remote: decides whether `DEF` paths are quoted. */
    var target: Target
    /** First dimension: output files; second: their arguments. */
    var args: Slots

    constructor (target: Target)
      ensures this.target == target && args == []
    {
      this.target := target;
      args := [];
    }

    /** `new_graph`: starts a new output file. */
    method NewGraph()
      modifies this`args
      ensures args == old(args) + [[]]
    {
      args := args + [[]];
    }

    /**
      `push`: adds the `DEF` and `LINE` arguments of one series to the last
      slot, first creating a slot when there is none. A legend without any
      non-whitespace character makes the source's `unwrap` panic.
    */
    method Push(legendName: string, color: string, thickness: u32, path: string)
      requires HasWord(legendName)
      modifies this`args
      ensures args == AddToCurrentSlot(old(args), DrawPair(target, legendName, color, thickness, path))
    {
      var word := FirstWord(legendName);
      var def := BuildGraphDef(target, word, path);
      var line := BuildGraphLine(word, legendName, color, thickness);
      if args == [] {
        args := args + [[]];
      }
      ghost var current := args;
      args := args[..|args| - 1] + [args[|args| - 1] + [def]];
      assert args[..|args| - 1] == current[..|current| - 1];
      args := args[..|args| - 1] + [args[|args| - 1] + [line]];
      assert current[|current| - 1] + [def] + [line] == current[|current| - 1] + [def, line];
    }
  }

  /**
    The source's `push` test, for any legend: one push on a new accumulator
    opens one slot holding exactly the `DEF` and the `LINE` of the series.
  */
  method PushExample(target: Target, legend: string, color: string, thickness: u32, path: string)
    returns (g: GraphArguments)
    requires HasWord(legend)
    ensures |g.args| == 1 && |g.args[0]| == 2
    ensures g.args[0][0] == BuildGraphDef(target, FirstWord(legend), path)
    ensures g.args[0][1] == BuildGraphLine(FirstWord(legend), legend, color, thickness)
  {
    g := new GraphArguments(target);
    g.Push(legend, color, thickness, path);
  }
}
