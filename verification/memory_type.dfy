/**
  `MemoryType`: the kinds of memory collectd records, with the name used as a
  legend and on the command line, and the data file that stores each.
*/
module MemoryTypes {
  import opened Wrappers

  datatype MemoryType = Buffered | Cached | Free | SlabRecl | SlabUnrecl | Used

  /** `to_filename`: the rrd file collectd writes for the type, named after it. */
  function ToFilename(t: MemoryType): (r: string)
    ensures r == "memory-" + ToString(t) + ".rrd"
  {
    match t
    case Buffered => assert "memory-" + "buffered" + ".rrd" == "memory-buffered.rrd"; "memory-buffered.rrd"
    case Cached => assert "memory-" + "cached" + ".rrd" == "memory-cached.rrd"; "memory-cached.rrd"
    case Free => assert "memory-" + "free" + ".rrd" == "memory-free.rrd"; "memory-free.rrd"
    case SlabRecl => assert "memory-" + "slab_recl" + ".rrd" == "memory-slab_recl.rrd"; "memory-slab_recl.rrd"
    case SlabUnrecl =>
      assert "memory-" + "slab_unrecl" + ".rrd" == "memory-slab_unrecl.rrd"; "memory-slab_unrecl.rrd"
    case Used => assert "memory-" + "used" + ".rrd" == "memory-used.rrd"; "memory-used.rrd"
  }

  /**
    `to_string`: the type's name, drawn as its legend and used as its
    symbolic name, so it is made of lower-case letters and `_` only.
  */
  function ToString(t: MemoryType): (r: string)
    ensures r != [] && forall i :: 0 <= i < |r| ==> r[i] == '_' || 'a' <= r[i] <= 'z'
  {
    match t
    case Buffered => "buffered"
    case Cached => "cached"
    case Free => "free"
    case SlabRecl => "slab_recl"
    case SlabUnrecl => "slab_unrecl"
    case Used => "used"
  }

  /** `from_str`: accepts exactly the six names; `Err(())` is `None`. */
  function FromStr(s: string): (r: Option<MemoryType>)
    ensures r.Some? ==> ToString(r.value) == s
  {
    match s
    case "buffered" => Some(Buffered)
    case "cached" => Some(Cached)
    case "free" => Some(Free)
    case "slab_recl" => Some(SlabRecl)
    case "slab_unrecl" => Some(SlabUnrecl)
    case "used" => Some(Used)
    case _ => None
  }

  /** The file name holds the type's name right after `memory-`. */
  lemma FilenameContainsName(t: MemoryType)
    ensures var f, n := ToFilename(t), ToString(t);
      |n| + 7 <= |f| && f[7..7 + |n|] == n
  {
  }

  /** Reading a type's name gives the type back. */
  lemma FromStrToString(t: MemoryType)
    ensures FromStr(ToString(t)) == Some(t)
  {
  }

  /** `from_str` succeeds exactly on the names of the six types. */
  lemma FromStrAcceptsOnlyNames(s: string)
    ensures FromStr(s).Some? <==> exists t: MemoryType :: ToString(t) == s
  {
    if exists t: MemoryType :: ToString(t) == s {
      var t: MemoryType :| ToString(t) == s;
      FromStrToString(t);
    }
  }

  /** No two types share a name. */
  lemma ToStringInjective(t: MemoryType, u: MemoryType)
    requires ToString(t) == ToString(u)
    ensures t == u
  {
    FromStrToString(t);
    FromStrToString(u);
  }

  /** No two types share a data file. */
  lemma ToFilenameInjective(t: MemoryType, u: MemoryType)
    requires ToFilename(t) == ToFilename(u)
    ensures t == u
  {
    var n, m := ToString(t), ToString(u);
    assert |n| == |m|;
    assert n == ToFilename(t)[7..7 + |n|];
    ToStringInjective(t, u);
  }

  lemma FromStrRejectsOther()
    ensures FromStr("some other") == None
  {
  }
}
