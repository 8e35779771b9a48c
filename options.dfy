/** The values the configuration steps compute before writing them into the
    launch records: ulimit entries, the storage-size and tmpfs option
    strings, the CFS quota, the pool network mode and the text entries for
    tags, binds and environment variables. */
module Options {

  import opened Base
  import opened Text
  import opened Model

  /** The CFS period every quota is expressed against, in microseconds. */
  const CPU_PERIOD: int64 := 100000

  /** The entry configureULimit appends for one optional limit: none for a
      nil limit or for one that does not fit an int64, otherwise a single
      entry whose soft and hard limits are both the value. */
  function UlimitEntry(name: string, value: Option<uint64>): (r: seq<Ulimit>)
    ensures |r| <= 1
    ensures r == [] <==> value.None? || value.value > MAX_INT64
    ensures r != [] ==> r[0] == Ulimit(name, value.value, value.value)
  {
    match value
    case None => []
    case Some(v) =>
      var v64 := Int64OfUint64(v);
      if v64 < 0 then [] else [Ulimit(name, v64, v64)]
  }

  /** The storage-size option `"<n>M"`; it reads back as the size in MB. */
  function StorageSize(fsSize: uint64): (r: string)
    ensures ParseLeadingNat(r) == Some((fsSize as nat, "M"))
  {
    ParseLeadingNatOfDecimal(fsSize, "M");
    Decimal(fsSize) + "M"
  }

  /** The quota for a request of `milliCpus` thousandths of a CPU: Go
      multiplies in uint64 (wrapping) and converts to int64. Whenever the
      product fits, the quota is the request times 100 and grants exactly
      milliCpus/1000 CPUs per period. */
  function CpuQuota(milliCpus: uint64): (r: int64)
    ensures milliCpus * 100 <= MAX_INT64 ==> r == milliCpus * 100 && r * 1000 == milliCpus * CPU_PERIOD
    ensures (milliCpus * 100 - r) % TWO_TO_64 == 0
  {
    Int64OfUint64(MulUint64(milliCpus, 100))
  }

  /** The tmpfs mount option for /tmp: no option (an unbounded tmpfs) when no
      size is asked for, else the size in MB and, when the driver caps them,
      the number of inodes. */
  function TmpFsOption(sizeMB: uint64, maxInodes: uint64): (r: string)
    ensures r == "" <==> sizeMB == 0
  {
    if sizeMB != 0 then
      if maxInodes != 0 then "size=" + (Decimal(sizeMB) + ("m,nr_inodes=" + Decimal(maxInodes)))
      else "size=" + (Decimal(sizeMB) + "m")
    else ""
  }

  /** What a tmpfs option string asks the kernel for. */
  datatype TmpFsLimit = Unbounded | Size(sizeMB: nat) | SizeAndInodes(sizeMB: nat, inodes: nat)

  /** Reads a tmpfs option string of the three shapes TmpFsOption writes. */
  function ParseTmpFsOption(s: string): Option<TmpFsLimit> {
    if s == "" then Some(Unbounded)
    else
      match StripPrefix("size=", s)
      case None => None
      case Some(sizeText) =>
        match ParseLeadingNat(sizeText)
        case None => None
        case Some((size, rest)) =>
          if rest == "m" then Some(Size(size))
          else
            match StripPrefix("m,nr_inodes=", rest)
            case None => None
            case Some(inodesText) =>
              match ParseLeadingNat(inodesText)
              case None => None
              case Some((inodes, tail)) => if tail == "" then Some(SizeAndInodes(size, inodes)) else None
  }

  /** A size-only option reads back as that size. */
  lemma SizeOptionRoundTrip(sizeMB: uint64)
    ensures ParseTmpFsOption("size=" + (Decimal(sizeMB) + "m")) == Some(Size(sizeMB))
  {
    StripPrefixOf("size=", Decimal(sizeMB) + "m");
    ParseLeadingNatOfDecimal(sizeMB, "m");
  }

  /** An option with both limits reads back as both. */
  lemma SizeAndInodesOptionRoundTrip(sizeMB: uint64, maxInodes: uint64)
    ensures ParseTmpFsOption("size=" + (Decimal(sizeMB) + ("m,nr_inodes=" + Decimal(maxInodes))))
      == Some(SizeAndInodes(sizeMB, maxInodes))
  {
    var inodesText := Decimal(maxInodes);
    var rest := "m,nr_inodes=" + inodesText;
    StripPrefixOf("size=", Decimal(sizeMB) + rest);
    ParseLeadingNatOfDecimal(sizeMB, rest);
    assert |rest| > 1;
    StripPrefixOf("m,nr_inodes=", inodesText);
    assert inodesText + "" == inodesText;
    ParseLeadingNatOfDecimal(maxInodes, "");
  }

  /** The tmpfs option carries exactly the size and, when set, the inode cap. */
  lemma TmpFsOptionRoundTrip(sizeMB: uint64, maxInodes: uint64)
    ensures ParseTmpFsOption(TmpFsOption(sizeMB, maxInodes))
      == Some(if sizeMB == 0 then Unbounded
              else if maxInodes == 0 then Size(sizeMB)
              else SizeAndInodes(sizeMB, maxInodes))
  {
    if sizeMB != 0 {
      if maxInodes != 0 {
        SizeAndInodesOptionRoundTrip(sizeMB, maxInodes);
      } else {
        SizeOptionRoundTrip(sizeMB);
      }
    }
  }

  /** The network mode that joins a pooled container's namespaces. It is
      never empty and never "none", and the pool id can be read back from
      it. */
  function PoolNetworkMode(poolId: string): (r: string)
    ensures r != "" && r != "none"
    ensures StripPrefix("container:", r) == Some(poolId)
  {
    StripPrefixOf("container:", poolId);
    "container:" + poolId
  }

  /** One logger tag as configureLogger writes it. */
  function TagLine(tag: LoggerTag): string {
    tag.name + "=" + tag.value
  }

  function TagLines(tags: seq<LoggerTag>): seq<string> {
    seq(|tags|, i requires 0 <= i < |tags| => TagLine(tags[i]))
  }

  /** Builds the tag list of configureLogger, one `name=value` per tag pair,
      in order. */
  method TagStrings(tags: seq<LoggerTag>) returns (lines: seq<string>)
    ensures lines == TagLines(tags)
  {
    lines := [];
    for i := 0 to |tags|
      invariant lines == TagLines(tags[..i])
    {
      assert tags[..i + 1] == tags[..i] + [tags[i]];
      lines := lines + [TagLine(tags[i])];
    }
    assert tags[..|tags|] == tags;
  }

  /** When no tag name or value contains a comma, the comma-joined tag
      option lists every tag in order and nothing else. */
  lemma TagOptionLists(tags: seq<LoggerTag>)
    requires |tags| > 0
    requires forall i :: 0 <= i < |tags| ==> ',' !in tags[i].name && ',' !in tags[i].value
    ensures Split(Join(TagLines(tags), ','), ',') == TagLines(tags)
  {
    var lines := TagLines(tags);
    forall i | 0 <= i < |lines|
      ensures ',' !in lines[i]
    {
      assert lines[i] == tags[i].name + "=" + tags[i].value;
    }
    SplitJoin(lines, ',');
  }

  /** A bind mount `host:container`. */
  function Bind(hostPath: string, containerPath: string): string {
    hostPath + ":" + containerPath
  }

  /** A bind names both paths: when neither contains a colon, cutting it at
      the colon gives them back. */
  lemma BindParts(hostPath: string, containerPath: string)
    requires ':' !in hostPath && ':' !in containerPath
    ensures Split(Bind(hostPath, containerPath), ':') == [hostPath, containerPath]
  {
    var parts := [hostPath, containerPath];
    assert parts[1..] == [containerPath];
    assert Join(parts, ':') == Bind(hostPath, containerPath);
    SplitJoin(parts, ':');
  }

  function VolumeBinds(volumes: seq<VolumeMapping>): seq<string> {
    seq(|volumes|, i requires 0 <= i < |volumes| => Bind(volumes[i].hostDir, volumes[i].containerDir))
  }

  function ContainerDirs(volumes: seq<VolumeMapping>): set<string> {
    set i | 0 <= i < |volumes| :: volumes[i].containerDir
  }

  lemma ContainerDirsAppend(done: seq<VolumeMapping>, mapping: VolumeMapping)
    ensures ContainerDirs(done + [mapping]) == ContainerDirs(done) + {mapping.containerDir}
  {
    var all := done + [mapping];
    forall d | d in ContainerDirs(all)
      ensures d in ContainerDirs(done) + {mapping.containerDir}
    {
      var k :| 0 <= k < |all| && all[k].containerDir == d;
      if k < |done| {
        assert done[k].containerDir == d;
      }
    }
    forall d | d in ContainerDirs(done)
      ensures d in ContainerDirs(all)
    {
      var k :| 0 <= k < |done| && done[k].containerDir == d;
      assert all[k].containerDir == d;
    }
    assert all[|done|].containerDir == mapping.containerDir;
  }

  /** A list holding each member of a set exactly once names every member
      and repeats none. */
  lemma ListsEachOnce(order: seq<string>, names: set<string>)
    requires multiset(order) == multiset(names)
    ensures forall name :: name in names ==> name in order
    ensures forall i, j :: 0 <= i < j < |order| ==> order[i] != order[j]
  {
    forall name | name in names ensures name in order {
      assert name in multiset(order);
    }
    forall i, j | 0 <= i < j < |order| ensures order[i] != order[j] {
      var x := order[i];
      assert order == order[..i] + [x] + order[i + 1..j] + [order[j]] + order[j + 1..];
      assert multiset(names)[x] <= 1;
    }
  }

  /** One environment entry `NAME=VALUE`. */
  function EnvLine(name: string, value: string): string {
    name + "=" + value
  }

  /** The entries for the variables `names`, in that order. */
  function EnvLines(names: seq<string>, env: map<string, string>): seq<string>
    requires forall i :: 0 <= i < |names| ==> names[i] in env
  {
    seq(|names|, i requires 0 <= i < |names| => EnvLine(names[i], env[names[i]]))
  }

  lemma EnvLinesAppend(a: seq<string>, b: seq<string>, env: map<string, string>)
    requires forall i :: 0 <= i < |a| ==> a[i] in env
    requires forall i :: 0 <= i < |b| ==> b[i] in env
    ensures EnvLines(a + b, env) == EnvLines(a, env) + EnvLines(b, env)
  {
  }

  /** Every variable of a reordering of `names` is in `env` too. */
  lemma NamesInEnvReordered(o1: seq<string>, o2: seq<string>, env: map<string, string>)
    requires forall i :: 0 <= i < |o1| ==> o1[i] in env
    requires multiset(o1) == multiset(o2)
    ensures forall i :: 0 <= i < |o2| ==> o2[i] in env
  {
    forall i | 0 <= i < |o2| ensures o2[i] in env {
      assert o2[i] in multiset(o2);
      assert o2[i] in multiset(o1);
      var j :| 0 <= j < |o1| && o1[j] == o2[i];
    }
  }

  /** Taking the element at `j` out of a list takes one copy of it out of
      the list's multiset. */
  lemma MultisetRemove<T>(o: seq<T>, j: nat)
    requires j < |o|
    ensures multiset(o) == multiset(o[..j] + o[j + 1..]) + multiset{o[j]}
  {
    assert o == o[..j] + [o[j]] + o[j + 1..];
  }

  /** Taking the same element out of two reorderings leaves reorderings. */
  lemma MultisetRemoveBoth<T>(o1: seq<T>, i: nat, o2: seq<T>, j: nat)
    requires i < |o1| && j < |o2| && o1[i] == o2[j]
    requires multiset(o1) == multiset(o2)
    ensures multiset(o1[..i] + o1[i + 1..]) == multiset(o2[..j] + o2[j + 1..])
  {
    MultisetRemove(o1, i);
    MultisetRemove(o2, j);
    var m1 := multiset(o1[..i] + o1[i + 1..]);
    var m2 := multiset(o2[..j] + o2[j + 1..]);
    forall y ensures m1[y] == m2[y] {
      assert multiset(o1)[y] == multiset(o2)[y];
    }
  }

  /** Taking the variable at `j` out of the list takes its entry out of the
      entries. */
  lemma EnvLinesRemove(o: seq<string>, j: nat, env: map<string, string>)
    requires forall i :: 0 <= i < |o| ==> o[i] in env
    requires j < |o|
    ensures multiset(EnvLines(o, env))
      == multiset(EnvLines(o[..j] + o[j + 1..], env)) + multiset{EnvLine(o[j], env[o[j]])}
  {
    assert o == o[..j] + [o[j]] + o[j + 1..];
    EnvLinesAppend(o[..j], [o[j]], env);
    EnvLinesAppend(o[..j] + [o[j]], o[j + 1..], env);
    EnvLinesAppend(o[..j], o[j + 1..], env);
  }

  /** Go visits an environment map in no fixed order; whichever order the
      variables are listed in, the same entries come out. */
  lemma {:induction false} EnvLinesAnyOrder(o1: seq<string>, o2: seq<string>, env: map<string, string>)
    requires forall i :: 0 <= i < |o1| ==> o1[i] in env
    requires multiset(o1) == multiset(o2)
    ensures forall i :: 0 <= i < |o2| ==> o2[i] in env
    ensures multiset(EnvLines(o1, env)) == multiset(EnvLines(o2, env))
    decreases |o1|
  {
    NamesInEnvReordered(o1, o2, env);
    if o1 == [] {
      assert |o2| == |multiset(o2)| == 0;
      return;
    }
    var x := o1[0];
    assert x in multiset(o2);
    var j :| 0 <= j < |o2| && o2[j] == x;
    var rest1 := o1[..0] + o1[1..];
    var rest2 := o2[..j] + o2[j + 1..];
    MultisetRemoveBoth(o1, 0, o2, j);
    EnvLinesAnyOrder(rest1, rest2, env);
    EnvLinesRemove(o1, 0, env);
    EnvLinesRemove(o2, j, env);
  }
}
