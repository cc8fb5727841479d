/**
 Delimiting: an SDU is cut into user data fields (UDFs), each a flag byte and a part of the SDU, and
 put together again at the other end. Class `Reassembler` keeps the pending fragments in place; the
 functions say what it computes.
 */
module Delimiting {
  import opened EfcpTypes

  type Sdu = seq<Octet>

  /** A user data field: the flag byte, and the data behind it. */
  datatype Udf = Udf(flags: Octet, data: Sdu)

  function Octets(udf: Udf): (s: seq<Octet>) { [udf.flags] + udf.data }

  function OfOctets(s: seq<Octet>): (udf: Udf)
    requires s != []
    ensures Octets(udf) == s
  {
    Udf(s[0], s[1..])
  }

  datatype Kind = Full | First | Mid | Last | Unsupported

  predicate Bit(flags: Octet, weight: nat)
    requires weight > 0
  {
    (flags / weight) % 2 == 1
  }

  /** SDU sequence numbers (0x08) and length fields (no 0x04) are not supported. */
  function KindOf(flags: Octet): Kind {
    if Bit(flags, 8) || !Bit(flags, 4) then Unsupported
    else if Bit(flags, 2) && Bit(flags, 1) then Full
    else if Bit(flags, 1) then First
    else if Bit(flags, 2) then Last
    else Mid
  }

  function FlagsOf(kind: Kind): (flags: Octet)
    requires !kind.Unsupported?
    ensures KindOf(flags) == kind
  {
    match kind
    case Full => 0x07
    case First => 0x05
    case Mid => 0x04
    case Last => 0x06
  }

  // ---------------------------------------------------------------- fragmentation

  function CutKind(offset: nat, left: nat, max: nat): (kind: Kind)
    ensures !kind.Unsupported?
  {
    if offset == 0 then First else if left <= max then Last else Mid
  }

  /** The fragments from `offset` on of an SDU that does not fit into one. */
  function Cut(sdu: Sdu, max: nat, offset: nat): seq<Udf>
    requires max >= 1 && offset <= |sdu|
    decreases |sdu| - offset
  {
    if offset == |sdu| then []
    else
      var length := Min(|sdu| - offset, max);
      [Udf(FlagsOf(CutKind(offset, |sdu| - offset, max)), sdu[offset..offset + length])] + Cut(sdu, max, offset + length)
  }

  function Fragment(sdu: Sdu, max: nat): (udfs: seq<Udf>)
    requires max >= 1
    ensures |udfs| >= 1
  {
    if |sdu| <= max then [Udf(FlagsOf(Full), sdu)] else Cut(sdu, max, 0)
  }

  lemma CutSplit(done: seq<Udf>, sdu: Sdu, max: nat, offset: nat)
    requires max >= 1 && offset < |sdu|
    ensures var length := Min(|sdu| - offset, max);
            var udf := Udf(FlagsOf(CutKind(offset, |sdu| - offset, max)), sdu[offset..offset + length]);
            done + Cut(sdu, max, offset) == done + [udf] + Cut(sdu, max, offset + length)
  {
  }

  method FragmentSdu(sdu: Sdu, max: nat) returns (udfs: seq<Udf>)
    requires max >= 1
    ensures udfs == Fragment(sdu, max)
  {
    var pendingLen := |sdu|;
    if pendingLen <= max {
      return [Udf(FlagsOf(Full), sdu)];
    }
    var firstFrag, offset := true, 0;
    udfs := [];
    while pendingLen > 0
      invariant 0 <= offset <= |sdu| == offset + pendingLen && (firstFrag <==> offset == 0)
      invariant udfs + Cut(sdu, max, offset) == Cut(sdu, max, 0)
    {
      var kind := if firstFrag then First else if pendingLen <= max then Last else Mid;
      firstFrag := false;
      var length := if pendingLen > max then max else pendingLen;
      assert kind == CutKind(offset, |sdu| - offset, max) && length == Min(|sdu| - offset, max);
      CutSplit(udfs, sdu, max, offset);
      udfs := udfs + [Udf(FlagsOf(kind), sdu[offset..offset + length])];
      offset, pendingLen := offset + length, pendingLen - length;
    }
    assert udfs + [] == udfs;
  }

  /** `n` fragments of `max` bytes are needed for `length` bytes. */
  ghost predicate Needed(n: nat, length: nat, max: nat) {
    n * max >= length && (n > 0 ==> (n - 1) * max < length)
  }

  /** Counts down by whole fragments, below zero at the end, as the source does. */
  method NumUdfs(length: nat, max: nat) returns (n: nat)
    requires max >= 1
    ensures Needed(n, length, max)
  {
    var left: int := length;
    n := 0;
    while left > 0
      invariant left == length - n * max
      invariant n > 0 ==> left + max > 0
    {
      n, left := n + 1, left - max;
    }
  }

  lemma {:induction false} CutCounts(sdu: Sdu, max: nat, offset: nat)
    requires max >= 1 && offset <= |sdu|
    ensures Needed(|Cut(sdu, max, offset)|, |sdu| - offset, max)
    ensures forall i :: 0 <= i < |Cut(sdu, max, offset)| ==> 1 <= |Cut(sdu, max, offset)[i].data| <= max
    decreases |sdu| - offset
  {
    if offset < |sdu| {
      CutCounts(sdu, max, offset + Min(|sdu| - offset, max));
    }
  }

  lemma SameCount(n: nat, m: nat, length: nat, max: nat)
    requires max >= 1 && Needed(n, length, max) && Needed(m, length, max)
    ensures n <= m
  {
    if n > m {
      calc {
        length;
      >
        (n - 1) * max;
      >= { assert n - 1 >= m; }
        m * max;
      >=
        length;
      }
    }
  }

  /** The count is the number of fragments, except for the empty SDU: it is sent as one UDF and counted as none. */
  lemma NumUdfsCounts(sdu: Sdu, max: nat, n: nat)
    requires max >= 1 && Needed(n, |sdu|, max)
    ensures n == |Fragment(sdu, max)| <==> sdu != []
  {
    var m := |Fragment(sdu, max)|;
    CutCounts(sdu, max, 0);
    if sdu != [] {
      assert Needed(m, |sdu|, max);
      SameCount(n, m, |sdu|, max);
      SameCount(m, n, |sdu|, max);
    }
  }

  lemma {:induction false} CutFlags(sdu: Sdu, max: nat, offset: nat, i: nat)
    requires max >= 1 && offset <= |sdu| && i < |Cut(sdu, max, offset)|
    requires offset == 0 ==> |sdu| > max
    ensures var cut := Cut(sdu, max, offset);
            cut[i].flags == 0x04 + (if offset == 0 && i == 0 then 0x01 else 0) + (if i == |cut| - 1 then 0x02 else 0)
    decreases |sdu| - offset
  {
    if i > 0 {
      CutFlags(sdu, max, offset + Min(|sdu| - offset, max), i - 1);
    }
  }

  /** Of the fragments of an SDU the first is marked 0x01 and the last 0x02; all are marked as without a length field. */
  lemma FragmentFlags(sdu: Sdu, max: nat, i: nat)
    requires max >= 1 && i < |Fragment(sdu, max)|
    ensures var udfs := Fragment(sdu, max);
            udfs[i].flags == 0x04 + (if i == 0 then 0x01 else 0) + (if i == |udfs| - 1 then 0x02 else 0)
  {
    if |sdu| > max {
      CutFlags(sdu, max, 0, i);
    }
  }

  /** A fragment with its flag byte fits behind a header of `pci` bytes. */
  lemma FragmentsFit(sdu: Sdu, maxPduSize: nat, pci: nat, i: nat)
    requires maxPduSize >= pci + 2 && i < |Fragment(sdu, maxPduSize - pci - 1)|
    ensures pci + |Octets(Fragment(sdu, maxPduSize - pci - 1)[i])| <= maxPduSize
  {
    CutCounts(sdu, maxPduSize - pci - 1, 0);
  }

  // ---------------------------------------------------------------- reassembly

  datatype Priv = Priv(pending: seq<Udf>, inProcess: bool, totalLength: nat)

  const IDLE := Priv([], false, 0)

  /** The new state, the SDUs put on the receive list and whether the UDF was refused. */
  datatype Processed = Processed(p: Priv, sdus: seq<Sdu>, failed: bool)

  function Join(udfs: seq<Udf>): Sdu {
    if udfs == [] then [] else Join(udfs[..|udfs| - 1]) + udfs[|udfs| - 1].data
  }

  lemma JoinMore(udfs: seq<Udf>, udf: Udf)
    ensures Join(udfs + [udf]) == Join(udfs) + udf.data
  {
    assert (udfs + [udf])[..|udfs|] == udfs;
  }

  function Append(p: Priv, udf: Udf): Priv {
    p.(pending := p.pending + [udf], totalLength := p.totalLength + |udf.data|)
  }

  function ProcessUdf(p: Priv, udf: Udf): Processed {
    match KindOf(udf.flags)
    case Unsupported => Processed(p, [], true)
    case Full => Processed(p, [udf.data], false)
    case First => Processed(Append(if p.inProcess then IDLE else p, udf).(inProcess := true), [], false)
    case Mid => Processed(if p.inProcess then Append(p, udf) else IDLE, [], false)
    case Last =>
      if p.inProcess then Processed(IDLE, [Join(p.pending + [udf])], false) else Processed(IDLE, [], true)
  }

  /** The total length is that of the pending payloads, and idle means that nothing is pending. */
  ghost predicate Sound(p: Priv) {
    p.totalLength == |Join(p.pending)| && (!p.inProcess ==> p == IDLE)
  }

  lemma ProcessKeepsSound(p: Priv, udf: Udf)
    requires Sound(p)
    ensures Sound(ProcessUdf(p, udf).p)
  {
    JoinMore(p.pending, udf);
    JoinMore([], udf);
  }

  /** The receiving side of an EFCP instance: a refused UDF hands nothing up. */
  function Feed(p: Priv, udfs: seq<Udf>): (Priv, seq<Sdu>)
    decreases |udfs|
  {
    if udfs == [] then (p, [])
    else
      var r := ProcessUdf(p, udfs[0]);
      var rest := Feed(r.p, udfs[1..]);
      (rest.0, r.sdus + rest.1)
  }

  /** On an arbitrary stream of UDFs, supported or not. */
  lemma {:induction false} FeedKeepsSound(p: Priv, udfs: seq<Udf>)
    requires Sound(p)
    ensures Sound(Feed(p, udfs).0)
    decreases |udfs|
  {
    if udfs != [] {
      ProcessKeepsSound(p, udfs[0]);
      FeedKeepsSound(ProcessUdf(p, udfs[0]).p, udfs[1..]);
    }
  }

  class Reassembler {
    var pendingDus: seq<Udf>
    var reassemblyInProcess: bool
    var totalLength: nat

    function State(): Priv
      reads this
    {
      Priv(pendingDus, reassemblyInProcess, totalLength)
    }

    constructor ()
      ensures State() == IDLE
    {
      pendingDus, reassemblyInProcess, totalLength := [], false, 0;
    }

    method Reset()
      modifies this
      ensures State() == IDLE
    {
      pendingDus, reassemblyInProcess, totalLength := [], false, 0;
    }

    method AppendPending(udf: Udf)
      modifies this
      ensures State() == Append(old(State()), udf)
    {
      totalLength := totalLength + |udf.data|;
      pendingDus := pendingDus + [udf];
    }

    /** Copies the pending payloads one after the other; they fill the announced length exactly. */
    method JoinPending() returns (sdu: Sdu)
      requires Sound(State())
      ensures sdu == Join(pendingDus) && |sdu| == totalLength
    {
      sdu := [];
      for i := 0 to |pendingDus|
        invariant sdu == Join(pendingDus[..i])
      {
        assert pendingDus[..i + 1][..i] == pendingDus[..i];
        sdu := sdu + pendingDus[i].data;
      }
      assert pendingDus[..|pendingDus|] == pendingDus;
    }

    method Process(udf: Udf) returns (sdus: seq<Sdu>, failed: bool)
      requires Sound(State())
      modifies this
      ensures Processed(State(), sdus, failed) == ProcessUdf(old(State()), udf)
      ensures Sound(State())
    {
      ProcessKeepsSound(State(), udf);
      sdus, failed := [], false;
      match KindOf(udf.flags)
      case Unsupported => failed := true;
      case Full => sdus := [udf.data];
      case First =>
        if reassemblyInProcess {
          Reset();
        }
        reassemblyInProcess := true;
        AppendPending(udf);
      case Mid =>
        var _ := ProcessMid(udf);
      case Last =>
        failed := ProcessMid(udf);
        if !failed {
          JoinMore(old(pendingDus), udf);
          var sdu := JoinPending();
          sdus := [sdu];
          Reset();
        }
    }

    method ProcessMid(udf: Udf) returns (failed: bool)
      modifies this
      ensures failed == !old(reassemblyInProcess)
      ensures State() == if failed then IDLE else Append(old(State()), udf)
    {
      if !reassemblyInProcess {
        Reset();
        return true;
      }
      AppendPending(udf);
      failed := false;
    }
  }

  // ---------------------------------------------------------------- round trip

  lemma FeedFirst(p: Priv, udf: Udf, rest: seq<Udf>)
    ensures var r := ProcessUdf(p, udf); var f := Feed(r.p, rest);
            Feed(p, [udf] + rest).0 == f.0 && Feed(p, [udf] + rest).1 == r.sdus + f.1
  {
    assert ([udf] + rest)[1..] == rest;
  }

  lemma {:induction false} FeedConcat(p: Priv, a: seq<Udf>, b: seq<Udf>)
    ensures Feed(p, a + b).0 == Feed(Feed(p, a).0, b).0
    ensures Feed(p, a + b).1 == Feed(p, a).1 + Feed(Feed(p, a).0, b).1
    decreases |a|
  {
    if a == [] {
      assert a + b == b;
    } else {
      FeedConcat(ProcessUdf(p, a[0]).p, a[1..], b);
      FeedFirst(p, a[0], a[1..]);
      FeedFirst(p, a[0], a[1..] + b);
      assert a == [a[0]] + a[1..] && a + b == [a[0]] + (a[1..] + b);
    }
  }

  /** The reassembly of an SDU of which the bytes before `offset` have arrived. */
  ghost predicate Partial(p: Priv, sdu: Sdu, offset: nat) {
    p.inProcess && offset <= |sdu| && Join(p.pending) == sdu[..offset]
  }

  lemma AppendJoins(p: Priv, udf: Udf, sdu: Sdu, offset: nat)
    requires Partial(p, sdu, offset) && offset + |udf.data| <= |sdu|
    requires udf.data == sdu[offset..offset + |udf.data|]
    ensures Partial(Append(p, udf), sdu, offset + |udf.data|)
  {
    JoinMore(p.pending, udf);
    assert sdu[..offset] + sdu[offset..offset + |udf.data|] == sdu[..offset + |udf.data|];
  }

  function HeadOf(sdu: Sdu, max: nat, offset: nat): Udf
    requires max >= 1 && offset < |sdu|
  {
    Udf(FlagsOf(CutKind(offset, |sdu| - offset, max)), sdu[offset..offset + Min(|sdu| - offset, max)])
  }

  /** Taking the first `k > 0` fragments. */
  lemma CutTake(sdu: Sdu, max: nat, offset: nat, k: nat)
    requires max >= 1 && offset < |sdu| && 0 < k <= |Cut(sdu, max, offset)|
    ensures var rest := Cut(sdu, max, offset + Min(|sdu| - offset, max));
            k - 1 <= |rest| && Cut(sdu, max, offset)[..k] == [HeadOf(sdu, max, offset)] + rest[..k - 1]
            && |Cut(sdu, max, offset)| == 1 + |rest|
  {
  }

  lemma LastJoins(p: Priv, sdu: Sdu, max: nat, offset: nat)
    requires max >= 1 && 0 < offset < |sdu| && Partial(p, sdu, offset) && |sdu| - offset <= max
    ensures ProcessUdf(p, HeadOf(sdu, max, offset)) == Processed(IDLE, [sdu], false)
  {
    AppendJoins(p, HeadOf(sdu, max, offset), sdu, offset);
    assert sdu[..|sdu|] == sdu;
  }

  /** Feeding the first `k` of the later fragments: nothing comes out before the last one, and then the SDU. */
  lemma {:induction false} FeedCut(p: Priv, sdu: Sdu, max: nat, offset: nat, k: nat)
    requires max >= 1 && 0 < offset < |sdu| && Partial(p, sdu, offset) && k <= |Cut(sdu, max, offset)|
    ensures var f := Feed(p, Cut(sdu, max, offset)[..k]);
            if k == |Cut(sdu, max, offset)| then f.0 == IDLE && f.1 == [sdu] else f.1 == []
    decreases |sdu| - offset
  {
    if k > 0 {
      var udf := HeadOf(sdu, max, offset);
      var next := offset + Min(|sdu| - offset, max);
      CutTake(sdu, max, offset, k);
      FeedFirst(p, udf, Cut(sdu, max, next)[..k - 1]);
      if next < |sdu| {
        AppendJoins(p, udf, sdu, offset);
        FeedCut(Append(p, udf), sdu, max, next, k - 1);
      } else {
        LastJoins(p, sdu, max, offset);
      }
    }
  }

  lemma FirstJoins(sdu: Sdu, max: nat)
    requires max >= 1 && |sdu| > max
    ensures var r := ProcessUdf(IDLE, HeadOf(sdu, max, 0)); r.sdus == [] && Partial(r.p, sdu, max)
  {
    JoinMore([], HeadOf(sdu, max, 0));
  }

  /** From idle, a proper prefix of the fragments of an SDU hands up nothing, and all of them the SDU. */
  lemma FeedOne(sdu: Sdu, max: nat, k: nat)
    requires max >= 1 && k <= |Fragment(sdu, max)|
    ensures var f := Feed(IDLE, Fragment(sdu, max)[..k]);
            if k == |Fragment(sdu, max)| then f.0 == IDLE && f.1 == [sdu] else f.1 == []
  {
    if k > 0 {
      if |sdu| <= max {
        assert Fragment(sdu, max)[..k] == [Udf(FlagsOf(Full), sdu)] + [];
        FeedFirst(IDLE, Udf(FlagsOf(Full), sdu), []);
      } else {
        CutTake(sdu, max, 0, k);
        FirstJoins(sdu, max);
        FeedFirst(IDLE, HeadOf(sdu, max, 0), Cut(sdu, max, max)[..k - 1]);
        FeedCut(ProcessUdf(IDLE, HeadOf(sdu, max, 0)).p, sdu, max, max, k - 1);
      }
    }
  }

  function FragmentAll(sdus: seq<Sdu>, max: nat): seq<Udf>
    requires max >= 1
  {
    if sdus == [] then [] else Fragment(sdus[0], max) + FragmentAll(sdus[1..], max)
  }

  /** Fragmentation round trip: every sequence of SDUs, empty ones included, comes back, and nothing stays pending. */
  lemma {:induction false} RoundTrip(sdus: seq<Sdu>, max: nat)
    requires max >= 1
    ensures Feed(IDLE, FragmentAll(sdus, max)).0 == IDLE && Feed(IDLE, FragmentAll(sdus, max)).1 == sdus
  {
    if sdus != [] {
      var f := Fragment(sdus[0], max);
      FeedOne(sdus[0], max, |f|);
      assert f[..|f|] == f;
      RoundTrip(sdus[1..], max);
      FeedConcat(IDLE, f, FragmentAll(sdus[1..], max));
    }
  }

  // ---------------------------------------------------------------- any stream at all

  predicate Fragmentary(udf: Udf) { var k := KindOf(udf.flags); k.First? || k.Mid? || k.Last? }

  /** The first fragment of the SDU that is being put together when `n` UDFs have arrived: looked for backwards, up to a last one. */
  function Opening(udfs: seq<Udf>, n: nat): Option<nat>
    requires n <= |udfs|
  {
    if n == 0 || KindOf(udfs[n - 1].flags).Last? then None
    else if KindOf(udfs[n - 1].flags).First? then Some(n - 1)
    else Opening(udfs, n - 1)
  }

  /** The data of the fragments from position `i` to `n`; complete SDUs and what is not supported are passed over. */
  function Gathered(udfs: seq<Udf>, i: nat, n: nat): Sdu
    requires i <= n <= |udfs|
  {
    if i == n then []
    else Gathered(udfs, i, n - 1) + if Fragmentary(udfs[n - 1]) then udfs[n - 1].data else []
  }

  /** What the UDF at position `n` completes. */
  function Completes(udfs: seq<Udf>, n: nat): seq<Sdu>
    requires n < |udfs|
  {
    match KindOf(udfs[n].flags)
    case Full => [udfs[n].data]
    case Last => (match Opening(udfs, n)
                  case None => []
                  case Some(i) => OpeningBefore(udfs, n); [Gathered(udfs, i, n + 1)])
    case _ => []
  }

  function AllCompleted(udfs: seq<Udf>, n: nat): seq<Sdu>
    requires n <= |udfs|
  {
    if n == 0 then [] else AllCompleted(udfs, n - 1) + Completes(udfs, n - 1)
  }

  lemma {:induction false} OpeningBefore(udfs: seq<Udf>, n: nat)
    requires n <= |udfs|
    ensures Opening(udfs, n).Some? ==>
              Opening(udfs, n).value < n && KindOf(udfs[Opening(udfs, n).value].flags).First?
  {
    if n > 0 {
      OpeningBefore(udfs, n - 1);
    }
  }

  /** What is pending is what has arrived since the opening. */
  ghost predicate Pending(p: Priv, udfs: seq<Udf>, n: nat)
    requires n <= |udfs|
  {
    OpeningBefore(udfs, n);
    match Opening(udfs, n)
    case None => p == IDLE
    case Some(i) => p.inProcess && Join(p.pending) == Gathered(udfs, i, n) && p.totalLength == |Join(p.pending)|
  }

  lemma FeedLast(udfs: seq<Udf>, n: nat)
    requires n < |udfs|
    ensures var r := ProcessUdf(Feed(IDLE, udfs[..n]).0, udfs[n]);
            Feed(IDLE, udfs[..n + 1]).0 == r.p && Feed(IDLE, udfs[..n + 1]).1 == Feed(IDLE, udfs[..n]).1 + r.sdus
  {
    assert udfs[..n + 1] == udfs[..n] + [udfs[n]];
    FeedConcat(IDLE, udfs[..n], [udfs[n]]);
    var p := Feed(IDLE, udfs[..n]).0;
    FeedFirst(p, udfs[n], []);
    assert [udfs[n]] + [] == [udfs[n]];
  }

  lemma OneArrives(p: Priv, udfs: seq<Udf>, n: nat)
    requires n < |udfs| && Pending(p, udfs, n)
    ensures Arrives(p, udfs, n)
  {
    if KindOf(udfs[n].flags).First? {
      FirstArrives(p, udfs, n);
    } else {
      LaterArrives(p, udfs, n);
    }
  }

  /** What the UDF at position `n` does: it completes what it should, and is refused only if it has to be. */
  ghost predicate Arrives(p: Priv, udfs: seq<Udf>, n: nat)
    requires n < |udfs|
  {
    var r := ProcessUdf(p, udfs[n]);
    && Pending(r.p, udfs, n + 1) && r.sdus == Completes(udfs, n)
    && (r.failed <==> KindOf(udfs[n].flags).Unsupported? || (KindOf(udfs[n].flags).Last? && Opening(udfs, n).None?))
  }

  lemma FirstArrives(p: Priv, udfs: seq<Udf>, n: nat)
    requires n < |udfs| && Pending(p, udfs, n) && KindOf(udfs[n].flags).First?
    ensures Arrives(p, udfs, n)
  {
    JoinMore([], udfs[n]);
    assert Gathered(udfs, n, n) == [];
    assert Opening(udfs, n + 1) == Some(n);
  }

  lemma LaterArrives(p: Priv, udfs: seq<Udf>, n: nat)
    requires n < |udfs| && Pending(p, udfs, n) && !KindOf(udfs[n].flags).First?
    ensures Arrives(p, udfs, n)
  {
    OpeningBefore(udfs, n);
    JoinMore(p.pending, udfs[n]);
    assert Opening(udfs, n + 1) == if KindOf(udfs[n].flags).Last? then None else Opening(udfs, n);
  }

  /**
   Whatever stream arrives, with fragments missing, repeated or mixed up: what is handed up is every complete SDU, and
   for every last fragment the data of the fragments since the nearest first one, unless another last one lies between.
   */
  lemma {:induction false} FeedIsParse(udfs: seq<Udf>, n: nat)
    requires n <= |udfs|
    ensures Feed(IDLE, udfs[..n]).1 == AllCompleted(udfs, n) && Pending(Feed(IDLE, udfs[..n]).0, udfs, n)
  {
    if n > 0 {
      FeedIsParse(udfs, n - 1);
      FeedLast(udfs, n - 1);
      OneArrives(Feed(IDLE, udfs[..n - 1]).0, udfs, n - 1);
    }
  }

  /** A UDF is refused exactly if it is not supported, or is a last fragment with nothing before it. */
  lemma RefusedExactly(udfs: seq<Udf>, n: nat)
    requires n < |udfs|
    ensures ProcessUdf(Feed(IDLE, udfs[..n]).0, udfs[n]).failed
            <==> KindOf(udfs[n].flags).Unsupported? || (KindOf(udfs[n].flags).Last? && Opening(udfs, n).None?)
  {
    FeedIsParse(udfs, n);
    OneArrives(Feed(IDLE, udfs[..n]).0, udfs, n);
  }

  lemma FirstJoinsAnyway(p: Priv, sdu: Sdu, max: nat)
    requires Sound(p) && max >= 1 && |sdu| > max
    ensures var r := ProcessUdf(p, HeadOf(sdu, max, 0)); r.sdus == [] && Partial(r.p, sdu, max)
  {
    JoinMore([], HeadOf(sdu, max, 0));
  }

  /**
   Resynchronisation: whatever is pending from an SDU whose other fragments were lost, the next SDU that arrives whole is
   handed up alone. One that fits a single UDF leaves what is pending as it was.
   */
  lemma Resynchronises(p: Priv, sdu: Sdu, max: nat)
    requires Sound(p) && max >= 1
    ensures Feed(p, Fragment(sdu, max)) == (if |sdu| > max then IDLE else p, [sdu])
  {
    if |sdu| <= max {
      var udf := Udf(FlagsOf(Full), sdu);
      FeedFirst(p, udf, []);
      assert Fragment(sdu, max) == [udf] + [];
      var f := Feed(p, [udf] + []);
      assert f.0 == p && f.1 == [sdu];
    } else {
      var head, rest := HeadOf(sdu, max, 0), Cut(sdu, max, max);
      FirstJoinsAnyway(p, sdu, max);
      FeedFirst(p, head, rest);
      FeedCut(ProcessUdf(p, head).p, sdu, max, max, |rest|);
      assert rest[..|rest|] == rest;
      assert Fragment(sdu, max) == [head] + rest;
      var f := Feed(p, [head] + rest);
      assert f.0 == IDLE && f.1 == [sdu];
    }
  }

  /** So an SDU that arrives whole is handed up, whatever came before it and comes after it. */
  lemma WholeSduArrives(before: seq<Udf>, sdu: Sdu, max: nat, after: seq<Udf>)
    requires max >= 1
    ensures var p := if |sdu| > max then IDLE else Feed(IDLE, before).0;
            Feed(IDLE, before + Fragment(sdu, max) + after).1 == Feed(IDLE, before).1 + [sdu] + Feed(p, after).1
  {
    FeedKeepsSound(IDLE, before);
    var p := Feed(IDLE, before).0;
    Resynchronises(p, sdu, max);
    FeedConcat(IDLE, before, Fragment(sdu, max));
    FeedConcat(IDLE, before + Fragment(sdu, max), after);
  }

  // ---------------------------------------------------------------- any contiguous part of the stream

  /** Where the fragments of SDU number `k` start in the stream. */
  function StartOf(sdus: seq<Sdu>, max: nat, k: nat): nat
    requires max >= 1 && k <= |sdus|
  {
    if k == 0 then 0 else |Fragment(sdus[0], max)| + StartOf(sdus[1..], max, k - 1)
  }

  /** Later fragments are refused while idle. */
  lemma {:induction false} FeedOrphans(sdu: Sdu, max: nat, offset: nat, k: nat)
    requires max >= 1 && 0 < offset <= |sdu| && k <= |Cut(sdu, max, offset)|
    ensures Feed(IDLE, Cut(sdu, max, offset)[..k]).0 == IDLE && Feed(IDLE, Cut(sdu, max, offset)[..k]).1 == []
    decreases |sdu| - offset
  {
    if k > 0 {
      var next := offset + Min(|sdu| - offset, max);
      CutTake(sdu, max, offset, k);
      FeedFirst(IDLE, HeadOf(sdu, max, offset), Cut(sdu, max, next)[..k - 1]);
      FeedOrphans(sdu, max, next, k - 1);
    }
  }

  lemma {:induction false} CutTail(sdu: Sdu, max: nat, offset: nat, i: nat) returns (offset': nat)
    requires max >= 1 && offset <= |sdu| && 0 < i <= |Cut(sdu, max, offset)|
    ensures offset < offset' <= |sdu| && Cut(sdu, max, offset)[i..] == Cut(sdu, max, offset')
    decreases |sdu| - offset
  {
    var next := offset + Min(|sdu| - offset, max);
    var rest := Cut(sdu, max, next);
    assert Cut(sdu, max, offset)[i..] == rest[i - 1..];
    if i == 1 {
      offset' := next;
      assert rest[0..] == rest;
    } else {
      offset' := CutTail(sdu, max, next, i - 1);
    }
  }

  /** Starting in the middle of an SDU, the rest of that SDU is discarded. */
  lemma FeedMiddle(sdu: Sdu, max: nat, i: nat, j: nat)
    requires max >= 1 && 0 < i <= j <= |Fragment(sdu, max)|
    ensures Feed(IDLE, Fragment(sdu, max)[i..j]).0 == IDLE && Feed(IDLE, Fragment(sdu, max)[i..j]).1 == []
  {
    if |sdu| > max {
      var offset := CutTail(sdu, max, 0, i);
      FeedOrphans(sdu, max, offset, j - i);
      assert Fragment(sdu, max)[i..j] == Fragment(sdu, max)[i..][..j - i];
    }
  }

  /** SDU `a` is the first one that starts at position `i` or later. */
  ghost predicate FirstFrom(sdus: seq<Sdu>, max: nat, i: nat, a: nat)
    requires max >= 1
  {
    a <= |sdus| && i <= StartOf(sdus, max, a) && (a > 0 ==> StartOf(sdus, max, a - 1) < i)
  }

  /** `b` is the number of SDUs that end at position `j` or earlier. */
  ghost predicate EndedBy(sdus: seq<Sdu>, max: nat, j: nat, b: nat)
    requires max >= 1
  {
    b <= |sdus| && StartOf(sdus, max, b) <= j && (b < |sdus| ==> StartOf(sdus, max, b + 1) > j)
  }

  lemma EndedLater(sdus: seq<Sdu>, max: nat, j: nat, b: nat)
    requires max >= 1 && sdus != [] && EndedBy(sdus[1..], max, j, b)
    ensures EndedBy(sdus, max, |Fragment(sdus[0], max)| + j, b + 1)
  {
  }

  lemma FirstLater(sdus: seq<Sdu>, max: nat, i: nat, a: nat)
    requires max >= 1 && sdus != [] && FirstFrom(sdus[1..], max, i, a)
    ensures FirstFrom(sdus, max, |Fragment(sdus[0], max)| + i, a + 1)
  {
  }

  /** Slices of a concatenation. */
  lemma Slices<T>(f: seq<T>, rest: seq<T>, i: nat, j: nat)
    requires i <= j <= |f| + |rest|
    ensures i >= |f| ==> (f + rest)[i..j] == rest[i - |f|..j - |f|]
    ensures j <= |f| ==> (f + rest)[i..j] == f[i..j]
    ensures i <= |f| <= j ==> (f + rest)[i..j] == f[i..|f|] + rest[..j - |f|]
  {
  }

  ghost predicate HandsUp(udfs: seq<Udf>, sdus: seq<Sdu>) { Feed(IDLE, udfs).1 == sdus }

  lemma HandsUpBoth(a: seq<Udf>, b: seq<Udf>, xs: seq<Sdu>, ys: seq<Sdu>)
    requires Feed(IDLE, a).0 == IDLE && HandsUp(a, xs) && HandsUp(b, ys)
    ensures HandsUp(a + b, xs + ys)
  {
    FeedConcat(IDLE, a, b);
  }

  lemma PrefixLater(sdus: seq<Sdu>, max: nat, j: nat, rest: seq<Udf>, b: nat)
    requires max >= 1 && sdus != [] && |Fragment(sdus[0], max)| <= j <= |FragmentAll(sdus, max)| && b < |sdus|
    requires rest == FragmentAll(sdus[1..], max)[..j - |Fragment(sdus[0], max)|] && HandsUp(rest, sdus[1..][..b])
    ensures HandsUp(FragmentAll(sdus, max)[..j], sdus[..b + 1])
  {
    HandsUpOneMore(sdus[0], max, rest, sdus[1..][..b]);
    TakeMore(Fragment(sdus[0], max), FragmentAll(sdus[1..], max), j);
    TakeMore([sdus[0]], sdus[1..], b + 1);
    assert sdus == [sdus[0]] + sdus[1..];
  }

  lemma TakeMore<T>(f: seq<T>, rest: seq<T>, j: nat)
    requires |f| <= j <= |f| + |rest|
    ensures (f + rest)[..j] == f + rest[..j - |f|]
  {
  }

  lemma HandsUpOneMore(sdu: Sdu, max: nat, rest: seq<Udf>, ys: seq<Sdu>)
    requires max >= 1 && HandsUp(rest, ys)
    ensures HandsUp(Fragment(sdu, max) + rest, [sdu] + ys)
  {
    var f := Fragment(sdu, max);
    FeedOne(sdu, max, |f|);
    assert f[..|f|] == f;
    HandsUpBoth(f, rest, [sdu], ys);
  }

  /** From the start of the stream, the SDUs that have arrived completely are handed up. */
  lemma {:induction false} FeedPrefix(sdus: seq<Sdu>, max: nat, j: nat) returns (b: nat)
    requires max >= 1 && j <= |FragmentAll(sdus, max)|
    ensures EndedBy(sdus, max, j, b) && HandsUp(FragmentAll(sdus, max)[..j], sdus[..b])
    decreases |sdus|
  {
    b := 0;
    if sdus != [] {
      var f := Fragment(sdus[0], max);
      if j < |f| {
        FeedOne(sdus[0], max, j);
        assert FragmentAll(sdus, max)[..j] == f[..j];
      } else {
        b := FeedPrefix(sdus[1..], max, j - |f|);
        PrefixLater(sdus, max, j, FragmentAll(sdus[1..], max)[..j - |f|], b);
        EndedLater(sdus, max, j - |f|, b);
        b := b + 1;
      }
    }
  }

  lemma MiddleLost(a: seq<Udf>, b: seq<Udf>, ys: seq<Sdu>)
    requires Feed(IDLE, a).0 == IDLE && HandsUp(a, []) && HandsUp(b, ys)
    ensures HandsUp(a + b, ys)
  {
    HandsUpBoth(a, b, [], ys);
    assert [] + ys == ys;
  }

  lemma MiddleThenPrefix(sdus: seq<Sdu>, max: nat, i: nat, j: nat) returns (b: nat)
    requires max >= 1 && sdus != [] && 0 < i < |Fragment(sdus[0], max)| <= j <= |FragmentAll(sdus, max)|
    ensures 1 <= b && EndedBy(sdus, max, j, b) && HandsUp(Part(sdus, max, i, j), sdus[1..b])
  {
    var f := Fragment(sdus[0], max);
    var rest := FragmentAll(sdus[1..], max);
    FeedMiddle(sdus[0], max, i, |f|);
    b := FeedPrefix(sdus[1..], max, j - |f|);
    MiddleLost(f[i..|f|], rest[..j - |f|], sdus[1..][..b]);
    Slices(f, rest, i, j);
    EndedLater(sdus, max, j - |f|, b);
    assert sdus[1..][..b] == sdus[1..b + 1];
    b := b + 1;
  }

  /** Elements `a` to `b`, none if `b` comes first. */
  function Span<T>(s: seq<T>, a: nat, b: nat): seq<T>
    requires b <= |s|
  {
    if a <= b then s[a..b] else []
  }

  lemma SpanLater<T>(s: seq<T>, a: nat, b: nat)
    requires b < |s|
    ensures Span(s, a + 1, b + 1) == Span(s[1..], a, b)
  {
  }

  /** Positions `i` to `j` of the stream. */
  function Part(sdus: seq<Sdu>, max: nat, i: nat, j: nat): seq<Udf>
    requires max >= 1 && i <= j <= |FragmentAll(sdus, max)|
  {
    FragmentAll(sdus, max)[i..j]
  }

  lemma PartLater(sdus: seq<Sdu>, max: nat, i: nat, j: nat)
    requires max >= 1 && sdus != [] && |Fragment(sdus[0], max)| <= i <= j <= |FragmentAll(sdus, max)|
    ensures var n := |Fragment(sdus[0], max)|; Part(sdus, max, i, j) == Part(sdus[1..], max, i - n, j - n)
  {
    Slices(Fragment(sdus[0], max), FragmentAll(sdus[1..], max), i, j);
  }

  lemma InsideOne(sdus: seq<Sdu>, max: nat, i: nat, j: nat)
    requires max >= 1 && sdus != [] && 0 < i <= j < |Fragment(sdus[0], max)|
    ensures j <= |FragmentAll(sdus, max)| && HandsUp(Part(sdus, max, i, j), []) && EndedBy(sdus, max, j, 0)
  {
    Slices(Fragment(sdus[0], max), FragmentAll(sdus[1..], max), i, j);
    FeedMiddle(sdus[0], max, i, j);
  }

  lemma BlockLater(sdus: seq<Sdu>, max: nat, i: nat, j: nat, a: nat, b: nat)
    requires max >= 1 && sdus != [] && |Fragment(sdus[0], max)| <= i <= j <= |FragmentAll(sdus, max)|
    requires var n := |Fragment(sdus[0], max)|;
             && FirstFrom(sdus[1..], max, i - n, a) && EndedBy(sdus[1..], max, j - n, b)
             && HandsUp(Part(sdus[1..], max, i - n, j - n), Span(sdus[1..], a, b))
    ensures FirstFrom(sdus, max, i, a + 1) && EndedBy(sdus, max, j, b + 1)
    ensures HandsUp(Part(sdus, max, i, j), Span(sdus, a + 1, b + 1))
  {
    var n := |Fragment(sdus[0], max)|;
    FirstLater(sdus, max, i - n, a);
    EndedLater(sdus, max, j - n, b);
    PartLater(sdus, max, i, j);
    SpanLater(sdus, a, b);
  }

  /**
   Feeding positions `i` to `j` of the stream from idle hands up exactly the SDUs whose fragments all lie
   between those positions: from the first one that starts at `i` or later to the last one that ends by `j`.
   */
  lemma {:induction false} FeedBlock(sdus: seq<Sdu>, max: nat, i: nat, j: nat) returns (a: nat, b: nat)
    requires max >= 1 && i <= j <= |FragmentAll(sdus, max)|
    ensures FirstFrom(sdus, max, i, a) && EndedBy(sdus, max, j, b)
    ensures HandsUp(Part(sdus, max, i, j), Span(sdus, a, b))
    decreases |sdus|
  {
    if i == 0 {
      assert FragmentAll(sdus, max)[0..j] == FragmentAll(sdus, max)[..j];
      a := 0;
      b := FeedPrefix(sdus, max, j);
    } else {
      var n := |Fragment(sdus[0], max)|;
      if i >= n {
        a, b := FeedBlock(sdus[1..], max, i - n, j - n);
        BlockLater(sdus, max, i, j, a, b);
        a, b := a + 1, b + 1;
      } else if j < n {
        InsideOne(sdus, max, i, j);
        a, b := 1, 0;
      } else {
        a := 1;
        b := MiddleThenPrefix(sdus, max, i, j);
      }
    }
  }
}
