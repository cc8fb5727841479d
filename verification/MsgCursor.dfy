/**
 The serialiser at work: a cursor that advances through a buffer, with the loops that count, write,
 measure and read the nested lists of a forwarding table.
 */
module MsgCursor {
  import opened EfcpTypes
  import opened PciAccess
  import opened MsgCodec

  /** What was in the buffer before, and everything that comes after `out`. */
  class Writer {
    var out: seq<Octet>

    constructor ()
      ensures out == []
    {
      out := [];
    }

    method PutNum(v: nat, w: nat)
      modifies this
      ensures forall k :: out + k == old(out) + NumBytes(v, w, k)
    {
      out := out + Bytes(v, w);
    }

    /** The ports are copied as they lie in memory. */
    method PutAltList(a: AltList)
      modifies this
      ensures forall k :: out + k == old(out) + AltListBytes(a, k)
    {
      PutNum(|a|, 2);
      ghost var before := out;
      out := out + AllBytes(PortBytes, a, []);
      forall k ensures out + k == old(out) + AltListBytes(a, k) {
        PortsSplit(a, k);
        assert out + k == before + AllBytes(PortBytes, a, k);
      }
    }

    /** Counts the entries in 16 bits, then writes them. */
    method PutPffEntry(e: PffEntry)
      modifies this
      ensures forall k :: out + k == old(out) + PffEntryBytes(e, k)
    {
      var numAlts := 0;
      for i := 0 to |e.alts|
        invariant unchanged(this) && numAlts == i % 0x1_0000
      {
        numAlts := (numAlts + 1) % 0x1_0000;
      }
      CountBytes(|e.alts|);
      PutNum(e.fwdInfo, 4);
      PutNum(e.qosId, 2);
      PutNum(e.cost, 4);
      PutNum(numAlts, 2);
      assert Puts(old(out), out, e);
      PutAlts(e.alts);
    }

    method PutAlts(alts: seq<AltList>)
      modifies this
      ensures forall k :: out + k == old(out) + AllBytes(AltListBytes, alts, k)
    {
      assert alts[0..] == alts;
      for i := 0 to |alts|
        invariant forall k :: out + AllBytes(AltListBytes, alts[i..], k) == old(out) + AllBytes(AltListBytes, alts, k)
      {
        assert alts[i..][1..] == alts[i + 1..];
        PutAltList(alts[i]);
      }
    }

    method PutPffList(l: PffList)
      modifies this
      ensures forall k :: out + k == old(out) + PffListBytes(l, k)
    {
      var size := 0;
      for i := 0 to |l|
        invariant unchanged(this) && size == i % 0x1_0000
      {
        size := (size + 1) % 0x1_0000;
      }
      CountBytes(|l|);
      PutNum(size, 2);
      assert l[0..] == l;
      for i := 0 to |l|
        invariant forall k :: out + AllBytes(PffEntryBytes, l[i..], k) == old(out) + PffListBytes(l, k)
      {
        assert l[i..][1..] == l[i + 1..];
        PutPffEntry(l[i]);
      }
    }
  }

  /** The fixed fields of an entry and the count have been written. */
  ghost predicate Puts(before: seq<Octet>, after: seq<Octet>, e: PffEntry) {
    forall k :: after + AllBytes(AltListBytes, e.alts, k) == before + PffEntryBytes(e, k)
  }

  /** A count is written modulo its width. */
  lemma CountBytes(n: nat)
    ensures Bytes(n % 0x1_0000, 2) == Bytes(n, 2)
  {
    assert Bytes(n, 2) == [n % 256] + Bytes(n / 256, 1) && Bytes(n / 256, 1) == [n / 256 % 256];
    var m := n % 0x1_0000;
    assert Bytes(m, 2) == [m % 256] + Bytes(m / 256, 1) && Bytes(m / 256, 1) == [m / 256 % 256];
    assert m % 256 == n % 256 && m / 256 % 256 == n / 256 % 256;
  }

  lemma {:induction false} PortsSplit(a: AltList, k: seq<Octet>)
    ensures AllBytes(PortBytes, a, []) + k == AllBytes(PortBytes, a, k)
    decreases |a|
  {
    if a != [] {
      PortsSplit(a[1..], k);
      assert Bytes(a[0], 4) + AllBytes(PortBytes, a[1..], []) + k == Bytes(a[0], 4) + (AllBytes(PortBytes, a[1..], []) + k);
    }
  }

  // ---------------------------------------------------------------- measuring

  lemma {:induction false} TotalSnoc<T>(len: T -> nat, xs: seq<T>, i: nat)
    requires i < |xs|
    ensures Total(len, xs[..i + 1]) == Total(len, xs[..i]) + len(xs[i])
    decreases i
  {
    if i > 0 {
      TotalSnoc(len, xs[1..], i - 1);
      assert xs[..i + 1][1..] == xs[1..][..i] && xs[..i][1..] == xs[1..][..i - 1];
    } else {
      assert xs[..1][1..] == [];
    }
  }

  method AltListSerlen(a: AltList) returns (n: nat)
    ensures n == AltListLen(a)
  {
    PortsLength(a);
    n := 2 + |a| * 4;
  }

  lemma {:induction false} PortsLength(a: AltList)
    ensures Total(PortLen, a) == |a| * 4
    decreases |a|
  {
    if a != [] {
      PortsLength(a[1..]);
    }
  }

  method PffEntrySerlen(e: PffEntry) returns (n: nat)
    ensures n == PffEntryLen(e)
  {
    n := 4 + 2 + 2 + 4;
    for i := 0 to |e.alts|
      invariant n == 12 + Total(AltListLen, e.alts[..i])
    {
      TotalSnoc(AltListLen, e.alts, i);
      var m := AltListSerlen(e.alts[i]);
      n := n + m;
    }
    assert e.alts[..|e.alts|] == e.alts;
  }

  /** What has to be allocated for a list: the number of bytes that the writer then uses. */
  method PffListSerlen(l: PffList) returns (n: nat)
    ensures n == PffListLen(l) == |PffListBytes(l, [])|
  {
    n := 2;
    for i := 0 to |l|
      invariant n == 2 + Total(PffEntryLen, l[..i])
    {
      TotalSnoc(PffEntryLen, l, i);
      var m := PffEntrySerlen(l[i]);
      n := n + m;
    }
    assert l[..|l|] == l;
    PffListRoundTrip(l);
  }

  // ---------------------------------------------------------------- reading

  /** What has been read, followed by what is still to be read. */
  ghost function Glue<T>(xs: seq<T>, p: Parsed<seq<T>>): Parsed<seq<T>> {
    match p
    case Cut => Cut
    case Done(ys, r) => Done(xs + ys, r)
  }

  lemma GlueMore<T>(read: seq<Octet> -> Parsed<T>, xs: seq<T>, n: nat, bs: seq<Octet>)
    requires n > 0
    ensures Glue(xs, ReadAll(read, n, bs))
         == if read(bs).Cut? then Cut else Glue(xs + [read(bs).value], ReadAll(read, n - 1, read(bs).rest))
  {
    if read(bs).Done? && ReadAll(read, n - 1, read(bs).rest).Done? {
      var x, ys := read(bs).value, ReadAll(read, n - 1, read(bs).rest).value;
      assert xs + ([x] + ys) == (xs + [x]) + ys;
    }
  }

  lemma GlueEnds<T>(read: seq<Octet> -> Parsed<T>, xs: seq<T>, p: Parsed<seq<T>>, bs: seq<Octet>)
    ensures Glue([], p) == p && Glue(xs, ReadAll(read, 0, bs)) == Done(xs, bs)
  {
    if p.Done? {
      assert [] + p.value == p.value;
    }
    assert xs + [] == xs;
  }

  /** A read that succeeded took `p` off the buffer; one that failed found it too short. */
  ghost predicate Took<T>(p: Parsed<T>, got: Option<T>, left: seq<Octet>) {
    match p
    case Cut => got.None?
    case Done(x, r) => got == Some(x) && left == r
  }

  class Reader {
    var left: seq<Octet>

    constructor (buf: seq<Octet>)
      ensures left == buf
    {
      left := buf;
    }

    method TakeNum(w: nat) returns (v: Option<nat>)
      modifies this
      ensures Took(ReadNum(w, old(left)), v, left)
    {
      if |left| < w {
        return None;
      }
      v := Some(Value(left[..w]));
      left := left[w..];
    }

    /** The ports are copied as they lie in the buffer. */
    method TakeAltList() returns (a: Option<AltList>)
      modifies this
      ensures Took(ReadAltList(old(left)), a, left)
    {
      var n := TakeNum(2);
      if n.None? {
        return None;
      }
      var ports := ReadAll(ReadPort, n.value, left);
      if ports.Cut? {
        return None;
      }
      a := Some(ports.value);
      left := ports.rest;
    }

    method TakeAlts() returns (alts: Option<seq<AltList>>)
      modifies this
      ensures Took(ReadList(ReadAltList, old(left)), alts, left)
    {
      var n := TakeNum(2);
      if n.None? {
        return None;
      }
      ghost var start := left;
      var got: seq<AltList> := [];
      GlueEnds(ReadAltList, got, ReadAll(ReadAltList, n.value, left), left);
      for i := 0 to n.value
        invariant Glue(got, ReadAll(ReadAltList, n.value - i, left)) == ReadAll(ReadAltList, n.value, start)
      {
        GlueMore(ReadAltList, got, n.value - i, left);
        var a := TakeAltList();
        if a.None? {
          return None;
        }
        got := got + [a.value];
      }
      GlueEnds(ReadAltList, got, Cut, left);
      alts := Some(got);
    }

    method TakePffEntry() returns (e: Option<PffEntry>)
      modifies this
      ensures Took(ReadPffEntry(old(left)), e, left)
    {
      var fwdInfo := TakeNum(4);
      if fwdInfo.None? {
        return None;
      }
      var qosId := TakeNum(2);
      if qosId.None? {
        return None;
      }
      var cost := TakeNum(4);
      if cost.None? {
        return None;
      }
      var alts := TakeAlts();
      if alts.None? {
        return None;
      }
      e := Some(PffEntry(fwdInfo.value, qosId.value, cost.value, alts.value));
    }

    /** The loop over the entries, one at a time from the front. */
    method TakeEntries(n: nat) returns (l: Option<PffList>)
      modifies this
      ensures Took(ReadAll(ReadPffEntry, n, old(left)), l, left)
    {
      var got: PffList := [];
      GlueEnds(ReadPffEntry, got, ReadAll(ReadPffEntry, n, left), left);
      for i := 0 to n
        invariant Glue(got, ReadAll(ReadPffEntry, n - i, left)) == ReadAll(ReadPffEntry, n, old(left))
      {
        GlueMore(ReadPffEntry, got, n - i, left);
        var e := TakePffEntry();
        if e.None? {
          return None;
        }
        got := got + [e.value];
      }
      GlueEnds(ReadPffEntry, got, Cut, left);
      l := Some(got);
    }

    method TakePffList() returns (l: Option<PffList>)
      modifies this
      ensures Took(ReadPffList(old(left)), l, left)
    {
      var n := TakeNum(2);
      if n.None? {
        return None;
      }
      l := TakeEntries(n.value);
    }
  }
}
