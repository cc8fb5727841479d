/**
 The serialiser of control messages. Writing is given in continuation form: `XBytes(x, k)` is what the
 buffer holds from the write position on when `x` is written and `k` follows. Reading takes a value off
 the front of a buffer. Numbers are in the host order of a little-endian machine, signed ones given by
 their bit pattern.
 */
module MsgCodec {
  import opened EfcpTypes
  import opened PciAccess

  /** A C string: NULL, or its characters without the terminator. */
  type Text = Option<seq<Octet>>

  /** A value and what is left of the buffer; `Cut` if the buffer ends too early. */
  datatype Parsed<+T> = Cut | Done(value: T, rest: seq<Octet>)

  // ---------------------------------------------------------------- numbers

  function NumBytes(v: nat, w: nat, k: seq<Octet>): seq<Octet> { Bytes(v, w) + k }

  function ReadNum(w: nat, bs: seq<Octet>): Parsed<nat> {
    if |bs| < w then Cut else Done(Value(bs[..w]), bs[w..])
  }

  lemma NumRoundTrip(v: nat, w: nat, k: seq<Octet>)
    requires v < Pow256(w)
    ensures ReadNum(w, NumBytes(v, w, k)) == Done(v, k)
  {
    ValueOfBytes(v, w);
    assert NumBytes(v, w, k)[..w] == Bytes(v, w) && NumBytes(v, w, k)[w..] == k;
  }

  lemma Widths()
    ensures Pow256(1) == 0x100 && Pow256(2) == 0x1_0000 && Pow256(4) == 0x1_0000_0000
    ensures Pow256(8) == 0x1_0000_0000_0000_0000
  {
    assert Pow256(3) == 256 * Pow256(2) && Pow256(5) == 256 * Pow256(4);
    assert Pow256(6) == 256 * Pow256(5) && Pow256(7) == 256 * Pow256(6);
  }

  function Raw(n: nat, bs: seq<Octet>): Parsed<seq<Octet>> {
    if |bs| < n then Cut else Done(bs[..n], bs[n..])
  }

  lemma RawRoundTrip(s: seq<Octet>, k: seq<Octet>)
    ensures Raw(|s|, s + k) == Done(s, k)
  {
    assert (s + k)[..|s|] == s && (s + k)[|s|..] == k;
  }

  // ---------------------------------------------------------------- strings and names

  const MAX_STRING: nat := 65535

  /** Strings are cut to 65535 characters, and NULL is written like the empty string. */
  function Clip(s: Text): seq<Octet> {
    if s.None? then [] else if |s.value| > MAX_STRING then s.value[..MAX_STRING] else s.value
  }

  function StringLen(s: Text): nat {
    var n := if s.None? then 0 else |s.value|;
    if n > MAX_STRING then MAX_STRING else n
  }

  function TextBytes(s: Text, k: seq<Octet>): seq<Octet> {
    NumBytes(StringLen(s), 2, Clip(s) + k)
  }

  function ReadText(bs: seq<Octet>): Parsed<Text> {
    match ReadNum(2, bs)
    case Cut => Cut
    case Done(n, r) =>
      match Raw(n, r)
      case Cut => Cut
      case Done(s, r2) => Done(Some(s), r2)
  }

  /** What a string comes back as. */
  function TextSeen(s: Text): Text { Some(Clip(s)) }

  lemma TextRoundTrip(s: Text, k: seq<Octet>)
    ensures ReadText(TextBytes(s, k)) == Done(TextSeen(s), k)
    ensures |TextBytes(s, k)| == 2 + StringLen(s) + |k|
  {
    Widths();
    NumRoundTrip(StringLen(s), 2, Clip(s) + k);
    RawRoundTrip(Clip(s), k);
  }

  datatype Name = Name(processName: Text, processInstance: Text, entityName: Text, entityInstance: Text)

  /** A NULL name is counted as four empty strings and written as nothing. */
  function NameLen(n: Option<Name>): nat {
    8 + match n
        case None => 0
        case Some(x) => StringLen(x.processName) + StringLen(x.processInstance) + StringLen(x.entityName) + StringLen(x.entityInstance)
  }

  function NameBytes(n: Option<Name>, k: seq<Octet>): seq<Octet> {
    match n
    case None => k
    case Some(x) =>
      TextBytes(x.processName, TextBytes(x.processInstance, TextBytes(x.entityName, TextBytes(x.entityInstance, k))))
  }

  function ReadName(bs: seq<Octet>): Parsed<Option<Name>> {
    match ReadText(bs)
    case Cut => Cut
    case Done(pn, r1) =>
      match ReadText(r1)
      case Cut => Cut
      case Done(pi, r2) =>
        match ReadText(r2)
        case Cut => Cut
        case Done(en, r3) =>
          match ReadText(r3)
          case Cut => Cut
          case Done(ei, r4) => Done(Some(Name(pn, pi, en, ei)), r4)
  }

  function NameSeen(n: Option<Name>): Option<Name> {
    match n
    case None => None
    case Some(x) =>
      Some(Name(TextSeen(x.processName), TextSeen(x.processInstance), TextSeen(x.entityName), TextSeen(x.entityInstance)))
  }

  predicate Present(n: Option<Name>) { n.Some? }

  lemma NameRoundTrip(n: Option<Name>, k: seq<Octet>)
    ensures Present(n) ==> ReadName(NameBytes(n, k)) == Done(NameSeen(n), k)
    ensures |NameBytes(n, k)| <= NameLen(n) + |k| && (|NameBytes(n, k)| == NameLen(n) + |k| <==> Present(n))
  {
    if n.Some? {
      var x := n.value;
      var k3 := TextBytes(x.entityInstance, k);
      var k2 := TextBytes(x.entityName, k3);
      TextRoundTrip(x.entityInstance, k);
      TextRoundTrip(x.entityName, k3);
      TextRoundTrip(x.processInstance, k2);
      TextRoundTrip(x.processName, TextBytes(x.processInstance, k2));
    }
  }

  // ---------------------------------------------------------------- lists of anything

  function AllBytes<T>(write: (T, seq<Octet>) -> seq<Octet>, xs: seq<T>, k: seq<Octet>): seq<Octet> {
    if xs == [] then k else write(xs[0], AllBytes(write, xs[1..], k))
  }

  function ReadAll<T>(read: seq<Octet> -> Parsed<T>, n: nat, bs: seq<Octet>): Parsed<seq<T>> {
    if n == 0 then Done([], bs)
    else
      match read(bs)
      case Cut => Cut
      case Done(x, r) =>
        match ReadAll(read, n - 1, r)
        case Cut => Cut
        case Done(xs, r2) => Done([x] + xs, r2)
  }

  function Total<T>(len: T -> nat, xs: seq<T>): nat {
    if xs == [] then 0 else len(xs[0]) + Total(len, xs[1..])
  }

  function Seen<T>(seen: T -> T, xs: seq<T>): (ys: seq<T>)
    ensures |ys| == |xs| && forall i :: 0 <= i < |xs| ==> ys[i] == seen(xs[i])
  {
    if xs == [] then [] else [seen(xs[0])] + Seen(seen, xs[1..])
  }

  /** Reader and writer agree on `x`, whatever follows. */
  ghost predicate Agrees<T(!new)>(write: (T, seq<Octet>) -> seq<Octet>, read: seq<Octet> -> Parsed<T>, seen: T -> T, x: T) {
    forall k :: read(write(x, k)) == Done(seen(x), k)
  }

  /** The announced length of `x` is an upper bound, and exact if and only if `exact`. */
  ghost predicate Measures<T(!new)>(write: (T, seq<Octet>) -> seq<Octet>, len: T -> nat, exact: bool, x: T) {
    forall k :: |write(x, k)| <= len(x) + |k| && (|write(x, k)| == len(x) + |k| <==> exact)
  }

  lemma {:induction false} ListRoundTrip<T(!new)>(
      write: (T, seq<Octet>) -> seq<Octet>, read: seq<Octet> -> Parsed<T>, seen: T -> T, xs: seq<T>, k: seq<Octet>)
    requires forall i :: 0 <= i < |xs| ==> Agrees(write, read, seen, xs[i])
    ensures ReadAll(read, |xs|, AllBytes(write, xs, k)) == Done(Seen(seen, xs), k)
    decreases |xs|
  {
    if xs != [] {
      assert Agrees(write, read, seen, xs[0]);
      ListRoundTrip(write, read, seen, xs[1..], k);
    }
  }

  lemma {:induction false} ListLength<T(!new)>(
      write: (T, seq<Octet>) -> seq<Octet>, len: T -> nat, exact: T -> bool, xs: seq<T>, k: seq<Octet>)
    requires forall i :: 0 <= i < |xs| ==> Measures(write, len, exact(xs[i]), xs[i])
    ensures |AllBytes(write, xs, k)| <= Total(len, xs) + |k|
    ensures |AllBytes(write, xs, k)| == Total(len, xs) + |k| <==> forall i :: 0 <= i < |xs| ==> exact(xs[i])
    decreases |xs|
  {
    if xs != [] {
      assert Measures(write, len, exact(xs[0]), xs[0]);
      ListLength(write, len, exact, xs[1..], k);
      assert xs == [xs[0]] + xs[1..];
    }
  }

  /** A 16-bit count and that many elements. */
  function ListBytes<T>(write: (T, seq<Octet>) -> seq<Octet>, xs: seq<T>, k: seq<Octet>): seq<Octet> {
    NumBytes(|xs|, 2, AllBytes(write, xs, k))
  }

  function ReadList<T>(read: seq<Octet> -> Parsed<T>, bs: seq<Octet>): Parsed<seq<T>> {
    match ReadNum(2, bs)
    case Cut => Cut
    case Done(n, r) => ReadAll(read, n, r)
  }

  lemma CountedRoundTrip<T(!new)>(
      write: (T, seq<Octet>) -> seq<Octet>, read: seq<Octet> -> Parsed<T>, seen: T -> T, xs: seq<T>, k: seq<Octet>)
    requires forall i :: 0 <= i < |xs| ==> Agrees(write, read, seen, xs[i])
    requires |xs| < 0x1_0000
    ensures ReadList(read, ListBytes(write, xs, k)) == Done(Seen(seen, xs), k)
  {
    Widths();
    NumRoundTrip(|xs|, 2, AllBytes(write, xs, k));
    ListRoundTrip(write, read, seen, xs, k);
  }

  lemma {:induction false} ValueBound(bs: seq<Octet>)
    ensures Value(bs) < Pow256(|bs|)
    decreases |bs|
  {
    if bs != [] {
      ValueBound(bs[1..]);
    }
  }

  /** What is read is within the range of its width. */
  lemma ReadNumFits(w: nat, bs: seq<Octet>)
    ensures ReadNum(w, bs).Done? ==> ReadNum(w, bs).value < Pow256(w)
  {
    if |bs| >= w {
      ValueBound(bs[..w]);
    }
  }

  lemma {:induction false} ReadAllFit<T>(read: seq<Octet> -> Parsed<T>, fits: T -> bool, n: nat, bs: seq<Octet>)
    requires forall b :: read(b).Done? ==> fits(read(b).value)
    ensures var p := ReadAll(read, n, bs); p.Done? ==> |p.value| == n && forall i :: 0 <= i < n ==> fits(p.value[i])
  {
    if n > 0 && read(bs).Done? {
      ReadAllFit(read, fits, n - 1, read(bs).rest);
    }
  }

  /** So is the count of a list that is read, and each of its elements. */
  lemma ReadListFits<T>(read: seq<Octet> -> Parsed<T>, fits: T -> bool, bs: seq<Octet>)
    requires forall b :: read(b).Done? ==> fits(read(b).value)
    ensures var p := ReadList(read, bs); p.Done? ==> |p.value| < 0x1_0000 && forall i :: 0 <= i < |p.value| ==> fits(p.value[i])
  {
    Widths();
    ReadNumFits(2, bs);
    if ReadNum(2, bs).Done? {
      ReadAllFit(read, fits, ReadNum(2, bs).value, ReadNum(2, bs).rest);
    }
  }

  // ---------------------------------------------------------------- policies

  datatype Parm = Parm(name: Text, value: Text)

  function ParmLen(p: Parm): nat { 4 + StringLen(p.name) + StringLen(p.value) }

  function ParmBytes(p: Parm, k: seq<Octet>): seq<Octet> { TextBytes(p.name, TextBytes(p.value, k)) }

  function ReadParm(bs: seq<Octet>): Parsed<Parm> {
    match ReadText(bs)
    case Cut => Cut
    case Done(n, r) =>
      match ReadText(r)
      case Cut => Cut
      case Done(v, r2) => Done(Parm(n, v), r2)
  }

  function ParmSeen(p: Parm): Parm { Parm(TextSeen(p.name), TextSeen(p.value)) }

  function Always<T>(x: T): bool { true }

  lemma ParmRoundTrip(p: Parm)
    ensures Agrees(ParmBytes, ReadParm, ParmSeen, p) && Measures(ParmBytes, ParmLen, true, p)
  {
    forall k ensures ReadParm(ParmBytes(p, k)) == Done(ParmSeen(p), k) && |ParmBytes(p, k)| == ParmLen(p) + |k| {
      TextRoundTrip(p.value, k);
      TextRoundTrip(p.name, TextBytes(p.value, k));
    }
  }

  datatype Policy = Policy(name: Text, version: Text, params: seq<Parm>)

  function PolicyLen(p: Policy): nat { 4 + StringLen(p.name) + StringLen(p.version) + 2 + Total(ParmLen, p.params) }

  function PolicyBytes(p: Policy, k: seq<Octet>): seq<Octet> {
    TextBytes(p.name, TextBytes(p.version, ListBytes(ParmBytes, p.params, k)))
  }

  function ReadPolicy(bs: seq<Octet>): Parsed<Policy> {
    match ReadText(bs)
    case Cut => Cut
    case Done(n, r) =>
      match ReadText(r)
      case Cut => Cut
      case Done(v, r2) =>
        match ReadList(ReadParm, r2)
        case Cut => Cut
        case Done(ps, r3) => Done(Policy(n, v, ps), r3)
  }

  function PolicySeen(p: Policy): Policy {
    Policy(TextSeen(p.name), TextSeen(p.version), Seen(ParmSeen, p.params))
  }

  lemma PolicyRoundTrip(p: Policy, k: seq<Octet>)
    ensures |p.params| < 0x1_0000 ==> ReadPolicy(PolicyBytes(p, k)) == Done(PolicySeen(p), k)
    ensures |PolicyBytes(p, k)| == PolicyLen(p) + |k|
  {
    forall i | 0 <= i < |p.params| ensures Agrees(ParmBytes, ReadParm, ParmSeen, p.params[i])
                                        && Measures(ParmBytes, ParmLen, Always(p.params[i]), p.params[i]) {
      ParmRoundTrip(p.params[i]);
    }
    ListLength(ParmBytes, ParmLen, Always, p.params, k);
    if |p.params| < 0x1_0000 {
      CountedRoundTrip(ParmBytes, ReadParm, ParmSeen, p.params, k);
    }
    TextRoundTrip(p.version, ListBytes(ParmBytes, p.params, k));
    TextRoundTrip(p.name, TextBytes(p.version, ListBytes(ParmBytes, p.params, k)));
  }

  // ---------------------------------------------------------------- RIB responses

  datatype RibObject = RibObject(instance: nat, name: Text, clazz: Text, dispValue: Text)

  function RibObjectLen(o: RibObject): nat { 6 + StringLen(o.name) + StringLen(o.clazz) + StringLen(o.dispValue) + 8 }

  function RibObjectBytes(o: RibObject, k: seq<Octet>): seq<Octet> {
    NumBytes(o.instance, 8, TextBytes(o.name, TextBytes(o.clazz, TextBytes(o.dispValue, k))))
  }

  function ReadRibObject(bs: seq<Octet>): Parsed<RibObject> {
    match ReadNum(8, bs)
    case Cut => Cut
    case Done(i, r) =>
      match ReadText(r)
      case Cut => Cut
      case Done(n, r2) =>
        match ReadText(r2)
        case Cut => Cut
        case Done(c, r3) =>
          match ReadText(r3)
          case Cut => Cut
          case Done(v, r4) => Done(RibObject(i, n, c, v), r4)
  }

  function RibObjectSeen(o: RibObject): RibObject {
    RibObject(o.instance, TextSeen(o.name), TextSeen(o.clazz), TextSeen(o.dispValue))
  }

  predicate RibObjectFits(o: RibObject) { o.instance < 0x1_0000_0000_0000_0000 }

  lemma RibObjectRoundTrip(o: RibObject)
    ensures RibObjectFits(o) ==> Agrees(RibObjectBytes, ReadRibObject, RibObjectSeen, o)
    ensures Measures(RibObjectBytes, RibObjectLen, true, o)
  {
    forall k ensures RibObjectFits(o) ==> ReadRibObject(RibObjectBytes(o, k)) == Done(RibObjectSeen(o), k)
             ensures |RibObjectBytes(o, k)| == RibObjectLen(o) + |k| {
      var k1 := TextBytes(o.dispValue, k);
      var k2 := TextBytes(o.clazz, k1);
      Widths();
      TextRoundTrip(o.dispValue, k);
      TextRoundTrip(o.clazz, k1);
      TextRoundTrip(o.name, k2);
      if RibObjectFits(o) {
        NumRoundTrip(o.instance, 8, TextBytes(o.name, k2));
      }
    }
  }

  type RibResp = seq<RibObject>

  function RibRespLen(r: RibResp): nat { 2 + Total(RibObjectLen, r) }

  function RibRespBytes(r: RibResp, k: seq<Octet>): seq<Octet> { ListBytes(RibObjectBytes, r, k) }

  function ReadRibResp(bs: seq<Octet>): Parsed<RibResp> { ReadList(ReadRibObject, bs) }

  function RibRespSeen(r: RibResp): RibResp { Seen(RibObjectSeen, r) }

  predicate RibRespFits(r: RibResp) { |r| < 0x1_0000 && forall i :: 0 <= i < |r| ==> RibObjectFits(r[i]) }

  lemma RibRespRoundTrip(r: RibResp)
    ensures RibRespFits(r) ==> Agrees(RibRespBytes, ReadRibResp, RibRespSeen, r)
    ensures Measures(RibRespBytes, RibRespLen, true, r)
  {
    forall k ensures RibRespFits(r) ==> ReadRibResp(RibRespBytes(r, k)) == Done(RibRespSeen(r), k)
             ensures |RibRespBytes(r, k)| == RibRespLen(r) + |k| {
      forall i | 0 <= i < |r|
        ensures RibObjectFits(r[i]) ==> Agrees(RibObjectBytes, ReadRibObject, RibObjectSeen, r[i])
        ensures Measures(RibObjectBytes, RibObjectLen, Always(r[i]), r[i]) {
        RibObjectRoundTrip(r[i]);
      }
      ListLength(RibObjectBytes, RibObjectLen, Always, r, k);
      if RibRespFits(r) {
        CountedRoundTrip(RibObjectBytes, ReadRibObject, RibObjectSeen, r, k);
      }
    }
  }

  // ---------------------------------------------------------------- forwarding tables

  function PortBytes(p: nat, k: seq<Octet>): seq<Octet> { NumBytes(p, 4, k) }

  function ReadPort(bs: seq<Octet>): Parsed<nat> { ReadNum(4, bs) }

  function PortLen(p: nat): nat { 4 }

  function Same<T>(x: T): T { x }

  predicate PortFits(p: nat) { p < TWO32 }

  lemma PortRoundTrip(p: nat)
    ensures PortFits(p) ==> Agrees(PortBytes, ReadPort, Same, p)
    ensures Measures(PortBytes, PortLen, true, p)
  {
    Widths();
    forall k ensures PortFits(p) ==> ReadPort(PortBytes(p, k)) == Done(p, k) {
      if PortFits(p) {
        NumRoundTrip(p, 4, k);
      }
    }
  }

  /** A list of alternative ports. */
  type AltList = seq<nat>

  function AltListLen(a: AltList): nat { 2 + Total(PortLen, a) }

  function AltListBytes(a: AltList, k: seq<Octet>): seq<Octet> { ListBytes(PortBytes, a, k) }

  function ReadAltList(bs: seq<Octet>): Parsed<AltList> { ReadList(ReadPort, bs) }

  predicate AltListFits(a: AltList) { |a| < 0x1_0000 && forall i :: 0 <= i < |a| ==> PortFits(a[i]) }

  lemma AltListRoundTrip(a: AltList)
    ensures AltListFits(a) ==> Agrees(AltListBytes, ReadAltList, Same, a)
    ensures Measures(AltListBytes, AltListLen, true, a)
  {
    forall k ensures AltListFits(a) ==> ReadAltList(AltListBytes(a, k)) == Done(a, k)
             ensures |AltListBytes(a, k)| == AltListLen(a) + |k| {
      forall i | 0 <= i < |a|
        ensures PortFits(a[i]) ==> Agrees(PortBytes, ReadPort, Same, a[i])
        ensures Measures(PortBytes, PortLen, Always(a[i]), a[i]) {
        PortRoundTrip(a[i]);
      }
      ListLength(PortBytes, PortLen, Always, a, k);
      if AltListFits(a) {
        CountedRoundTrip(PortBytes, ReadPort, Same, a, k);
        assert Seen(Same, a) == a;
      }
    }
  }

  datatype PffEntry = PffEntry(fwdInfo: nat, qosId: nat, cost: nat, alts: seq<AltList>)

  function PffEntryLen(e: PffEntry): nat { 4 + 2 + 2 + 4 + Total(AltListLen, e.alts) }

  function PffEntryBytes(e: PffEntry, k: seq<Octet>): seq<Octet> {
    NumBytes(e.fwdInfo, 4, NumBytes(e.qosId, 2, NumBytes(e.cost, 4, ListBytes(AltListBytes, e.alts, k))))
  }

  function ReadPffEntry(bs: seq<Octet>): Parsed<PffEntry> {
    match ReadNum(4, bs)
    case Cut => Cut
    case Done(f, r) =>
      match ReadNum(2, r)
      case Cut => Cut
      case Done(q, r2) =>
        match ReadNum(4, r2)
        case Cut => Cut
        case Done(c, r3) =>
          match ReadList(ReadAltList, r3)
          case Cut => Cut
          case Done(a, r4) => Done(PffEntry(f, q, c, a), r4)
  }

  predicate PffEntryFits(e: PffEntry) {
    && e.fwdInfo < TWO32 && e.qosId < 0x1_0000 && e.cost < TWO32
    && |e.alts| < 0x1_0000 && forall i :: 0 <= i < |e.alts| ==> AltListFits(e.alts[i])
  }

  lemma AltsRoundTrip(alts: seq<AltList>, k: seq<Octet>)
    ensures |ListBytes(AltListBytes, alts, k)| == 2 + Total(AltListLen, alts) + |k|
    ensures |alts| < 0x1_0000 && (forall i :: 0 <= i < |alts| ==> AltListFits(alts[i])) ==>
              ReadList(ReadAltList, ListBytes(AltListBytes, alts, k)) == Done(alts, k)
  {
    forall i | 0 <= i < |alts|
      ensures AltListFits(alts[i]) ==> Agrees(AltListBytes, ReadAltList, Same, alts[i])
      ensures Measures(AltListBytes, AltListLen, Always(alts[i]), alts[i]) {
      AltListRoundTrip(alts[i]);
    }
    ListLength(AltListBytes, AltListLen, Always, alts, k);
    if |alts| < 0x1_0000 && (forall i :: 0 <= i < |alts| ==> AltListFits(alts[i])) {
      CountedRoundTrip(AltListBytes, ReadAltList, Same, alts, k);
      assert Seen(Same, alts) == alts;
    }
  }

  lemma PffEntryRoundTrip(e: PffEntry)
    ensures PffEntryFits(e) ==> Agrees(PffEntryBytes, ReadPffEntry, Same, e)
    ensures Measures(PffEntryBytes, PffEntryLen, true, e)
  {
    forall k ensures PffEntryFits(e) ==> ReadPffEntry(PffEntryBytes(e, k)) == Done(e, k)
             ensures |PffEntryBytes(e, k)| == PffEntryLen(e) + |k| {
      Widths();
      AltsRoundTrip(e.alts, k);
      var k1 := ListBytes(AltListBytes, e.alts, k);
      if PffEntryFits(e) {
        NumRoundTrip(e.cost, 4, k1);
        NumRoundTrip(e.qosId, 2, NumBytes(e.cost, 4, k1));
        NumRoundTrip(e.fwdInfo, 4, NumBytes(e.qosId, 2, NumBytes(e.cost, 4, k1)));
      }
    }
  }

  type PffList = seq<PffEntry>

  function PffListLen(l: PffList): nat { 2 + Total(PffEntryLen, l) }

  function PffListBytes(l: PffList, k: seq<Octet>): seq<Octet> { ListBytes(PffEntryBytes, l, k) }

  function ReadPffList(bs: seq<Octet>): Parsed<PffList> { ReadList(ReadPffEntry, bs) }

  predicate PffListFits(l: PffList) { |l| < 0x1_0000 && forall i :: 0 <= i < |l| ==> PffEntryFits(l[i]) }

  lemma PffListRoundTrip(l: PffList)
    ensures PffListFits(l) ==> Agrees(PffListBytes, ReadPffList, Same, l)
    ensures Measures(PffListBytes, PffListLen, true, l)
  {
    forall k ensures PffListFits(l) ==> ReadPffList(PffListBytes(l, k)) == Done(l, k)
             ensures |PffListBytes(l, k)| == PffListLen(l) + |k| {
      forall i | 0 <= i < |l|
        ensures PffEntryFits(l[i]) ==> Agrees(PffEntryBytes, ReadPffEntry, Same, l[i])
        ensures Measures(PffEntryBytes, PffEntryLen, Always(l[i]), l[i]) {
        PffEntryRoundTrip(l[i]);
      }
      ListLength(PffEntryBytes, PffEntryLen, Always, l, k);
      if PffListFits(l) {
        CountedRoundTrip(PffEntryBytes, ReadPffEntry, Same, l, k);
        assert Seen(Same, l) == l;
      }
    }
  }
}
