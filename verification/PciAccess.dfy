/**
 The getters and setters of the PCI header, in the host order of a little-endian machine: what each
 reads and writes, and exactly when setting a field reads back and leaves the others alone.
 */
module PciAccess {
  import opened EfcpTypes
  import opened PciLayout

  // ---------------------------------------------------------------- little-endian words

  function Pow256(w: nat): nat { if w == 0 then 1 else 256 * Pow256(w - 1) }

  function Bytes(v: nat, w: nat): (bs: seq<Octet>)
    ensures |bs| == w
  {
    if w == 0 then [] else [v % 256] + Bytes(v / 256, w - 1)
  }

  function Value(bs: seq<Octet>): nat { if bs == [] then 0 else bs[0] + 256 * Value(bs[1..]) }

  /** Little-endian: a byte behind others has the weight of all of them. */
  lemma {:induction false} LastWeighsMost(bs: seq<Octet>, b: Octet)
    ensures Value(bs + [b]) == Value(bs) + b * Pow256(|bs|)
    decreases |bs|
  {
    if bs == [] {
      assert bs + [b] == [b] && [b][1..] == [];
    } else {
      assert (bs + [b])[1..] == bs[1..] + [b];
      LastWeighsMost(bs[1..], b);
      assert 256 * (b * Pow256(|bs| - 1)) == b * (256 * Pow256(|bs| - 1));
    }
  }

  /** A value that fits is recovered; one that does not is cut to the width. */
  lemma {:induction false} ValueOfBytes(v: nat, w: nat)
    ensures Value(Bytes(v, w)) < Pow256(w) && (v < Pow256(w) ==> Value(Bytes(v, w)) == v)
  {
    if w > 0 {
      ValueOfBytes(v / 256, w - 1);
      assert Bytes(v, w)[1..] == Bytes(v / 256, w - 1);
    }
  }

  lemma {:induction false} ZeroBytes(w: nat, i: nat)
    requires i < w
    ensures Bytes(0, w)[i] == 0
  {
    if i > 0 {
      ZeroBytes(w - 1, i - 1);
    }
  }

  lemma {:induction false} NonZero(bs: seq<Octet>, i: nat)
    requires i < |bs| && bs[i] != 0
    ensures Value(bs) > 0
    decreases |bs|
  {
    if i > 0 {
      NonZero(bs[1..], i - 1);
    }
  }

  function Put(h: seq<Octet>, at: nat, w: nat, v: nat): (h': seq<Octet>)
    requires at + w <= |h|
    ensures |h'| == |h|
  {
    seq(|h|, i requires 0 <= i < |h| => if at <= i < at + w then Bytes(v, w)[i - at] else h[i])
  }

  function Take(h: seq<Octet>, at: nat, w: nat): nat
    requires at + w <= |h|
  {
    Value(h[at..at + w])
  }

  lemma TakeSame(h: seq<Octet>, at: nat, w: nat, v: nat)
    requires at + w <= |h|
    ensures Take(Put(h, at, w, v), at, w) == Value(Bytes(v, w))
  {
    assert Put(h, at, w, v)[at..at + w] == Bytes(v, w);
  }

  lemma TakeOther(h: seq<Octet>, at: nat, w: nat, v: nat, at': nat, w': nat)
    requires at + w <= |h| && at' + w' <= |h| && (at + w <= at' || at' + w' <= at)
    ensures Take(Put(h, at, w, v), at', w') == Take(h, at', w')
  {
    assert Put(h, at, w, v)[at'..at' + w'] == h[at'..at' + w'];
  }

  // ---------------------------------------------------------------- slots

  /** A run of bytes in the header. */
  datatype Slot = Slot(at: nat, width: nat)
  {
    ghost predicate Within(n: nat) { at + width <= n }

    /** An access with a width that is not supported touches nothing. */
    ghost predicate Usable(n: nat) { Ok(width) ==> Within(n) }

    ghost predicate Apart(s: Slot) { at + width <= s.at || s.at + s.width <= at }
  }

  /** What a getter returns; a width that is not supported gives the failure value. */
  function Load(h: seq<Octet>, s: Slot): Option<nat>
    requires s.Usable(|h|)
  {
    if Ok(s.width) then Some(Take(h, s.at, s.width)) else None
  }

  /** What a setter leaves; with a width that is not supported it stores nothing. */
  function Stored(h: seq<Octet>, s: Slot, v: nat): (h': seq<Octet>)
    requires s.Usable(|h|)
    ensures |h'| == |h|
  {
    if Ok(s.width) then Put(h, s.at, s.width, v) else h
  }

  /** A setter's store: one, two or four bytes in place; a width that is not supported stores nothing. */
  method Store(h: array<Octet>, at: nat, w: nat, v: nat)
    requires Slot(at, w).Usable(h.Length)
    modifies h
    ensures h[..] == Stored(old(h[..]), Slot(at, w), v)
  {
    ghost var before := h[..];
    if w == 1 {
      h[at] := v % 256;
      assert Bytes(v, 1) == [v % 256];
    } else if w == 2 {
      h[at], h[at + 1] := v % 256, v / 256 % 256;
      assert Bytes(v, 2) == [v % 256] + Bytes(v / 256, 1) == [v % 256, v / 256 % 256];
    } else if w == 4 {
      h[at], h[at + 1], h[at + 2], h[at + 3] := v % 256, v / 256 % 256, v / 256 / 256 % 256, v / 256 / 256 / 256 % 256;
      FourBytes(v);
    }
    if Ok(w) {
      assert h[..] == Put(before, at, w, v);
    }
  }

  lemma FourBytes(v: nat)
    ensures Bytes(v, 4) == [v % 256, v / 256 % 256, v / 256 / 256 % 256, v / 256 / 256 / 256 % 256]
  {
    assert Bytes(v, 4) == [v % 256] + Bytes(v / 256, 3);
    assert Bytes(v / 256, 3) == [v / 256 % 256] + Bytes(v / 256 / 256, 2);
    assert Bytes(v / 256 / 256, 2) == [v / 256 / 256 % 256] + Bytes(v / 256 / 256 / 256, 1);
    assert Bytes(v / 256 / 256 / 256, 1) == [v / 256 / 256 / 256 % 256];
  }

  // ---------------------------------------------------------------- which entry and width an accessor uses

  /** The entries of the fields that only some PDUs have; a Rendezvous PDU is read as a control ack. */
  function OwnIndex(t: PduType, a: Attr): Option<nat> {
    if t.ACK? then (if a.AckSn? then Some(26) else None)
    else if t.FC? then
      match a
      case NewRwe => Some(12)
      case MyLwe => Some(13)
      case MyRwe => Some(14)
      case SndrRate => Some(15)
      case TimeFrame => Some(16)
      case _ => None
    else if t.ACK_AND_FC? then
      match a
      case AckSn => Some(28)
      case LastCsn => Some(29)
      case NewLwe => Some(30)
      case NewRwe => Some(31)
      case MyLwe => Some(32)
      case MyRwe => Some(33)
      case SndrRate => Some(34)
      case TimeFrame => Some(35)
      case _ => None
    else if t.CACK? || t.RENDEZVOUS? then
      match a
      case LastCsn => Some(18)
      case NewLwe => Some(19)
      case NewRwe => Some(20)
      case MyLwe => Some(21)
      case MyRwe => Some(22)
      case SndrRate => Some(23)
      case TimeFrame => if t.CACK? then Some(24) else None
      case _ => None
    else None
  }

  function BaseIndex(a: Attr): Option<nat> {
    match a
    case Version => Some(0)
    case Dst => Some(1)
    case Src => Some(2)
    case QosId => Some(3)
    case DstCep => Some(4)
    case SrcCep => Some(5)
    case Type => Some(6)
    case Flags => Some(7)
    case Length => Some(8)
    case _ => None
  }

  /** The setter of the sequence number uses the data entry and width whatever the type; the getter does not. */
  function Index(t: PduType, a: Attr, write: bool): Option<nat> {
    if a.Sn? then Some(if write || IsData(t) then DT_MGMT_SN else CTRL_SN)
    else if BaseIndex(a).Some? then BaseIndex(a)
    else OwnIndex(t, a)
  }

  /** The accessors of the last control sequence number received use the data width as well. */
  function AccessWidth(d: DtCons, t: PduType, a: Attr, write: bool): nat {
    if a.Sn? then (if write || IsData(t) then d.seqNum else d.ctrlSeqNum)
    else if a.LastCsn? then d.seqNum
    else FieldWidth(d, t, a)
  }

  predicate Accessible(t: PduType, a: Attr) { Index(t, a, false).Some? }

  function SlotOf(d: DtCons, t: PduType, a: Attr, write: bool): Slot
    requires Accessible(t, a)
  {
    Slot(Offset(d, Index(t, a, write).value), AccessWidth(d, t, a, write))
  }

  function Get(d: DtCons, t: PduType, h: seq<Octet>, a: Attr): Option<nat>
    requires Accessible(t, a) && SlotOf(d, t, a, false).Usable(|h|)
  {
    Load(h, SlotOf(d, t, a, false))
  }

  function Set(d: DtCons, t: PduType, h: seq<Octet>, a: Attr, v: nat): (h': seq<Octet>)
    requires Accessible(t, a) && SlotOf(d, t, a, true).Usable(|h|)
    ensures |h'| == |h|
  {
    Stored(h, SlotOf(d, t, a, true), v)
  }

  // ---------------------------------------------------------------- accessors against the layout

  /** The place that the layout means for field number `k`. */
  function Place(d: DtCons, t: PduType, k: nat): Slot
    requires k < |Fields(t)|
  {
    Slot(Start(d, t, k), FieldWidth(d, t, Fields(t)[k]))
  }

  lemma PlacesApart(d: DtCons, t: PduType, j: nat, k: nat)
    requires j < |Fields(t)| && k < |Fields(t)| && j != k
    ensures Place(d, t, j).Apart(Place(d, t, k))
  {
    if j < k {
      StartsGrow(d, t, j, k);
    } else {
      StartsGrow(d, t, k, j);
    }
  }

  lemma PlaceWithin(d: DtCons, t: PduType, k: nat)
    requires k < |Fields(t)|
    ensures Place(d, t, k).Within(CalculateSize(d, t))
  {
    SizeIsLayout(d, t);
    StartsGrow(d, t, k, |Fields(t)|);
  }

  /** The position in the layout of an attribute that has accessors. */
  function Position(t: PduType, a: Attr): nat
    requires Accessible(t, a)
  {
    if a.Sn? then 9
    else if BaseIndex(a).Some? then BaseIndex(a).value
    else 10 + OwnIndex(t, a).value - GroupStart(if t.RENDEZVOUS? then CACK else t)
  }

  lemma PositionIs(t: PduType, a: Attr)
    requires Accessible(t, a)
    ensures var k := Position(t, a); k < |Fields(t)| && Fields(t)[k] == a
  {
    var k := Position(t, a);
    if k < 10 {
      assert Fields(t)[k] == BASE[k];
    } else if t.CACK? || t.RENDEZVOUS? {
      assert Fields(t)[k] == EDGES[k - 10];
    } else if t.ACK_AND_FC? && k > 10 {
      assert Fields(t)[k] == EDGES[k - 11];
    }
  }

  /** Every accessor starts at the place that the layout means. */
  lemma AccessorsStart(d: DtCons, t: PduType, a: Attr, write: bool)
    requires Accessible(t, a)
    ensures var k := Position(t, a);
            k < |Fields(t)| && Fields(t)[k] == a && SlotOf(d, t, a, write).at == Start(d, t, k)
  {
    var k := Position(t, a);
    PositionIs(t, a);
    TableIsLayout(d, t, k);
    if a.Sn? {
      SequenceNumbersShareOffset(d);
    } else {
      IndexIsEntry(t, a, write);
      if t.RENDEZVOUS? {
        RendezvousIsCack(d, k);
      }
    }
  }

  /** Of all but the sequence number, the table entry that an accessor uses; a Rendezvous PDU is read as a control ack. */
  lemma IndexIsEntry(t: PduType, a: Attr, write: bool)
    requires Accessible(t, a) && !a.Sn?
    ensures Index(t, a, write) == Some(Entry(if t.RENDEZVOUS? then CACK else t, Position(t, a)))
  {
  }

  /** Data and control sequence numbers are equally wide, or the PDU has no control sequence number. */
  ghost predicate Matching(d: DtCons, t: PduType) { IsData(t) || d.seqNum == d.ctrlSeqNum }

  lemma SlotIsPlace(d: DtCons, t: PduType, a: Attr, write: bool)
    requires Matching(d, t) && Accessible(t, a)
    ensures var k := Position(t, a);
            k < |Fields(t)| && Fields(t)[k] == a && SlotOf(d, t, a, write) == Place(d, t, k)
  {
    AccessorsStart(d, t, a, write);
  }

  /** What storing in `s` does to what is read from it, and from another slot. */
  lemma StoreAndLoad(h: seq<Octet>, s: Slot, other: Slot, v: nat)
    requires s.Usable(|h|) && other.Usable(|h|) && v < Pow256(s.width)
    ensures Load(Stored(h, s, v), s) == if Ok(s.width) then Some(v) else None
    ensures s.Apart(other) ==> Load(Stored(h, s, v), other) == Load(h, other)
  {
    if Ok(s.width) {
      TakeSame(h, s.at, s.width, v);
      ValueOfBytes(v, s.width);
      if s.Apart(other) && Ok(other.width) {
        TakeOther(h, s.at, s.width, v, other.at, other.width);
      }
    }
  }

  /** Storing a value of at most `width` bytes in `ws` reads back from `rs`, and leaves a different field in `other` as it was. */
  ghost predicate SlotsRespect(h: seq<Octet>, ws: Slot, rs: Slot, other: Slot, width: nat, same: bool, v: nat) {
    ws.Usable(|h|) && rs.Usable(|h|) && other.Usable(|h|) && v < Pow256(width) ==>
      var h' := Stored(h, ws, v);
      Load(h', rs) == Some(v) && (!same ==> Load(h', other) == Load(h, other))
  }

  lemma EqualSlotsRespect(h: seq<Octet>, s: Slot, other: Slot, same: bool, v: nat)
    requires Ok(s.width) && (!same ==> s.Apart(other))
    ensures SlotsRespect(h, s, s, other, s.width, same, v)
  {
    if s.Usable(|h|) && other.Usable(|h|) && v < Pow256(s.width) {
      StoreAndLoad(h, s, other, v);
    }
  }

  /** The header is long enough for the accessors of `a` and the getter of `b`. */
  ghost predicate LongEnough(d: DtCons, t: PduType, n: nat, a: Attr, b: Attr)
    requires Accessible(t, a) && Accessible(t, b)
  {
    SlotOf(d, t, a, true).Usable(n) && SlotOf(d, t, a, false).Usable(n) && SlotOf(d, t, b, false).Usable(n)
  }

  /** Setting `a` to a value that fits the field reads back, and leaves `b` as it was. */
  ghost predicate Respects(d: DtCons, t: PduType, h: seq<Octet>, a: Attr, b: Attr, v: nat) {
    Accessible(t, a) && Accessible(t, b) && LongEnough(d, t, |h|, a, b) && v < Pow256(FieldWidth(d, t, a)) ==>
      var h' := Set(d, t, h, a, v);
      Get(d, t, h', a) == Some(v) && (a != b ==> Get(d, t, h', b) == Get(d, t, h, b))
  }

  lemma SetIs(d: DtCons, t: PduType, h: seq<Octet>, a: Attr, v: nat, ws: Slot)
    requires Accessible(t, a) && SlotOf(d, t, a, true) == ws && ws.Usable(|h|)
    ensures Set(d, t, h, a, v) == Stored(h, ws, v)
  {
  }

  lemma GetIs(d: DtCons, t: PduType, h: seq<Octet>, a: Attr, rs: Slot)
    requires Accessible(t, a) && SlotOf(d, t, a, false) == rs && rs.Usable(|h|)
    ensures Get(d, t, h, a) == Load(h, rs)
  {
  }

  /** The accessors do what their slots say. */
  lemma RespectsFrom(d: DtCons, t: PduType, h: seq<Octet>, a: Attr, b: Attr, v: nat, ws: Slot, rs: Slot, other: Slot)
    requires Accessible(t, a) && Accessible(t, b)
    requires SlotOf(d, t, a, true) == ws && SlotOf(d, t, a, false) == rs && SlotOf(d, t, b, false) == other
    requires SlotsRespect(h, ws, rs, other, FieldWidth(d, t, a), a == b, v)
    ensures Respects(d, t, h, a, b, v)
  {
    if LongEnough(d, t, |h|, a, b) && v < Pow256(FieldWidth(d, t, a)) {
      SetIs(d, t, h, a, v, ws);
      GetIs(d, t, Stored(h, ws, v), a, rs);
      GetIs(d, t, Stored(h, ws, v), b, other);
      GetIs(d, t, h, b, other);
    }
  }

  lemma RespectsOnly(d: DtCons, t: PduType, h: seq<Octet>, a: Attr, b: Attr, v: nat, ws: Slot, rs: Slot, other: Slot)
    requires Accessible(t, a) && Accessible(t, b)
    requires SlotOf(d, t, a, true) == ws && SlotOf(d, t, a, false) == rs && SlotOf(d, t, b, false) == other
    requires Respects(d, t, h, a, b, v)
    ensures SlotsRespect(h, ws, rs, other, FieldWidth(d, t, a), a == b, v)
  {
    if ws.Usable(|h|) && rs.Usable(|h|) && other.Usable(|h|) && v < Pow256(FieldWidth(d, t, a)) {
      assert LongEnough(d, t, |h|, a, b);
      SetIs(d, t, h, a, v, ws);
      GetIs(d, t, Stored(h, ws, v), a, rs);
      GetIs(d, t, Stored(h, ws, v), b, other);
      GetIs(d, t, h, b, other);
    }
  }

  /** Every field of the type that has accessors is configured with a width that they support. */
  ghost predicate Supported(d: DtCons, t: PduType) { forall a :: Accessible(t, a) ==> Ok(FieldWidth(d, t, a)) }

  lemma AccessorsRespect(d: DtCons, t: PduType, h: seq<Octet>, a: Attr, b: Attr, v: nat)
    requires Matching(d, t) && Supported(d, t)
    ensures Respects(d, t, h, a, b, v)
  {
    if Accessible(t, a) && Accessible(t, b) {
      SlotIsPlace(d, t, a, true);
      SlotIsPlace(d, t, a, false);
      SlotIsPlace(d, t, b, false);
      var j, k := Position(t, a), Position(t, b);
      PlacesRespect(d, t, h, j, k, v);
      RespectsFrom(d, t, h, a, b, v, Place(d, t, j), Place(d, t, j), Place(d, t, k));
    }
  }

  lemma PlacesRespect(d: DtCons, t: PduType, h: seq<Octet>, j: nat, k: nat, v: nat)
    requires j < |Fields(t)| && k < |Fields(t)| && Ok(Place(d, t, j).width)
    ensures SlotsRespect(h, Place(d, t, j), Place(d, t, j), Place(d, t, k), Place(d, t, j).width, Fields(t)[j] == Fields(t)[k], v)
  {
    if j != k {
      PlacesApart(d, t, j, k);
    }
    EqualSlotsRespect(h, Place(d, t, j), Place(d, t, k), Fields(t)[j] == Fields(t)[k], v);
  }

  /** With matching widths every field can be accessed in a header of the calculated size. */
  lemma AccessorsFit(d: DtCons, t: PduType, a: Attr, n: nat)
    requires Matching(d, t) && Accessible(t, a) && n >= CalculateSize(d, t)
    ensures SlotOf(d, t, a, true).Within(n) && SlotOf(d, t, a, false).Within(n)
  {
    SlotIsPlace(d, t, a, true);
    SlotIsPlace(d, t, a, false);
    PlaceWithin(d, t, Position(t, a));
  }

  /** A header full of ones, with user data behind it. */
  function Ones(n: nat): (h: seq<Octet>)
    ensures |h| == n && forall i :: 0 <= i < n ==> h[i] == 255
  {
    seq(n, _ => 255)
  }

  lemma OverOnes(n: nat, at: nat, w: nat, i: nat)
    requires at + w <= n && i < n
    ensures Put(Ones(n), at, w, 0)[i] == if at <= i < at + w then 0 else 255
  {
    if at <= i < at + w {
      ZeroBytes(w, i - at);
    }
  }

  function NextAttr(t: PduType): Attr
    requires !IsData(t)
  {
    match t
    case FC => NewRwe
    case ACK => AckSn
    case ACK_AND_FC => AckSn
    case CACK => LastCsn
    case RENDEZVOUS => LastCsn
  }

  lemma FirstByte(bs: seq<Octet>)
    requires bs != []
    ensures Value(bs) % 256 == bs[0]
  {
  }

  /** The sequence number of a control PDU and the field after it. */
  lemma ControlSlots(d: DtCons, t: PduType) returns (at: nat)
    requires !IsData(t)
    ensures Accessible(t, NextAttr(t)) && NextAttr(t) != Sn
    ensures SlotOf(d, t, Sn, true) == Slot(at, d.seqNum) && SlotOf(d, t, Sn, false) == Slot(at, d.ctrlSeqNum)
    ensures SlotOf(d, t, NextAttr(t), false) == Slot(at + d.ctrlSeqNum, d.seqNum)
  {
    at := Start(d, t, 9);
    AccessorsStart(d, t, Sn, true);
    AccessorsStart(d, t, Sn, false);
    AccessorsStart(d, t, NextAttr(t), false);
    assert Start(d, t, 10) == Start(d, t, 9) + FieldWidth(d, t, Fields(t)[9]);
  }

  /** Clearing one slot and reading back a narrower or a wider one that starts at the same byte. */
  lemma ClearedOnes(n: nat, ws: Slot, rs: Slot, next: Slot)
    requires ws.Within(n) && rs.Within(n) && next.Within(n) && ws.at == rs.at && next.at == rs.at + rs.width
    requires ws.width != rs.width && Ok(ws.width) && Ok(rs.width) && Ok(next.width)
    ensures !SlotsRespect(Ones(n), ws, rs, next, rs.width, false, 0)
  {
    PowPositive(rs.width);
    var h, h' := Ones(n), Put(Ones(n), ws.at, ws.width, 0);
    if ws.width < rs.width {
      OverOnes(n, ws.at, ws.width, ws.at + ws.width);
      NonZero(h'[rs.at..rs.at + rs.width], ws.width);
    } else {
      OverOnes(n, ws.at, ws.width, next.at);
      FirstByte(h'[next.at..next.at + next.width]);
      FirstByte(h[next.at..next.at + next.width]);
    }
  }

  /** With different widths, clearing the sequence number of a control PDU clears too little or too much. */
  lemma MismatchFails(d: DtCons, t: PduType) returns (h: seq<Octet>)
    requires Ok(d.seqNum) && Ok(d.ctrlSeqNum) && !Matching(d, t)
    ensures !Respects(d, t, h, Sn, NextAttr(t), 0)
  {
    var at := ControlSlots(d, t);
    h := Ones(at + d.ctrlSeqNum + d.seqNum);
    var ws, rs, next := Slot(at, d.seqNum), Slot(at, d.ctrlSeqNum), Slot(at + d.ctrlSeqNum, d.seqNum);
    ClearedOnes(at + d.ctrlSeqNum + d.seqNum, ws, rs, next);
    if Respects(d, t, h, Sn, NextAttr(t), 0) {
      RespectsOnly(d, t, h, Sn, NextAttr(t), 0, ws, rs, next);
    }
  }

  /** A field that is read with a width that is not supported never reads back. */
  lemma UnsupportedFails(d: DtCons, t: PduType, a: Attr) returns (h: seq<Octet>)
    requires Accessible(t, a) && !Ok(AccessWidth(d, t, a, false))
    ensures !Respects(d, t, h, a, a, 0)
  {
    var ws, rs := SlotOf(d, t, a, true), SlotOf(d, t, a, false);
    h := Ones(ws.at + ws.width);
    PowPositive(FieldWidth(d, t, a));
    if Respects(d, t, h, a, a, 0) {
      RespectsOnly(d, t, h, a, a, 0, ws, rs, rs);
    }
  }

  /** The last control sequence number is read with the data width; the control sequence number then fails in its place. */
  lemma UnsupportedRead(d: DtCons, t: PduType, a: Attr) returns (a': Attr)
    requires Accessible(t, a) && !Ok(FieldWidth(d, t, a))
    ensures Accessible(t, a') && !Ok(AccessWidth(d, t, a', false))
  {
    a' := if a.LastCsn? then Sn else a;
  }

  /** A control PDU has a field as wide as the data sequence number. */
  lemma ControlWidths(d: DtCons, t: PduType)
    requires Supported(d, t) && !IsData(t)
    ensures Ok(d.seqNum) && Ok(d.ctrlSeqNum)
  {
    var a := if t.ACK? then AckSn else NewRwe;
    assert Accessible(t, a) && FieldWidth(d, t, a) == d.seqNum;
    assert Accessible(t, Sn) && FieldWidth(d, t, Sn) == d.ctrlSeqNum;
  }

  lemma {:induction false} PowPositive(w: nat)
    ensures Pow256(w) > 0
  {
    if w > 0 {
      PowPositive(w - 1);
    }
  }

  ghost predicate AlwaysRespects(d: DtCons, t: PduType) { forall h, a, b, v :: Respects(d, t, h, a, b, v) }

  lemma UnfitFails(d: DtCons, t: PduType)
    requires !(Matching(d, t) && Supported(d, t))
    ensures !AlwaysRespects(d, t)
  {
    if Supported(d, t) {
      ControlWidths(d, t);
      var h := MismatchFails(d, t);
      assert !Respects(d, t, h, Sn, NextAttr(t), 0);
    } else {
      var a :| Accessible(t, a) && !Ok(FieldWidth(d, t, a));
      var a' := UnsupportedRead(d, t, a);
      var h := UnsupportedFails(d, t, a');
      assert !Respects(d, t, h, a', a', 0);
    }
  }

  /**
   The getters and setters respect the layout of a type of PDU, for all headers, fields and values, exactly if
   every width in use is supported, and it is a data PDU or the control sequence number is configured as wide
   as the data sequence number.
   */
  lemma RespectIffMatching(d: DtCons, t: PduType)
    ensures AlwaysRespects(d, t) <==> Matching(d, t) && Supported(d, t)
  {
    if Matching(d, t) && Supported(d, t) {
      forall h, a, b, v: nat ensures Respects(d, t, h, a, b, v) {
        AccessorsRespect(d, t, h, a, b, v);
      }
    } else {
      UnfitFails(d, t);
    }
  }
}
