/**
 Data units: a header is pushed in front of the payload, formatted, and taken off again at the other
 end, where padding that lower layers left behind the payload is cut off with the help of the length field.
 */
module DuCodec {
  import opened EfcpTypes
  import opened PciLayout
  import opened PciAccess

  function Code(t: PduType): Octet {
    match t
    case DT => 0x80
    case MGMT => 0x40
    case FC => 0xC4
    case ACK => 0xC1
    case ACK_AND_FC => 0xC5
    case CACK => 0xC0
    case RENDEZVOUS => 0xCF
  }

  /** Codes of unknown types, and of those for which no header size is defined, are refused. */
  function TypeOf(code: nat): (t: Option<PduType>)
    ensures t.Some? ==> Code(t.value) == code
  {
    if code == 0x80 then Some(DT)
    else if code == 0x40 then Some(MGMT)
    else if code == 0xC4 then Some(FC)
    else if code == 0xC1 then Some(ACK)
    else if code == 0xC5 then Some(ACK_AND_FC)
    else if code == 0xC0 then Some(CACK)
    else if code == 0xCF then Some(RENDEZVOUS)
    else None
  }

  lemma TypeOfCode(t: PduType)
    ensures TypeOf(Code(t)) == Some(t)
  {
  }

  /** The codes of control PDUs are bits on top of 0xC0: one for those that acknowledge, one for those that control the flow. */
  lemma CodesByBits(t: PduType)
    ensures Code(t) < 0xC0 <==> IsData(t)
    ensures !IsData(t) && !t.RENDEZVOUS? ==>
              Code(t) == 0xC0 + (if AckSn in Fields(t) then 0x01 else 0) + (if NewRwe in Fields(t) && !t.CACK? then 0x04 else 0)
  {
    assert Fields(ACK)[10] == Fields(ACK_AND_FC)[10] == AckSn && Fields(FC)[10] == Fields(ACK_AND_FC)[13] == NewRwe;
  }

  // ---------------------------------------------------------------- formatting

  /** Where each field is. */
  type Slots = map<Attr, Slot>

  datatype Assign = Assign(attr: Attr, value: nat)

  /** Fields that are inside a header of `size` bytes and do not overlap. */
  ghost predicate Tidy(m: Slots, size: nat) {
    && (forall a :: a in m ==> m[a].Within(size))
    && (forall a, b :: a in m && b in m && a != b ==> m[a].Apart(m[b]))
  }

  ghost predicate Known(m: Slots, xs: seq<Assign>, n: nat) {
    forall i :: 0 <= i < |xs| ==> xs[i].attr in m && m[xs[i].attr].Usable(n)
  }

  function SetOne(m: Slots, h: seq<Octet>, x: Assign): (h': seq<Octet>)
    requires x.attr in m && m[x.attr].Usable(|h|)
    ensures |h'| == |h|
  {
    Stored(h, m[x.attr], x.value)
  }

  /** One setter after the other. */
  function SetAll(m: Slots, h: seq<Octet>, xs: seq<Assign>): (h': seq<Octet>)
    requires Known(m, xs, |h|)
    ensures |h'| == |h|
    decreases |xs|
  {
    if xs == [] then h else SetOne(m, SetAll(m, h, xs[..|xs| - 1]), xs[|xs| - 1])
  }

  ghost predicate Fitting(m: Slots, xs: seq<Assign>) {
    forall i :: 0 <= i < |xs| ==> xs[i].attr in m && xs[i].value < Pow256(m[xs[i].attr].width)
  }

  ghost predicate Different(xs: seq<Assign>) {
    forall i, j :: 0 <= i < j < |xs| ==> xs[i].attr != xs[j].attr
  }

  /** What a field reads after it was set to a value that fits: the value, or the failure value if its width is not supported. */
  function ReadBack(s: Slot, v: nat): Option<nat> { if Ok(s.width) then Some(v) else None }

  /** Values that fit, set one after the other in different fields, all read back. */
  lemma {:induction false} SetAllReads(m: Slots, size: nat, h: seq<Octet>, xs: seq<Assign>, i: nat)
    requires Tidy(m, size) && size <= |h| && Known(m, xs, |h|) && Fitting(m, xs) && Different(xs) && i < |xs|
    ensures Load(SetAll(m, h, xs), m[xs[i].attr]) == ReadBack(m[xs[i].attr], xs[i].value)
    decreases |xs|
  {
    var xs', x := xs[..|xs| - 1], xs[|xs| - 1];
    StoreAndLoad(SetAll(m, h, xs'), m[x.attr], m[xs[i].attr], x.value);
    if i < |xs| - 1 {
      SetAllReads(m, size, h, xs', i);
      assert xs[i].attr != x.attr;
    }
  }

  /** Setting fields does not touch what comes behind the header. */
  lemma {:induction false} SetAllKeepsData(m: Slots, size: nat, h: seq<Octet>, xs: seq<Assign>)
    requires Tidy(m, size) && size <= |h| && Known(m, xs, |h|)
    ensures SetAll(m, h, xs)[size..] == h[size..]
    decreases |xs|
  {
    if xs != [] {
      var xs', x := xs[..|xs| - 1], xs[|xs| - 1];
      SetAllKeepsData(m, size, h, xs');
      PutKeepsTail(SetAll(m, h, xs'), m[x.attr], x.value, size);
    }
  }

  lemma PutKeepsTail(h: seq<Octet>, s: Slot, v: nat, n: nat)
    requires s.Within(n) && n <= |h|
    ensures Stored(h, s, v)[n..] == h[n..]
  {
  }

  lemma LoadIgnoresPadding(h: seq<Octet>, pad: seq<Octet>, s: Slot)
    requires s.Usable(|h|)
    ensures Load(h + pad, s) == Load(h, s)
  {
    if Ok(s.width) {
      assert (h + pad)[s.at..s.at + s.width] == h[s.at..s.at + s.width];
    }
  }

  /** The length is set last. */
  function Formatted(m: Slots, h: seq<Octet>, xs: seq<Assign>, length: nat): (h': seq<Octet>)
    requires Known(m, xs, |h|) && Length in m && m[Length].Usable(|h|)
    ensures |h'| == |h|
  {
    SetOne(m, SetAll(m, h, xs), Assign(Length, length))
  }

  lemma FormatReads(m: Slots, size: nat, h: seq<Octet>, xs: seq<Assign>, n: nat, i: nat)
    requires Tidy(m, size) && size <= |h| && Known(m, xs, |h|) && Fitting(m, xs) && Different(xs) && i < |xs|
    requires Length in m && xs[i].attr != Length
    ensures Load(Formatted(m, h, xs, n), m[xs[i].attr]) == ReadBack(m[xs[i].attr], xs[i].value)
  {
    SetAllReads(m, size, h, xs, i);
    var s, o := m[Length], m[xs[i].attr];
    if Ok(s.width) && Ok(o.width) {
      TakeOther(SetAll(m, h, xs), s.at, s.width, n, o.at, o.width);
    }
  }

  /** A length that does not fit is cut to the width of its field. */
  lemma FormatLength(m: Slots, h: seq<Octet>, xs: seq<Assign>, n: nat)
    requires Known(m, xs, |h|) && Length in m && m[Length].Usable(|h|)
    ensures Load(Formatted(m, h, xs, n), m[Length]) == ReadBack(m[Length], Value(Bytes(n, m[Length].width)))
  {
    if Ok(m[Length].width) {
      TakeSame(SetAll(m, h, xs), m[Length].at, m[Length].width, n);
    }
  }

  lemma FormatKeepsData(m: Slots, size: nat, h: seq<Octet>, xs: seq<Assign>, n: nat)
    requires Tidy(m, size) && size <= |h| && Known(m, xs, |h|) && Length in m
    ensures Formatted(m, h, xs, n)[size..] == h[size..]
  {
    SetAllKeepsData(m, size, h, xs);
    PutKeepsTail(SetAll(m, h, xs), m[Length], n, size);
  }

  // ---------------------------------------------------------------- decapsulation

  /**
   Cuts off what is behind `length`, and takes off `size` bytes. A length that could not be read cuts off nothing,
   and taking off more than there is does nothing.
   */
  function Payload(skb: seq<Octet>, length: Option<nat>, size: nat): seq<Octet> {
    var trimmed := if length.Some? && |skb| > length.value then skb[..length.value] else skb;
    if size <= |trimmed| then trimmed[size..] else trimmed
  }

  /** What is left of a PDU with padding behind it, when its length field holds `m`. */
  lemma PayloadIs(pdu: seq<Octet>, pad: seq<Octet>, m: nat, size: nat)
    requires size <= |pdu|
    ensures m == |pdu| ==> Payload(pdu + pad, Some(m), size) == pdu[size..]
    ensures m < |pdu| ==> |Payload(pdu + pad, Some(m), size)| == if size <= m then m - size else m
  {
    if m == |pdu| {
      assert (pdu + pad)[..m] == pdu;
      assert pad == [] ==> pdu + pad == pdu;
    }
  }

  lemma {:induction false} Remainder(v: nat, w: nat) returns (q: nat)
    ensures v == Value(Bytes(v, w)) + q * Pow256(w)
  {
    if w == 0 {
      q := v;
    } else {
      q := Remainder(v / 256, w - 1);
      assert Bytes(v, w)[1..] == Bytes(v / 256, w - 1);
      calc {
        v;
      ==
        v % 256 + 256 * (v / 256);
      ==
        v % 256 + 256 * (Value(Bytes(v / 256, w - 1)) + q * Pow256(w - 1));
      ==
        Value(Bytes(v, w)) + q * (256 * Pow256(w - 1));
      }
    }
  }

  lemma Multiples(q: nat, p: nat)
    requires p >= 256
    ensures q * p == 0 || q * p >= 256
  {
  }

  /** A length that is cut to fewer bytes never hits the length of the payload by accident. */
  lemma CutLength(total: nat, size: nat, w: nat)
    requires 0 < size < 256 && size <= total && w >= 1
    ensures var m := Value(Bytes(total, w));
            if total < Pow256(w) then m == total else m < total && (if size <= m then m - size else m) != total - size
  {
    ValueOfBytes(total, w);
    var q := Remainder(total, w);
    PowPositive(w - 1);
    Multiples(q, Pow256(w));
  }

  /** The total length fits the length field; if that cannot be read, there must be no padding. */
  ghost predicate LengthFits(w: nat, total: nat, pad: seq<Octet>) {
    if Ok(w) then total < Pow256(w) else pad == []
  }

  lemma LengthDecides(pdu: seq<Octet>, pad: seq<Octet>, size: nat, payload: seq<Octet>, w: nat, n: Option<nat>)
    requires |pdu| == size + |payload| && pdu[size..] == payload && 0 < size < 256
    requires n == if Ok(w) then Some(Value(Bytes(|pdu|, w))) else None
    ensures Payload(pdu + pad, n, size) == payload <==> LengthFits(w, |pdu|, pad)
  {
    if Ok(w) {
      CutLength(|pdu|, size, w);
      PayloadIs(pdu, pad, n.value, size);
    } else {
      assert (pdu + pad)[size..] == payload + pad;
      assert |payload + pad| == |payload| + |pad|;
      assert pad == [] ==> payload + pad == payload;
    }
  }

  // ---------------------------------------------------------------- the slots of the source

  /** What the setters of a PDU write, and its getters read. */
  function SlotsOf(d: DtCons, t: PduType, write: bool): Slots {
    map a: Attr | Accessible(t, a) :: SlotOf(d, t, a, write)
  }

  /** With matching widths setters and getters agree on a tidy layout. */
  lemma SlotsAreTidy(d: DtCons, t: PduType)
    requires Matching(d, t)
    ensures SlotsOf(d, t, true) == SlotsOf(d, t, false) && Tidy(SlotsOf(d, t, true), CalculateSize(d, t))
  {
    var m := SlotsOf(d, t, true);
    forall a | a in m ensures m[a] == SlotsOf(d, t, false)[a] && m[a].Within(CalculateSize(d, t)) {
      OneSlot(d, t, a);
    }
    forall a, b | a in m && b in m && a != b ensures m[a].Apart(m[b]) {
      TwoSlots(d, t, a, b);
    }
  }

  lemma OneSlot(d: DtCons, t: PduType, a: Attr)
    requires Matching(d, t) && Accessible(t, a)
    ensures SlotOf(d, t, a, true) == SlotOf(d, t, a, false) && SlotOf(d, t, a, true).Within(CalculateSize(d, t))
  {
    SlotIsPlace(d, t, a, true);
    SlotIsPlace(d, t, a, false);
    PlaceWithin(d, t, Position(t, a));
  }

  lemma TwoSlots(d: DtCons, t: PduType, a: Attr, b: Attr)
    requires Matching(d, t) && Accessible(t, a) && Accessible(t, b) && a != b
    ensures SlotOf(d, t, a, true).Apart(SlotOf(d, t, b, true))
  {
    SlotIsPlace(d, t, a, true);
    SlotIsPlace(d, t, b, true);
    PlacesApart(d, t, Position(t, a), Position(t, b));
  }

  /** Type and length are at the same place in all PDUs, so they can be read before the type is known. */
  function TypeSlot(d: DtCons): Slot { Slot(Offset(d, 6), 1) }

  function LengthSlot(d: DtCons): Slot { Slot(Offset(d, BASE_LEN), d.length) }

  lemma BaseSlots(d: DtCons, t: PduType, write: bool)
    ensures var m := SlotsOf(d, t, write);
            Type in m && Length in m && m[Type] == TypeSlot(d) && m[Length] == LengthSlot(d)
  {
  }

  /** The bytes from the start of the header on, and the payload. */
  datatype Decapped = Decapped(t: PduType, header: seq<Octet>, payload: seq<Octet>)

  ghost predicate HasBase(d: DtCons, n: nat) { TypeSlot(d).Within(n) && LengthSlot(d).Usable(n) }

  function Decap(d: DtCons, skb: seq<Octet>): Option<Decapped>
    requires HasBase(d, |skb|)
  {
    var t := TypeOf(Load(skb, TypeSlot(d)).value);
    if t.None? then None
    else Some(Decapped(t.value, skb, Payload(skb, Load(skb, LengthSlot(d)), CalculateSize(d, t.value))))
  }

  datatype Values = Values(srcCep: nat, dstCep: nat, src: nat, dst: nat, sn: nat, qosId: nat, flags: nat)

  const VERSION: nat := 1

  /** What is set before the length, in the order of the source. */
  function Assigns(t: PduType, v: Values): seq<Assign> {
    [Assign(Version, VERSION), Assign(Type, Code(t)), Assign(DstCep, v.dstCep), Assign(SrcCep, v.srcCep),
     Assign(Dst, v.dst), Assign(Src, v.src), Assign(Sn, v.sn), Assign(QosId, v.qosId), Assign(Flags, v.flags)]
  }

  class DataUnit {
    const cfg: DtCons
    /** From the current start of the data on. */
    var skb: seq<Octet>
    /** From the start of the header on. */
    var pci: seq<Octet>

    constructor (cfg: DtCons, payload: seq<Octet>)
      ensures this.cfg == cfg && skb == payload
    {
      this.cfg, skb, pci := cfg, payload, [];
    }

    /** Makes room in front of the payload; what the new bytes hold is not defined. */
    method Encap(t: PduType, room: seq<Octet>)
      requires |room| == CalculateSize(cfg, t)
      modifies this
      ensures skb == pci == room + old(skb)
    {
      skb := room + skb;
      pci := skb;
    }

    method SetFields(m: Slots, xs: seq<Assign>)
      requires skb == pci && Known(m, xs, |skb|)
      modifies this
      ensures skb == pci == SetAll(m, old(skb), xs)
    {
      for i := 0 to |xs|
        invariant Known(m, xs[..i], |old(skb)|) && skb == pci == SetAll(m, old(skb), xs[..i])
      {
        skb := SetOne(m, skb, xs[i]);
        pci := skb;
        assert xs[..i + 1][..i] == xs[..i];
      }
      assert xs[..|xs|] == xs;
    }

    method Format(t: PduType, v: Values, length: nat)
      requires skb == pci && Known(SlotsOf(cfg, t, true), Assigns(t, v), |skb|) && LengthSlot(cfg).Usable(|skb|)
      modifies this
      ensures Length in SlotsOf(cfg, t, true) && SlotsOf(cfg, t, true)[Length].Usable(|old(skb)|)
      ensures skb == pci == Formatted(SlotsOf(cfg, t, true), old(skb), Assigns(t, v), length)
    {
      var m := SlotsOf(cfg, t, true);
      BaseSlots(cfg, t, true);
      SetFields(m, Assigns(t, v));
      skb := SetOne(m, skb, Assign(Length, length));
      pci := skb;
    }

    method TailGrow(pad: seq<Octet>)
      modifies this
      ensures skb == old(skb) + pad
    {
      skb := skb + pad;
    }

    method TakeHeaderOff() returns (t: Option<PduType>)
      requires HasBase(cfg, |skb|)
      modifies this
      ensures var r := Decap(cfg, old(skb));
              t.Some? == r.Some? && (r.Some? ==> t == Some(r.value.t) && pci == r.value.header && skb == r.value.payload)
    {
      pci := skb;
      t := TypeOf(Load(skb, TypeSlot(cfg)).value);
      if t.Some? {
        var length := Load(skb, LengthSlot(cfg));
        if length.Some? && |skb| > length.value {
          skb := skb[..length.value];
        }
        var size := CalculateSize(cfg, t.value);
        if size <= |skb| {
          skb := skb[size..];
        }
      }
    }
  }

  // ---------------------------------------------------------------- round trip

  /** Values that fit in different fields; the type is among them, and the length is not. */
  ghost predicate Proper(m: Slots, t: PduType, xs: seq<Assign>) {
    && Fitting(m, xs) && Different(xs)
    && (forall i :: 0 <= i < |xs| ==> xs[i].attr != Length)
    && (exists i :: 0 <= i < |xs| && xs[i] == Assign(Type, Code(t)))
  }

  /** The header that the source formats is of this kind. */
  lemma FormatIsProper(m: Slots, t: PduType, v: Values)
    requires Fitting(m, Assigns(t, v))
    ensures Proper(m, t, Assigns(t, v))
  {
    assert Assigns(t, v)[1] == Assign(Type, Code(t));
  }

  /** A formatted PDU with padding behind it. */
  function Arriving(m: Slots, room: seq<Octet>, payload: seq<Octet>, xs: seq<Assign>, pad: seq<Octet>): seq<Octet>
    requires Known(m, xs, |room|) && Length in m && m[Length].Usable(|room|)
  {
    Formatted(m, room + payload, xs, |room| + |payload|) + pad
  }

  lemma ValueArrives(m: Slots, room: seq<Octet>, payload: seq<Octet>, xs: seq<Assign>, pad: seq<Octet>, i: nat)
    requires Tidy(m, |room|) && Length in m && Fitting(m, xs) && Different(xs) && i < |xs| && xs[i].attr != Length
    ensures Load(Arriving(m, room, payload, xs, pad), m[xs[i].attr]) == ReadBack(m[xs[i].attr], xs[i].value)
  {
    FormatReads(m, |room|, room + payload, xs, |room| + |payload|, i);
    LoadIgnoresPadding(Formatted(m, room + payload, xs, |room| + |payload|), pad, m[xs[i].attr]);
  }

  lemma LengthArrives(m: Slots, room: seq<Octet>, payload: seq<Octet>, xs: seq<Assign>, pad: seq<Octet>)
    requires Known(m, xs, |room|) && Length in m && m[Length].Usable(|room|)
    ensures Load(Arriving(m, room, payload, xs, pad), m[Length])
            == Load(Formatted(m, room + payload, xs, |room| + |payload|), m[Length])
  {
    LoadIgnoresPadding(Formatted(m, room + payload, xs, |room| + |payload|), pad, m[Length]);
  }

  /** The payload that the length `n` cuts out of what arrives, if `n` is what the length field holds. */
  lemma ArrivingPayload(m: Slots, room: seq<Octet>, payload: seq<Octet>, xs: seq<Assign>, pad: seq<Octet>, n: Option<nat>)
    requires Tidy(m, |room|) && Length in m && Known(m, xs, |room|) && 0 < |room| < 256
    requires n == Load(Formatted(m, room + payload, xs, |room| + |payload|), m[Length])
    ensures Payload(Arriving(m, room, payload, xs, pad), n, |room|) == payload
            <==> LengthFits(m[Length].width, |room| + |payload|, pad)
  {
    var pdu := Formatted(m, room + payload, xs, |room| + |payload|);
    FormatLength(m, room + payload, xs, |room| + |payload|);
    FormatKeepsData(m, |room|, room + payload, xs, |room| + |payload|);
    assert (room + payload)[|room|..] == payload;
    LengthDecides(pdu, pad, |room|, payload, m[Length].width, n);
  }

  /** Every field but the time frame of a Rendezvous PDU has accessors. */
  lemma FieldsAccessible(t: PduType, k: nat)
    requires k < |Fields(t)|
    ensures Accessible(t, Fields(t)[k]) || (t.RENDEZVOUS? && Fields(t)[k].TimeFrame?)
  {
    if k < 10 {
      assert Fields(t)[k] == BASE[k];
    } else if t.CACK? || t.RENDEZVOUS? {
      assert Fields(t)[k] == EDGES[k - 10];
    } else if t.ACK_AND_FC? && k > 10 {
      assert Fields(t)[k] == EDGES[k - 11];
    }
  }

  /** All widths of the type are supported, including the one that has no accessor. */
  ghost predicate AllSupported(d: DtCons, t: PduType) { Supported(d, t) && (t.RENDEZVOUS? ==> Ok(d.frame)) }

  lemma {:induction false} StartBound(d: DtCons, t: PduType, k: nat)
    requires k <= |Fields(t)| && AllSupported(d, t)
    ensures Start(d, t, k) <= 4 * k
  {
    if k > 0 {
      StartBound(d, t, k - 1);
      FieldsAccessible(t, k - 1);
      assert Ok(FieldWidth(d, t, Fields(t)[k - 1]));
    }
  }

  /** Supported widths keep every header below 256 bytes. */
  lemma SizeBound(d: DtCons, t: PduType)
    requires AllSupported(d, t)
    ensures CalculateSize(d, t) < 256
  {
    SizeIsLayout(d, t);
    StartBound(d, t, |Fields(t)|);
  }

  lemma SizePositive(d: DtCons, t: PduType)
    ensures 0 < CalculateSize(d, t)
  {
    SizeIsLayout(d, t);
    StartsGrow(d, t, 0, |Fields(t)|);
  }

  lemma DecapOf(d: DtCons, t: PduType, skb: seq<Octet>, n: Option<nat>)
    requires HasBase(d, |skb|) && Load(skb, TypeSlot(d)) == Some(Code(t)) && Load(skb, LengthSlot(d)) == n
    ensures Decap(d, skb) == Some(Decapped(t, skb, Payload(skb, n, CalculateSize(d, t))))
  {
    TypeOfCode(t);
  }

  /**
   Encapsulation round trip, for every configuration of widths that match: whatever the room in front of the
   payload held and whatever padding was put behind it, decapsulation gives back the type and the payload exactly
   if the total length fits the length field or, where that is not supported, there was no padding; and every
   header value of a supported width in any case. Otherwise the payload is a different one.
   */
  lemma EncapRoundTrip(d: DtCons, t: PduType, room: seq<Octet>, payload: seq<Octet>, xs: seq<Assign>, pad: seq<Octet>)
    requires Matching(d, t) && |room| == CalculateSize(d, t) < 256 && Proper(SlotsOf(d, t, true), t, xs)
    ensures Known(SlotsOf(d, t, true), xs, |room|) && Length in SlotsOf(d, t, true) && SlotsOf(d, t, true)[Length].Usable(|room|)
    ensures var skb := Arriving(SlotsOf(d, t, true), room, payload, xs, pad);
            && HasBase(d, |skb|)
            && (Decap(d, skb) == Some(Decapped(t, skb, payload)) <==> LengthFits(d.length, |room| + |payload|, pad))
            && (forall i :: 0 <= i < |xs| ==>
                  Load(skb, SlotsOf(d, t, false)[xs[i].attr]) == ReadBack(SlotsOf(d, t, false)[xs[i].attr], xs[i].value))
  {
    SlotsAreTidy(d, t);
    BaseSlots(d, t, true);
    SizePositive(d, t);
    RoundTripWith(d, SlotsOf(d, t, true), t, room, payload, xs, pad);
  }

  lemma RoundTripWith(
      d: DtCons, m: Slots, t: PduType, room: seq<Octet>, payload: seq<Octet>, xs: seq<Assign>, pad: seq<Octet>)
    requires Tidy(m, |room|) && Proper(m, t, xs) && |room| == CalculateSize(d, t) && 0 < |room| < 256
    requires Type in m && Length in m && m[Type] == TypeSlot(d) && m[Length] == LengthSlot(d)
    ensures var skb := Arriving(m, room, payload, xs, pad);
            && HasBase(d, |skb|)
            && (Decap(d, skb) == Some(Decapped(t, skb, payload)) <==> LengthFits(d.length, |room| + |payload|, pad))
            && (forall i :: 0 <= i < |xs| ==> Load(skb, m[xs[i].attr]) == ReadBack(m[xs[i].attr], xs[i].value))
  {
    var skb := Arriving(m, room, payload, xs, pad);
    forall i | 0 <= i < |xs| ensures Load(skb, m[xs[i].attr]) == ReadBack(m[xs[i].attr], xs[i].value) {
      ValueArrives(m, room, payload, xs, pad, i);
    }
    var i :| 0 <= i < |xs| && xs[i] == Assign(Type, Code(t));
    assert Load(skb, m[xs[i].attr]) == Some(Code(t));
    var n := Load(skb, m[Length]);
    LengthArrives(m, room, payload, xs, pad);
    DecapOf(d, t, skb, n);
    ArrivingPayload(m, room, payload, xs, pad, n);
  }

  /** The getters give the formatted values back. */
  ghost predicate Carries(d: DtCons, t: PduType, skb: seq<Octet>, xs: seq<Assign>) {
    forall i :: 0 <= i < |xs| ==> Reads(d, t, skb, xs[i])
  }

  ghost predicate Reads(d: DtCons, t: PduType, skb: seq<Octet>, x: Assign) {
    Accessible(t, x.attr) && SlotOf(d, t, x.attr, false).Usable(|skb|) && Get(d, t, skb, x.attr) == Some(x.value)
  }

  lemma SupportedSlot(d: DtCons, t: PduType, a: Attr)
    requires Matching(d, t) && Supported(d, t) && Accessible(t, a)
    ensures Ok(SlotOf(d, t, a, false).width)
  {
    SlotIsPlace(d, t, a, false);
  }

  lemma GetterReads(d: DtCons, t: PduType, skb: seq<Octet>, a: Attr, v: nat)
    requires Matching(d, t) && Supported(d, t) && Accessible(t, a) && SlotOf(d, t, a, false).Usable(|skb|)
    requires Load(skb, SlotOf(d, t, a, false)) == ReadBack(SlotOf(d, t, a, false), v)
    ensures Get(d, t, skb, a) == Some(v)
  {
    SupportedSlot(d, t, a);
  }

  /** What one getter sees, in the terms of the slots. */
  lemma SeenBySlot(d: DtCons, t: PduType, a: Attr, n: nat)
    requires Matching(d, t) && a in SlotsOf(d, t, true) && n >= CalculateSize(d, t)
    ensures Accessible(t, a) && SlotOf(d, t, a, false).Usable(n) && SlotsOf(d, t, false)[a] == SlotOf(d, t, a, false)
  {
    AccessorsFit(d, t, a, n);
  }

  lemma OneCarried(d: DtCons, t: PduType, m: Slots, skb: seq<Octet>, x: Assign)
    requires Matching(d, t) && Supported(d, t) && |skb| >= CalculateSize(d, t) && m == SlotsOf(d, t, false)
    requires x.attr in SlotsOf(d, t, true) && x.attr in m && m[x.attr].Usable(|skb|)
    requires Load(skb, m[x.attr]) == ReadBack(m[x.attr], x.value)
    ensures Reads(d, t, skb, x)
  {
    SeenBySlot(d, t, x.attr, |skb|);
    GetterReads(d, t, skb, x.attr, x.value);
  }

  /**
   What the source formats arrives: with supported and matching widths, and values that fit, the getters give
   back every value that was set, and decapsulation the type and the payload exactly if the total length fits.
   */
  lemma FormattedArrives(d: DtCons, t: PduType, room: seq<Octet>, payload: seq<Octet>, v: Values, pad: seq<Octet>)
    requires Matching(d, t) && AllSupported(d, t) && |room| == CalculateSize(d, t)
    requires Fitting(SlotsOf(d, t, true), Assigns(t, v))
    ensures var m := SlotsOf(d, t, true);
            Known(m, Assigns(t, v), |room|) && Length in m && m[Length].Usable(|room|)
    ensures var skb := Arriving(SlotsOf(d, t, true), room, payload, Assigns(t, v), pad);
            && HasBase(d, |skb|) && Carries(d, t, skb, Assigns(t, v))
            && (Decap(d, skb) == Some(Decapped(t, skb, payload)) <==> |room| + |payload| < Pow256(d.length))
  {
    SizeBound(d, t);
    FormatIsProper(SlotsOf(d, t, true), t, v);
    ProperArrives(d, t, room, payload, Assigns(t, v), pad);
  }

  /** What the getter of a field is to give back; the length is not among these. */
  function Meant(t: PduType, v: Values, a: Attr): Option<nat> {
    match a
    case Version => Some(1)
    case Type => Some(Code(t))
    case Dst => Some(v.dst)
    case Src => Some(v.src)
    case DstCep => Some(v.dstCep)
    case SrcCep => Some(v.srcCep)
    case QosId => Some(v.qosId)
    case Flags => Some(v.flags)
    case Sn => Some(v.sn)
    case _ => None
  }

  /** So every getter gives back its own value: destination and source, of addresses and of endpoint ids, are not mixed up. */
  lemma EachArrives(d: DtCons, t: PduType, room: seq<Octet>, payload: seq<Octet>, v: Values, pad: seq<Octet>, a: Attr)
    requires Matching(d, t) && AllSupported(d, t) && |room| == CalculateSize(d, t)
    requires Fitting(SlotsOf(d, t, true), Assigns(t, v)) && Meant(t, v, a).Some?
    ensures var m := SlotsOf(d, t, true);
            Known(m, Assigns(t, v), |room|) && Length in m && m[Length].Usable(|room|)
    ensures Reads(d, t, Arriving(SlotsOf(d, t, true), room, payload, Assigns(t, v), pad), Assign(a, Meant(t, v, a).value))
  {
    FormattedArrives(d, t, room, payload, v, pad);
    MeantAssigned(t, v, a);
  }

  lemma MeantAssigned(t: PduType, v: Values, a: Attr)
    requires Meant(t, v, a).Some?
    ensures exists i :: 0 <= i < |Assigns(t, v)| && Assigns(t, v)[i] == Assign(a, Meant(t, v, a).value)
  {
    var xs := Assigns(t, v);
    assert xs[0].attr == Version && xs[1].attr == Type && xs[2].attr == DstCep && xs[3].attr == SrcCep;
    assert xs[4].attr == Dst && xs[5].attr == Src && xs[6].attr == Sn && xs[7].attr == QosId && xs[8].attr == Flags;
  }

  lemma ProperArrives(d: DtCons, t: PduType, room: seq<Octet>, payload: seq<Octet>, xs: seq<Assign>, pad: seq<Octet>)
    requires Matching(d, t) && Supported(d, t) && |room| == CalculateSize(d, t) < 256 && Proper(SlotsOf(d, t, true), t, xs)
    ensures var m := SlotsOf(d, t, true); Known(m, xs, |room|) && Length in m && m[Length].Usable(|room|)
    ensures var skb := Arriving(SlotsOf(d, t, true), room, payload, xs, pad);
            && HasBase(d, |skb|) && Carries(d, t, skb, xs)
            && (Decap(d, skb) == Some(Decapped(t, skb, payload)) <==> |room| + |payload| < Pow256(d.length))
  {
    EncapRoundTrip(d, t, room, payload, xs, pad);
    SlotsAreTidy(d, t);
    var m := SlotsOf(d, t, false);
    var skb := Arriving(SlotsOf(d, t, true), room, payload, xs, pad);
    forall i | 0 <= i < |xs| ensures Reads(d, t, skb, xs[i]) {
      OneCarried(d, t, m, skb, xs[i]);
    }
    assert Ok(FieldWidth(d, t, Length));
  }
}
