/**
 The protocol control information (PCI) header: a table of field offsets is computed once from the
 configured field widths, and getters and setters go through it. The module says what the table must
 be, proves that the loop computes it, and says exactly when the accessors respect it.
 */
module PciLayout {
  import opened EfcpTypes

  /** Field widths in bytes. */
  datatype DtCons = DtCons(
    address: nat, qosId: nat, cepId: nat, length: nat, seqNum: nat, ctrlSeqNum: nat, rate: nat, frame: nat)

  /** The widths that the accessors support, one, two and four; with any other a getter fails and a setter does nothing. */
  predicate Ok(width: nat) { 1 <= width <= 4 && width != 3 }

  datatype PduType = DT | MGMT | FC | ACK | ACK_AND_FC | CACK | RENDEZVOUS

  datatype Attr =
    | Version | Dst | Src | QosId | DstCep | SrcCep | Type | Flags | Length | Sn
    | AckSn | LastCsn | NewLwe | NewRwe | MyLwe | MyRwe | SndrRate | TimeFrame

  predicate IsData(t: PduType) { t.DT? || t.MGMT? }

  // ---------------------------------------------------------------- the layout that is meant

  const BASE := [Version, Dst, Src, QosId, DstCep, SrcCep, Type, Flags, Length, Sn]
  const EDGES := [LastCsn, NewLwe, NewRwe, MyLwe, MyRwe, SndrRate, TimeFrame]

  /** The fields of each type of PDU, in order. */
  function Fields(t: PduType): seq<Attr> {
    match t
    case DT => BASE
    case MGMT => BASE
    case FC => BASE + [NewRwe, MyLwe, MyRwe, SndrRate, TimeFrame]
    case ACK => BASE + [AckSn]
    case ACK_AND_FC => BASE + [AckSn] + EDGES
    case CACK => BASE + EDGES
    case RENDEZVOUS => BASE + EDGES
  }

  function FieldWidth(d: DtCons, t: PduType, a: Attr): nat {
    match a
    case Version => 1
    case Type => 1
    case Flags => 1
    case Dst => d.address
    case Src => d.address
    case QosId => d.qosId
    case DstCep => d.cepId
    case SrcCep => d.cepId
    case Length => d.length
    case Sn => if IsData(t) then d.seqNum else d.ctrlSeqNum
    case LastCsn => d.ctrlSeqNum
    case SndrRate => d.rate
    case TimeFrame => d.frame
    case _ => d.seqNum
  }

  /** Where field number `k` starts when the fields follow one another without gaps. */
  function Start(d: DtCons, t: PduType, k: nat): nat
    requires k <= |Fields(t)|
  {
    if k == 0 then 0 else Start(d, t, k - 1) + FieldWidth(d, t, Fields(t)[k - 1])
  }

  // ---------------------------------------------------------------- the table

  const FIELD_INDEX_MAX: nat := 45
  const BASE_LEN: nat := 8
  const DT_MGMT_SN: nat := 9
  const CTRL_SN: nat := 11

  /** The six entries that hold the size of a header. */
  predicate IsSize(i: nat) { i == 10 || i == 17 || i == 25 || i == 27 || i == 36 || i == 44 }

  /** How far the table builder advances at entry `i`. */
  function Advance(d: DtCons, i: nat): nat {
    if i == 0 || i == 6 || i == 7 then 1
    else if i == 1 || i == 2 then d.address
    else if i == 3 then d.qosId
    else if i == 4 || i == 5 then d.cepId
    else if i == BASE_LEN then d.length
    else if i == CTRL_SN || i == 18 || i == 29 || i == 37 then d.ctrlSeqNum
    else if i == 15 || i == 23 || i == 34 || i == 42 then d.rate
    else if i == 16 || i == 24 || i == 35 || i == 43 then d.frame
    else if IsSize(i) then 0
    else d.seqNum
  }

  /** The first entry of the group that entry `i` belongs to. */
  function GroupOf(i: nat): nat {
    if i <= 10 then 0 else if i <= 17 then 11 else if i <= 25 then 18 else if i <= 27 then 26 else if i <= 36 then 28 else 37
  }

  function Sum(d: DtCons, from: nat, to: nat): nat {
    if to <= from then 0 else Sum(d, from, to - 1) + Advance(d, to - 1)
  }

  /** Every group but the first starts after the base fields, and all but two after the control sequence number too. */
  function Offset(d: DtCons, i: nat): nat {
    var g := GroupOf(i);
    (if g == 0 then 0 else if g == CTRL_SN then Sum(d, 0, 9) else Sum(d, 0, 9) + d.ctrlSeqNum) + Sum(d, g, i)
  }

  method OffsetTableCreate(d: DtCons) returns (table: array<nat>)
    ensures fresh(table) && table.Length == FIELD_INDEX_MAX
    ensures forall i :: 0 <= i < FIELD_INDEX_MAX ==> table[i] == Offset(d, i)
  {
    table := new nat[FIELD_INDEX_MAX];
    var offset, baseOffset := 0, 0;
    for i := 0 to FIELD_INDEX_MAX
      invariant i < FIELD_INDEX_MAX ==> offset == Offset(d, i)
      invariant baseOffset == if i <= BASE_LEN then 0 else if i <= CTRL_SN then Sum(d, 0, 9) else Sum(d, 0, 9) + d.ctrlSeqNum
      invariant forall j :: 0 <= j < i ==> table[j] == Offset(d, j)
    {
      table[i] := offset;
      offset := if IsSize(i) then baseOffset else offset + Advance(d, i);
      if i == BASE_LEN {
        baseOffset := offset;
      } else if i == CTRL_SN {
        baseOffset := baseOffset + d.ctrlSeqNum;
      }
    }
  }

  /** The first entry of the fields that only PDUs of type `t` have. */
  function GroupStart(t: PduType): nat {
    match t
    case DT => 10
    case MGMT => 10
    case FC => 12
    case CACK => 18
    case ACK => 26
    case ACK_AND_FC => 28
    case RENDEZVOUS => 37
  }

  /** The table entry of field number `k`; the one after the last field holds the size of the header. */
  function Entry(t: PduType, k: nat): nat {
    if k < 9 then k else if k == 9 then (if IsData(t) then DT_MGMT_SN else CTRL_SN) else GroupStart(t) + (k - 10)
  }

  function CalculateSize(d: DtCons, t: PduType): (size: nat) {
    match t
    case DT => Offset(d, 10)
    case MGMT => Offset(d, 10)
    case FC => Offset(d, 17)
    case ACK => Offset(d, 27)
    case ACK_AND_FC => Offset(d, 36)
    case CACK => Offset(d, 25)
    case RENDEZVOUS => Offset(d, 44)
  }

  lemma NextOffset(d: DtCons, i: nat)
    requires GroupOf(i + 1) == GroupOf(i)
    ensures Offset(d, i + 1) == Offset(d, i) + Advance(d, i)
  {
  }

  lemma GroupOffset(d: DtCons, i: nat)
    requires i == GroupOf(i) && i > CTRL_SN
    ensures Offset(d, i) == Offset(d, CTRL_SN) + Advance(d, CTRL_SN)
  {
    assert Sum(d, i, i) == 0 && Sum(d, CTRL_SN, CTRL_SN) == 0;
  }

  lemma EntryOffset(d: DtCons, t: PduType, k: nat)
    requires k < |Fields(t)|
    ensures Offset(d, Entry(t, k + 1)) == Offset(d, Entry(t, k)) + Advance(d, Entry(t, k))
  {
    if k == 8 && !IsData(t) {
      assert Sum(d, CTRL_SN, CTRL_SN) == 0;
    } else if k == 9 && !IsData(t) && !t.FC? {
      GroupOffset(d, GroupStart(t));
    } else {
      NextOffset(d, Entry(t, k));
    }
  }

  lemma BaseAdvances(d: DtCons, t: PduType, k: nat)
    requires k < 10
    ensures |Fields(t)| >= 10 && Advance(d, Entry(t, k)) == FieldWidth(d, t, Fields(t)[k])
  {
    assert Fields(t)[k] == BASE[k];
  }

  lemma OwnAdvances(d: DtCons, t: PduType, k: nat)
    requires 10 <= k < |Fields(t)|
    ensures Advance(d, Entry(t, k)) == FieldWidth(d, t, Fields(t)[k])
  {
    match t
    case FC =>
    case ACK =>
    case ACK_AND_FC =>
    case CACK => assert Fields(t)[k] == EDGES[k - 10];
    case RENDEZVOUS => assert Fields(t)[k] == EDGES[k - 10];
  }

  lemma EntryAdvances(d: DtCons, t: PduType, k: nat)
    requires k < |Fields(t)|
    ensures Advance(d, Entry(t, k)) == FieldWidth(d, t, Fields(t)[k])
    ensures Offset(d, Entry(t, k + 1)) == Offset(d, Entry(t, k)) + Advance(d, Entry(t, k))
  {
    EntryOffset(d, t, k);
    if k < 10 {
      BaseAdvances(d, t, k);
    } else {
      OwnAdvances(d, t, k);
    }
  }

  /** The table gives every field of every type of PDU the place that the layout means, and the size. */
  lemma {:induction false} TableIsLayout(d: DtCons, t: PduType, k: nat)
    requires k <= |Fields(t)|
    ensures Offset(d, Entry(t, k)) == Start(d, t, k)
  {
    if k > 0 {
      TableIsLayout(d, t, k - 1);
      EntryAdvances(d, t, k - 1);
    }
  }

  lemma SizeIsLayout(d: DtCons, t: PduType)
    ensures CalculateSize(d, t) == Start(d, t, |Fields(t)|)
  {
    TableIsLayout(d, t, |Fields(t)|);
  }

  lemma {:induction false} StartsGrow(d: DtCons, t: PduType, j: nat, k: nat)
    requires j < k <= |Fields(t)|
    ensures Start(d, t, j) + FieldWidth(d, t, Fields(t)[j]) <= Start(d, t, k)
    decreases k
  {
    if j + 1 < k {
      StartsGrow(d, t, j, k - 1);
    }
  }

  /** Byte `b` belongs to field number `k`. */
  ghost predicate In(d: DtCons, t: PduType, k: nat, b: nat)
    requires k < |Fields(t)|
  {
    Start(d, t, k) <= b < Start(d, t, k) + FieldWidth(d, t, Fields(t)[k])
  }

  /** The fields tile the header: every byte of it belongs to exactly one field, and no byte beyond it to any. */
  lemma {:induction false} FieldsTile(d: DtCons, t: PduType, b: nat)
    ensures b < CalculateSize(d, t) <==> exists k :: 0 <= k < |Fields(t)| && In(d, t, k, b)
    ensures forall j, k :: 0 <= j < k < |Fields(t)| ==> !(In(d, t, j, b) && In(d, t, k, b))
  {
    SizeIsLayout(d, t);
    forall j, k | 0 <= j < k < |Fields(t)| ensures !(In(d, t, j, b) && In(d, t, k, b)) {
      StartsGrow(d, t, j, k);
    }
    if b < CalculateSize(d, t) {
      var k := FindField(d, t, b, |Fields(t)|);
    }
    forall k | 0 <= k < |Fields(t)| && In(d, t, k, b) ensures b < CalculateSize(d, t) {
      StartsGrow(d, t, k, |Fields(t)|);
    }
  }

  lemma {:induction false} FindField(d: DtCons, t: PduType, b: nat, n: nat) returns (k: nat)
    requires n <= |Fields(t)| && b < Start(d, t, n)
    ensures k < n && In(d, t, k, b)
    decreases n
  {
    if b >= Start(d, t, n - 1) {
      k := n - 1;
    } else {
      k := FindField(d, t, b, n - 1);
    }
  }

  /** A Rendezvous PDU has the layout of a control ack, so the accessors of one serve for the other. */
  lemma {:induction false} RendezvousIsCack(d: DtCons, k: nat)
    requires k <= 17
    ensures Offset(d, Entry(RENDEZVOUS, k)) == Offset(d, Entry(CACK, k))
    ensures CalculateSize(d, RENDEZVOUS) == CalculateSize(d, CACK)
  {
    SameLayout(d, k);
    SameLayout(d, 17);
    TableIsLayout(d, RENDEZVOUS, k);
    TableIsLayout(d, CACK, k);
    SizeIsLayout(d, RENDEZVOUS);
    SizeIsLayout(d, CACK);
  }

  lemma {:induction false} SameLayout(d: DtCons, k: nat)
    requires k <= 17
    ensures Start(d, RENDEZVOUS, k) == Start(d, CACK, k)
  {
    if k > 0 {
      SameLayout(d, k - 1);
    }
  }

  /** Data and control sequence numbers start at the same byte. */
  lemma SequenceNumbersShareOffset(d: DtCons)
    ensures Offset(d, DT_MGMT_SN) == Offset(d, CTRL_SN)
  {
  }
}
