/**
 The configuration of a whole DIF, and what else control messages carry: the keys of a protected port and the
 properties of DIFs.
 */
module MsgDifs {
  import opened EfcpTypes
  import opened PciAccess
  import opened MsgCodec
  import opened MsgCombine
  import opened MsgConfigs

  // ---------------------------------------------------------------- constants of data transfer

  datatype Constants = Constants(
    addressLength: nat, cepIdLength: nat, ctrlSeqNumLength: nat, difIntegrity: bool, frameLength: nat, lengthLength: nat,
    maxPduLife: nat, maxPduSize: nat, maxSduSize: nat, portIdLength: nat, qosIdLength: nat, rateLength: nat, seqNumLength: nat,
    seqRolloverThres: nat, maxTimeToAck: nat, maxTimeToKeepRet: nat, difFrag: bool, difConcat: bool)

  type ConstantsParts = (((nat, nat, nat, bool), (nat, nat, nat, nat), (nat, nat, nat, nat), (nat, nat, nat, nat)), (bool, bool))

  function ConstantsPartsOf(c: Constants): ConstantsParts {
    (((c.addressLength, c.cepIdLength, c.ctrlSeqNumLength, c.difIntegrity), (c.frameLength, c.lengthLength, c.maxPduLife, c.maxPduSize),
      (c.maxSduSize, c.portIdLength, c.qosIdLength, c.rateLength),
      (c.seqNumLength, c.seqRolloverThres, c.maxTimeToAck, c.maxTimeToKeepRet)),
     (c.difFrag, c.difConcat))
  }

  function BuildConstants(p: ConstantsParts): Constants {
    var (q, (frag, concat)) := p;
    Constants(q.0.0, q.0.1, q.0.2, q.0.3, q.1.0, q.1.1, q.1.2, q.1.3, q.2.0, q.2.1, q.2.2, q.2.3, q.3.0, q.3.1, q.3.2, q.3.3, frag, concat)
  }

  function ConstantsLen(c: Constants): nat { 9 * 2 + 6 * 4 + 3 * 1 }

  function ConstantsShape(): Codec<ConstantsParts> {
    Two(Four(Four(Num(2), Num(2), Num(2), Flag()), Four(Num(2), Num(2), Num(4), Num(4)),
             Four(Num(4), Num(2), Num(2), Num(2)), Four(Num(2), Num(4), Num(4), Num(4))), Two(Flag(), Flag()))
  }

  function AllConstants(): Codec<Constants> { Struct(ConstantsShape(), ConstantsPartsOf, BuildConstants, ConstantsLen) }

  lemma ConstantsShapeFrom(n2: Codec<nat>, n4: Codec<nat>, flag: Codec<bool>)
    requires Plain(n2, 2) && Plain(n4, 4) && Plain(flag, 1)
    ensures Plain(Two(Four(Four(n2, n2, n2, flag), Four(n2, n2, n4, n4), Four(n4, n2, n2, n2), Four(n2, n4, n4, n4)), Two(flag, flag)), 45)
  {
    FourPlain(n2, 2, n2, 2, n2, 2, flag, 1);
    FourPlain(n2, 2, n2, 2, n4, 4, n4, 4);
    FourPlain(n4, 4, n2, 2, n2, 2, n2, 2);
    FourPlain(n2, 2, n4, 4, n4, 4, n4, 4);
    TwoPlain(flag, 1, flag, 1);
    var a, b, c, d := Four(n2, n2, n2, flag), Four(n2, n2, n4, n4), Four(n4, n2, n2, n2), Four(n2, n4, n4, n4);
    FourPlain(a, 7, b, 12, c, 10, d, 14);
    TwoPlain(Four(a, b, c, d), 43, Two(flag, flag), 2);
  }

  lemma ConstantsShapePlain()
    ensures Plain(ConstantsShape(), 45)
  {
    NumPlain(2);
    NumPlain(4);
    FlagPlain();
    ConstantsShapeFrom(Num(2), Num(4), Flag());
  }

  lemma ConstantsRebuilt(p: ConstantsParts)
    ensures ConstantsPartsOf(BuildConstants(p)) == p
  {
    var q, p' := p.0, ConstantsPartsOf(BuildConstants(p));
    assert p'.0.0 == q.0 && p'.0.1 == q.1 && p'.0.2 == q.2 && p'.0.3 == q.3;
    assert p'.0 == q && p'.1 == p.1;
  }

  lemma ConstantsFrom(c: Codec<ConstantsParts>)
    requires Plain(c, 45)
    ensures Measured(Struct(c, ConstantsPartsOf, BuildConstants, ConstantsLen), ConstantsLen)
  {
    forall p: ConstantsParts ensures ConstantsPartsOf(BuildConstants(p)) == p { ConstantsRebuilt(p); }
    StructPlain(c, ConstantsPartsOf, BuildConstants, ConstantsLen, 45);
  }

  lemma ConstantsLawful()
    ensures Measured(AllConstants(), ConstantsLen)
  {
    ConstantsShapePlain();
    ConstantsFrom(ConstantsShape());
  }

  // ---------------------------------------------------------------- quality-of-service cubes

  datatype QosCube = QosCube(
    id: nat, avgBw: nat, avgSduBw: nat, peakBw: nat, peakSduBw: nat, partialDelivery: bool, ordered: bool, maxGap: nat,
    delay: nat, jitter: nat, loss: nat, name: Text, dtp: Option<DtpConfig>, dtcp: Option<DtcpConfig>)

  type CubeNumbers = ((nat, nat, nat, nat), (nat, bool, bool, nat), (nat, nat, nat))

  type CubeParts = (CubeNumbers, Text, Option<DtpConfig>, Option<DtcpConfig>)

  function CubePartsOf(c: QosCube): CubeParts {
    (((c.id, c.avgBw, c.avgSduBw, c.peakBw), (c.peakSduBw, c.partialDelivery, c.ordered, c.maxGap), (c.delay, c.jitter, c.loss)),
     c.name, c.dtp, c.dtcp)
  }

  function BuildCube(p: CubeParts): QosCube {
    var (q, name, dtp, dtcp) := p;
    QosCube(q.0.0, q.0.1, q.0.2, q.0.3, q.1.0, q.1.1, q.1.2, q.1.3, q.2.0, q.2.1, q.2.2, name, dtp, dtcp)
  }

  function CubeLen(c: QosCube): nat {
    6 * 4 + 2 * 1 + 4 + 3 * 2 + StringLen(c.name) + PtrLen(DtpConfigLen, c.dtp) + PtrLen(DtcpLen, c.dtcp)
  }

  function CubeNums(): Codec<CubeNumbers> {
    Three(Four(Num(2), Num(4), Num(4), Num(4)), Four(Num(4), Flag(), Flag(), Num(4)), Three(Num(4), Num(4), Num(2)))
  }

  function Cubes(): Codec<QosCube> {
    Struct(Four(CubeNums(), Str(), Ptr(DtpConfigs()), Ptr(DtcpConfigs())), CubePartsOf, BuildCube, CubeLen)
  }

  lemma CubeNumsPlain()
    ensures Plain(CubeNums(), 34)
  {
    NumPlain(2);
    NumPlain(4);
    FlagPlain();
    FourPlain(Num(2), 2, Num(4), 4, Num(4), 4, Num(4), 4);
    FourPlain(Num(4), 4, Flag(), 1, Flag(), 1, Num(4), 4);
    ThreePlain(Num(4), 4, Num(4), 4, Num(2), 2);
    ThreePlain(Four(Num(2), Num(4), Num(4), Num(4)), 14, Four(Num(4), Flag(), Flag(), Num(4)), 10, Three(Num(4), Num(4), Num(2)), 10);
  }

  lemma CubeFrom(nums: Codec<CubeNumbers>, text: Codec<Text>, dtp: Codec<Option<DtpConfig>>, dtcp: Codec<Option<DtcpConfig>>)
    requires Plain(nums, 34) && Measured(text, TextLen)
    requires Measured(dtp, x => PtrLen(DtpConfigLen, x)) && Measured(dtcp, x => PtrLen(DtcpLen, x))
    ensures Measured(Struct(Four(nums, text, dtp, dtcp), CubePartsOf, BuildCube, CubeLen), CubeLen)
  {
    var c := Four(nums, text, dtp, dtcp);
    FourLawful(nums, text, dtp, dtcp);
    forall x: QosCube ensures CubeLen(x) == c.len(CubePartsOf(x)) { FourIs(nums, text, dtp, dtcp, CubePartsOf(x)); }
    StructMeasured(c, CubePartsOf, BuildCube, CubeLen);
  }

  lemma CubesLawful()
    ensures Measured(Cubes(), CubeLen)
  {
    CubeNumsPlain();
    StrLawful();
    DtpConfigsLawful();
    DtcpConfigsLawful();
    PtrMeasured(DtpConfigs(), DtpConfigLen);
    PtrMeasured(DtcpConfigs(), DtcpLen);
    CubeFrom(CubeNums(), Str(), Ptr(DtpConfigs()), Ptr(DtcpConfigs()));
  }

  // ---------------------------------------------------------------- EFCP

  /** The first entry of the offset table of the headers, behind a byte that says how much follows. */
  function TableBytes(t: Option<nat>, k: seq<Octet>): seq<Octet> {
    if t.None? then NumBytes(0, 1, k) else NumBytes(8, 1, NumBytes(t.value, 8, k))
  }

  /** A block of any size may follow; its first entry is what is in its first eight bytes. */
  function ReadTable(bs: seq<Octet>): Parsed<Option<nat>> {
    match ReadNum(1, bs)
    case Cut => Cut
    case Done(n, r) =>
      if n == 0 then Done(None, r)
      else
        match Raw(n, r)
        case Cut => Cut
        case Done(block, r2) => Done(Some(Value(if n > 8 then block[..8] else block)), r2)
  }

  function TableLen(t: Option<nat>): nat { 1 + if t.Some? then 8 else 0 }

  predicate TableFits(t: Option<nat>) { t.Some? ==> t.value < 0x1_0000_0000_0000_0000 }

  function Table(): Codec<Option<nat>> {
    Codec(TableBytes, ReadTable, (t: Option<nat>) => About(t, TableLen(t), true, TableFits(t), true))
  }

  lemma TableRoundTrip(t: Option<nat>, k: seq<Octet>)
    ensures |TableBytes(t, k)| == TableLen(t) + |k| && (TableFits(t) ==> ReadTable(TableBytes(t, k)) == Done(t, k))
  {
    Widths();
    if t.None? {
      NumRoundTrip(0, 1, k);
    } else if TableFits(t) {
      NumRoundTrip(8, 1, NumBytes(t.value, 8, k));
      RawRoundTrip(Bytes(t.value, 8), k);
      ValueOfBytes(t.value, 8);
    }
  }

  lemma ReadTableFits(bs: seq<Octet>)
    ensures ReadTable(bs).Done? ==> TableFits(ReadTable(bs).value)
  {
    Widths();
    if ReadTable(bs).Done? && ReadNum(1, bs).value > 0 {
      var block := Raw(ReadNum(1, bs).value, ReadNum(1, bs).rest).value;
      var first := if |block| > 8 then block[..8] else block;
      ValueBound(first);
      PowGrows(|first|, 8);
    }
  }

  lemma {:induction false} PowGrows(i: nat, j: nat)
    requires i <= j
    ensures Pow256(i) <= Pow256(j)
    decreases j
  {
    if i < j {
      PowGrows(i, j - 1);
    }
  }

  lemma TableLawful()
    ensures Measured(Table(), TableLen)
  {
    var c := Table();
    forall t: Option<nat>, k
      ensures |TableBytes(t, k)| == TableLen(t) + |k| && (TableFits(t) ==> ReadTable(TableBytes(t, k)) == Done(t, k))
    {
      TableRoundTrip(t, k);
    }
    forall bs ensures c.read(bs).Done? ==> Good(c, c.read(bs).value) { ReadTableFits(bs); }
    LawfulFrom(c);
  }

  datatype EfcpConfig = EfcpConfig(
    constants: Option<Constants>, unknownFlow: Option<Policy>, offsetTable: Option<nat>, cubes: seq<Option<QosCube>>)

  type EfcpParts = (Option<Constants>, Option<Policy>, Option<nat>, seq<Option<QosCube>>)

  function EfcpPartsOf(e: EfcpConfig): EfcpParts { (e.constants, e.unknownFlow, e.offsetTable, e.cubes) }

  function BuildEfcp(p: EfcpParts): EfcpConfig { EfcpConfig(p.0, p.1, p.2, p.3) }

  function CubePtrLen(c: Option<QosCube>): nat { PtrLen(CubeLen, c) }

  function EfcpLen(e: EfcpConfig): nat {
    PtrLen(ConstantsLen, e.constants) + 1 + 2 + PolLen(e.unknownFlow) + (if e.offsetTable.Some? then 8 else 0) + Total(CubePtrLen, e.cubes)
  }

  function CubeList(): Codec<seq<Option<QosCube>>> { ListOf(Ptr(Cubes())) }

  function Efcps(): Codec<EfcpConfig> {
    Struct(Four(Ptr(AllConstants()), Pol(), Table(), CubeList()), EfcpPartsOf, BuildEfcp, EfcpLen)
  }

  lemma EfcpFrom(
      consts: Codec<Option<Constants>>, pol: Codec<Option<Policy>>, table: Codec<Option<nat>>,
      cubes: Codec<seq<Option<QosCube>>>)
    requires Measured(consts, x => PtrLen(ConstantsLen, x)) && Measured(pol, PolLen) && Measured(table, TableLen)
    requires Measured(cubes, xs => ListLen(CubePtrLen, xs))
    ensures Measured(Struct(Four(consts, pol, table, cubes), EfcpPartsOf, BuildEfcp, EfcpLen), EfcpLen)
  {
    var c := Four(consts, pol, table, cubes);
    FourLawful(consts, pol, table, cubes);
    forall x: EfcpConfig ensures EfcpLen(x) == c.len(EfcpPartsOf(x)) { FourIs(consts, pol, table, cubes, EfcpPartsOf(x)); }
    StructMeasured(c, EfcpPartsOf, BuildEfcp, EfcpLen);
  }

  lemma CubeListLawful()
    ensures Measured(CubeList(), xs => ListLen(CubePtrLen, xs))
  {
    CubesLawful();
    PtrMeasured(Cubes(), CubeLen);
    assert Measured(Ptr(Cubes()), CubePtrLen);
    ListMeasured(Ptr(Cubes()), CubePtrLen);
  }

  lemma EfcpsLawful()
    ensures Measured(Efcps(), EfcpLen)
  {
    ConstantsLawful();
    PtrMeasured(AllConstants(), ConstantsLen);
    PolLawful();
    TableLawful();
    CubeListLawful();
    EfcpFrom(Ptr(AllConstants()), Pol(), Table(), CubeList());
  }

  // ---------------------------------------------------------------- the other components

  /** A component that is configured by one policy: forwarding, enrolment, routing, resource allocation. */
  datatype OnePolicy = OnePolicy(ps: Option<Policy>)

  function OnePolicyPart(c: OnePolicy): Option<Policy> { c.ps }

  function BuildOnePolicy(p: Option<Policy>): OnePolicy { OnePolicy(p) }

  function OnePolicyLen(c: OnePolicy): nat { PolLen(c.ps) }

  function OnePolicies(): Codec<OnePolicy> { Struct(Pol(), OnePolicyPart, BuildOnePolicy, OnePolicyLen) }

  lemma OnePoliciesLawful()
    ensures Measured(OnePolicies(), OnePolicyLen)
  {
    PolLawful();
    StructMeasured(Pol(), OnePolicyPart, BuildOnePolicy, OnePolicyLen);
  }

  datatype RmtConfig = RmtConfig(ps: Option<Policy>, pff: Option<OnePolicy>)

  function RmtParts(r: RmtConfig): (Option<Policy>, Option<OnePolicy>) { (r.ps, r.pff) }

  function BuildRmt(p: (Option<Policy>, Option<OnePolicy>)): RmtConfig { RmtConfig(p.0, p.1) }

  function RmtLen(r: RmtConfig): nat { PolLen(r.ps) + PtrLen(OnePolicyLen, r.pff) }

  function Rmts(): Codec<RmtConfig> { Struct(Two(Pol(), Ptr(OnePolicies())), RmtParts, BuildRmt, RmtLen) }

  lemma RmtFrom(pol: Codec<Option<Policy>>, pff: Codec<Option<OnePolicy>>)
    requires Measured(pol, PolLen) && Measured(pff, x => PtrLen(OnePolicyLen, x))
    ensures Measured(Struct(Two(pol, pff), RmtParts, BuildRmt, RmtLen), RmtLen)
  {
    TwoLawful(pol, pff);
    forall x: RmtConfig ensures RmtLen(x) == Two(pol, pff).len(RmtParts(x)) { TwoIs(pol, pff, RmtParts(x)); }
    StructMeasured(Two(pol, pff), RmtParts, BuildRmt, RmtLen);
  }

  lemma RmtsLawful()
    ensures Measured(Rmts(), RmtLen)
  {
    PolLawful();
    OnePoliciesLawful();
    PtrMeasured(OnePolicies(), OnePolicyLen);
    RmtFrom(Pol(), Ptr(OnePolicies()));
  }

  datatype FaConfig = FaConfig(
    maxCreateFlowRetries: nat, allocateNotify: Option<Policy>, allocateRetry: Option<Policy>, newFlowReq: Option<Policy>,
    ps: Option<Policy>, seqRollOver: Option<Policy>)

  type FaParts = (nat, ThreePolicies, (Option<Policy>, Option<Policy>))

  function FaPartsOf(f: FaConfig): FaParts {
    (f.maxCreateFlowRetries, (f.allocateNotify, f.allocateRetry, f.newFlowReq), (f.ps, f.seqRollOver))
  }

  function BuildFa(p: FaParts): FaConfig { FaConfig(p.0, p.1.0, p.1.1, p.1.2, p.2.0, p.2.1) }

  function FaLen(f: FaConfig): nat {
    4 + PolLen(f.allocateNotify) + PolLen(f.allocateRetry) + PolLen(f.newFlowReq) + PolLen(f.ps) + PolLen(f.seqRollOver)
  }

  function Fas(): Codec<FaConfig> { Struct(Three(Num(4), ThreePols(), Two(Pol(), Pol())), FaPartsOf, BuildFa, FaLen) }

  lemma FaFrom(n4: Codec<nat>, three: Codec<ThreePolicies>, pol: Codec<Option<Policy>>)
    requires Plain(n4, 4) && Measured(three, ThreePolLen) && Measured(pol, PolLen)
    ensures Measured(Struct(Three(n4, three, Two(pol, pol)), FaPartsOf, BuildFa, FaLen), FaLen)
  {
    var c := Three(n4, three, Two(pol, pol));
    TwoLawful(pol, pol);
    ThreeLawful(n4, three, Two(pol, pol));
    forall x: FaConfig ensures FaLen(x) == c.len(FaPartsOf(x)) { ThreeIs(n4, three, Two(pol, pol), FaPartsOf(x)); }
    StructMeasured(c, FaPartsOf, BuildFa, FaLen);
  }

  lemma FasLawful()
    ensures Measured(Fas(), FaLen)
  {
    NumPlain(4);
    PolLawful();
    ThreePolsFrom(Pol());
    FaFrom(Num(4), ThreePols(), Pol());
  }

  // ---------------------------------------------------------------- addressing

  datatype StaticAddr = StaticAddr(address: nat, apName: Text, apInstance: Text)

  function StaticAddrParts(a: StaticAddr): (nat, Text, Text) { (a.address, a.apName, a.apInstance) }

  function BuildStaticAddr(p: (nat, Text, Text)): StaticAddr { StaticAddr(p.0, p.1, p.2) }

  function StaticAddrLen(a: StaticAddr): nat { 2 * 2 + 4 + StringLen(a.apName) + StringLen(a.apInstance) }

  function StaticAddrs(): Codec<StaticAddr> {
    Struct(Three(Num(4), Str(), Str()), StaticAddrParts, BuildStaticAddr, StaticAddrLen)
  }

  datatype Prefix = Prefix(prefix: nat, org: Text)

  function PrefixParts(a: Prefix): (nat, Text) { (a.prefix, a.org) }

  function BuildPrefix(p: (nat, Text)): Prefix { Prefix(p.0, p.1) }

  function PrefixLen(a: Prefix): nat { 2 + 4 + StringLen(a.org) }

  function Prefixes(): Codec<Prefix> { Struct(Two(Num(4), Str()), PrefixParts, BuildPrefix, PrefixLen) }

  lemma AddressesFrom(n4: Codec<nat>, text: Codec<Text>)
    requires Plain(n4, 4) && Measured(text, TextLen)
    ensures Measured(Struct(Three(n4, text, text), StaticAddrParts, BuildStaticAddr, StaticAddrLen), StaticAddrLen)
    ensures Measured(Struct(Two(n4, text), PrefixParts, BuildPrefix, PrefixLen), PrefixLen)
  {
    ThreeLawful(n4, text, text);
    forall x: StaticAddr ensures StaticAddrLen(x) == Three(n4, text, text).len(StaticAddrParts(x)) {
      ThreeIs(n4, text, text, StaticAddrParts(x));
    }
    StructMeasured(Three(n4, text, text), StaticAddrParts, BuildStaticAddr, StaticAddrLen);
    TwoLawful(n4, text);
    forall x: Prefix ensures PrefixLen(x) == Two(n4, text).len(PrefixParts(x)) { TwoIs(n4, text, PrefixParts(x)); }
    StructMeasured(Two(n4, text), PrefixParts, BuildPrefix, PrefixLen);
  }

  datatype Addressing = Addressing(addrs: seq<Option<StaticAddr>>, prefixes: seq<Option<Prefix>>)

  function AddressingParts(a: Addressing): (seq<Option<StaticAddr>>, seq<Option<Prefix>>) { (a.addrs, a.prefixes) }

  function BuildAddressing(p: (seq<Option<StaticAddr>>, seq<Option<Prefix>>)): Addressing { Addressing(p.0, p.1) }

  function StaticAddrPtrLen(a: Option<StaticAddr>): nat { PtrLen(StaticAddrLen, a) }

  function PrefixPtrLen(a: Option<Prefix>): nat { PtrLen(PrefixLen, a) }

  function AddressingLen(a: Addressing): nat { 2 * 2 + Total(StaticAddrPtrLen, a.addrs) + Total(PrefixPtrLen, a.prefixes) }

  function Addressings(): Codec<Addressing> {
    Struct(Two(ListOf(Ptr(StaticAddrs())), ListOf(Ptr(Prefixes()))), AddressingParts, BuildAddressing, AddressingLen)
  }

  lemma AddressingFrom(addrs: Codec<seq<Option<StaticAddr>>>, prefixes: Codec<seq<Option<Prefix>>>)
    requires Measured(addrs, xs => ListLen(StaticAddrPtrLen, xs)) && Measured(prefixes, xs => ListLen(PrefixPtrLen, xs))
    ensures Measured(Struct(Two(addrs, prefixes), AddressingParts, BuildAddressing, AddressingLen), AddressingLen)
  {
    TwoLawful(addrs, prefixes);
    forall x: Addressing ensures AddressingLen(x) == Two(addrs, prefixes).len(AddressingParts(x)) {
      TwoIs(addrs, prefixes, AddressingParts(x));
    }
    StructMeasured(Two(addrs, prefixes), AddressingParts, BuildAddressing, AddressingLen);
  }

  lemma AddressingsLawful()
    ensures Measured(Addressings(), AddressingLen)
  {
    NumPlain(4);
    StrLawful();
    AddressesFrom(Num(4), Str());
    PtrMeasured(StaticAddrs(), StaticAddrLen);
    PtrMeasured(Prefixes(), PrefixLen);
    ListMeasured(Ptr(StaticAddrs()), StaticAddrPtrLen);
    ListMeasured(Ptr(Prefixes()), PrefixPtrLen);
    AddressingFrom(ListOf(Ptr(StaticAddrs())), ListOf(Ptr(Prefixes())));
  }

  datatype NsmConfig = NsmConfig(ps: Option<Policy>, addressing: Option<Addressing>)

  function NsmParts(n: NsmConfig): (Option<Policy>, Option<Addressing>) { (n.ps, n.addressing) }

  function BuildNsm(p: (Option<Policy>, Option<Addressing>)): NsmConfig { NsmConfig(p.0, p.1) }

  function NsmLen(n: NsmConfig): nat { PtrLen(AddressingLen, n.addressing) + PolLen(n.ps) }

  function Nsms(): Codec<NsmConfig> { Struct(Two(Pol(), Ptr(Addressings())), NsmParts, BuildNsm, NsmLen) }

  lemma NsmFrom(pol: Codec<Option<Policy>>, a: Codec<Option<Addressing>>)
    requires Measured(pol, PolLen) && Measured(a, x => PtrLen(AddressingLen, x))
    ensures Measured(Struct(Two(pol, a), NsmParts, BuildNsm, NsmLen), NsmLen)
  {
    TwoLawful(pol, a);
    forall x: NsmConfig ensures NsmLen(x) == Two(pol, a).len(NsmParts(x)) { TwoIs(pol, a, NsmParts(x)); }
    StructMeasured(Two(pol, a), NsmParts, BuildNsm, NsmLen);
  }

  lemma NsmsLawful()
    ensures Measured(Nsms(), NsmLen)
  {
    PolLawful();
    AddressingsLawful();
    PtrMeasured(Addressings(), AddressingLen);
    NsmFrom(Pol(), Ptr(Addressings()));
  }

  // ---------------------------------------------------------------- security

  datatype Profile = Profile(auth: Option<Policy>, encrypt: Option<Policy>, crc: Option<Policy>, ttl: Option<Policy>)

  function ProfileParts(p: Profile): (Option<Policy>, Option<Policy>, Option<Policy>, Option<Policy>) {
    (p.auth, p.encrypt, p.crc, p.ttl)
  }

  function BuildProfile(p: (Option<Policy>, Option<Policy>, Option<Policy>, Option<Policy>)): Profile {
    Profile(p.0, p.1, p.2, p.3)
  }

  function ProfileLen(p: Profile): nat { PolLen(p.auth) + PolLen(p.encrypt) + PolLen(p.crc) + PolLen(p.ttl) }

  function Profiles(): Codec<Profile> { Struct(FourPols(), ProfileParts, BuildProfile, ProfileLen) }

  lemma ProfilesLawful()
    ensures Measured(Profiles(), ProfileLen)
  {
    PolLawful();
    FourPoliciesFrom(Pol());
    ProfileFrom(FourPols());
  }

  lemma ProfileFrom(c: Codec<(Option<Policy>, Option<Policy>, Option<Policy>, Option<Policy>)>)
    requires FourPolicies(c)
    ensures Measured(Struct(c, ProfileParts, BuildProfile, ProfileLen), ProfileLen)
  {
    StructMeasured(c, ProfileParts, BuildProfile, ProfileLen);
  }

  /** A profile for one lower DIF. */
  type NamedProfile = (Text, Option<Profile>)

  function NamedProfileLen(p: NamedProfile): nat { PtrLen(ProfileLen, p.1) + 2 + StringLen(p.0) }

  datatype SecmanConfig = SecmanConfig(ps: Option<Policy>, defaultProfile: Option<Profile>, specific: seq<NamedProfile>)

  type SecmanParts = (Option<Policy>, Option<Profile>, seq<NamedProfile>)

  function SecmanPartsOf(s: SecmanConfig): SecmanParts { (s.ps, s.defaultProfile, s.specific) }

  function BuildSecman(p: SecmanParts): SecmanConfig { SecmanConfig(p.0, p.1, p.2) }

  function SecmanLen(s: SecmanConfig): nat {
    2 + PolLen(s.ps) + PtrLen(ProfileLen, s.defaultProfile) + Total(NamedProfileLen, s.specific)
  }

  function NamedProfiles(): Codec<NamedProfile> { Two(Str(), Ptr(Profiles())) }

  function Secmans(): Codec<SecmanConfig> {
    Struct(Three(Pol(), Ptr(Profiles()), ListOf(NamedProfiles())), SecmanPartsOf, BuildSecman, SecmanLen)
  }

  lemma NamedFrom(text: Codec<Text>, c: Codec<Option<Profile>>)
    requires Measured(text, TextLen) && Measured(c, x => PtrLen(ProfileLen, x))
    ensures Measured(Two(text, c), NamedProfileLen)
  {
    TwoLawful(text, c);
    forall p: NamedProfile ensures Two(text, c).len(p) == NamedProfileLen(p) { TwoIs(text, c, p); }
  }

  lemma SecmanFrom(pol: Codec<Option<Policy>>, c: Codec<Option<Profile>>, list: Codec<seq<NamedProfile>>)
    requires Measured(pol, PolLen) && Measured(c, x => PtrLen(ProfileLen, x)) && Measured(list, xs => ListLen(NamedProfileLen, xs))
    ensures Measured(Struct(Three(pol, c, list), SecmanPartsOf, BuildSecman, SecmanLen), SecmanLen)
  {
    ThreeLawful(pol, c, list);
    forall x: SecmanConfig ensures SecmanLen(x) == Three(pol, c, list).len(SecmanPartsOf(x)) {
      ThreeIs(pol, c, list, SecmanPartsOf(x));
    }
    StructMeasured(Three(pol, c, list), SecmanPartsOf, BuildSecman, SecmanLen);
  }

  lemma SecmansLawful()
    ensures Measured(Secmans(), SecmanLen)
  {
    PolLawful();
    StrLawful();
    ProfilesLawful();
    PtrMeasured(Profiles(), ProfileLen);
    NamedFrom(Str(), Ptr(Profiles()));
    ListMeasured(NamedProfiles(), NamedProfileLen);
    SecmanFrom(Pol(), Ptr(Profiles()), ListOf(NamedProfiles()));
  }

  // ---------------------------------------------------------------- the configuration of a DIF

  datatype ConfigEntry = ConfigEntry(name: Text, value: Text)

  function ConfigEntryParts(e: ConfigEntry): (Text, Text) { (e.name, e.value) }

  function BuildConfigEntry(p: (Text, Text)): ConfigEntry { ConfigEntry(p.0, p.1) }

  function ConfigEntryLen(e: ConfigEntry): nat { 2 * 2 + StringLen(e.name) + StringLen(e.value) }

  function ConfigEntries(): Codec<ConfigEntry> {
    Struct(Two(Str(), Str()), ConfigEntryParts, BuildConfigEntry, ConfigEntryLen)
  }

  function EntryPtrLen(e: Option<ConfigEntry>): nat { PtrLen(ConfigEntryLen, e) }

  datatype DifConfig = DifConfig(
    address: nat, entries: seq<Option<ConfigEntry>>, efcp: Option<EfcpConfig>, rmt: Option<RmtConfig>, fa: Option<FaConfig>,
    et: Option<OnePolicy>, nsm: Option<NsmConfig>, routing: Option<OnePolicy>, resall: Option<OnePolicy>, secman: Option<SecmanConfig>)

  type DifUpper = (Option<EfcpConfig>, Option<RmtConfig>, Option<FaConfig>, Option<OnePolicy>)

  type DifLower = (Option<NsmConfig>, Option<OnePolicy>, Option<OnePolicy>, Option<SecmanConfig>)

  type DifParts = (nat, seq<Option<ConfigEntry>>, DifUpper, DifLower)

  function DifPartsOf(d: DifConfig): DifParts {
    (d.address, d.entries, (d.efcp, d.rmt, d.fa, d.et), (d.nsm, d.routing, d.resall, d.secman))
  }

  function BuildDif(p: DifParts): DifConfig { DifConfig(p.0, p.1, p.2.0, p.2.1, p.2.2, p.2.3, p.3.0, p.3.1, p.3.2, p.3.3) }

  function DifUpperLen(u: DifUpper): nat {
    PtrLen(EfcpLen, u.0) + PtrLen(RmtLen, u.1) + PtrLen(FaLen, u.2) + PtrLen(OnePolicyLen, u.3)
  }

  function DifLowerLen(l: DifLower): nat {
    PtrLen(NsmLen, l.0) + PtrLen(OnePolicyLen, l.1) + PtrLen(OnePolicyLen, l.2) + PtrLen(SecmanLen, l.3)
  }

  function DifLen(d: DifConfig): nat {
    4 + 2 + Total(EntryPtrLen, d.entries)
    + PtrLen(EfcpLen, d.efcp) + PtrLen(RmtLen, d.rmt) + PtrLen(FaLen, d.fa) + PtrLen(OnePolicyLen, d.et)
    + PtrLen(NsmLen, d.nsm) + PtrLen(OnePolicyLen, d.routing) + PtrLen(OnePolicyLen, d.resall) + PtrLen(SecmanLen, d.secman)
  }

  function Upper(): Codec<DifUpper> { Four(Ptr(Efcps()), Ptr(Rmts()), Ptr(Fas()), Ptr(OnePolicies())) }

  function Lower(): Codec<DifLower> { Four(Ptr(Nsms()), Ptr(OnePolicies()), Ptr(OnePolicies()), Ptr(Secmans())) }

  function Difs(): Codec<DifConfig> {
    Struct(Four(Num(4), ListOf(Ptr(ConfigEntries())), Upper(), Lower()), DifPartsOf, BuildDif, DifLen)
  }

  lemma EntriesFrom(text: Codec<Text>)
    requires Measured(text, TextLen)
    ensures Measured(Struct(Two(text, text), ConfigEntryParts, BuildConfigEntry, ConfigEntryLen), ConfigEntryLen)
  {
    TwoLawful(text, text);
    forall x: ConfigEntry ensures ConfigEntryLen(x) == Two(text, text).len(ConfigEntryParts(x)) {
      TwoIs(text, text, ConfigEntryParts(x));
    }
    StructMeasured(Two(text, text), ConfigEntryParts, BuildConfigEntry, ConfigEntryLen);
  }

  lemma EntryListLawful()
    ensures Measured(ListOf(Ptr(ConfigEntries())), xs => ListLen(EntryPtrLen, xs))
  {
    StrLawful();
    EntriesFrom(Str());
    PtrMeasured(ConfigEntries(), ConfigEntryLen);
    ListMeasured(Ptr(ConfigEntries()), EntryPtrLen);
  }

  lemma UpperFrom(a: Codec<EfcpConfig>, b: Codec<RmtConfig>, c: Codec<FaConfig>, d: Codec<OnePolicy>)
    requires Measured(a, EfcpLen) && Measured(b, RmtLen) && Measured(c, FaLen) && Measured(d, OnePolicyLen)
    ensures Measured(Four(Ptr(a), Ptr(b), Ptr(c), Ptr(d)), DifUpperLen)
  {
    PtrMeasured(a, EfcpLen);
    PtrMeasured(b, RmtLen);
    PtrMeasured(c, FaLen);
    PtrMeasured(d, OnePolicyLen);
    FourLawful(Ptr(a), Ptr(b), Ptr(c), Ptr(d));
    forall u: DifUpper ensures Four(Ptr(a), Ptr(b), Ptr(c), Ptr(d)).len(u) == DifUpperLen(u) {
      FourIs(Ptr(a), Ptr(b), Ptr(c), Ptr(d), u);
    }
  }

  lemma LowerFrom(a: Codec<NsmConfig>, b: Codec<OnePolicy>, d: Codec<SecmanConfig>)
    requires Measured(a, NsmLen) && Measured(b, OnePolicyLen) && Measured(d, SecmanLen)
    ensures Measured(Four(Ptr(a), Ptr(b), Ptr(b), Ptr(d)), DifLowerLen)
  {
    PtrMeasured(a, NsmLen);
    PtrMeasured(b, OnePolicyLen);
    PtrMeasured(d, SecmanLen);
    FourLawful(Ptr(a), Ptr(b), Ptr(b), Ptr(d));
    forall l: DifLower ensures Four(Ptr(a), Ptr(b), Ptr(b), Ptr(d)).len(l) == DifLowerLen(l) {
      FourIs(Ptr(a), Ptr(b), Ptr(b), Ptr(d), l);
    }
  }

  lemma UpperOf(efcp: Codec<EfcpConfig>)
    requires Measured(efcp, EfcpLen)
    ensures Measured(Four(Ptr(efcp), Ptr(Rmts()), Ptr(Fas()), Ptr(OnePolicies())), DifUpperLen)
  {
    RmtsLawful();
    FasLawful();
    OnePoliciesLawful();
    UpperFrom(efcp, Rmts(), Fas(), OnePolicies());
  }

  lemma UpperLawful()
    ensures Measured(Upper(), DifUpperLen)
  {
    EfcpsLawful();
    UpperOf(Efcps());
  }

  lemma LowerLawful()
    ensures Measured(Lower(), DifLowerLen)
  {
    NsmsLawful();
    OnePoliciesLawful();
    SecmansLawful();
    LowerFrom(Nsms(), OnePolicies(), Secmans());
  }

  lemma DifFrom(n4: Codec<nat>, entries: Codec<seq<Option<ConfigEntry>>>, upper: Codec<DifUpper>, lower: Codec<DifLower>)
    requires Plain(n4, 4) && Measured(entries, xs => ListLen(EntryPtrLen, xs))
    requires Measured(upper, DifUpperLen) && Measured(lower, DifLowerLen)
    ensures Measured(Struct(Four(n4, entries, upper, lower), DifPartsOf, BuildDif, DifLen), DifLen)
  {
    var c := Four(n4, entries, upper, lower);
    FourLawful(n4, entries, upper, lower);
    forall x: DifConfig ensures DifLen(x) == c.len(DifPartsOf(x)) { FourIs(n4, entries, upper, lower, DifPartsOf(x)); }
    StructMeasured(c, DifPartsOf, BuildDif, DifLen);
  }

  lemma DifOf(upper: Codec<DifUpper>, lower: Codec<DifLower>)
    requires Measured(upper, DifUpperLen) && Measured(lower, DifLowerLen)
    ensures Measured(Struct(Four(Num(4), ListOf(Ptr(ConfigEntries())), upper, lower), DifPartsOf, BuildDif, DifLen), DifLen)
  {
    NumPlain(4);
    EntryListLawful();
    DifFrom(Num(4), ListOf(Ptr(ConfigEntries())), upper, lower);
  }

  lemma DifsLawful()
    ensures Measured(Difs(), DifLen)
  {
    UpperLawful();
    LowerLawful();
    DifOf(Upper(), Lower());
  }

  // ---------------------------------------------------------------- buffers

  type Buffer = Option<seq<Octet>>

  /** A buffer without data comes back as NULL. */
  function BufferBytes(b: Buffer, k: seq<Octet>): seq<Octet> {
    if b.None? then NumBytes(0, 4, k) else NumBytes(|b.value|, 4, b.value + k)
  }

  function ReadBuffer(bs: seq<Octet>): Parsed<Buffer> {
    match ReadNum(4, bs)
    case Cut => Cut
    case Done(n, r) =>
      if n == 0 then Done(None, r)
      else
        match Raw(n, r)
        case Cut => Cut
        case Done(s, r2) => Done(Some(s), r2)
  }

  function BufferSeen(b: Buffer): Buffer { if b.Some? && b.value == [] then None else b }

  /** The room that a buffer takes; a NULL one is written as a size of zero. */
  function BufferLen(b: Buffer): nat { 4 + if b.Some? then |b.value| else 0 }

  predicate BufferFits(b: Buffer) { b.Some? ==> |b.value| < TWO32 }

  lemma BufferRoundTrip(b: Buffer)
    ensures BufferFits(b) ==> Agrees(BufferBytes, ReadBuffer, BufferSeen, b)
    ensures Measures(BufferBytes, BufferLen, true, b)
  {
    Widths();
    forall k ensures BufferFits(b) ==> ReadBuffer(BufferBytes(b, k)) == Done(BufferSeen(b), k)
             ensures |BufferBytes(b, k)| == BufferLen(b) + |k| {
      if b.None? {
        NumRoundTrip(0, 4, k);
      } else if BufferFits(b) {
        NumRoundTrip(|b.value|, 4, b.value + k);
        RawRoundTrip(b.value, k);
        if b.value == [] {
          assert b.value + k == k;
        }
      }
    }
  }

  function Buffers(): Codec<Buffer> {
    Codec(BufferBytes, ReadBuffer, (b: Buffer) => About(BufferSeen(b), BufferLen(b), true, BufferFits(b), true))
  }

  lemma ReadBufferFits(bs: seq<Octet>)
    ensures ReadBuffer(bs).Done? ==> BufferFits(ReadBuffer(bs).value)
  {
    Widths();
    ReadNumFits(4, bs);
  }

  lemma BuffersLawful()
    ensures Measured(Buffers(), BufferLen)
  {
    var c := Buffers();
    forall b: Buffer
      ensures Measures(BufferBytes, BufferLen, true, b) && (BufferFits(b) ==> Agrees(BufferBytes, ReadBuffer, BufferSeen, b))
    {
      BufferRoundTrip(b);
    }
    forall bs ensures c.read(bs).Done? ==> Good(c, c.read(bs).value) { ReadBufferFits(bs); }
    LawfulFrom(c);
  }

  type ThreeBuffers = (Buffer, Buffer, Buffer)

  datatype CryptoState = CryptoState(
    enableRx: bool, enableTx: bool, portId: nat, compressAlg: Text, encAlg: Text, macAlg: Text,
    encryptKeyRx: Buffer, encryptKeyTx: Buffer, ivRx: Buffer, ivTx: Buffer, macKeyRx: Buffer, macKeyTx: Buffer)

  type CryptoParts = ((bool, bool, nat), (Text, Text, Text), ThreeBuffers, ThreeBuffers)

  function CryptoPartsOf(c: CryptoState): CryptoParts {
    ((c.enableRx, c.enableTx, c.portId), (c.compressAlg, c.encAlg, c.macAlg),
     (c.encryptKeyRx, c.encryptKeyTx, c.ivRx), (c.ivTx, c.macKeyRx, c.macKeyTx))
  }

  function BuildCrypto(p: CryptoParts): CryptoState {
    CryptoState(p.0.0, p.0.1, p.0.2, p.1.0, p.1.1, p.1.2, p.2.0, p.2.1, p.2.2, p.3.0, p.3.1, p.3.2)
  }

  function BufferSize(b: Buffer): nat { if b.Some? then |b.value| else 0 }

  function CryptoLen(c: CryptoState): nat {
    2 * 1 + 3 * 2 + 4 + StringLen(c.compressAlg) + StringLen(c.encAlg) + StringLen(c.macAlg) + 6 * 4
    + BufferSize(c.encryptKeyRx) + BufferSize(c.encryptKeyTx) + BufferSize(c.ivRx)
    + BufferSize(c.ivTx) + BufferSize(c.macKeyRx) + BufferSize(c.macKeyTx)
  }

  function Cryptos(): Codec<CryptoState> {
    Struct(Four(Three(Flag(), Flag(), Num(4)), Three(Str(), Str(), Str()),
                Three(Buffers(), Buffers(), Buffers()), Three(Buffers(), Buffers(), Buffers())),
           CryptoPartsOf, BuildCrypto, CryptoLen)
  }

  function ThreeTextLen(t: (Text, Text, Text)): nat { TextLen(t.0) + TextLen(t.1) + TextLen(t.2) }

  function ThreeBufferLen(t: ThreeBuffers): nat { BufferLen(t.0) + BufferLen(t.1) + BufferLen(t.2) }

  lemma ThreesFrom(text: Codec<Text>, buffer: Codec<Buffer>)
    requires Measured(text, TextLen) && Measured(buffer, BufferLen)
    ensures Measured(Three(text, text, text), ThreeTextLen) && Measured(Three(buffer, buffer, buffer), ThreeBufferLen)
  {
    ThreeLawful(text, text, text);
    ThreeLawful(buffer, buffer, buffer);
    forall t: (Text, Text, Text) ensures Three(text, text, text).len(t) == ThreeTextLen(t) { ThreeIs(text, text, text, t); }
    forall t: ThreeBuffers ensures Three(buffer, buffer, buffer).len(t) == ThreeBufferLen(t) {
      ThreeIs(buffer, buffer, buffer, t);
    }
  }

  lemma CryptoFrom(head: Codec<(bool, bool, nat)>, texts: Codec<(Text, Text, Text)>, buffers: Codec<ThreeBuffers>)
    requires Plain(head, 6) && Measured(texts, ThreeTextLen) && Measured(buffers, ThreeBufferLen)
    ensures Measured(Struct(Four(head, texts, buffers, buffers), CryptoPartsOf, BuildCrypto, CryptoLen), CryptoLen)
  {
    var c := Four(head, texts, buffers, buffers);
    FourLawful(head, texts, buffers, buffers);
    forall x: CryptoState ensures CryptoLen(x) == c.len(CryptoPartsOf(x)) {
      FourIs(head, texts, buffers, buffers, CryptoPartsOf(x));
    }
    StructMeasured(c, CryptoPartsOf, BuildCrypto, CryptoLen);
  }

  lemma CryptosLawful()
    ensures Measured(Cryptos(), CryptoLen)
  {
    NumPlain(4);
    FlagPlain();
    ThreePlain(Flag(), 1, Flag(), 1, Num(4), 4);
    StrLawful();
    BuffersLawful();
    ThreesFrom(Str(), Buffers());
    CryptoFrom(Three(Flag(), Flag(), Num(4)), Three(Str(), Str(), Str()), Three(Buffers(), Buffers(), Buffers()));
  }

  // ---------------------------------------------------------------- properties of DIFs

  /** The name of a DIF and its largest SDU. */
  datatype DifProperty = DifProperty(maxSduSize: nat, difName: Option<Name>)

  function PropertyParts(p: DifProperty): (nat, Option<Name>) { (p.maxSduSize, p.difName) }

  function BuildProperty(p: (nat, Option<Name>)): DifProperty { DifProperty(p.0, p.1) }

  function PropertyLen(p: DifProperty): nat { 2 + NameLen(p.difName) }

  function Properties(): Codec<DifProperty> { Struct(Two(Num(2), Names()), PropertyParts, BuildProperty, PropertyLen) }

  function PropertyListLen(ps: seq<DifProperty>): nat { 2 + Total(PropertyLen, ps) }

  function PropertyLists(): Codec<seq<DifProperty>> { ListOf(Properties()) }

  lemma PropertyFrom(n2: Codec<nat>, name: Codec<Option<Name>>)
    requires Plain(n2, 2) && Sized(name, NameLen)
    ensures Sized(Struct(Two(n2, name), PropertyParts, BuildProperty, PropertyLen), PropertyLen)
  {
    TwoLawful(n2, name);
    forall x: DifProperty ensures PropertyLen(x) == Two(n2, name).len(PropertyParts(x)) { TwoIs(n2, name, PropertyParts(x)); }
    StructSized(Two(n2, name), PropertyParts, BuildProperty, PropertyLen);
  }

  lemma PropertiesLawful()
    ensures Sized(PropertyLists(), PropertyListLen)
  {
    NumPlain(2);
    NamesLawful();
    PropertyFrom(Num(2), Names());
    ListSized(Properties(), PropertyLen);
  }
}
