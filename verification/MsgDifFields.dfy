/** The configuration of a DIF, keys, properties of DIFs, neighbours and media reports, field by field. */
module MsgDifFields {
  import opened EfcpTypes
  import opened PciAccess
  import opened MsgCodec
  import opened MsgCombine
  import opened MsgConfigs
  import opened MsgReports
  import opened MsgDifs
  import opened MsgWire
  import opened MsgFields

  const WDtp := Wire(DtpOut, DtpBack)
  const WDtcp := Wire(DtcpOut, DtcpBack)

  // ---------------------------------------------------------------- constants and cubes

  function ConstantsOut(c: Constants, k: seq<Octet>): seq<Octet> {
    N2(c.addressLength, N2(c.cepIdLength, N2(c.ctrlSeqNumLength, Bit(c.difIntegrity, N2(c.frameLength, N2(c.lengthLength,
    N4(c.maxPduLife, N4(c.maxPduSize, N4(c.maxSduSize, N2(c.portIdLength, N2(c.qosIdLength, N2(c.rateLength, N2(c.seqNumLength,
    N4(c.seqRolloverThres, N4(c.maxTimeToAck, N4(c.maxTimeToKeepRet, Bit(c.difFrag, Bit(c.difConcat, k))))))))))))))))))
  }

  function ConstantsW(): Wire<ConstantsParts> {
    TwoW(FourW(FourW(W2, W2, W2, WBit), FourW(W2, W2, W4, W4), FourW(W4, W2, W2, W2), FourW(W2, W4, W4, W4)), TwoW(WBit, WBit))
  }

  lemma ConstantsShapeAs(n2: Codec<nat>, n4: Codec<nat>, flag: Codec<bool>)
    requires As(n2, W2) && As(n4, W4) && As(flag, WBit)
    ensures As(Two(Four(Four(n2, n2, n2, flag), Four(n2, n2, n4, n4), Four(n4, n2, n2, n2), Four(n2, n4, n4, n4)), Two(flag, flag)),
               ConstantsW())
  {
    FourAs(n2, W2, n2, W2, n2, W2, flag, WBit);
    FourAs(n2, W2, n2, W2, n4, W4, n4, W4);
    FourAs(n4, W4, n2, W2, n2, W2, n2, W2);
    FourAs(n2, W2, n4, W4, n4, W4, n4, W4);
    TwoAs(flag, WBit, flag, WBit);
    var a, b, c, d := FourW(W2, W2, W2, WBit), FourW(W2, W2, W4, W4), FourW(W4, W2, W2, W2), FourW(W2, W4, W4, W4);
    FourAs(Four(n2, n2, n2, flag), a, Four(n2, n2, n4, n4), b, Four(n4, n2, n2, n2), c, Four(n2, n4, n4, n4), d);
    TwoAs(Four(Four(n2, n2, n2, flag), Four(n2, n2, n4, n4), Four(n4, n2, n2, n2), Four(n2, n4, n4, n4)), FourW(a, b, c, d),
          Two(flag, flag), TwoW(WBit, WBit));
  }

  lemma ConstantsIs(c: Constants, k: seq<Octet>)
    ensures ConstantsOut(c, k) == ConstantsW().out(ConstantsPartsOf(c), k)
    ensures c == BuildConstants(ConstantsW().back(ConstantsPartsOf(c)))
  {
  }

  lemma ConstantsAs()
    ensures As(AllConstants(), Wire(ConstantsOut, Same))
  {
    BasicAs();
    FlagAs();
    ConstantsShapeAs(Num(2), Num(4), Flag());
    ConstantsAsFrom(ConstantsShape());
  }

  lemma ConstantsAsFrom(c: Codec<ConstantsParts>)
    requires As(c, ConstantsW())
    ensures As(Struct(c, ConstantsPartsOf, BuildConstants, ConstantsLen), Wire(ConstantsOut, Same))
  {
    forall x, k ensures ConstantsOut(x, k) == ConstantsW().out(ConstantsPartsOf(x), k)
                ensures x == BuildConstants(ConstantsW().back(ConstantsPartsOf(x))) {
      ConstantsIs(x, k);
    }
    StructAs(c, ConstantsW(), ConstantsPartsOf, BuildConstants, ConstantsLen, Wire(ConstantsOut, Same));
  }

  function CubeOut(q: QosCube, k: seq<Octet>): seq<Octet> {
    N2(q.id, N4(q.avgBw, N4(q.avgSduBw, N4(q.peakBw, N4(q.peakSduBw, Bit(q.partialDelivery, Bit(q.ordered, N4(q.maxGap,
    N4(q.delay, N4(q.jitter, N2(q.loss, TextBytes(q.name, PtrOut(DtpOut, q.dtp, PtrOut(DtcpOut, q.dtcp, k))))))))))))))
  }

  function CubeBack(q: QosCube): QosCube {
    q.(name := TextSeen(q.name), dtp := PtrBack(DtpBack, q.dtp), dtcp := PtrBack(DtcpBack, q.dtcp))
  }

  function CubeNumsW(): Wire<CubeNumbers> { ThreeW(FourW(W2, W4, W4, W4), FourW(W4, WBit, WBit, W4), ThreeW(W4, W4, W2)) }

  function CubeW(): Wire<CubeParts> { FourW(CubeNumsW(), WText, PtrW(WDtp), PtrW(WDtcp)) }

  lemma CubeNumsAs(n2: Codec<nat>, n4: Codec<nat>, flag: Codec<bool>)
    requires As(n2, W2) && As(n4, W4) && As(flag, WBit)
    ensures As(Three(Four(n2, n4, n4, n4), Four(n4, flag, flag, n4), Three(n4, n4, n2)), CubeNumsW())
  {
    FourAs(n2, W2, n4, W4, n4, W4, n4, W4);
    FourAs(n4, W4, flag, WBit, flag, WBit, n4, W4);
    ThreeAs(n4, W4, n4, W4, n2, W2);
    ThreeAs(Four(n2, n4, n4, n4), FourW(W2, W4, W4, W4), Four(n4, flag, flag, n4), FourW(W4, WBit, WBit, W4),
            Three(n4, n4, n2), ThreeW(W4, W4, W2));
  }

  lemma CubeIs(q: QosCube, k: seq<Octet>)
    ensures CubeOut(q, k) == CubeW().out(CubePartsOf(q), k) && CubeBack(q) == BuildCube(CubeW().back(CubePartsOf(q)))
  {
  }

  lemma CubeAsFrom(nums: Codec<CubeNumbers>, text: Codec<Text>, dtp: Codec<Option<DtpConfig>>, dtcp: Codec<Option<DtcpConfig>>)
    requires As(nums, CubeNumsW()) && As(text, WText) && As(dtp, PtrW(WDtp)) && As(dtcp, PtrW(WDtcp))
    ensures As(Struct(Four(nums, text, dtp, dtcp), CubePartsOf, BuildCube, CubeLen), Wire(CubeOut, CubeBack))
  {
    FourAs(nums, CubeNumsW(), text, WText, dtp, PtrW(WDtp), dtcp, PtrW(WDtcp));
    forall q, k ensures CubeOut(q, k) == CubeW().out(CubePartsOf(q), k) && CubeBack(q) == BuildCube(CubeW().back(CubePartsOf(q))) {
      CubeIs(q, k);
    }
    StructAs(Four(nums, text, dtp, dtcp), CubeW(), CubePartsOf, BuildCube, CubeLen, Wire(CubeOut, CubeBack));
  }

  lemma CubeAs()
    ensures As(Cubes(), Wire(CubeOut, CubeBack))
  {
    BasicAs();
    FlagAs();
    CubeNumsAs(Num(2), Num(4), Flag());
    DtpAs();
    DtcpAs();
    PtrAs(DtpConfigs(), WDtp);
    PtrAs(DtcpConfigs(), WDtcp);
    CubeAsFrom(CubeNums(), Str(), Ptr(DtpConfigs()), Ptr(DtcpConfigs()));
  }

  // ---------------------------------------------------------------- EFCP

  function CubePtrOut(q: Option<QosCube>, k: seq<Octet>): seq<Octet> { PtrOut(CubeOut, q, k) }

  function CubePtrBack(q: Option<QosCube>): Option<QosCube> { PtrBack(CubeBack, q) }

  function EfcpOut(e: EfcpConfig, k: seq<Octet>): seq<Octet> {
    PtrOut(ConstantsOut, e.constants, Pol1(e.unknownFlow, TableBytes(e.offsetTable, ListBytes(CubePtrOut, e.cubes, k))))
  }

  function EfcpBack(e: EfcpConfig): EfcpConfig { e.(unknownFlow := PolSeen(e.unknownFlow), cubes := Seen(CubePtrBack, e.cubes)) }

  const WConstants := Wire(ConstantsOut, Same)
  const WTable := Wire(TableBytes, Same)
  const WCubePtr := Wire(CubePtrOut, CubePtrBack)

  lemma EfcpAsFrom(
      consts: Codec<Option<Constants>>, pol: Codec<Option<Policy>>, table: Codec<Option<nat>>, cubes: Codec<seq<Option<QosCube>>>)
    requires As(consts, PtrW(WConstants)) && As(pol, WPol) && As(table, WTable) && As(cubes, ListW(WCubePtr))
    ensures As(Struct(Four(consts, pol, table, cubes), EfcpPartsOf, BuildEfcp, EfcpLen), Wire(EfcpOut, EfcpBack))
  {
    FourAs(consts, PtrW(WConstants), pol, WPol, table, WTable, cubes, ListW(WCubePtr));
    StructAs(Four(consts, pol, table, cubes), FourW(PtrW(WConstants), WPol, WTable, ListW(WCubePtr)), EfcpPartsOf, BuildEfcp, EfcpLen,
             Wire(EfcpOut, EfcpBack));
  }

  lemma CubeListAsFrom(c: Codec<QosCube>)
    requires As(c, Wire(CubeOut, CubeBack))
    ensures As(ListOf(Ptr(c)), ListW(WCubePtr))
  {
    PtrAs(c, Wire(CubeOut, CubeBack));
    assert As(Ptr(c), WCubePtr);
    ListAs(Ptr(c), WCubePtr);
  }

  lemma CubeListAs()
    ensures As(CubeList(), ListW(WCubePtr))
  {
    CubeAs();
    CubeListAsFrom(Cubes());
  }

  lemma TableAs()
    ensures As(Table(), WTable)
  {
  }

  lemma EfcpAsOf(cubes: Codec<seq<Option<QosCube>>>)
    requires As(cubes, ListW(WCubePtr))
    ensures As(Struct(Four(Ptr(AllConstants()), Pol(), Table(), cubes), EfcpPartsOf, BuildEfcp, EfcpLen), Wire(EfcpOut, EfcpBack))
  {
    ConstantsAs();
    PtrAs(AllConstants(), WConstants);
    PolAs();
    TableAs();
    EfcpAsFrom(Ptr(AllConstants()), Pol(), Table(), cubes);
  }

  lemma EfcpAs()
    ensures As(Efcps(), Wire(EfcpOut, EfcpBack))
  {
    CubeListAs();
    EfcpAsOf(CubeList());
  }

  // ---------------------------------------------------------------- the other components

  function OnePolicyOut(c: OnePolicy, k: seq<Octet>): seq<Octet> { Pol1(c.ps, k) }

  function OnePolicyBack(c: OnePolicy): OnePolicy { OnePolicy(PolSeen(c.ps)) }

  const WOnePolicy := Wire(OnePolicyOut, OnePolicyBack)

  lemma OnePolicyAs()
    ensures As(OnePolicies(), WOnePolicy)
  {
    PolAs();
    StructAs(Pol(), WPol, OnePolicyPart, BuildOnePolicy, OnePolicyLen, WOnePolicy);
  }

  function RmtOut(r: RmtConfig, k: seq<Octet>): seq<Octet> { Pol1(r.ps, PtrOut(OnePolicyOut, r.pff, k)) }

  function RmtBack(r: RmtConfig): RmtConfig { RmtConfig(PolSeen(r.ps), PtrBack(OnePolicyBack, r.pff)) }

  lemma RmtAsFrom(pol: Codec<Option<Policy>>, pff: Codec<Option<OnePolicy>>)
    requires As(pol, WPol) && As(pff, PtrW(WOnePolicy))
    ensures As(Struct(Two(pol, pff), RmtParts, BuildRmt, RmtLen), Wire(RmtOut, RmtBack))
  {
    TwoAs(pol, WPol, pff, PtrW(WOnePolicy));
    StructAs(Two(pol, pff), TwoW(WPol, PtrW(WOnePolicy)), RmtParts, BuildRmt, RmtLen, Wire(RmtOut, RmtBack));
  }

  lemma RmtAs()
    ensures As(Rmts(), Wire(RmtOut, RmtBack))
  {
    PolAs();
    OnePolicyAs();
    PtrAs(OnePolicies(), WOnePolicy);
    RmtAsFrom(Pol(), Ptr(OnePolicies()));
  }

  function FaOut(f: FaConfig, k: seq<Octet>): seq<Octet> {
    N4(f.maxCreateFlowRetries, Pol1(f.allocateNotify, Pol1(f.allocateRetry, Pol1(f.newFlowReq, Pol1(f.ps, Pol1(f.seqRollOver, k))))))
  }

  function FaBack(f: FaConfig): FaConfig {
    f.(allocateNotify := PolSeen(f.allocateNotify), allocateRetry := PolSeen(f.allocateRetry), newFlowReq := PolSeen(f.newFlowReq),
       ps := PolSeen(f.ps), seqRollOver := PolSeen(f.seqRollOver))
  }

  lemma FaAsFrom(n4: Codec<nat>, pol: Codec<Option<Policy>>)
    requires As(n4, W4) && As(pol, WPol)
    ensures As(Struct(Three(n4, Three(pol, pol, pol), Two(pol, pol)), FaPartsOf, BuildFa, FaLen), Wire(FaOut, FaBack))
  {
    ThreeAs(pol, WPol, pol, WPol, pol, WPol);
    TwoAs(pol, WPol, pol, WPol);
    ThreeAs(n4, W4, Three(pol, pol, pol), ThreeW(WPol, WPol, WPol), Two(pol, pol), TwoW(WPol, WPol));
    StructAs(Three(n4, Three(pol, pol, pol), Two(pol, pol)), ThreeW(W4, ThreeW(WPol, WPol, WPol), TwoW(WPol, WPol)),
             FaPartsOf, BuildFa, FaLen, Wire(FaOut, FaBack));
  }

  lemma FaAs()
    ensures As(Fas(), Wire(FaOut, FaBack))
  {
    BasicAs();
    PolAs();
    FaAsFrom(Num(4), Pol());
  }

  // ---------------------------------------------------------------- addressing

  function StaticAddrOut(a: StaticAddr, k: seq<Octet>): seq<Octet> { N4(a.address, TextBytes(a.apName, TextBytes(a.apInstance, k))) }

  function StaticAddrBack(a: StaticAddr): StaticAddr { StaticAddr(a.address, TextSeen(a.apName), TextSeen(a.apInstance)) }

  function PrefixOut(p: Prefix, k: seq<Octet>): seq<Octet> { N4(p.prefix, TextBytes(p.org, k)) }

  function PrefixBack(p: Prefix): Prefix { Prefix(p.prefix, TextSeen(p.org)) }

  function AddrPtrOut(a: Option<StaticAddr>, k: seq<Octet>): seq<Octet> { PtrOut(StaticAddrOut, a, k) }

  function AddrPtrBack(a: Option<StaticAddr>): Option<StaticAddr> { PtrBack(StaticAddrBack, a) }

  function PrefixPtrOut(p: Option<Prefix>, k: seq<Octet>): seq<Octet> { PtrOut(PrefixOut, p, k) }

  function PrefixPtrBack(p: Option<Prefix>): Option<Prefix> { PtrBack(PrefixBack, p) }

  function AddressingOut(a: Addressing, k: seq<Octet>): seq<Octet> { ListBytes(AddrPtrOut, a.addrs, ListBytes(PrefixPtrOut, a.prefixes, k)) }

  function AddressingBack(a: Addressing): Addressing { Addressing(Seen(AddrPtrBack, a.addrs), Seen(PrefixPtrBack, a.prefixes)) }

  const WAddrPtr := Wire(AddrPtrOut, AddrPtrBack)
  const WPrefixPtr := Wire(PrefixPtrOut, PrefixPtrBack)
  const WAddressing := Wire(AddressingOut, AddressingBack)

  lemma StaticAddrAsFrom(n4: Codec<nat>, text: Codec<Text>)
    requires As(n4, W4) && As(text, WText)
    ensures As(Struct(Three(n4, text, text), StaticAddrParts, BuildStaticAddr, StaticAddrLen), Wire(StaticAddrOut, StaticAddrBack))
    ensures As(Struct(Two(n4, text), PrefixParts, BuildPrefix, PrefixLen), Wire(PrefixOut, PrefixBack))
  {
    ThreeAs(n4, W4, text, WText, text, WText);
    StructAs(Three(n4, text, text), ThreeW(W4, WText, WText), StaticAddrParts, BuildStaticAddr, StaticAddrLen,
             Wire(StaticAddrOut, StaticAddrBack));
    TwoAs(n4, W4, text, WText);
    StructAs(Two(n4, text), TwoW(W4, WText), PrefixParts, BuildPrefix, PrefixLen, Wire(PrefixOut, PrefixBack));
  }

  lemma AddressListsAs()
    ensures As(ListOf(Ptr(StaticAddrs())), ListW(WAddrPtr)) && As(ListOf(Ptr(Prefixes())), ListW(WPrefixPtr))
  {
    BasicAs();
    StaticAddrAsFrom(Num(4), Str());
    PtrAs(StaticAddrs(), Wire(StaticAddrOut, StaticAddrBack));
    PtrAs(Prefixes(), Wire(PrefixOut, PrefixBack));
    assert As(Ptr(StaticAddrs()), WAddrPtr) && As(Ptr(Prefixes()), WPrefixPtr);
    ListAs(Ptr(StaticAddrs()), WAddrPtr);
    ListAs(Ptr(Prefixes()), WPrefixPtr);
  }

  lemma AddressingAsFrom(addrs: Codec<seq<Option<StaticAddr>>>, prefixes: Codec<seq<Option<Prefix>>>)
    requires As(addrs, ListW(WAddrPtr)) && As(prefixes, ListW(WPrefixPtr))
    ensures As(Struct(Two(addrs, prefixes), AddressingParts, BuildAddressing, AddressingLen), WAddressing)
  {
    TwoAs(addrs, ListW(WAddrPtr), prefixes, ListW(WPrefixPtr));
    StructAs(Two(addrs, prefixes), TwoW(ListW(WAddrPtr), ListW(WPrefixPtr)), AddressingParts, BuildAddressing, AddressingLen, WAddressing);
  }

  lemma AddressingAs()
    ensures As(Addressings(), WAddressing)
  {
    AddressListsAs();
    AddressingAsFrom(ListOf(Ptr(StaticAddrs())), ListOf(Ptr(Prefixes())));
  }

  function NsmOut(n: NsmConfig, k: seq<Octet>): seq<Octet> { Pol1(n.ps, PtrOut(AddressingOut, n.addressing, k)) }

  function NsmBack(n: NsmConfig): NsmConfig { NsmConfig(PolSeen(n.ps), PtrBack(AddressingBack, n.addressing)) }

  lemma NsmAsFrom(pol: Codec<Option<Policy>>, a: Codec<Option<Addressing>>)
    requires As(pol, WPol) && As(a, PtrW(WAddressing))
    ensures As(Struct(Two(pol, a), NsmParts, BuildNsm, NsmLen), Wire(NsmOut, NsmBack))
  {
    TwoAs(pol, WPol, a, PtrW(WAddressing));
    StructAs(Two(pol, a), TwoW(WPol, PtrW(WAddressing)), NsmParts, BuildNsm, NsmLen, Wire(NsmOut, NsmBack));
  }

  lemma NsmAs()
    ensures As(Nsms(), Wire(NsmOut, NsmBack))
  {
    PolAs();
    AddressingAs();
    PtrAs(Addressings(), WAddressing);
    NsmAsFrom(Pol(), Ptr(Addressings()));
  }

  // ---------------------------------------------------------------- security

  function ProfileOut(p: Profile, k: seq<Octet>): seq<Octet> { Pol1(p.auth, Pol1(p.encrypt, Pol1(p.crc, Pol1(p.ttl, k)))) }

  function ProfileBack(p: Profile): Profile { Profile(PolSeen(p.auth), PolSeen(p.encrypt), PolSeen(p.crc), PolSeen(p.ttl)) }

  function NamedProfileOut(p: NamedProfile, k: seq<Octet>): seq<Octet> { TextBytes(p.0, PtrOut(ProfileOut, p.1, k)) }

  function NamedProfileBack(p: NamedProfile): NamedProfile { (TextSeen(p.0), PtrBack(ProfileBack, p.1)) }

  function SecmanOut(s: SecmanConfig, k: seq<Octet>): seq<Octet> {
    Pol1(s.ps, PtrOut(ProfileOut, s.defaultProfile, ListBytes(NamedProfileOut, s.specific, k)))
  }

  function SecmanBack(s: SecmanConfig): SecmanConfig {
    SecmanConfig(PolSeen(s.ps), PtrBack(ProfileBack, s.defaultProfile), Seen(NamedProfileBack, s.specific))
  }

  const WProfile := Wire(ProfileOut, ProfileBack)
  const WNamed := Wire(NamedProfileOut, NamedProfileBack)

  lemma ProfileAsFrom(pol: Codec<Option<Policy>>)
    requires As(pol, WPol)
    ensures As(Struct(Four(pol, pol, pol, pol), ProfileParts, BuildProfile, ProfileLen), WProfile)
  {
    FourAs(pol, WPol, pol, WPol, pol, WPol, pol, WPol);
    StructAs(Four(pol, pol, pol, pol), FourW(WPol, WPol, WPol, WPol), ProfileParts, BuildProfile, ProfileLen, WProfile);
  }

  lemma NamedAsFrom(text: Codec<Text>, c: Codec<Option<Profile>>)
    requires As(text, WText) && As(c, PtrW(WProfile))
    ensures As(Two(text, c), WNamed)
  {
    TwoAs(text, WText, c, PtrW(WProfile));
  }

  lemma SecmanAsFrom(pol: Codec<Option<Policy>>, c: Codec<Option<Profile>>, list: Codec<seq<NamedProfile>>)
    requires As(pol, WPol) && As(c, PtrW(WProfile)) && As(list, ListW(WNamed))
    ensures As(Struct(Three(pol, c, list), SecmanPartsOf, BuildSecman, SecmanLen), Wire(SecmanOut, SecmanBack))
  {
    ThreeAs(pol, WPol, c, PtrW(WProfile), list, ListW(WNamed));
    StructAs(Three(pol, c, list), ThreeW(WPol, PtrW(WProfile), ListW(WNamed)), SecmanPartsOf, BuildSecman, SecmanLen,
             Wire(SecmanOut, SecmanBack));
  }

  lemma SecmanAs()
    ensures As(Secmans(), Wire(SecmanOut, SecmanBack))
  {
    PolAs();
    BasicAs();
    ProfileAsFrom(Pol());
    PtrAs(Profiles(), WProfile);
    NamedAsFrom(Str(), Ptr(Profiles()));
    ListAs(NamedProfiles(), WNamed);
    SecmanAsFrom(Pol(), Ptr(Profiles()), ListOf(NamedProfiles()));
  }

  // ---------------------------------------------------------------- the configuration of a DIF

  function EntryOut(e: Option<ConfigEntry>, k: seq<Octet>): seq<Octet> {
    if e.Some? then TextBytes(e.value.name, TextBytes(e.value.value, k)) else k
  }

  function EntryBack(e: Option<ConfigEntry>): Option<ConfigEntry> {
    if e.Some? then Some(ConfigEntry(TextSeen(e.value.name), TextSeen(e.value.value))) else None
  }

  const WEntry := Wire(EntryOut, EntryBack)

  lemma EntryAsFrom(text: Codec<Text>)
    requires As(text, WText)
    ensures As(Ptr(Struct(Two(text, text), ConfigEntryParts, BuildConfigEntry, ConfigEntryLen)), WEntry)
  {
    var w := Wire((e: ConfigEntry, k: seq<Octet>) => TextBytes(e.name, TextBytes(e.value, k)),
                  (e: ConfigEntry) => ConfigEntry(TextSeen(e.name), TextSeen(e.value)));
    TwoAs(text, WText, text, WText);
    StructAs(Two(text, text), TwoW(WText, WText), ConfigEntryParts, BuildConfigEntry, ConfigEntryLen, w);
    PtrAs(Struct(Two(text, text), ConfigEntryParts, BuildConfigEntry, ConfigEntryLen), w);
  }

  function DifOut(d: DifConfig, k: seq<Octet>): seq<Octet> {
    N4(d.address, ListBytes(EntryOut, d.entries, PtrOut(EfcpOut, d.efcp, PtrOut(RmtOut, d.rmt, PtrOut(FaOut, d.fa,
    PtrOut(OnePolicyOut, d.et, PtrOut(NsmOut, d.nsm, PtrOut(OnePolicyOut, d.routing, PtrOut(OnePolicyOut, d.resall,
    PtrOut(SecmanOut, d.secman, k))))))))))
  }

  function DifBack(d: DifConfig): DifConfig {
    DifConfig(d.address, Seen(EntryBack, d.entries), PtrBack(EfcpBack, d.efcp), PtrBack(RmtBack, d.rmt), PtrBack(FaBack, d.fa),
              PtrBack(OnePolicyBack, d.et), PtrBack(NsmBack, d.nsm), PtrBack(OnePolicyBack, d.routing),
              PtrBack(OnePolicyBack, d.resall), PtrBack(SecmanBack, d.secman))
  }

  function UpperW(): Wire<DifUpper> {
    FourW(PtrW(Wire(EfcpOut, EfcpBack)), PtrW(Wire(RmtOut, RmtBack)), PtrW(Wire(FaOut, FaBack)), PtrW(WOnePolicy))
  }

  function LowerW(): Wire<DifLower> {
    FourW(PtrW(Wire(NsmOut, NsmBack)), PtrW(WOnePolicy), PtrW(WOnePolicy), PtrW(Wire(SecmanOut, SecmanBack)))
  }

  lemma UpperAsFrom(a: Codec<EfcpConfig>, b: Codec<RmtConfig>, c: Codec<FaConfig>, d: Codec<OnePolicy>)
    requires As(a, Wire(EfcpOut, EfcpBack)) && As(b, Wire(RmtOut, RmtBack)) && As(c, Wire(FaOut, FaBack)) && As(d, WOnePolicy)
    ensures As(Four(Ptr(a), Ptr(b), Ptr(c), Ptr(d)), UpperW())
  {
    PtrAs(a, Wire(EfcpOut, EfcpBack));
    PtrAs(b, Wire(RmtOut, RmtBack));
    PtrAs(c, Wire(FaOut, FaBack));
    PtrAs(d, WOnePolicy);
    FourAs(Ptr(a), PtrW(Wire(EfcpOut, EfcpBack)), Ptr(b), PtrW(Wire(RmtOut, RmtBack)), Ptr(c), PtrW(Wire(FaOut, FaBack)),
           Ptr(d), PtrW(WOnePolicy));
  }

  lemma LowerAsFrom(a: Codec<NsmConfig>, b: Codec<OnePolicy>, d: Codec<SecmanConfig>)
    requires As(a, Wire(NsmOut, NsmBack)) && As(b, WOnePolicy) && As(d, Wire(SecmanOut, SecmanBack))
    ensures As(Four(Ptr(a), Ptr(b), Ptr(b), Ptr(d)), LowerW())
  {
    PtrAs(a, Wire(NsmOut, NsmBack));
    PtrAs(b, WOnePolicy);
    PtrAs(d, Wire(SecmanOut, SecmanBack));
    FourAs(Ptr(a), PtrW(Wire(NsmOut, NsmBack)), Ptr(b), PtrW(WOnePolicy), Ptr(b), PtrW(WOnePolicy), Ptr(d), PtrW(Wire(SecmanOut, SecmanBack)));
  }

  lemma UpperAsOf(efcp: Codec<EfcpConfig>)
    requires As(efcp, Wire(EfcpOut, EfcpBack))
    ensures As(Four(Ptr(efcp), Ptr(Rmts()), Ptr(Fas()), Ptr(OnePolicies())), UpperW())
  {
    RmtAs();
    FaAs();
    OnePolicyAs();
    UpperAsFrom(efcp, Rmts(), Fas(), OnePolicies());
  }

  lemma UpperAs()
    ensures As(Upper(), UpperW())
  {
    EfcpAs();
    UpperAsOf(Efcps());
  }

  lemma LowerAs()
    ensures As(Lower(), LowerW())
  {
    NsmAs();
    OnePolicyAs();
    SecmanAs();
    LowerAsFrom(Nsms(), OnePolicies(), Secmans());
  }

  function DifW(): Wire<DifParts> { FourW(W4, ListW(WEntry), UpperW(), LowerW()) }

  lemma DifIs(d: DifConfig, k: seq<Octet>)
    ensures DifOut(d, k) == DifW().out(DifPartsOf(d), k) && DifBack(d) == BuildDif(DifW().back(DifPartsOf(d)))
  {
  }

  lemma DifAsFrom(n4: Codec<nat>, entries: Codec<seq<Option<ConfigEntry>>>, upper: Codec<DifUpper>, lower: Codec<DifLower>)
    requires As(n4, W4) && As(entries, ListW(WEntry)) && As(upper, UpperW()) && As(lower, LowerW())
    ensures As(Struct(Four(n4, entries, upper, lower), DifPartsOf, BuildDif, DifLen), Wire(DifOut, DifBack))
  {
    FourAs(n4, W4, entries, ListW(WEntry), upper, UpperW(), lower, LowerW());
    forall d, k ensures DifOut(d, k) == DifW().out(DifPartsOf(d), k) && DifBack(d) == BuildDif(DifW().back(DifPartsOf(d))) {
      DifIs(d, k);
    }
    StructAs(Four(n4, entries, upper, lower), DifW(), DifPartsOf, BuildDif, DifLen, Wire(DifOut, DifBack));
  }

  lemma EntriesAs()
    ensures As(ListOf(Ptr(ConfigEntries())), ListW(WEntry))
  {
    BasicAs();
    EntryAsFrom(Str());
    ListAs(Ptr(ConfigEntries()), WEntry);
  }

  lemma DifAsOf(upper: Codec<DifUpper>, lower: Codec<DifLower>)
    requires As(upper, UpperW()) && As(lower, LowerW())
    ensures As(Struct(Four(Num(4), ListOf(Ptr(ConfigEntries())), upper, lower), DifPartsOf, BuildDif, DifLen), Wire(DifOut, DifBack))
  {
    BasicAs();
    EntriesAs();
    DifAsFrom(Num(4), ListOf(Ptr(ConfigEntries())), upper, lower);
  }

  lemma DifAs()
    ensures As(Difs(), Wire(DifOut, DifBack))
  {
    UpperAs();
    LowerAs();
    DifAsOf(Upper(), Lower());
  }

  // ---------------------------------------------------------------- keys

  function CryptoOut(c: CryptoState, k: seq<Octet>): seq<Octet> {
    Bit(c.enableRx, Bit(c.enableTx, N4(c.portId, TextBytes(c.compressAlg, TextBytes(c.encAlg, TextBytes(c.macAlg,
    BufferBytes(c.encryptKeyRx, BufferBytes(c.encryptKeyTx, BufferBytes(c.ivRx, BufferBytes(c.ivTx,
    BufferBytes(c.macKeyRx, BufferBytes(c.macKeyTx, k))))))))))))
  }

  function CryptoBack(c: CryptoState): CryptoState {
    c.(compressAlg := TextSeen(c.compressAlg), encAlg := TextSeen(c.encAlg), macAlg := TextSeen(c.macAlg),
       encryptKeyRx := BufferSeen(c.encryptKeyRx), encryptKeyTx := BufferSeen(c.encryptKeyTx), ivRx := BufferSeen(c.ivRx),
       ivTx := BufferSeen(c.ivTx), macKeyRx := BufferSeen(c.macKeyRx), macKeyTx := BufferSeen(c.macKeyTx))
  }

  const WBuffer := Wire(BufferBytes, BufferSeen)

  function CryptoW(): Wire<CryptoParts> {
    FourW(ThreeW(WBit, WBit, W4), ThreeW(WText, WText, WText), ThreeW(WBuffer, WBuffer, WBuffer), ThreeW(WBuffer, WBuffer, WBuffer))
  }

  lemma CryptoIs(c: CryptoState, k: seq<Octet>)
    ensures CryptoOut(c, k) == CryptoW().out(CryptoPartsOf(c), k) && CryptoBack(c) == BuildCrypto(CryptoW().back(CryptoPartsOf(c)))
  {
  }

  lemma CryptoShapeAs(n4: Codec<nat>, flag: Codec<bool>, text: Codec<Text>, buffer: Codec<Buffer>)
    requires As(n4, W4) && As(flag, WBit) && As(text, WText) && As(buffer, WBuffer)
    ensures As(Four(Three(flag, flag, n4), Three(text, text, text), Three(buffer, buffer, buffer), Three(buffer, buffer, buffer)), CryptoW())
  {
    ThreeAs(flag, WBit, flag, WBit, n4, W4);
    ThreeAs(text, WText, text, WText, text, WText);
    ThreeAs(buffer, WBuffer, buffer, WBuffer, buffer, WBuffer);
    var three := ThreeW(WBuffer, WBuffer, WBuffer);
    FourAs(Three(flag, flag, n4), ThreeW(WBit, WBit, W4), Three(text, text, text), ThreeW(WText, WText, WText),
           Three(buffer, buffer, buffer), three, Three(buffer, buffer, buffer), three);
  }

  lemma CryptoAsFrom(c: Codec<CryptoParts>)
    requires As(c, CryptoW())
    ensures As(Struct(c, CryptoPartsOf, BuildCrypto, CryptoLen), Wire(CryptoOut, CryptoBack))
  {
    forall x, k ensures CryptoOut(x, k) == CryptoW().out(CryptoPartsOf(x), k)
                ensures CryptoBack(x) == BuildCrypto(CryptoW().back(CryptoPartsOf(x))) {
      CryptoIs(x, k);
    }
    StructAs(c, CryptoW(), CryptoPartsOf, BuildCrypto, CryptoLen, Wire(CryptoOut, CryptoBack));
  }

  lemma CryptoAs()
    ensures As(Cryptos(), Wire(CryptoOut, CryptoBack))
  {
    BasicAs();
    FlagAs();
    assert As(Buffers(), WBuffer);
    CryptoShapeAs(Num(4), Flag(), Str(), Buffers());
    CryptoAsFrom(Four(Three(Flag(), Flag(), Num(4)), Three(Str(), Str(), Str()),
                      Three(Buffers(), Buffers(), Buffers()), Three(Buffers(), Buffers(), Buffers())));
  }

  // ---------------------------------------------------------------- properties and neighbours

  function PropertyOut(p: DifProperty, k: seq<Octet>): seq<Octet> { N2(p.maxSduSize, NameBytes(p.difName, k)) }

  function PropertyBack(p: DifProperty): DifProperty { DifProperty(p.maxSduSize, NameSeen(p.difName)) }

  function PropertiesOut(ps: seq<DifProperty>, k: seq<Octet>): seq<Octet> { ListBytes(PropertyOut, ps, k) }

  function PropertiesBack(ps: seq<DifProperty>): seq<DifProperty> { Seen(PropertyBack, ps) }

  lemma PropertyAsFrom(n2: Codec<nat>, name: Codec<Option<Name>>)
    requires As(n2, W2) && As(name, WName)
    ensures As(ListOf(Struct(Two(n2, name), PropertyParts, BuildProperty, PropertyLen)), Wire(PropertiesOut, PropertiesBack))
  {
    TwoAs(n2, W2, name, WName);
    StructAs(Two(n2, name), TwoW(W2, WName), PropertyParts, BuildProperty, PropertyLen, Wire(PropertyOut, PropertyBack));
    ListAs(Struct(Two(n2, name), PropertyParts, BuildProperty, PropertyLen), Wire(PropertyOut, PropertyBack));
  }

  lemma PropertiesAs()
    ensures As(PropertyLists(), Wire(PropertiesOut, PropertiesBack))
  {
    BasicAs();
    PropertyAsFrom(Num(2), Names());
  }

  function NeighbourOut(n: Neighbour, k: seq<Octet>): seq<Octet> {
    N4(n.address, N4(n.oldAddress, N4(n.averageRtt, N4(n.enrollAttempts, Bit(n.enrolled, N4(n.underPortId, N4(n.internPortId,
    N4(n.lastHeard, NameBytes(n.ipcpName, NameBytes(n.supDifName, ListBytes(NameBytes, n.supportingDifs, k)))))))))))
  }

  function NeighbourBack(n: Neighbour): Neighbour {
    n.(ipcpName := NameSeen(n.ipcpName), supDifName := NameSeen(n.supDifName), supportingDifs := Seen(NameSeen, n.supportingDifs))
  }

  function NeighbourPtrOut(n: Option<Neighbour>, k: seq<Octet>): seq<Octet> { PtrOut(NeighbourOut, n, k) }

  function NeighbourPtrBack(n: Option<Neighbour>): Option<Neighbour> { PtrBack(NeighbourBack, n) }

  function NeighboursOut(l: NeighbourList, k: seq<Octet>): seq<Octet> { ListBytes(NeighbourPtrOut, l, k) }

  function NeighboursBack(l: NeighbourList): NeighbourList { Seen(NeighbourPtrBack, l) }

  function NeighbourW(): Wire<NeighbourParts> {
    ThreeW(FourW(W4, W4, W4, W4), FourW(WBit, W4, W4, W4), ThreeW(WName, WName, ListW(WName)))
  }

  lemma NeighbourShapeAs(n4: Codec<nat>, flag: Codec<bool>, name: Codec<Option<Name>>)
    requires As(n4, W4) && As(flag, WBit) && As(name, WName)
    ensures As(Three(Four(n4, n4, n4, n4), Four(flag, n4, n4, n4), Three(name, name, ListOf(name))), NeighbourW())
  {
    FourAs(n4, W4, n4, W4, n4, W4, n4, W4);
    FourAs(flag, WBit, n4, W4, n4, W4, n4, W4);
    ListAs(name, WName);
    ThreeAs(name, WName, name, WName, ListOf(name), ListW(WName));
    var a, b, c := FourW(W4, W4, W4, W4), FourW(WBit, W4, W4, W4), ThreeW(WName, WName, ListW(WName));
    ThreeAs(Four(n4, n4, n4, n4), a, Four(flag, n4, n4, n4), b, Three(name, name, ListOf(name)), c);
  }

  lemma NeighbourIs(n: Neighbour, k: seq<Octet>)
    ensures NeighbourOut(n, k) == NeighbourW().out(NeighbourPartsOf(n), k)
    ensures NeighbourBack(n) == BuildNeighbour(NeighbourW().back(NeighbourPartsOf(n)))
  {
  }

  lemma NeighbourAsFrom(c: Codec<NeighbourParts>)
    requires As(c, NeighbourW())
    ensures As(Struct(c, NeighbourPartsOf, BuildNeighbour, NeighbourLen), Wire(NeighbourOut, NeighbourBack))
  {
    forall n, k ensures NeighbourOut(n, k) == NeighbourW().out(NeighbourPartsOf(n), k)
                ensures NeighbourBack(n) == BuildNeighbour(NeighbourW().back(NeighbourPartsOf(n))) {
      NeighbourIs(n, k);
    }
    StructAs(c, NeighbourW(), NeighbourPartsOf, BuildNeighbour, NeighbourLen, Wire(NeighbourOut, NeighbourBack));
  }

  lemma NeighboursAsFrom(c: Codec<Neighbour>)
    requires As(c, Wire(NeighbourOut, NeighbourBack))
    ensures As(ListOf(Ptr(c)), Wire(NeighboursOut, NeighboursBack))
  {
    PtrAs(c, Wire(NeighbourOut, NeighbourBack));
    var w := Wire(NeighbourPtrOut, NeighbourPtrBack);
    assert As(Ptr(c), w);
    ListAs(Ptr(c), w);
  }

  lemma NeighboursAs()
    ensures As(NeighbourLists(), Wire(NeighboursOut, NeighboursBack))
  {
    BasicAs();
    FlagAs();
    NeighbourShapeAs(Num(4), Flag(), Names());
    NeighbourAsFrom(Three(Four(Num(4), Num(4), Num(4), Num(4)), Four(Flag(), Num(4), Num(4), Num(4)), NeighbourTail()));
    NeighboursAsFrom(Neighbours());
  }

  // ---------------------------------------------------------------- media reports

  function BsInfoOut(b: BsInfo, k: seq<Octet>): seq<Octet> { N4(b.signalStrength, TextBytes(b.ipcpAddr, k)) }

  function BsInfoBack(b: BsInfo): BsInfo { BsInfo(b.signalStrength, TextSeen(b.ipcpAddr)) }

  function MediaInfoOut(d: MediaInfo, k: seq<Octet>): seq<Octet> {
    TextBytes(d.difName, TextBytes(d.secPolicies, ListBytes(BsInfoOut, d.stations, k)))
  }

  function MediaInfoBack(d: MediaInfo): MediaInfo { MediaInfo(TextSeen(d.difName), TextSeen(d.secPolicies), Seen(BsInfoBack, d.stations)) }

  function MediaDifOut(d: MediaDif, k: seq<Octet>): seq<Octet> { TextBytes(d.key, PtrOut(MediaInfoOut, d.info, k)) }

  function MediaDifBack(d: MediaDif): MediaDif { MediaDif(TextSeen(d.key), PtrBack(MediaInfoBack, d.info)) }

  function ReportOut(r: MediaReport, k: seq<Octet>): seq<Octet> {
    N2(r.ipcpId, TextBytes(r.difName, TextBytes(r.bsIpcpAddr, ListBytes(MediaDifOut, r.difs, k))))
  }

  function ReportBack(r: MediaReport): MediaReport {
    MediaReport(r.ipcpId, TextSeen(r.difName), TextSeen(r.bsIpcpAddr), Seen(MediaDifBack, r.difs))
  }

  const WBsInfo := Wire(BsInfoOut, BsInfoBack)
  const WMediaInfo := Wire(MediaInfoOut, MediaInfoBack)
  const WMediaDif := Wire(MediaDifOut, MediaDifBack)

  lemma BsInfoAsFrom(n4: Codec<nat>, text: Codec<Text>)
    requires As(n4, W4) && As(text, WText)
    ensures As(Struct(Two(n4, text), BsInfoParts, BuildBsInfo, BsInfoLen), WBsInfo)
  {
    TwoAs(n4, W4, text, WText);
    StructAs(Two(n4, text), TwoW(W4, WText), BsInfoParts, BuildBsInfo, BsInfoLen, WBsInfo);
  }

  lemma MediaInfoAsFrom(text: Codec<Text>, list: Codec<seq<BsInfo>>)
    requires As(text, WText) && As(list, ListW(WBsInfo))
    ensures As(Struct(Three(text, text, list), MediaInfoParts, BuildMediaInfo, MediaInfoLen), WMediaInfo)
  {
    ThreeAs(text, WText, text, WText, list, ListW(WBsInfo));
    StructAs(Three(text, text, list), ThreeW(WText, WText, ListW(WBsInfo)), MediaInfoParts, BuildMediaInfo, MediaInfoLen, WMediaInfo);
  }

  lemma MediaDifAsFrom(text: Codec<Text>, info: Codec<Option<MediaInfo>>)
    requires As(text, WText) && As(info, PtrW(WMediaInfo))
    ensures As(Struct(Two(text, info), MediaDifParts, BuildMediaDif, MediaDifLen), WMediaDif)
  {
    TwoAs(text, WText, info, PtrW(WMediaInfo));
    StructAs(Two(text, info), TwoW(WText, PtrW(WMediaInfo)), MediaDifParts, BuildMediaDif, MediaDifLen, WMediaDif);
  }

  lemma ReportAsFrom(n2: Codec<nat>, text: Codec<Text>, list: Codec<seq<MediaDif>>)
    requires As(n2, W2) && As(text, WText) && As(list, ListW(WMediaDif))
    ensures As(Struct(Four(n2, text, text, list), ReportPartsOf, BuildReport, MediaReportLen), Wire(ReportOut, ReportBack))
  {
    FourAs(n2, W2, text, WText, text, WText, list, ListW(WMediaDif));
    StructAs(Four(n2, text, text, list), FourW(W2, WText, WText, ListW(WMediaDif)), ReportPartsOf, BuildReport, MediaReportLen,
             Wire(ReportOut, ReportBack));
  }

  lemma MediaDifAs()
    ensures As(MediaDifs(), WMediaDif)
  {
    BasicAs();
    BsInfoAsFrom(Num(4), Str());
    ListAs(BsInfos(), WBsInfo);
    MediaInfoAsFrom(Str(), ListOf(BsInfos()));
    PtrAs(MediaInfos(), WMediaInfo);
    MediaDifAsFrom(Str(), Ptr(MediaInfos()));
  }

  lemma ReportAs()
    ensures As(MediaReports(), Wire(ReportOut, ReportBack))
  {
    BasicAs();
    MediaDifAs();
    ListAs(MediaDifs(), WMediaDif);
    ReportAsFrom(Num(2), Str(), ListOf(MediaDifs()));
  }
}
