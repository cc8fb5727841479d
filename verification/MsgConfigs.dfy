/**
 The configurations that control messages carry: flow specifications, and those of data transfer (DTP), of
 data-transfer control (DTCP) and of whole DIFs. Each structure lists its parts in the order in which they are
 written and is put together in the order in which they are read, which for one structure is not the same.
 */
module MsgConfigs {
  import opened EfcpTypes
  import opened PciAccess
  import opened MsgCodec
  import opened MsgCombine

  // ---------------------------------------------------------------- policies

  predicate PolicyFits(p: Policy) { |p.params| < 0x1_0000 }

  function Policies(): Codec<Policy> {
    Codec(PolicyBytes, ReadPolicy, (p: Policy) => About(PolicySeen(p), PolicyLen(p), true, PolicyFits(p), true))
  }

  /** A pointer to a policy. */
  function Pol(): Codec<Option<Policy>> {
    Ptr(Policies())
  }

  function PolLen(p: Option<Policy>): nat { if p.Some? then PolicyLen(p.value) else 0 }

  function PolSeen(p: Option<Policy>): Option<Policy> { if p.Some? then Some(PolicySeen(p.value)) else None }

  ghost predicate PolicyPtr(pol: Codec<Option<Policy>>) {
    Measured(pol, PolLen) && forall p: Option<Policy> :: pol.seen(p) == PolSeen(p) && (pol.whole(p) <==> p.Some?)
  }

  lemma ReadPolicyFits(bs: seq<Octet>)
    ensures ReadPolicy(bs).Done? ==> PolicyFits(ReadPolicy(bs).value)
  {
    if ReadText(bs).Done? && ReadText(ReadText(bs).rest).Done? {
      ReadListFits(ReadParm, Always, ReadText(ReadText(bs).rest).rest);
    }
  }

  lemma PoliciesLawful()
    ensures Lawful(Policies()) && AlwaysExact(Policies())
  {
    var c := Policies();
    forall p, k
      ensures |PolicyBytes(p, k)| == PolicyLen(p) + |k| && (PolicyFits(p) ==> ReadPolicy(PolicyBytes(p, k)) == Done(PolicySeen(p), k))
    {
      PolicyRoundTrip(p, k);
    }
    forall bs ensures c.read(bs).Done? ==> Good(c, c.read(bs).value) { ReadPolicyFits(bs); }
    LawfulFrom(c);
  }

  lemma PolLawful()
    ensures PolicyPtr(Pol())
  {
    PoliciesLawful();
    WhenLawful(Policies(), true);
  }

  // ---------------------------------------------------------------- flow specifications

  datatype FlowSpec = FlowSpec(
    avgBandwidth: nat, avgSduBandwidth: nat, delay: nat, jitter: nat, loss: nat, maxGap: nat, maxSduSize: nat,
    ordered: bool, partialDelivery: bool, peakBandwidth: nat, peakSduBandwidth: nat, bitErrorRate: nat, boundaries: bool)

  type FlowParts = ((nat, nat, nat, nat), (nat, nat, nat, bool), (bool, nat, nat), (nat, bool))

  function FlowSpecParts(f: FlowSpec): FlowParts {
    ((f.avgBandwidth, f.avgSduBandwidth, f.delay, f.jitter), (f.loss, f.maxGap, f.maxSduSize, f.ordered),
     (f.partialDelivery, f.peakBandwidth, f.peakSduBandwidth), (f.bitErrorRate, f.boundaries))
  }

  function BuildFlowSpec(p: FlowParts): FlowSpec {
    FlowSpec(p.0.0, p.0.1, p.0.2, p.0.3, p.1.0, p.1.1, p.1.2, p.1.3, p.2.0, p.2.1, p.2.2, p.3.0, p.3.1)
  }

  function FlowSpecLen(f: FlowSpec): nat { 8 * 4 + 4 + 2 + 3 * 1 }

  function FlowShape(): Codec<FlowParts> {
    var n4, n2, flag := Num(4), Num(2), Flag();
    Four(Four(n4, n4, n4, n4), Four(n2, n4, n4, flag), Three(flag, n4, n4), Two(n4, flag))
  }

  function FlowSpecs(): Codec<FlowSpec> { Struct(FlowShape(), FlowSpecParts, BuildFlowSpec, FlowSpecLen) }

  lemma FlowShapePlain()
    ensures Plain(FlowShape(), 41)
  {
    var n4, n2, flag := Num(4), Num(2), Flag();
    NumPlain(4);
    NumPlain(2);
    FlagPlain();
    FourPlain(n4, 4, n4, 4, n4, 4, n4, 4);
    FourPlain(n2, 2, n4, 4, n4, 4, flag, 1);
    ThreePlain(flag, 1, n4, 4, n4, 4);
    TwoPlain(n4, 4, flag, 1);
    FourPlain(Four(n4, n4, n4, n4), 16, Four(n2, n4, n4, flag), 11, Three(flag, n4, n4), 9, Two(n4, flag), 5);
  }

  lemma FlowSpecsPlain()
    ensures Plain(FlowSpecs(), 41)
  {
    FlowShapePlain();
    StructPlain(FlowShape(), FlowSpecParts, BuildFlowSpec, FlowSpecLen, 41);
  }

  // ---------------------------------------------------------------- data transfer

  datatype DtpConfig = DtpConfig(
    dtcpPresent: bool, seqNumRoTh: nat, initialATimer: nat, partialDelivery: bool, incomplete: bool, inOrder: bool,
    maxSduGap: nat, ps: Option<Policy>)

  type DtpParts = ((bool, nat, nat, bool), (bool, bool, nat), Option<Policy>)

  function DtpConfigParts(c: DtpConfig): DtpParts {
    ((c.dtcpPresent, c.seqNumRoTh, c.initialATimer, c.partialDelivery), (c.incomplete, c.inOrder, c.maxSduGap), c.ps)
  }

  function BuildDtpConfig(p: DtpParts): DtpConfig { DtpConfig(p.0.0, p.0.1, p.0.2, p.0.3, p.1.0, p.1.1, p.1.2, p.2) }

  function DtpConfigLen(c: DtpConfig): nat { 4 * 1 + 4 + 4 + 4 + PolLen(c.ps) }

  function DtpConfigs(): Codec<DtpConfig> {
    Struct(Three(Four(Flag(), Num(4), Num(4), Flag()), Three(Flag(), Flag(), Num(4)), Pol()),
           DtpConfigParts, BuildDtpConfig, DtpConfigLen)
  }

  lemma DtpFrom(a: Codec<(bool, nat, nat, bool)>, b: Codec<(bool, bool, nat)>, pol: Codec<Option<Policy>>)
    requires Plain(a, 10) && Plain(b, 6) && Measured(pol, PolLen)
    ensures Measured(Struct(Three(a, b, pol), DtpConfigParts, BuildDtpConfig, DtpConfigLen), DtpConfigLen)
  {
    ThreeLawful(a, b, pol);
    forall x: DtpConfig ensures DtpConfigLen(x) == Three(a, b, pol).len(DtpConfigParts(x)) {
      ThreeIs(a, b, pol, DtpConfigParts(x));
    }
    StructMeasured(Three(a, b, pol), DtpConfigParts, BuildDtpConfig, DtpConfigLen);
  }

  lemma DtpConfigsLawful()
    ensures Measured(DtpConfigs(), DtpConfigLen)
  {
    NumPlain(4);
    FlagPlain();
    PolLawful();
    FourPlain(Flag(), 1, Num(4), 4, Num(4), 4, Flag(), 1);
    ThreePlain(Flag(), 1, Flag(), 1, Num(4), 4);
    DtpFrom(Four(Flag(), Num(4), Num(4), Flag()), Three(Flag(), Flag(), Num(4)), Pol());
  }

  // ---------------------------------------------------------------- data-transfer control

  datatype WindowConfig = WindowConfig(initialCredit: nat, maxClosedWinq: nat, rcvrFlowControl: Option<Policy>, txControl: Option<Policy>)

  function WindowParts(w: WindowConfig): (nat, nat, Option<Policy>, Option<Policy>) {
    (w.initialCredit, w.maxClosedWinq, w.rcvrFlowControl, w.txControl)
  }

  function BuildWindow(p: (nat, nat, Option<Policy>, Option<Policy>)): WindowConfig { WindowConfig(p.0, p.1, p.2, p.3) }

  function WindowLen(w: WindowConfig): nat { 2 * 4 + PolLen(w.rcvrFlowControl) + PolLen(w.txControl) }

  function Windows(): Codec<WindowConfig> { Struct(Four(Num(4), Num(4), Pol(), Pol()), WindowParts, BuildWindow, WindowLen) }

  lemma WindowFrom(n4: Codec<nat>, pol: Codec<Option<Policy>>)
    requires Plain(n4, 4) && Measured(pol, PolLen)
    ensures Measured(Struct(Four(n4, n4, pol, pol), WindowParts, BuildWindow, WindowLen), WindowLen)
  {
    FourLawful(n4, n4, pol, pol);
    forall x: WindowConfig ensures WindowLen(x) == Four(n4, n4, pol, pol).len(WindowParts(x)) {
      FourIs(n4, n4, pol, pol, WindowParts(x));
    }
    StructMeasured(Four(n4, n4, pol, pol), WindowParts, BuildWindow, WindowLen);
  }

  datatype RateConfig = RateConfig(
    sendingRate: nat, timePeriod: nat, noOverrideDefaultPeak: Option<Policy>, noRateSlowDown: Option<Policy>, rateReduction: Option<Policy>)

  type RateParts = ((nat, nat), (Option<Policy>, Option<Policy>, Option<Policy>))

  function RateConfigParts(r: RateConfig): RateParts {
    ((r.sendingRate, r.timePeriod), (r.noOverrideDefaultPeak, r.noRateSlowDown, r.rateReduction))
  }

  function BuildRate(p: RateParts): RateConfig { RateConfig(p.0.0, p.0.1, p.1.0, p.1.1, p.1.2) }

  function RateLen(r: RateConfig): nat {
    2 * 4 + PolLen(r.rateReduction) + PolLen(r.noRateSlowDown) + PolLen(r.noOverrideDefaultPeak)
  }

  function Rates(): Codec<RateConfig> {
    Struct(Two(Two(Num(4), Num(4)), Three(Pol(), Pol(), Pol())), RateConfigParts, BuildRate, RateLen)
  }

  lemma RateFrom(n8: Codec<(nat, nat)>, pol: Codec<Option<Policy>>)
    requires Plain(n8, 8) && Measured(pol, PolLen)
    ensures Measured(Struct(Two(n8, Three(pol, pol, pol)), RateConfigParts, BuildRate, RateLen), RateLen)
  {
    ThreeLawful(pol, pol, pol);
    TwoLawful(n8, Three(pol, pol, pol));
    forall x: RateConfig ensures RateLen(x) == Two(n8, Three(pol, pol, pol)).len(RateConfigParts(x)) {
      TwoIs(n8, Three(pol, pol, pol), RateConfigParts(x));
      ThreeIs(pol, pol, pol, RateConfigParts(x).1);
    }
    StructMeasured(Two(n8, Three(pol, pol, pol)), RateConfigParts, BuildRate, RateLen);
  }

  lemma WindowsAndRatesLawful()
    ensures Measured(Windows(), WindowLen) && Measured(Rates(), RateLen)
  {
    NumPlain(4);
    PolLawful();
    TwoPlain(Num(4), 4, Num(4), 4);
    WindowFrom(Num(4), Pol());
    RateFrom(Two(Num(4), Num(4)), Pol());
  }

  datatype FlowCtrlConfig = FlowCtrlConfig(
    rcvdBuffersTh: nat, rcvdBytesPercentTh: nat, rcvdBytesTh: nat, sentBuffersTh: nat, sentBytesPercentTh: nat, sentBytesTh: nat,
    windowBased: bool, rateBased: bool,
    closedWindow: Option<Policy>, overrun: Option<Policy>, receiving: Option<Policy>, reconcile: Option<Policy>,
    window: Option<WindowConfig>, rate: Option<RateConfig>)

  type FlowCtrlHead = ((nat, nat, nat, nat), (nat, nat, bool, bool), (Option<Policy>, Option<Policy>, Option<Policy>, Option<Policy>))

  type FlowCtrlParts = (FlowCtrlHead, (Option<WindowConfig>, Option<RateConfig>))

  /** Written in this order: closed window, receiving flow control, reconcile conflict, overrun. */
  function FlowCtrlConfigParts(f: FlowCtrlConfig): FlowCtrlParts {
    (((f.rcvdBuffersTh, f.rcvdBytesPercentTh, f.rcvdBytesTh, f.sentBuffersTh),
      (f.sentBytesPercentTh, f.sentBytesTh, f.windowBased, f.rateBased),
      (f.closedWindow, f.receiving, f.reconcile, f.overrun)),
     (f.window, f.rate))
  }

  /** Read in this order: closed window, overrun, receiving flow control, reconcile conflict. */
  function BuildFlowCtrl(p: FlowCtrlParts): FlowCtrlConfig {
    var (h, (window, rate)) := p;
    FlowCtrlConfig(h.0.0, h.0.1, h.0.2, h.0.3, h.1.0, h.1.1, h.1.2, h.1.3, h.2.0, h.2.1, h.2.2, h.2.3, window, rate)
  }

  function FlowCtrlLen(f: FlowCtrlConfig): nat {
    6 * 4 + 2 * 1 + PolLen(f.closedWindow) + PolLen(f.receiving) + PolLen(f.reconcile) + PolLen(f.overrun)
    + (if f.windowBased then PtrLen(WindowLen, f.window) else 0) + (if f.rateBased then PtrLen(RateLen, f.rate) else 0)
  }

  function FlowCtrlTail(w: Codec<WindowConfig>, r: Codec<RateConfig>): FlowCtrlHead -> Codec<(Option<WindowConfig>, Option<RateConfig>)> {
    (h: FlowCtrlHead) => Two(When(w, h.1.2), When(r, h.1.3))
  }

  function FlowCtrls(): Codec<FlowCtrlConfig> {
    Struct(Then(FlowCtrlShape(), FlowCtrlTail(Windows(), Rates())), FlowCtrlConfigParts, BuildFlowCtrl, FlowCtrlLen)
  }

  /** The fixed part with its policies. */
  ghost predicate HeadOf(c: Codec<FlowCtrlHead>) {
    && Lawful(c) && AlwaysExact(c)
    && forall h :: && c.len(h) == 26 + PolLen(h.2.0) + PolLen(h.2.1) + PolLen(h.2.2) + PolLen(h.2.3)
                   && c.seen(h) == (h.0, h.1, (PolSeen(h.2.0), PolSeen(h.2.1), PolSeen(h.2.2), PolSeen(h.2.3)))
                   && (c.whole(h) <==> h.2.0.Some? && h.2.1.Some? && h.2.2.Some? && h.2.3.Some?)
  }

  /** Whether the fixed part is within range does not depend on the places of its policies. */
  ghost predicate Symmetric(c: Codec<FlowCtrlHead>) {
    forall h: FlowCtrlHead :: c.ranged((h.0, h.1, (h.2.0, h.2.2, h.2.3, h.2.1))) == c.ranged(h)
  }

  lemma SymmetricFrom(a: Codec<(nat, nat, nat, nat)>, b: Codec<(nat, nat, bool, bool)>, pol: Codec<Option<Policy>>)
    ensures Symmetric(Three(a, b, Four(pol, pol, pol, pol)))
  {
    var c, e := Four(pol, pol, pol, pol), Three(a, b, Four(pol, pol, pol, pol));
    forall h: FlowCtrlHead ensures e.ranged((h.0, h.1, (h.2.0, h.2.2, h.2.3, h.2.1))) == e.ranged(h) {
      var t := (h.2.0, h.2.2, h.2.3, h.2.1);
      ThreeIs(a, b, c, h);
      ThreeIs(a, b, c, (h.0, h.1, t));
      FourIs(pol, pol, pol, pol, h.2);
      FourIs(pol, pol, pol, pol, t);
    }
  }

  ghost predicate FourPolicies(c: Codec<(Option<Policy>, Option<Policy>, Option<Policy>, Option<Policy>)>) {
    && Lawful(c) && AlwaysExact(c)
    && forall t :: && c.len(t) == PolLen(t.0) + PolLen(t.1) + PolLen(t.2) + PolLen(t.3)
                   && c.seen(t) == (PolSeen(t.0), PolSeen(t.1), PolSeen(t.2), PolSeen(t.3))
                   && (c.whole(t) <==> t.0.Some? && t.1.Some? && t.2.Some? && t.3.Some?)
  }

  lemma FourPoliciesFrom(pol: Codec<Option<Policy>>)
    requires PolicyPtr(pol)
    ensures FourPolicies(Four(pol, pol, pol, pol))
  {
    FourLawful(pol, pol, pol, pol);
    var c := Four(pol, pol, pol, pol);
    forall t: (Option<Policy>, Option<Policy>, Option<Policy>, Option<Policy>)
      ensures c.len(t) == PolLen(t.0) + PolLen(t.1) + PolLen(t.2) + PolLen(t.3)
      ensures c.seen(t) == (PolSeen(t.0), PolSeen(t.1), PolSeen(t.2), PolSeen(t.3))
      ensures c.whole(t) <==> t.0.Some? && t.1.Some? && t.2.Some? && t.3.Some?
    {
      FourIs(pol, pol, pol, pol, t);
    }
  }

  lemma HeadFrom(a: Codec<(nat, nat, nat, nat)>, b: Codec<(nat, nat, bool, bool)>,
                 c: Codec<(Option<Policy>, Option<Policy>, Option<Policy>, Option<Policy>)>)
    requires Plain(a, 16) && Plain(b, 10) && FourPolicies(c)
    ensures HeadOf(Three(a, b, c))
  {
    ThreeLawful(a, b, c);
    var e := Three(a, b, c);
    forall h: FlowCtrlHead
      ensures e.len(h) == 26 + PolLen(h.2.0) + PolLen(h.2.1) + PolLen(h.2.2) + PolLen(h.2.3)
      ensures e.seen(h) == (h.0, h.1, (PolSeen(h.2.0), PolSeen(h.2.1), PolSeen(h.2.2), PolSeen(h.2.3)))
      ensures e.whole(h) <==> h.2.0.Some? && h.2.1.Some? && h.2.2.Some? && h.2.3.Some?
    {
      ThreeIs(a, b, c, h);
    }
  }

  lemma TailLawful(w: Codec<WindowConfig>, r: Codec<RateConfig>, h: FlowCtrlHead)
    requires Measured(w, WindowLen) && Measured(r, RateLen)
    ensures var d := FlowCtrlTail(w, r)(h);
            && Lawful(d) && AlwaysExact(d)
            && (forall t :: d.len(t) == (if h.1.2 then PtrLen(WindowLen, t.0) else 0) + (if h.1.3 then PtrLen(RateLen, t.1) else 0))
  {
    WhenLawful(w, h.1.2);
    WhenLawful(r, h.1.3);
    TwoLawful(When(w, h.1.2), When(r, h.1.3));
  }

  lemma FlowCtrlThen(c: Codec<FlowCtrlHead>, w: Codec<WindowConfig>, r: Codec<RateConfig>)
    requires HeadOf(c) && Measured(w, WindowLen) && Measured(r, RateLen)
    ensures Lawful(Then(c, FlowCtrlTail(w, r))) && AlwaysExact(Then(c, FlowCtrlTail(w, r)))
  {
    var d := FlowCtrlTail(w, r);
    forall h ensures Lawful(d(h)) && AlwaysExact(d(h)) && d(c.seen(h)) == d(h) {
      TailLawful(w, r, h);
    }
    ThenLawful(c, d);
  }

  lemma FlowCtrlLenIs(c: Codec<FlowCtrlHead>, w: Codec<WindowConfig>, r: Codec<RateConfig>, f: FlowCtrlConfig)
    requires HeadOf(c) && Measured(w, WindowLen) && Measured(r, RateLen)
    ensures FlowCtrlLen(f) == Then(c, FlowCtrlTail(w, r)).len(FlowCtrlConfigParts(f))
  {
    ThenIs(c, FlowCtrlTail(w, r), FlowCtrlConfigParts(f));
    TailLawful(w, r, FlowCtrlConfigParts(f).0);
  }

  /** Writing again what was read puts three of the policies in other places. */
  lemma PartsRebuilt(p: FlowCtrlParts)
    ensures var p' := FlowCtrlConfigParts(BuildFlowCtrl(p)); var ps := p.0.2;
            p'.0.0 == p.0.0 && p'.0.1 == p.0.1 && p'.0.2 == (ps.0, ps.2, ps.3, ps.1) && p'.1 == p.1
  {
  }

  lemma SameTail(w: Codec<WindowConfig>, r: Codec<RateConfig>, h: FlowCtrlHead, h': FlowCtrlHead)
    requires h.1 == h'.1
    ensures FlowCtrlTail(w, r)(h) == FlowCtrlTail(w, r)(h')
  {
  }

  lemma HeadWhole(c: Codec<FlowCtrlHead>, h: FlowCtrlHead, h': FlowCtrlHead)
    requires HeadOf(c) && Symmetric(c) && h'.0 == h.0 && h'.1 == h.1 && h'.2 == (h.2.0, h.2.2, h.2.3, h.2.1)
    ensures c.whole(h') == c.whole(h) && c.ranged(h') == c.ranged(h)
  {
  }

  ghost predicate SameHead(c: Codec<FlowCtrlHead>, p: FlowCtrlParts, p': FlowCtrlParts) {
    c.whole(p'.0) == c.whole(p.0) && c.ranged(p'.0) == c.ranged(p.0) && p'.0.1 == p.0.1 && p'.1 == p.1
  }

  lemma WholeAnyway(c: Codec<FlowCtrlHead>, w: Codec<WindowConfig>, r: Codec<RateConfig>, p: FlowCtrlParts, p': FlowCtrlParts)
    requires SameHead(c, p, p')
    ensures Then(c, FlowCtrlTail(w, r)).whole(p') == Then(c, FlowCtrlTail(w, r)).whole(p)
    ensures Then(c, FlowCtrlTail(w, r)).ranged(p') == Then(c, FlowCtrlTail(w, r)).ranged(p)
  {
    SameTail(w, r, p.0, p'.0);
    ThenSameWhole(c, FlowCtrlTail(w, r), p', p);
  }

  lemma HeadRebuilt(c: Codec<FlowCtrlHead>, p: FlowCtrlParts)
    requires HeadOf(c) && Symmetric(c)
    ensures var p' := FlowCtrlConfigParts(BuildFlowCtrl(p)); SameHead(c, p, p')
  {
    PartsRebuilt(p);
    HeadWhole(c, p.0, FlowCtrlConfigParts(BuildFlowCtrl(p)).0);
  }

  ghost predicate SameGood(e: Codec<FlowCtrlParts>, p': FlowCtrlParts, p: FlowCtrlParts) {
    e.whole(p') == e.whole(p) && e.ranged(p') == e.ranged(p)
  }

  lemma FlowCtrlStruct(e: Codec<FlowCtrlParts>)
    requires Lawful(e) && AlwaysExact(e) && forall f: FlowCtrlConfig :: FlowCtrlLen(f) == e.len(FlowCtrlConfigParts(f))
    requires forall p: FlowCtrlParts :: SameGood(e, FlowCtrlConfigParts(BuildFlowCtrl(p)), p)
    ensures Measured(Struct(e, FlowCtrlConfigParts, BuildFlowCtrl, FlowCtrlLen), FlowCtrlLen)
  {
    forall f: FlowCtrlConfig
      ensures e.ranged(FlowCtrlConfigParts(BuildFlowCtrl(e.seen(FlowCtrlConfigParts(f))))) ==> e.ranged(FlowCtrlConfigParts(f))
    {
      assert SameGood(e, FlowCtrlConfigParts(BuildFlowCtrl(e.seen(FlowCtrlConfigParts(f)))), e.seen(FlowCtrlConfigParts(f)));
    }
    StructLawful(e, FlowCtrlConfigParts, BuildFlowCtrl, FlowCtrlLen);
  }

  /** Being written again does not change whether the fixed part is whole, nor what follows it. */
  ghost predicate Rebuilds(c: Codec<FlowCtrlHead>) {
    forall p: FlowCtrlParts ::
      var p' := FlowCtrlConfigParts(BuildFlowCtrl(p)); SameHead(c, p, p')
  }

  lemma HeadRebuilds(c: Codec<FlowCtrlHead>)
    requires HeadOf(c) && Symmetric(c)
    ensures Rebuilds(c)
  {
    forall p: FlowCtrlParts
      ensures var p' := FlowCtrlConfigParts(BuildFlowCtrl(p)); SameHead(c, p, p') {
      HeadRebuilt(c, p);
    }
  }

  lemma WholesKept(c: Codec<FlowCtrlHead>, w: Codec<WindowConfig>, r: Codec<RateConfig>)
    requires Rebuilds(c)
    ensures var e := Then(c, FlowCtrlTail(w, r)); forall p: FlowCtrlParts :: SameGood(e, FlowCtrlConfigParts(BuildFlowCtrl(p)), p)
  {
    var e := Then(c, FlowCtrlTail(w, r));
    forall p: FlowCtrlParts ensures SameGood(e, FlowCtrlConfigParts(BuildFlowCtrl(p)), p) {
      WholeAnyway(c, w, r, p, FlowCtrlConfigParts(BuildFlowCtrl(p)));
    }
  }

  lemma FlowCtrlFrom(c: Codec<FlowCtrlHead>, w: Codec<WindowConfig>, r: Codec<RateConfig>)
    requires HeadOf(c) && Symmetric(c) && Measured(w, WindowLen) && Measured(r, RateLen)
    ensures Measured(Struct(Then(c, FlowCtrlTail(w, r)), FlowCtrlConfigParts, BuildFlowCtrl, FlowCtrlLen), FlowCtrlLen)
  {
    var e := Then(c, FlowCtrlTail(w, r));
    FlowCtrlThen(c, w, r);
    HeadRebuilds(c);
    WholesKept(c, w, r);
    forall f: FlowCtrlConfig ensures FlowCtrlLen(f) == e.len(FlowCtrlConfigParts(f)) { FlowCtrlLenIs(c, w, r, f); }
    FlowCtrlStruct(e);
  }

  function Thresholds(): Codec<(nat, nat, nat, nat)> { Four(Num(4), Num(4), Num(4), Num(4)) }

  function Modes(): Codec<(nat, nat, bool, bool)> { Four(Num(4), Num(4), Flag(), Flag()) }

  function FourPols(): Codec<(Option<Policy>, Option<Policy>, Option<Policy>, Option<Policy>)> {
    Four(Pol(), Pol(), Pol(), Pol())
  }

  function FlowCtrlShape(): Codec<FlowCtrlHead> { Three(Thresholds(), Modes(), FourPols()) }

  lemma HeadPlain()
    ensures Plain(Thresholds(), 16) && Plain(Modes(), 10)
  {
    NumPlain(4);
    FlagPlain();
    FourPlain(Num(4), 4, Num(4), 4, Num(4), 4, Num(4), 4);
    FourPlain(Num(4), 4, Num(4), 4, Flag(), 1, Flag(), 1);
  }

  lemma FlowCtrlShapeLawful()
    ensures HeadOf(FlowCtrlShape())
  {
    HeadPlain();
    PolLawful();
    FourPoliciesFrom(Pol());
    HeadFrom(Thresholds(), Modes(), FourPols());
  }

  lemma FlowCtrlsLawful()
    ensures Measured(FlowCtrls(), FlowCtrlLen)
  {
    FlowCtrlShapeLawful();
    SymmetricFrom(Thresholds(), Modes(), Pol());
    WindowsAndRatesLawful();
    FlowCtrlFrom(FlowCtrlShape(), Windows(), Rates());
  }

  // ---------------------------------------------------------------- the policies that change places

  /** What the configuration should come back as. */
  function FlowCtrlMeant(f: FlowCtrlConfig): FlowCtrlConfig {
    f.(closedWindow := PolSeen(f.closedWindow), overrun := PolSeen(f.overrun),
       receiving := PolSeen(f.receiving), reconcile := PolSeen(f.reconcile),
       window := When(Windows(), f.windowBased).seen(f.window), rate := When(Rates(), f.rateBased).seen(f.rate))
  }

  /** The three policies behind the first change places. */
  function Rotated(f: FlowCtrlConfig): FlowCtrlConfig {
    f.(overrun := f.receiving, receiving := f.reconcile, reconcile := f.overrun)
  }

  /** The three policies of flow control that change places are the same. */
  ghost predicate SamePolicies(f: FlowCtrlConfig) { PolSeen(f.overrun) == PolSeen(f.receiving) == PolSeen(f.reconcile) }

  /**
   A flow-control configuration comes back with three of its policies in each other's places, and so as it was meant
   exactly if the three are the same.
   */
  lemma FlowCtrlComesBack(f: FlowCtrlConfig)
    ensures FlowCtrls().seen(f) == Rotated(FlowCtrlMeant(f))
    ensures FlowCtrls().seen(f) == FlowCtrlMeant(f) <==> SamePolicies(f)
  {
    FlowCtrlShapeLawful();
    SeenThrough(FlowCtrlShape(), Windows(), Rates(), f);
  }

  lemma SeenThrough(c: Codec<FlowCtrlHead>, w: Codec<WindowConfig>, r: Codec<RateConfig>, f: FlowCtrlConfig)
    requires HeadOf(c)
    ensures Struct(Then(c, FlowCtrlTail(w, r)), FlowCtrlConfigParts, BuildFlowCtrl, FlowCtrlLen).seen(f)
            == f.(closedWindow := PolSeen(f.closedWindow), overrun := PolSeen(f.receiving), receiving := PolSeen(f.reconcile),
                  reconcile := PolSeen(f.overrun),
                  window := When(w, f.windowBased).seen(f.window), rate := When(r, f.rateBased).seen(f.rate))
  {
    ThenIs(c, FlowCtrlTail(w, r), FlowCtrlConfigParts(f));
  }

  // ---------------------------------------------------------------- retransmission control, and the whole

  datatype RtxCtrlConfig = RtxCtrlConfig(
    dataRetransmitMax: nat, initialTr: nat, maxTimeRetry: nat,
    rcvrAck: Option<Policy>, rcvrControlAck: Option<Policy>, receivingAckList: Option<Policy>,
    rtxTimerExpiry: Option<Policy>, senderAck: Option<Policy>, sendingAck: Option<Policy>)

  type ThreePolicies = (Option<Policy>, Option<Policy>, Option<Policy>)

  type RtxCtrlParts = ((nat, nat, nat), ThreePolicies, ThreePolicies)

  function RtxCtrlConfigParts(r: RtxCtrlConfig): RtxCtrlParts {
    ((r.dataRetransmitMax, r.initialTr, r.maxTimeRetry), (r.rcvrAck, r.rcvrControlAck, r.receivingAckList),
     (r.rtxTimerExpiry, r.senderAck, r.sendingAck))
  }

  function BuildRtxCtrl(p: RtxCtrlParts): RtxCtrlConfig {
    RtxCtrlConfig(p.0.0, p.0.1, p.0.2, p.1.0, p.1.1, p.1.2, p.2.0, p.2.1, p.2.2)
  }

  function RtxCtrlLen(r: RtxCtrlConfig): nat {
    3 * 4 + PolLen(r.rcvrAck) + PolLen(r.rcvrControlAck) + PolLen(r.receivingAckList)
    + PolLen(r.rtxTimerExpiry) + PolLen(r.senderAck) + PolLen(r.sendingAck)
  }

  function ThreePols(): Codec<ThreePolicies> { Three(Pol(), Pol(), Pol()) }

  function ThreePolLen(t: ThreePolicies): nat { PolLen(t.0) + PolLen(t.1) + PolLen(t.2) }

  function ThreePolSeen(t: ThreePolicies): ThreePolicies { (PolSeen(t.0), PolSeen(t.1), PolSeen(t.2)) }

  lemma ThreePolsFrom(pol: Codec<Option<Policy>>)
    requires PolicyPtr(pol)
    ensures var c := Three(pol, pol, pol);
            Measured(c, ThreePolLen) && forall t: ThreePolicies :: c.seen(t) == ThreePolSeen(t)
  {
    ThreeLawful(pol, pol, pol);
    forall t: ThreePolicies ensures Three(pol, pol, pol).len(t) == ThreePolLen(t) && Three(pol, pol, pol).seen(t) == ThreePolSeen(t) {
      ThreeIs(pol, pol, pol, t);
    }
  }

  function RtxCtrls(): Codec<RtxCtrlConfig> {
    Struct(Three(Three(Num(4), Num(4), Num(4)), ThreePols(), ThreePols()), RtxCtrlConfigParts, BuildRtxCtrl, RtxCtrlLen)
  }

  lemma RtxCtrlFrom(n12: Codec<(nat, nat, nat)>, c: Codec<ThreePolicies>)
    requires Plain(n12, 12) && Measured(c, ThreePolLen)
    ensures Measured(Struct(Three(n12, c, c), RtxCtrlConfigParts, BuildRtxCtrl, RtxCtrlLen), RtxCtrlLen)
  {
    ThreeLawful(n12, c, c);
    forall x: RtxCtrlConfig ensures RtxCtrlLen(x) == Three(n12, c, c).len(RtxCtrlConfigParts(x)) {
      ThreeIs(n12, c, c, RtxCtrlConfigParts(x));
    }
    StructMeasured(Three(n12, c, c), RtxCtrlConfigParts, BuildRtxCtrl, RtxCtrlLen);
  }

  lemma RtxCtrlsLawful()
    ensures Measured(RtxCtrls(), RtxCtrlLen)
  {
    NumPlain(4);
    ThreePlain(Num(4), 4, Num(4), 4, Num(4), 4);
    PolLawful();
    ThreePolsFrom(Pol());
    RtxCtrlFrom(Three(Num(4), Num(4), Num(4)), ThreePols());
  }

  datatype DtcpConfig = DtcpConfig(
    flowCtrl: bool, rtxCtrl: bool, ps: Option<Policy>, lostControlPdu: Option<Policy>, rttEstimator: Option<Policy>,
    fctrl: Option<FlowCtrlConfig>, rxctrl: Option<RtxCtrlConfig>)

  type DtcpHead = ((bool, bool), ThreePolicies)

  type DtcpParts = (DtcpHead, (Option<FlowCtrlConfig>, Option<RtxCtrlConfig>))

  function DtcpConfigParts(c: DtcpConfig): DtcpParts {
    (((c.flowCtrl, c.rtxCtrl), (c.ps, c.lostControlPdu, c.rttEstimator)), (c.fctrl, c.rxctrl))
  }

  function BuildDtcp(p: DtcpParts): DtcpConfig {
    DtcpConfig(p.0.0.0, p.0.0.1, p.0.1.0, p.0.1.1, p.0.1.2, p.1.0, p.1.1)
  }

  function DtcpLen(c: DtcpConfig): nat {
    2 * 1 + PolLen(c.ps) + PolLen(c.lostControlPdu) + PolLen(c.rttEstimator)
    + (if c.flowCtrl then PtrLen(FlowCtrlLen, c.fctrl) else 0) + (if c.rtxCtrl then PtrLen(RtxCtrlLen, c.rxctrl) else 0)
  }

  function DtcpTail(f: Codec<FlowCtrlConfig>, r: Codec<RtxCtrlConfig>): DtcpHead -> Codec<(Option<FlowCtrlConfig>, Option<RtxCtrlConfig>)> {
    (h: DtcpHead) => Two(When(f, h.0.0), When(r, h.0.1))
  }

  function DtcpShape(): Codec<DtcpHead> { Two(Two(Flag(), Flag()), ThreePols()) }

  function DtcpConfigs(): Codec<DtcpConfig> {
    Struct(Then(DtcpShape(), DtcpTail(FlowCtrls(), RtxCtrls())), DtcpConfigParts, BuildDtcp, DtcpLen)
  }

  ghost predicate DtcpHeadOf(c: Codec<DtcpHead>) {
    Lawful(c) && AlwaysExact(c) && forall h :: c.len(h) == 2 + ThreePolLen(h.1) && c.seen(h) == (h.0, ThreePolSeen(h.1))
  }

  lemma DtcpHeadFrom(flags: Codec<(bool, bool)>, c: Codec<ThreePolicies>)
    requires Plain(flags, 2) && Measured(c, ThreePolLen) && forall t: ThreePolicies :: c.seen(t) == ThreePolSeen(t)
    ensures DtcpHeadOf(Two(flags, c))
  {
    TwoLawful(flags, c);
    forall h: DtcpHead ensures Two(flags, c).len(h) == 2 + ThreePolLen(h.1) && Two(flags, c).seen(h) == (h.0, ThreePolSeen(h.1)) {
      TwoIs(flags, c, h);
    }
  }

  lemma DtcpTailLawful(f: Codec<FlowCtrlConfig>, r: Codec<RtxCtrlConfig>, h: DtcpHead)
    requires Measured(f, FlowCtrlLen) && Measured(r, RtxCtrlLen)
    ensures var d := DtcpTail(f, r)(h);
            && Lawful(d) && AlwaysExact(d)
            && (forall t :: d.len(t) == (if h.0.0 then PtrLen(FlowCtrlLen, t.0) else 0) + (if h.0.1 then PtrLen(RtxCtrlLen, t.1) else 0))
  {
    WhenLawful(f, h.0.0);
    WhenLawful(r, h.0.1);
    TwoLawful(When(f, h.0.0), When(r, h.0.1));
  }

  lemma DtcpThen(c: Codec<DtcpHead>, f: Codec<FlowCtrlConfig>, r: Codec<RtxCtrlConfig>)
    requires DtcpHeadOf(c) && Measured(f, FlowCtrlLen) && Measured(r, RtxCtrlLen)
    ensures Lawful(Then(c, DtcpTail(f, r))) && AlwaysExact(Then(c, DtcpTail(f, r)))
  {
    var d := DtcpTail(f, r);
    forall h ensures Lawful(d(h)) && AlwaysExact(d(h)) && d(c.seen(h)) == d(h) {
      DtcpTailLawful(f, r, h);
    }
    ThenLawful(c, d);
  }

  lemma DtcpLenIs(c: Codec<DtcpHead>, f: Codec<FlowCtrlConfig>, r: Codec<RtxCtrlConfig>, x: DtcpConfig)
    requires DtcpHeadOf(c) && Measured(f, FlowCtrlLen) && Measured(r, RtxCtrlLen)
    ensures DtcpLen(x) == Then(c, DtcpTail(f, r)).len(DtcpConfigParts(x))
  {
    ThenIs(c, DtcpTail(f, r), DtcpConfigParts(x));
    DtcpTailLawful(f, r, DtcpConfigParts(x).0);
  }

  lemma DtcpStruct(e: Codec<DtcpParts>)
    requires Lawful(e) && AlwaysExact(e) && forall x: DtcpConfig :: DtcpLen(x) == e.len(DtcpConfigParts(x))
    ensures Measured(Struct(e, DtcpConfigParts, BuildDtcp, DtcpLen), DtcpLen)
  {
    forall p: DtcpParts ensures DtcpConfigParts(BuildDtcp(p)) == p {
    }
    StructLawful(e, DtcpConfigParts, BuildDtcp, DtcpLen);
  }

  lemma DtcpFrom(c: Codec<DtcpHead>, f: Codec<FlowCtrlConfig>, r: Codec<RtxCtrlConfig>)
    requires DtcpHeadOf(c) && Measured(f, FlowCtrlLen) && Measured(r, RtxCtrlLen)
    ensures Measured(Struct(Then(c, DtcpTail(f, r)), DtcpConfigParts, BuildDtcp, DtcpLen), DtcpLen)
  {
    var e := Then(c, DtcpTail(f, r));
    DtcpThen(c, f, r);
    forall x: DtcpConfig ensures DtcpLen(x) == e.len(DtcpConfigParts(x)) { DtcpLenIs(c, f, r, x); }
    DtcpStruct(e);
  }

  lemma DtcpShapeLawful()
    ensures DtcpHeadOf(DtcpShape())
  {
    FlagPlain();
    TwoPlain(Flag(), 1, Flag(), 1);
    PolLawful();
    ThreePolsFrom(Pol());
    DtcpHeadFrom(Two(Flag(), Flag()), ThreePols());
  }

  lemma DtcpConfigsLawful()
    ensures Measured(DtcpConfigs(), DtcpLen)
  {
    DtcpShapeLawful();
    FlowCtrlsLawful();
    RtxCtrlsLawful();
    DtcpFrom(DtcpShape(), FlowCtrls(), RtxCtrls());
  }

  /** What the configuration should come back as. */
  function DtcpMeant(c: DtcpConfig): DtcpConfig {
    c.(ps := PolSeen(c.ps), lostControlPdu := PolSeen(c.lostControlPdu), rttEstimator := PolSeen(c.rttEstimator),
       fctrl := if c.flowCtrl && c.fctrl.Some? then Some(FlowCtrlMeant(c.fctrl.value)) else None,
       rxctrl := When(RtxCtrls(), c.rtxCtrl).seen(c.rxctrl))
  }

  lemma DtcpSeen(c: Codec<DtcpHead>, f: Codec<FlowCtrlConfig>, r: Codec<RtxCtrlConfig>, x: DtcpConfig)
    requires DtcpHeadOf(c)
    ensures Struct(Then(c, DtcpTail(f, r)), DtcpConfigParts, BuildDtcp, DtcpLen).seen(x)
            == x.(ps := PolSeen(x.ps), lostControlPdu := PolSeen(x.lostControlPdu), rttEstimator := PolSeen(x.rttEstimator),
                  fctrl := When(f, x.flowCtrl).seen(x.fctrl), rxctrl := When(r, x.rtxCtrl).seen(x.rxctrl))
  {
    StructIs(Then(c, DtcpTail(f, r)), DtcpConfigParts, BuildDtcp, DtcpLen, x);
    ThenIs(c, DtcpTail(f, r), DtcpConfigParts(x));
  }

  /** A DTCP configuration comes back as it was meant exactly if it has no flow control, or the three policies are the same. */
  lemma DtcpComesBack(c: DtcpConfig)
    ensures DtcpConfigs().seen(c) == DtcpMeant(c) <==> (c.flowCtrl && c.fctrl.Some? ==> SamePolicies(c.fctrl.value))
  {
    DtcpShapeLawful();
    DtcpSeen(DtcpShape(), FlowCtrls(), RtxCtrls(), c);
    if c.flowCtrl && c.fctrl.Some? {
      FlowCtrlComesBack(c.fctrl.value);
      assert When(FlowCtrls(), true).seen(c.fctrl) == Some(FlowCtrls().seen(c.fctrl.value));
    }
  }
}
