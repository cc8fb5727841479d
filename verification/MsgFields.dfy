/**
 Every structure that a message can carry, field by field: its bytes in the order of the source, and what it comes back
 as, with every field in its own place but for three policies of flow control.
 */
module MsgFields {
  import opened EfcpTypes
  import opened PciAccess
  import opened MsgCodec
  import opened MsgCombine
  import opened MsgConfigs
  import opened MsgReports
  import opened MsgDifs
  import opened MsgWire

  // ---------------------------------------------------------------- flow specifications

  function FlowSpecOut(f: FlowSpec, k: seq<Octet>): seq<Octet> {
    N4(f.avgBandwidth, N4(f.avgSduBandwidth, N4(f.delay, N4(f.jitter, N2(f.loss, N4(f.maxGap, N4(f.maxSduSize,
    Bit(f.ordered, Bit(f.partialDelivery, N4(f.peakBandwidth, N4(f.peakSduBandwidth, N4(f.bitErrorRate, Bit(f.boundaries, k)))))))))))))
  }

  function FlowSpecW(): Wire<FlowParts> { FourW(FourW(W4, W4, W4, W4), FourW(W2, W4, W4, WBit), ThreeW(WBit, W4, W4), TwoW(W4, WBit)) }

  lemma FlowShapeAs(n2: Codec<nat>, n4: Codec<nat>, flag: Codec<bool>)
    requires As(n2, W2) && As(n4, W4) && As(flag, WBit)
    ensures As(Four(Four(n4, n4, n4, n4), Four(n2, n4, n4, flag), Three(flag, n4, n4), Two(n4, flag)), FlowSpecW())
  {
    FourAs(n4, W4, n4, W4, n4, W4, n4, W4);
    FourAs(n2, W2, n4, W4, n4, W4, flag, WBit);
    ThreeAs(flag, WBit, n4, W4, n4, W4);
    TwoAs(n4, W4, flag, WBit);
    var a, b, c, d := FourW(W4, W4, W4, W4), FourW(W2, W4, W4, WBit), ThreeW(WBit, W4, W4), TwoW(W4, WBit);
    FourAs(Four(n4, n4, n4, n4), a, Four(n2, n4, n4, flag), b, Three(flag, n4, n4), c, Two(n4, flag), d);
  }

  lemma FlowSpecIs(f: FlowSpec, k: seq<Octet>)
    ensures FlowSpecOut(f, k) == FlowSpecW().out(FlowSpecParts(f), k) && f == BuildFlowSpec(FlowSpecW().back(FlowSpecParts(f)))
  {
  }

  lemma FlowSpecAsFrom(c: Codec<FlowParts>)
    requires As(c, FlowSpecW())
    ensures As(Struct(c, FlowSpecParts, BuildFlowSpec, FlowSpecLen), Wire(FlowSpecOut, Same))
  {
    forall f, k ensures FlowSpecOut(f, k) == FlowSpecW().out(FlowSpecParts(f), k) && f == BuildFlowSpec(FlowSpecW().back(FlowSpecParts(f))) {
      FlowSpecIs(f, k);
    }
    StructAs(c, FlowSpecW(), FlowSpecParts, BuildFlowSpec, FlowSpecLen, Wire(FlowSpecOut, Same));
  }

  lemma FlowSpecAs()
    ensures As(FlowSpecs(), Wire(FlowSpecOut, Same))
  {
    BasicAs();
    FlagAs();
    FlowShapeAs(Num(2), Num(4), Flag());
    FlowSpecAsFrom(FlowShape());
  }

  // ---------------------------------------------------------------- data transfer

  function DtpOut(c: DtpConfig, k: seq<Octet>): seq<Octet> {
    Bit(c.dtcpPresent, N4(c.seqNumRoTh, N4(c.initialATimer, Bit(c.partialDelivery, Bit(c.incomplete, Bit(c.inOrder,
    N4(c.maxSduGap, Pol1(c.ps, k))))))))
  }

  function DtpBack(c: DtpConfig): DtpConfig { c.(ps := PolSeen(c.ps)) }

  lemma DtpAsFrom(n4: Codec<nat>, flag: Codec<bool>, pol: Codec<Option<Policy>>)
    requires As(n4, W4) && As(flag, WBit) && As(pol, WPol)
    ensures As(Struct(Three(Four(flag, n4, n4, flag), Three(flag, flag, n4), pol), DtpConfigParts, BuildDtpConfig, DtpConfigLen),
               Wire(DtpOut, DtpBack))
  {
    FourAs(flag, WBit, n4, W4, n4, W4, flag, WBit);
    ThreeAs(flag, WBit, flag, WBit, n4, W4);
    var a, b := FourW(WBit, W4, W4, WBit), ThreeW(WBit, WBit, W4);
    ThreeAs(Four(flag, n4, n4, flag), a, Three(flag, flag, n4), b, pol, WPol);
    StructAs(Three(Four(flag, n4, n4, flag), Three(flag, flag, n4), pol), ThreeW(a, b, WPol),
             DtpConfigParts, BuildDtpConfig, DtpConfigLen, Wire(DtpOut, DtpBack));
  }

  lemma DtpAs()
    ensures As(DtpConfigs(), Wire(DtpOut, DtpBack))
  {
    BasicAs();
    FlagAs();
    PolAs();
    DtpAsFrom(Num(4), Flag(), Pol());
  }

  // ---------------------------------------------------------------- data-transfer control

  function WindowOut(w: WindowConfig, k: seq<Octet>): seq<Octet> {
    N4(w.initialCredit, N4(w.maxClosedWinq, Pol1(w.rcvrFlowControl, Pol1(w.txControl, k))))
  }

  function WindowBack(w: WindowConfig): WindowConfig {
    w.(rcvrFlowControl := PolSeen(w.rcvrFlowControl), txControl := PolSeen(w.txControl))
  }

  function RateOut(r: RateConfig, k: seq<Octet>): seq<Octet> {
    N4(r.sendingRate, N4(r.timePeriod, Pol1(r.noOverrideDefaultPeak, Pol1(r.noRateSlowDown, Pol1(r.rateReduction, k)))))
  }

  function RateBack(r: RateConfig): RateConfig {
    r.(noOverrideDefaultPeak := PolSeen(r.noOverrideDefaultPeak), noRateSlowDown := PolSeen(r.noRateSlowDown),
       rateReduction := PolSeen(r.rateReduction))
  }

  lemma WindowAsFrom(n4: Codec<nat>, pol: Codec<Option<Policy>>)
    requires As(n4, W4) && As(pol, WPol)
    ensures As(Struct(Four(n4, n4, pol, pol), WindowParts, BuildWindow, WindowLen), Wire(WindowOut, WindowBack))
  {
    FourAs(n4, W4, n4, W4, pol, WPol, pol, WPol);
    StructAs(Four(n4, n4, pol, pol), FourW(W4, W4, WPol, WPol), WindowParts, BuildWindow, WindowLen, Wire(WindowOut, WindowBack));
  }

  lemma RateAsFrom(n4: Codec<nat>, pol: Codec<Option<Policy>>)
    requires As(n4, W4) && As(pol, WPol)
    ensures As(Struct(Two(Two(n4, n4), Three(pol, pol, pol)), RateConfigParts, BuildRate, RateLen), Wire(RateOut, RateBack))
  {
    TwoAs(n4, W4, n4, W4);
    ThreeAs(pol, WPol, pol, WPol, pol, WPol);
    TwoAs(Two(n4, n4), TwoW(W4, W4), Three(pol, pol, pol), ThreeW(WPol, WPol, WPol));
    StructAs(Two(Two(n4, n4), Three(pol, pol, pol)), TwoW(TwoW(W4, W4), ThreeW(WPol, WPol, WPol)), RateConfigParts, BuildRate, RateLen,
             Wire(RateOut, RateBack));
  }

  /** The four policies behind the fixed part, as they are written. */
  function FlowCtrlPolicies(f: FlowCtrlConfig, k: seq<Octet>): seq<Octet> {
    Pol1(f.closedWindow, Pol1(f.receiving, Pol1(f.reconcile, Pol1(f.overrun, k))))
  }

  function FlowCtrlOut(f: FlowCtrlConfig, k: seq<Octet>): seq<Octet> {
    N4(f.rcvdBuffersTh, N4(f.rcvdBytesPercentTh, N4(f.rcvdBytesTh, N4(f.sentBuffersTh, N4(f.sentBytesPercentTh, N4(f.sentBytesTh,
    Bit(f.windowBased, Bit(f.rateBased, FlowCtrlPolicies(f,
    if f.windowBased then PtrOut(WindowOut, f.window, if f.rateBased then PtrOut(RateOut, f.rate, k) else k)
    else if f.rateBased then PtrOut(RateOut, f.rate, k) else k)))))))))
  }

  /** The policy for receiving comes back as that for overruns, that for conflicts as that for receiving, and so on. */
  function FlowCtrlBack(f: FlowCtrlConfig): FlowCtrlConfig {
    f.(closedWindow := PolSeen(f.closedWindow), overrun := PolSeen(f.receiving), receiving := PolSeen(f.reconcile),
       reconcile := PolSeen(f.overrun), window := if f.windowBased then PtrBack(WindowBack, f.window) else None,
       rate := if f.rateBased then PtrBack(RateBack, f.rate) else None)
  }

  const WWindow := Wire(WindowOut, WindowBack)
  const WRate := Wire(RateOut, RateBack)

  function FlowCtrlTailW(): FlowCtrlHead -> Wire<(Option<WindowConfig>, Option<RateConfig>)> {
    (h: FlowCtrlHead) => TwoW(WhenW(WWindow, h.1.2), WhenW(WRate, h.1.3))
  }

  function FlowCtrlHeadW(): Wire<FlowCtrlHead> {
    ThreeW(FourW(W4, W4, W4, W4), FourW(W4, W4, WBit, WBit), FourW(WPol, WPol, WPol, WPol))
  }

  lemma FlowCtrlTailAs(w: Codec<WindowConfig>, r: Codec<RateConfig>)
    requires As(w, WWindow) && As(r, WRate)
    ensures forall h :: As(FlowCtrlTail(w, r)(h), FlowCtrlTailW()(h))
  {
    forall h ensures As(FlowCtrlTail(w, r)(h), FlowCtrlTailW()(h)) {
      WhenAs(w, WWindow, h.1.2);
      WhenAs(r, WRate, h.1.3);
      TwoAs(When(w, h.1.2), WhenW(WWindow, h.1.2), When(r, h.1.3), WhenW(WRate, h.1.3));
    }
  }

  lemma FlowCtrlHeadAs(n4: Codec<nat>, flag: Codec<bool>, pol: Codec<Option<Policy>>)
    requires As(n4, W4) && As(flag, WBit) && As(pol, WPol)
    ensures As(Three(Four(n4, n4, n4, n4), Four(n4, n4, flag, flag), Four(pol, pol, pol, pol)), FlowCtrlHeadW())
  {
    FourAs(n4, W4, n4, W4, n4, W4, n4, W4);
    FourAs(n4, W4, n4, W4, flag, WBit, flag, WBit);
    FourAs(pol, WPol, pol, WPol, pol, WPol, pol, WPol);
    ThreeAs(Four(n4, n4, n4, n4), FourW(W4, W4, W4, W4), Four(n4, n4, flag, flag), FourW(W4, W4, WBit, WBit),
            Four(pol, pol, pol, pol), FourW(WPol, WPol, WPol, WPol));
  }

  lemma FlowCtrlIs(f: FlowCtrlConfig, k: seq<Octet>)
    ensures FlowCtrlOut(f, k) == ThenW(FlowCtrlHeadW(), FlowCtrlTailW()).out(FlowCtrlConfigParts(f), k)
    ensures FlowCtrlBack(f) == BuildFlowCtrl(ThenW(FlowCtrlHeadW(), FlowCtrlTailW()).back(FlowCtrlConfigParts(f)))
  {
    var p := FlowCtrlConfigParts(f);
    assert FlowCtrlTailW()(p.0) == TwoW(WhenW(WWindow, f.windowBased), WhenW(WRate, f.rateBased));
  }

  lemma FlowCtrlAsFrom(c: Codec<FlowCtrlHead>, w: Codec<WindowConfig>, r: Codec<RateConfig>)
    requires As(c, FlowCtrlHeadW()) && As(w, WWindow) && As(r, WRate)
    ensures As(Struct(Then(c, FlowCtrlTail(w, r)), FlowCtrlConfigParts, BuildFlowCtrl, FlowCtrlLen), Wire(FlowCtrlOut, FlowCtrlBack))
  {
    FlowCtrlTailAs(w, r);
    ThenAs(c, FlowCtrlHeadW(), FlowCtrlTail(w, r), FlowCtrlTailW());
    forall f, k ensures FlowCtrlOut(f, k) == ThenW(FlowCtrlHeadW(), FlowCtrlTailW()).out(FlowCtrlConfigParts(f), k)
                ensures FlowCtrlBack(f) == BuildFlowCtrl(ThenW(FlowCtrlHeadW(), FlowCtrlTailW()).back(FlowCtrlConfigParts(f))) {
      FlowCtrlIs(f, k);
    }
    StructAs(Then(c, FlowCtrlTail(w, r)), ThenW(FlowCtrlHeadW(), FlowCtrlTailW()), FlowCtrlConfigParts, BuildFlowCtrl, FlowCtrlLen,
             Wire(FlowCtrlOut, FlowCtrlBack));
  }

  lemma FlowCtrlAs()
    ensures As(FlowCtrls(), Wire(FlowCtrlOut, FlowCtrlBack))
  {
    BasicAs();
    FlagAs();
    PolAs();
    FlowCtrlHeadAs(Num(4), Flag(), Pol());
    WindowAsFrom(Num(4), Pol());
    RateAsFrom(Num(4), Pol());
    FlowCtrlAsFrom(FlowCtrlShape(), Windows(), Rates());
  }

  function RtxCtrlOut(r: RtxCtrlConfig, k: seq<Octet>): seq<Octet> {
    N4(r.dataRetransmitMax, N4(r.initialTr, N4(r.maxTimeRetry, Pol1(r.rcvrAck, Pol1(r.rcvrControlAck, Pol1(r.receivingAckList,
    Pol1(r.rtxTimerExpiry, Pol1(r.senderAck, Pol1(r.sendingAck, k)))))))))
  }

  function RtxCtrlBack(r: RtxCtrlConfig): RtxCtrlConfig {
    r.(rcvrAck := PolSeen(r.rcvrAck), rcvrControlAck := PolSeen(r.rcvrControlAck), receivingAckList := PolSeen(r.receivingAckList),
       rtxTimerExpiry := PolSeen(r.rtxTimerExpiry), senderAck := PolSeen(r.senderAck), sendingAck := PolSeen(r.sendingAck))
  }

  lemma RtxCtrlAsFrom(n4: Codec<nat>, pol: Codec<Option<Policy>>)
    requires As(n4, W4) && As(pol, WPol)
    ensures As(Struct(Three(Three(n4, n4, n4), Three(pol, pol, pol), Three(pol, pol, pol)), RtxCtrlConfigParts, BuildRtxCtrl, RtxCtrlLen),
               Wire(RtxCtrlOut, RtxCtrlBack))
  {
    ThreeAs(n4, W4, n4, W4, n4, W4);
    ThreeAs(pol, WPol, pol, WPol, pol, WPol);
    var a, b := ThreeW(W4, W4, W4), ThreeW(WPol, WPol, WPol);
    ThreeAs(Three(n4, n4, n4), a, Three(pol, pol, pol), b, Three(pol, pol, pol), b);
    StructAs(Three(Three(n4, n4, n4), Three(pol, pol, pol), Three(pol, pol, pol)), ThreeW(a, b, b), RtxCtrlConfigParts, BuildRtxCtrl,
             RtxCtrlLen, Wire(RtxCtrlOut, RtxCtrlBack));
  }

  function DtcpOut(c: DtcpConfig, k: seq<Octet>): seq<Octet> {
    Bit(c.flowCtrl, Bit(c.rtxCtrl, Pol1(c.ps, Pol1(c.lostControlPdu, Pol1(c.rttEstimator,
    if c.flowCtrl then PtrOut(FlowCtrlOut, c.fctrl, if c.rtxCtrl then PtrOut(RtxCtrlOut, c.rxctrl, k) else k)
    else if c.rtxCtrl then PtrOut(RtxCtrlOut, c.rxctrl, k) else k)))))
  }

  function DtcpBack(c: DtcpConfig): DtcpConfig {
    c.(ps := PolSeen(c.ps), lostControlPdu := PolSeen(c.lostControlPdu), rttEstimator := PolSeen(c.rttEstimator),
       fctrl := if c.flowCtrl then PtrBack(FlowCtrlBack, c.fctrl) else None,
       rxctrl := if c.rtxCtrl then PtrBack(RtxCtrlBack, c.rxctrl) else None)
  }

  const WFlowCtrl := Wire(FlowCtrlOut, FlowCtrlBack)
  const WRtxCtrl := Wire(RtxCtrlOut, RtxCtrlBack)

  function DtcpTailW(): DtcpHead -> Wire<(Option<FlowCtrlConfig>, Option<RtxCtrlConfig>)> {
    (h: DtcpHead) => TwoW(WhenW(WFlowCtrl, h.0.0), WhenW(WRtxCtrl, h.0.1))
  }

  function DtcpHeadW(): Wire<DtcpHead> { TwoW(TwoW(WBit, WBit), ThreeW(WPol, WPol, WPol)) }

  lemma DtcpTailAs(f: Codec<FlowCtrlConfig>, r: Codec<RtxCtrlConfig>)
    requires As(f, WFlowCtrl) && As(r, WRtxCtrl)
    ensures forall h :: As(DtcpTail(f, r)(h), DtcpTailW()(h))
  {
    forall h ensures As(DtcpTail(f, r)(h), DtcpTailW()(h)) {
      WhenAs(f, WFlowCtrl, h.0.0);
      WhenAs(r, WRtxCtrl, h.0.1);
      TwoAs(When(f, h.0.0), WhenW(WFlowCtrl, h.0.0), When(r, h.0.1), WhenW(WRtxCtrl, h.0.1));
    }
  }

  lemma DtcpHeadAs(flag: Codec<bool>, pol: Codec<Option<Policy>>)
    requires As(flag, WBit) && As(pol, WPol)
    ensures As(Two(Two(flag, flag), Three(pol, pol, pol)), DtcpHeadW())
  {
    TwoAs(flag, WBit, flag, WBit);
    ThreeAs(pol, WPol, pol, WPol, pol, WPol);
    TwoAs(Two(flag, flag), TwoW(WBit, WBit), Three(pol, pol, pol), ThreeW(WPol, WPol, WPol));
  }

  lemma DtcpIs(x: DtcpConfig, k: seq<Octet>)
    ensures DtcpOut(x, k) == ThenW(DtcpHeadW(), DtcpTailW()).out(DtcpConfigParts(x), k)
    ensures DtcpBack(x) == BuildDtcp(ThenW(DtcpHeadW(), DtcpTailW()).back(DtcpConfigParts(x)))
  {
    var p := DtcpConfigParts(x);
    assert DtcpTailW()(p.0) == TwoW(WhenW(WFlowCtrl, x.flowCtrl), WhenW(WRtxCtrl, x.rtxCtrl));
  }

  lemma DtcpAsFrom(c: Codec<DtcpHead>, f: Codec<FlowCtrlConfig>, r: Codec<RtxCtrlConfig>)
    requires As(c, DtcpHeadW()) && As(f, WFlowCtrl) && As(r, WRtxCtrl)
    ensures As(Struct(Then(c, DtcpTail(f, r)), DtcpConfigParts, BuildDtcp, DtcpLen), Wire(DtcpOut, DtcpBack))
  {
    DtcpTailAs(f, r);
    ThenAs(c, DtcpHeadW(), DtcpTail(f, r), DtcpTailW());
    forall x, k ensures DtcpOut(x, k) == ThenW(DtcpHeadW(), DtcpTailW()).out(DtcpConfigParts(x), k)
                ensures DtcpBack(x) == BuildDtcp(ThenW(DtcpHeadW(), DtcpTailW()).back(DtcpConfigParts(x))) {
      DtcpIs(x, k);
    }
    StructAs(Then(c, DtcpTail(f, r)), ThenW(DtcpHeadW(), DtcpTailW()), DtcpConfigParts, BuildDtcp, DtcpLen, Wire(DtcpOut, DtcpBack));
  }

  lemma DtcpAs()
    ensures As(DtcpConfigs(), Wire(DtcpOut, DtcpBack))
  {
    BasicAs();
    FlagAs();
    PolAs();
    DtcpHeadAs(Flag(), Pol());
    FlowCtrlAs();
    RtxCtrlAsFrom(Num(4), Pol());
    DtcpAsFrom(DtcpShape(), FlowCtrls(), RtxCtrls());
  }
}
