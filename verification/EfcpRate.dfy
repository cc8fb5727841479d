/**
 The rate bound, for rate-based flow control with or without a window: between two resets of the
 counter, however writes, deliveries from the closed-window queue and retransmissions are mixed, the
 first transmissions stay below the sending rate plus one PDU.
 */
module EfcpRate {
  import opened EfcpTypes
  import opened RateControl
  import opened RtxQueue
  import opened DtpSender
  import opened EfcpWorld
  import R = DtpReceiver

  ghost predicate RateBased(cfg: Config) { cfg.flowCtrl && cfg.rateBased }

  /** Every write carries at most `maxPdu` bytes. */
  ghost predicate Sized(es: seq<Event>, maxPdu: nat) {
    forall i :: 0 <= i < |es| ==> (es[i].EvWrite? ==> |es[i].data| <= maxPdu)
  }

  function Bytes(sent: seq<Sent>): nat {
    if sent == [] then 0 else Bytes(sent[..|sent| - 1]) + |sent[|sent| - 1].pdu.data|
  }

  lemma {:induction false} BytesConcat(a: seq<Sent>, b: seq<Sent>)
    ensures Bytes(a + b) == Bytes(a) + Bytes(b)
  {
    if b == [] {
      assert a + b == a;
    } else {
      assert (a + b)[..|a + b| - 1] == a + b[..|b| - 1];
      BytesConcat(a, b[..|b| - 1]);
    }
  }

  lemma BytesOfTail(s: seq<Sent>, k: nat)
    requires k <= |s|
    ensures Bytes(s) == Bytes(s[..k]) + Bytes(s[k..])
  {
    assert s == s[..k] + s[k..];
    BytesConcat(s[..k], s[k..]);
  }

  // ---------------------------------------------------------------- the counter covers the first transmissions

  lemma ChargeBounded(r: Rate, bytes: nat, maxPdu: nat)
    requires Bounded(r, maxPdu) && !Exceeded(r, true) && bytes <= maxPdu
    ensures Bounded(FirstTransmission(Charge(r, bytes), bytes), maxPdu)
  {
  }

  lemma TransmitRate(cfg: Config, s: Snd, pdu: DataPdu, now: nat)
    ensures var s' := Transmit(cfg, s, pdu, now).s; s'.rate == s.rate || s'.rate == FirstTransmission(s.rate, |pdu.data|)
  {
  }

  lemma WriteBounded(cfg: Config, s: Snd, data: seq<Octet>, now: nat, tick: bool, maxPdu: nat)
    requires RateBased(cfg) && Bounded(s.rate, maxPdu) && |data| <= maxPdu
    ensures var s' := Write(cfg, s, data, now, tick).s;
            Bounded(s'.rate, maxPdu) && s'.rate.sndrRate == s.rate.sndrRate
  {
    var pdu := NewPdu(cfg, s, data);
    var s1 := Checked(cfg, Numbered(s), pdu.sn, tick);
    if !WindowIsClosed(cfg, s1, pdu.sn) {
      ChargeBounded(s1.rate, |data|, maxPdu);
      TransmitRate(cfg, s1.(rate := Charge(s1.rate, |data|)), pdu, now);
    }
  }

  lemma RoundBounded(cfg: Config, s: Snd, now: nat, ticks: seq<bool>, maxPdu: nat)
    requires RateBased(cfg) && Bounded(s.rate, maxPdu) && Continues(cfg, s, now, ticks)
    ensures var s' := Delivered1(cfg, s, now, ticks);
            Bounded(s'.rate, maxPdu) && s'.rate.sndrRate == s.rate.sndrRate
  {
  }

  lemma SettleRate(cfg: Config, s: Snd)
    ensures var r := Settle(cfg, s).rate; r == s.rate.(fulfilled := r.fulfilled)
  {
  }

  lemma StoppedRate(cfg: Config, s: Snd, now: nat, ticks: seq<bool>)
    ensures var r := Stopped(cfg, s, now, ticks).rate;
            var r0 := if cfg.rateBased then Elapse(s.rate, Tick(ticks)) else s.rate;
            r == s.rate || r == r0 || (s.cwq != [] && r == Charge(r0, |s.cwq[0].data|))
  {
  }

  lemma StopBounded(cfg: Config, s: Snd, now: nat, ticks: seq<bool>, maxPdu: nat)
    requires RateBased(cfg) && Bounded(s.rate, maxPdu)
    ensures var s' := Settle(cfg, Stopped(cfg, s, now, ticks));
            Bounded(s'.rate, maxPdu) && s'.rate.sndrRate == s.rate.sndrRate
  {
    StoppedRate(cfg, s, now, ticks);
    SettleRate(cfg, Stopped(cfg, s, now, ticks));
  }

  lemma {:induction false} DeliverBounded(cfg: Config, s: Snd, now: nat, ticks: seq<bool>, maxPdu: nat)
    requires RateBased(cfg) && Bounded(s.rate, maxPdu)
    ensures var s' := Deliver(cfg, s, now, ticks).s;
            Bounded(s'.rate, maxPdu) && s'.rate.sndrRate == s.rate.sndrRate
    decreases |s.cwq|
  {
    if Continues(cfg, s, now, ticks) {
      RoundBounded(cfg, s, now, ticks, maxPdu);
      DeliverBounded(cfg, Delivered1(cfg, s, now, ticks), now, Later(ticks), maxPdu);
    } else {
      StopBounded(cfg, s, now, ticks, maxPdu);
    }
  }

  lemma {:induction false} RetransmitBounded(
      cfg: Config, q: seq<RtxEntry>, tr: nat, now: nat, rate: Rate, ticks: seq<bool>, maxPdu: nat)
    requires Bounded(rate, maxPdu)
    ensures var p := Retransmit(cfg, q, tr, now, rate, ticks);
            Bounded(p.rate, maxPdu) && p.rate.sndrRate == rate.sndrRate
  {
    if q != [] && TimeToRtx(q[0], tr) <= now {
      var limited := q[0].retries + 1 < cfg.dataRtxMax && cfg.rateBased;
      var charged := Elapse(Charge(rate, |q[0].pdu.data|), Tick(ticks));
      if !(limited && Exceeded(charged, true)) {
        RetransmitBounded(cfg, q[1..], tr, now, if limited then charged else rate, if limited then Later(ticks) else ticks, maxPdu);
      }
    }
  }

  ghost predicate RateInv(cfg: Config, w: World, maxPdu: nat) {
    && Bounded(w.snd.rate, maxPdu) && w.snd.rate.sndrRate == cfg.sendingRate
    && (forall c :: c in w.acks ==> c.sndrRate == cfg.sendingRate)
  }

  lemma ControlBounded(cfg: Config, s: Snd, c: CtrlPdu, now: nat, ticks: seq<bool>, maxPdu: nat)
    requires RateBased(cfg) && Bounded(s.rate, maxPdu) && s.rate.sndrRate == cfg.sendingRate == c.sndrRate
    ensures var s' := ReceiveControl(cfg, s, c, now, ticks).s;
            Bounded(s'.rate, maxPdu) && s'.rate.sndrRate == cfg.sendingRate
  {
    var s1 := s.(lastRcvCtlSeq := c.csn);
    var _ := AcknowledgedShape(cfg, s1, c, now);
    DeliverBounded(cfg, Opened(cfg, Acknowledged(cfg, s1, c, now), c), now, ticks, maxPdu);
  }

  lemma AdvertisedRate(cfg: Config, w: World, e: Event)
    requires RateBased(cfg) && (e.EvData? || e.EvATimer? || e.EvRendezvous? || e.EvRendezvousTimer?)
    requires forall c :: c in w.acks ==> c.sndrRate == cfg.sendingRate
    ensures forall c :: c in Next(cfg, w, e).acks ==> c.sndrRate == cfg.sendingRate
    ensures Next(cfg, w, e).snd == w.snd
  {
  }

  lemma RateStep(cfg: Config, w: World, e: Event, maxPdu: nat)
    requires RateBased(cfg) && Enabled(cfg, w, e) && RateInv(cfg, w, maxPdu)
    requires e.EvWrite? ==> |e.data| <= maxPdu
    ensures RateInv(cfg, Next(cfg, w, e), maxPdu)
  {
    match e
    case EvWrite(data, now, tick) => WriteBounded(cfg, w.snd, data, now, tick, maxPdu);
    case EvCtrl(c, now, ticks) => ControlBounded(cfg, w.snd, c, now, ticks, maxPdu);
    case EvRtx(now, ticks) => RetransmitBounded(cfg, w.snd.rtxq, w.snd.rtt.tr, now, w.snd.rate, ticks, maxPdu);
    case EvRate(now, ticks) =>
      DeliverBounded(cfg, w.snd.(rate := Elapse(w.snd.rate, true).(fulfilled := false), portDisabled := false), now, ticks, maxPdu);
    case EvSendRendezvous =>
    case _ => AdvertisedRate(cfg, w, e);
  }

  /**
   In every state of every run the counter never exceeds the sending rate, and the bytes transmitted for
   the first time since its last reset are covered by it or have overshot the rate by less than one PDU.
   */
  lemma {:induction false} RateBound(cfg: Config, n0: nat, tr: nat, es: seq<Event>, maxPdu: nat)
    requires RateBased(cfg) && Runs(cfg, Start(cfg, n0, tr), es) && Sized(es, maxPdu)
    ensures var r := Exec(cfg, Start(cfg, n0, tr), es).snd.rate;
            r.sent <= cfg.sendingRate && (r.firstTx <= cfg.sendingRate || r.firstTx < cfg.sendingRate + maxPdu)
    ensures RateInv(cfg, Exec(cfg, Start(cfg, n0, tr), es), maxPdu)
  {
    if es != [] {
      RateBound(cfg, n0, tr, es[..|es| - 1], maxPdu);
      RateStep(cfg, Exec(cfg, Start(cfg, n0, tr), es[..|es| - 1]), es[|es| - 1], maxPdu);
    }
  }

  // ---------------------------------------------------------------- between two resets

  ghost predicate Still(ticks: seq<bool>) { forall i :: 0 <= i < |ticks| ==> !ticks[i] }

  /** No clock reading of the event finds the time unit elapsed. */
  ghost predicate Resetless(e: Event) {
    match e
    case EvWrite(data, now, tick) => !tick
    case EvCtrl(c, now, ticks) => Still(ticks)
    case EvRtx(now, ticks) => Still(ticks)
    case EvRate(now, ticks) => false
    case _ => true
  }

  ghost predicate Undisturbed(es: seq<Event>) { forall i :: 0 <= i < |es| ==> Resetless(es[i]) }

  lemma OneMore(s: Sent, rest: seq<Sent>)
    ensures Bytes([s] + rest) == |s.pdu.data| + Bytes(rest)
  {
    BytesConcat([s], rest);
    assert [s][..0] == [];
  }

  lemma {:induction false} DeliverCounts(cfg: Config, s: Snd, now: nat, ticks: seq<bool>, edge: nat)
    requires Still(ticks)
    ensures var d := Deliver(cfg, s, now, ticks);
            d.s.rate.firstTx == s.rate.firstTx + Bytes(AsSent(d.out, edge))
    decreases |s.cwq|
  {
    if Continues(cfg, s, now, ticks) {
      var s' := Delivered1(cfg, s, now, ticks);
      var rest := Deliver(cfg, s', now, Later(ticks));
      DeliverCounts(cfg, s', now, Later(ticks), edge);
      assert AsSent([s.cwq[0]] + rest.out, edge) == [Sent(s.cwq[0], edge)] + AsSent(rest.out, edge);
      OneMore(Sent(s.cwq[0], edge), AsSent(rest.out, edge));
    } else {
      StoppedRate(cfg, s, now, ticks);
      SettleRate(cfg, Stopped(cfg, s, now, ticks));
    }
  }

  lemma {:induction false} RetransmitStill(cfg: Config, q: seq<RtxEntry>, tr: nat, now: nat, rate: Rate, ticks: seq<bool>)
    requires Still(ticks)
    ensures Retransmit(cfg, q, tr, now, rate, ticks).rate.firstTx == rate.firstTx
  {
    if q != [] && TimeToRtx(q[0], tr) <= now {
      var limited := q[0].retries + 1 < cfg.dataRtxMax && cfg.rateBased;
      var charged := Elapse(Charge(rate, |q[0].pdu.data|), Tick(ticks));
      if !(limited && Exceeded(charged, true)) {
        RetransmitStill(cfg, q[1..], tr, now, if limited then charged else rate, if limited then Later(ticks) else ticks);
      }
    }
  }

  lemma ControlCounts(cfg: Config, s: Snd, c: CtrlPdu, now: nat, ticks: seq<bool>, edge: nat)
    requires Still(ticks)
    ensures var d := ReceiveControl(cfg, s, c, now, ticks);
            d.s.rate.firstTx == s.rate.firstTx + Bytes(AsSent(d.out, edge))
  {
    var s1 := s.(lastRcvCtlSeq := c.csn);
    var _ := AcknowledgedShape(cfg, s1, c, now);
    DeliverCounts(cfg, Opened(cfg, Acknowledged(cfg, s1, c, now), c), now, ticks, edge);
  }

  lemma WriteCounts(cfg: Config, s: Snd, data: seq<Octet>, now: nat, edge: nat)
    ensures var d := Write(cfg, s, data, now, false);
            d.s.rate.firstTx == s.rate.firstTx + Bytes(AsSent(d.out, edge))
  {
    var d := Write(cfg, s, data, now, false);
    if d.out != [] {
      assert AsSent(d.out, edge) == [Sent(NewPdu(cfg, s, data), edge)] + [];
      OneMore(Sent(NewPdu(cfg, s, data), edge), []);
    }
  }

  /** Without a reset the history counter grows by exactly the bytes transmitted for the first time. */
  lemma CountStep(cfg: Config, w: World, e: Event)
    requires Resetless(e)
    ensures var w' := Next(cfg, w, e);
            |w.first| <= |w'.first| && w'.first[..|w.first|] == w.first
            && w'.snd.rate.firstTx + Bytes(w.first) == w.snd.rate.firstTx + Bytes(w'.first)
  {
    var w' := Next(cfg, w, e);
    match e
    case EvWrite(data, now, tick) =>
      var d := Write(cfg, w.snd, data, now, tick);
      WriteCounts(cfg, w.snd, data, now, d.s.sndRtWindEdge);
      BytesConcat(w.first, AsSent(d.out, d.s.sndRtWindEdge));
    case EvCtrl(c, now, ticks) =>
      var d := ReceiveControl(cfg, w.snd, c, now, ticks);
      ControlCounts(cfg, w.snd, c, now, ticks, d.s.sndRtWindEdge);
      BytesConcat(w.first, AsSent(d.out, d.s.sndRtWindEdge));
    case EvRtx(now, ticks) => RetransmitStill(cfg, w.snd.rtxq, w.snd.rtt.tr, now, w.snd.rate, ticks);
    case _ =>
  }

  lemma {:induction false} CountRun(cfg: Config, w: World, es: seq<Event>)
    requires Undisturbed(es)
    ensures var w' := Exec(cfg, w, es);
            |w.first| <= |w'.first| && w'.first[..|w.first|] == w.first
            && w'.snd.rate.firstTx + Bytes(w.first) == w.snd.rate.firstTx + Bytes(w'.first)
  {
    if es != [] {
      CountRun(cfg, w, es[..|es| - 1]);
      CountStep(cfg, Exec(cfg, w, es[..|es| - 1]), es[|es| - 1]);
    }
  }

  lemma CountSegment(cfg: Config, w: World, es: seq<Event>)
    requires Undisturbed(es)
    ensures var w' := Exec(cfg, w, es);
            |w.first| <= |w'.first| && Bytes(w'.first[|w.first|..]) <= w'.snd.rate.firstTx
  {
    CountRun(cfg, w, es);
    BytesOfTail(Exec(cfg, w, es).first, |w.first|);
  }

  lemma {:induction false} ExecConcat(cfg: Config, w: World, a: seq<Event>, b: seq<Event>)
    ensures Exec(cfg, w, a + b) == Exec(cfg, Exec(cfg, w, a), b)
    decreases |b|
  {
    if b == [] {
      assert a + b == a;
    } else {
      assert (a + b)[..|a + b| - 1] == a + b[..|b| - 1];
      ExecConcat(cfg, w, a, b[..|b| - 1]);
    }
  }

  /**
   The rate bound: in any part of any run that contains no reset of the counter, the payload bytes of
   first transmissions, from writes and from the closed-window queue together, stay below the sending
   rate plus one maximum PDU, whatever is retransmitted meanwhile.
   */
  lemma BoundBetweenResets(cfg: Config, n0: nat, tr: nat, before: seq<Event>, es: seq<Event>, maxPdu: nat)
    requires RateBased(cfg) && maxPdu > 0 && Sized(before + es, maxPdu)
    requires Runs(cfg, Start(cfg, n0, tr), before + es) && Undisturbed(es)
    ensures var w := Exec(cfg, Start(cfg, n0, tr), before);
            var w' := Exec(cfg, Start(cfg, n0, tr), before + es);
            && |w.first| <= |w'.first|
            && Bytes(w'.first[|w.first|..]) < cfg.sendingRate + maxPdu
  {
    var w := Exec(cfg, Start(cfg, n0, tr), before);
    ExecConcat(cfg, Start(cfg, n0, tr), before, es);
    CountSegment(cfg, w, es);
    RateBound(cfg, n0, tr, before + es, maxPdu);
  }
}
