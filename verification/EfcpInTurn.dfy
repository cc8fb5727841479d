/**
 Numbers in turn: on every configuration whose writers cannot overtake the closed-window queue, a number
 reaches the retransmission queue, and the network, only after all smaller ones. The sender then feeds the
 retransmission queue in increasing order, so the laws of the queue hold over every run of the connection.
 */
module EfcpInTurn {
  import opened EfcpTypes
  import opened RateControl
  import opened RtxQueue
  import opened DtpSender
  import opened EfcpWorld
  import opened EfcpGenuine
  import opened EfcpWindow
  import opened EfcpFeed
  import R = DtpReceiver

  /**
   The configurations on which a write can overtake queued PDUs: rate-based flow control with a rate to
   spend, and a window, if there is one, that can hold two numbers.
   */
  predicate Overtakes(cfg: Config) {
    && cfg.rtxCtrl && cfg.flowCtrl && cfg.rateBased && cfg.sendingRate > 0
    && (cfg.windowBased ==> cfg.initialCredit >= 2)
  }

  // ---------------------------------------------------------------- a sender in line

  /** The last number that is not waiting in the closed-window queue. */
  function Taken(s: Snd): nat { if |s.cwq| <= s.seqNrToSend then s.seqNrToSend - |s.cwq| else 0 }

  /** The closed-window queue holds exactly the numbers after that one, and nothing beyond it was sent. */
  ghost predicate Lined(s: Snd) {
    && |s.cwq| <= s.seqNrToSend && Consecutive(s.cwq, Taken(s)) && s.maxSeqNrSent <= Taken(s)
    && Sorted(s.rtxq) && AllBelow(s.rtxq, Taken(s) + 1)
  }

  lemma SameLine(s: Snd, s': Snd)
    requires Lined(s) && s'.cwq == s.cwq && s'.rtxq == s.rtxq && s'.seqNrToSend == s.seqNrToSend
    requires s'.maxSeqNrSent <= Taken(s)
    ensures Lined(s') && Taken(s') == Taken(s)
  {
  }

  lemma HeadTaken(cfg: Config, s: Snd, now: nat)
    requires Lined(s) && s.cwq != []
    ensures var x := TakeHead(cfg, s, now);
            && Lined(x) && Taken(x) == Taken(s) + 1 == s.cwq[0].sn
            && x == s.(cwq := s.cwq[1..], rtxq := if cfg.rtxCtrl then s.rtxq + [RtxEntry(s.cwq[0], now, 0)] else s.rtxq)
  {
    PushAtTail(s.rtxq, RtxEntry(s.cwq[0], now, 0));
  }

  /** What a delivery of the closed-window queue does to a sender in line. */
  ghost predicate KeepsLine(cfg: Config, s: Snd, d: Step) {
    && Lined(d.s) && Taken(s) <= Taken(d.s)
    && d.s.seqNrToSend == s.seqNrToSend && d.s.sndRtWindEdge == s.sndRtWindEdge
    && d.s.rendezvousSndr == s.rendezvousSndr && d.s.rate.sndrRate == s.rate.sndrRate
    && (d.s.sndLftWin == s.sndLftWin || d.s.sndLftWin <= Taken(d.s))
    && (forall p :: p in d.out ==> p.sn <= Taken(d.s))
    && (s.cwq != [] && cfg.windowBased && Taken(d.s) == Taken(s) ==> s.sndRtWindEdge <= s.maxSeqNrSent)
    && (!cfg.rateBased && s.maxSeqNrSent == Taken(s) ==>
          d.s.maxSeqNrSent == Taken(d.s)
          && (d.s.cwq != [] && cfg.windowBased ==> d.s.sndRtWindEdge <= Taken(d.s)))
  }

  lemma SentInLine(cfg: Config, s: Snd, pdu: DataPdu)
    requires Lined(s) && pdu.sn == Taken(s)
    ensures var s' := SendHead(cfg, s, pdu);
            && Lined(s') && Taken(s') == s'.maxSeqNrSent == s'.sndLftWin == pdu.sn
            && s' == s.(maxSeqNrSent := pdu.sn, sndLftWin := pdu.sn, rate := s'.rate) && s'.rate.sndrRate == s.rate.sndrRate
  {
  }

  lemma RoundKeepsLine(cfg: Config, s: Snd, now: nat, ticks: seq<bool>)
    requires Lined(s) && s.cwq != []
    ensures var s' := Delivered1(cfg, s, now, ticks);
            && Lined(s') && Taken(s') == Taken(s) + 1 == s.cwq[0].sn == s'.maxSeqNrSent == s'.sndLftWin
            && s'.seqNrToSend == s.seqNrToSend && s'.sndRtWindEdge == s.sndRtWindEdge
            && s'.rendezvousSndr == s.rendezvousSndr && s'.rate.sndrRate == s.rate.sndrRate
  {
    var s1 := ClockRead(cfg, s, Tick(ticks));
    SameLine(s, s1);
    HeadTaken(cfg, s1, now);
    SentInLine(cfg, TakeHead(cfg, s1, now), s.cwq[0]);
  }

  lemma StopTaking(cfg: Config, s: Snd, now: nat, ticks: seq<bool>)
    requires Lined(s) && s.cwq != []
    ensures var x := Stopped(cfg, s, now, ticks); var took := CanDeliver(cfg, ClockRead(cfg, s, Tick(ticks)));
            && Lined(x) && Taken(x) == Taken(s) + (if took then 1 else 0)
            && x == s.(cwq := x.cwq, rtxq := x.rtxq, rate := x.rate) && x.rate.sndrRate == s.rate.sndrRate
  {
    var s1 := ClockRead(cfg, s, Tick(ticks));
    SameLine(s, s1);
    HeadTaken(cfg, s1, now);
    if CanDeliver(cfg, s1) {
      SameLine(TakeHead(cfg, s1, now), Stopped(cfg, s, now, ticks));
    }
  }

  lemma SettleKeepsLine(cfg: Config, s: Snd, x: Snd)
    requires KeepsLine(cfg, s, Step(x, []))
    ensures KeepsLine(cfg, s, Step(Settle(cfg, x), []))
  {
    SameLine(x, Settle(cfg, x));
  }

  lemma StopKeepsLine(cfg: Config, s: Snd, now: nat, ticks: seq<bool>)
    requires Lined(s) && !Continues(cfg, s, now, ticks)
    ensures KeepsLine(cfg, s, Step(Settle(cfg, Stopped(cfg, s, now, ticks)), []))
  {
    var x := Stopped(cfg, s, now, ticks);
    if s.cwq != [] {
      StopTaking(cfg, s, now, ticks);
      SettleKeepsLine(cfg, s, x);
    } else {
      SettleKeepsLine(cfg, s, s);
    }
  }

  lemma {:induction false} DeliverKeepsLine(cfg: Config, s: Snd, now: nat, ticks: seq<bool>)
    requires Lined(s)
    ensures KeepsLine(cfg, s, Deliver(cfg, s, now, ticks))
    decreases |s.cwq|
  {
    if Continues(cfg, s, now, ticks) {
      RoundKeepsLine(cfg, s, now, ticks);
      DeliverKeepsLine(cfg, Delivered1(cfg, s, now, ticks), now, Later(ticks));
    } else {
      StopKeepsLine(cfg, s, now, ticks);
    }
  }

  // ---------------------------------------------------------------- why no write overtakes

  /** Without rate control whatever waits is outside the window. */
  ghost predicate Unpaced(cfg: Config, s: Snd) {
    && s.maxSeqNrSent == Taken(s)
    && (s.cwq != [] ==> cfg.windowBased && s.sndRtWindEdge <= Taken(s))
  }

  /** A rate of zero is used up at all times, so every write is parked. */
  ghost predicate Still(w: World) {
    w.snd.rate.sndrRate == 0 && forall c :: c in w.acks ==> c.sndrRate == 0
  }

  /** How far any advertised left edge can be: one further while something waits. */
  function Reach(s: Snd): nat { if s.cwq == [] then Taken(s) else Taken(s) + 1 }

  /**
   No edge runs ahead of what was taken by more than the credit: a rendezvous may announce the number after
   the last one taken, but only while that number waits, and the answer then takes it.
   */
  ghost predicate Tight(cfg: Config, w: World) {
    var t, b := Taken(w.snd), Reach(w.snd);
    && w.snd.sndRtWindEdge <= t + cfg.initialCredit
    && w.snd.sndLftWin <= t + 1 && (w.snd.rendezvousSndr ==> w.snd.sndLftWin <= b)
    && (forall c :: c in w.rvs ==> c.myLwe <= b)
    && (forall c :: c in w.acks ==> Opens(c) && c.ackSn <= t && c.newRwe <= b + cfg.initialCredit)
    && (forall p :: p in w.data ==> p.sn <= t)
    && w.rcv.lwe <= t && w.rcv.rcvrRtWindEdge <= b + cfg.initialCredit
    && Behind(w.rcv.seqq, t)
  }

  ghost predicate Behind(q: seq<R.SeqEntry>, t: nat) { forall i :: 0 <= i < |q| ==> q[i].pdu.sn <= t }

  ghost predicate InTurn(cfg: Config, w: World) {
    && Lined(w.snd)
    && (if !cfg.rateBased then Unpaced(cfg, w.snd)
        else if !cfg.flowCtrl || cfg.sendingRate == 0 then Still(w)
        else cfg.windowBased && cfg.initialCredit <= 1 && Tight(cfg, w))
  }

  /** The write finds the window open. */
  predicate FindsOpen(cfg: Config, s: Snd, data: seq<Octet>, tick: bool) {
    var pdu := NewPdu(cfg, s, data);
    !WindowIsClosed(cfg, Checked(cfg, Numbered(s), pdu.sn, tick), pdu.sn)
  }

  /** A write that is not parked finds nothing waiting. */
  lemma NoOvertaking(cfg: Config, w: World, data: seq<Octet>, tick: bool)
    requires InTurn(cfg, w) && FindsOpen(cfg, w.snd, data, tick)
    ensures w.snd.cwq == []
  {
  }

  // ---------------------------------------------------------------- sender steps

  /** A sender step that stays in line, with what it may have sent. */
  ghost predicate SenderStep(w: World, w': World) {
    && w' == w.(snd := w'.snd, data := w'.data, first := w'.first, written := w'.written, dropped := w'.dropped)
    && Taken(w.snd) <= Taken(w'.snd) && Reach(w.snd) <= Reach(w'.snd)
    && (forall p :: p in w'.data ==> p in w.data || p.sn <= Taken(w'.snd))
  }

  lemma SenderKeepsTight(cfg: Config, w: World, w': World)
    requires Tight(cfg, w) && SenderStep(w, w')
    requires w'.snd.sndRtWindEdge <= Taken(w'.snd) + cfg.initialCredit
    requires w'.snd.sndLftWin <= Taken(w'.snd) + 1 && (w'.snd.rendezvousSndr ==> w'.snd.sndLftWin <= Reach(w'.snd))
    ensures Tight(cfg, w')
  {
  }

  lemma WriteInTurn(cfg: Config, w: World, e: Event)
    requires InTurn(cfg, w) && e.EvWrite?
    ensures InTurn(cfg, Next(cfg, w, e))
  {
    var w' := Next(cfg, w, e);
    var pdu := NewPdu(cfg, w.snd, e.data);
    if FindsOpen(cfg, w.snd, e.data, e.tick) {
      NoOvertaking(cfg, w, e.data, e.tick);
      PushAtTail(w.snd.rtxq, RtxEntry(pdu, e.now, 0));
      assert Write(cfg, w.snd, e.data, e.now, e.tick).out == [pdu];
    } else {
      assert w'.data == w.data;
    }
    assert Lined(w'.snd);
    if cfg.rateBased && cfg.flowCtrl && cfg.sendingRate > 0 {
      SenderKeepsTight(cfg, w, w');
    }
  }

  /** What the delivery loop is entered with, after a control PDU or the rate timer. */
  ghost predicate Entered(cfg: Config, w: World, s: Snd) {
    && Lined(s) && s.cwq == w.snd.cwq && s.seqNrToSend == w.snd.seqNrToSend && s.maxSeqNrSent == w.snd.maxSeqNrSent
    && (cfg.rateBased && (!cfg.flowCtrl || cfg.sendingRate == 0) ==> s.rate.sndrRate == 0)
    && (cfg.rateBased && cfg.flowCtrl && cfg.sendingRate > 0 ==>
          && s.sndRtWindEdge <= Reach(s) + cfg.initialCredit && s.sndLftWin <= Taken(s) + 1
          && (s.rendezvousSndr ==> s.sndLftWin <= Reach(s)))
  }

  /** Delivering brings every edge back to within the credit. */
  lemma DeliverTightens(cfg: Config, w: World, s: Snd, now: nat, ticks: seq<bool>)
    requires cfg.rateBased && cfg.flowCtrl && cfg.sendingRate > 0 && InTurn(cfg, w) && Entered(cfg, w, s)
    ensures Tight(cfg, FirstSends(w, Deliver(cfg, s, now, ticks)))
  {
    DeliverKeepsLine(cfg, s, now, ticks);
    SenderKeepsTight(cfg, w, FirstSends(w, Deliver(cfg, s, now, ticks)));
  }

  lemma DeliverInTurn(cfg: Config, w: World, s: Snd, now: nat, ticks: seq<bool>)
    requires InTurn(cfg, w) && Entered(cfg, w, s)
    ensures InTurn(cfg, FirstSends(w, Deliver(cfg, s, now, ticks)))
  {
    DeliverKeepsLine(cfg, s, now, ticks);
    if cfg.rateBased && cfg.flowCtrl && cfg.sendingRate > 0 {
      DeliverTightens(cfg, w, s, now, ticks);
    }
  }

  lemma SuffixInLine(s: Snd, s': Snd, k: nat)
    requires Lined(s) && k <= |s.rtxq| && s' == s.(rtxq := s.rtxq[k..], sndLftWin := s'.sndLftWin, rtt := s'.rtt)
    ensures Lined(s') && Taken(s') == Taken(s)
  {
  }

  lemma AckInTurn(cfg: Config, w: World, c: CtrlPdu, now: nat)
    requires InTurn(cfg, w) && c in w.acks
    ensures var s2 := Acknowledged(cfg, w.snd.(lastRcvCtlSeq := c.csn), c, now);
            && Lined(s2) && s2 == w.snd.(lastRcvCtlSeq := c.csn, rtxq := s2.rtxq, sndLftWin := s2.sndLftWin, rtt := s2.rtt)
            && (s2.sndLftWin == w.snd.sndLftWin || s2.sndLftWin == c.ackSn + 1)
  {
    var s1 := w.snd.(lastRcvCtlSeq := c.csn);
    SameLine(w.snd, s1);
    var k := AcknowledgedShape(cfg, s1, c, now);
    SuffixInLine(s1, Acknowledged(cfg, s1, c, now), k);
  }

  lemma ControlInTurn(cfg: Config, w: World, e: Event)
    requires InTurn(cfg, w) && e.EvCtrl? && e.c in w.acks && Processed(cfg, w.snd, e.c)
    ensures InTurn(cfg, Next(cfg, w, e))
  {
    var s2 := Acknowledged(cfg, w.snd.(lastRcvCtlSeq := e.c.csn), e.c, e.now);
    AckInTurn(cfg, w, e.c, e.now);
    if Opens(e.c) {
      var s := Opened(cfg, s2, e.c);
      SameLine(s2, s);
      DeliverInTurn(cfg, w, s, e.now, e.ticks);
      assert Next(cfg, w, e) == FirstSends(w, Deliver(cfg, s, e.now, e.ticks));
    } else {
      assert Next(cfg, w, e) == FirstSends(w, Step(s2, []));
    }
  }

  /** A control PDU that is not processed leaves nothing but its number behind. */
  lemma IgnoredInTurn(cfg: Config, w: World, e: Event)
    requires InTurn(cfg, w) && e.EvCtrl? && !Processed(cfg, w.snd, e.c)
    ensures InTurn(cfg, Next(cfg, w, e))
  {
    var w' := Next(cfg, w, e);
    SameLine(w.snd, w'.snd);
    assert w'.data == w.data;
  }

  lemma RateTimerInTurn(cfg: Config, w: World, e: Event)
    requires InTurn(cfg, w) && e.EvRate? && cfg.rateBased
    ensures InTurn(cfg, Next(cfg, w, e))
  {
    SameLine(w.snd, Reset(w.snd));
    DeliverInTurn(cfg, w, Reset(w.snd), e.now, e.ticks);
  }

  lemma {:induction false} RetransmitKeepsRate(cfg: Config, q: seq<RtxEntry>, tr: nat, now: nat, rate: Rate, ticks: seq<bool>)
    ensures Retransmit(cfg, q, tr, now, rate, ticks).rate.sndrRate == rate.sndrRate
  {
    if q != [] {
      var charged := Elapse(Charge(rate, |q[0].pdu.data|), Tick(ticks));
      RetransmitKeepsRate(cfg, q[1..], tr, now, rate, ticks);
      RetransmitKeepsRate(cfg, q[1..], tr, now, charged, Later(ticks));
    }
  }

  lemma {:induction false} MaxSnBelow(pdus: seq<DataPdu>, t: nat)
    requires forall p :: p in pdus ==> p.sn <= t
    ensures MaxSn(pdus) <= t
  {
    if pdus != [] {
      MaxSnBelow(pdus[1..], t);
    }
  }

  lemma PassInLine(cfg: Config, s: Snd, now: nat, ticks: seq<bool>)
    requires Lined(s)
    ensures var d := RtxTimer(cfg, s, now, ticks);
            && Lined(d.s) && d.s.cwq == s.cwq && d.s.seqNrToSend == s.seqNrToSend && d.s.maxSeqNrSent == s.maxSeqNrSent
            && d.s.sndRtWindEdge == s.sndRtWindEdge && d.s.rate.sndrRate == s.rate.sndrRate
            && d.s.sndLftWin <= Max(s.sndLftWin, Taken(s))
            && (d.s.rendezvousSndr ==> s.rendezvousSndr || |s.cwq| == cfg.MaxClosedWinqLength())
            && (forall p :: p in d.out ==> p.sn <= Taken(s))
  {
    var p := Retransmit(cfg, s.rtxq, s.rtt.tr, now, s.rate, ticks);
    RetransmitConserves(cfg, s.rtxq, s.rtt.tr, now, s.rate, ticks);
    RetransmitKeepsRate(cfg, s.rtxq, s.rtt.tr, now, s.rate, ticks);
    forall x | HasPdu(s.rtxq, x) ensures x.sn <= Taken(s) {
      var i :| 0 <= i < |s.rtxq| && s.rtxq[i].pdu == x;
    }
    forall i | 0 <= i < |p.queue| ensures p.queue[i].pdu.sn < Taken(s) + 1 {
      assert HasPdu(p.queue, p.queue[i].pdu);
    }
    MaxSnBelow(p.dropped, Taken(s));
  }

  lemma RtxInTurn(cfg: Config, w: World, e: Event)
    requires InTurn(cfg, w) && e.EvRtx?
    ensures InTurn(cfg, Next(cfg, w, e))
  {
    PassInLine(cfg, w.snd, e.now, e.ticks);
    if cfg.rateBased && cfg.flowCtrl && cfg.sendingRate > 0 {
      SenderKeepsTight(cfg, w, Next(cfg, w, e));
    }
  }

  // ---------------------------------------------------------------- receiver steps

  lemma {:induction false} DrainBehind(lwe: nat, q: seq<R.SeqEntry>, t: nat)
    requires lwe <= t && Behind(q, t)
    ensures var m := R.Drain(lwe, q); m.lwe <= t && Behind(m.left, t)
    decreases |q|
  {
    if q != [] && q[0].pdu.sn == lwe + 1 {
      DrainBehind(q[0].pdu.sn, q[1..], t);
    }
  }

  lemma {:induction false} ExpireBehind(cfg: Config, lwe: nat, q: seq<R.SeqEntry>, now: nat, t: nat)
    requires lwe <= t && Behind(q, t)
    ensures var m := R.Expire(cfg, lwe, q, now); m.lwe <= t && Behind(m.left, t)
    decreases |q|
  {
    if q != [] {
      ExpireBehind(cfg, lwe, q[1..], now, t);
      ExpireBehind(cfg, q[0].pdu.sn, q[1..], now, t);
    }
  }

  lemma PushBehind(q: seq<R.SeqEntry>, e: R.SeqEntry, t: nat)
    requires Behind(q, t) && e.pdu.sn <= t
    ensures Behind(R.SeqPush(q, e), t)
  {
    SeqPushAdds(q, e);
    var q' := R.SeqPush(q, e);
    forall i | 0 <= i < |q'| ensures q'[i].pdu.sn <= t {
      assert InQueue(q, q'[i].pdu) || q'[i].pdu in [e.pdu];
    }
  }

  /** A receiver step whose left edge and queue stay behind what was taken, and whose answers say no more. */
  ghost predicate Modest(cfg: Config, w: World, d: R.RcvStep) {
    var t, b := Taken(w.snd), Reach(w.snd);
    && d.r.lwe <= t && d.r.rcvrRtWindEdge <= b + cfg.initialCredit && Behind(d.r.seqq, t)
    && (forall c :: c in d.ctrl ==> Opens(c) && c.ackSn <= t && c.newRwe <= b + cfg.initialCredit)
  }

  lemma UpdateModest(cfg: Config, w: World, r: R.Rcv)
    requires cfg.flowCtrl && cfg.windowBased && r.lwe <= Taken(w.snd) && Behind(r.seqq, Taken(w.snd))
    ensures Modest(cfg, w, R.SvUpdate(cfg, r))
  {
  }

  lemma AcceptModest(cfg: Config, w: World, r: R.Rcv, pdu: DataPdu, now: nat)
    requires cfg.flowCtrl && cfg.windowBased && r.lwe <= Taken(w.snd) && Behind(r.seqq, Taken(w.snd))
    requires pdu.sn <= Taken(w.snd)
    ensures Modest(cfg, w, R.Accept(cfg, r, pdu, now))
  {
    var r1 := r.(rendezvousRcvr := false);
    if cfg.a == 0 {
      UpdateModest(cfg, w, if R.TakenAtOnce(cfg, r1, pdu.sn) then r1.(lwe := pdu.sn) else r1);
    } else {
      var next := pdu.sn == r1.lwe + 1;
      var q := if next then r1.seqq else R.SeqPush(r1.seqq, R.SeqEntry(pdu, now));
      PushBehind(r1.seqq, R.SeqEntry(pdu, now), Taken(w.snd));
      var m := R.Drain(if next then pdu.sn else r1.lwe, q);
      DrainBehind(if next then pdu.sn else r1.lwe, q, Taken(w.snd));
      UpdateModest(cfg, w, r1.(lwe := m.lwe, seqq := m.left));
    }
  }

  lemma DataModest(cfg: Config, w: World, pdu: DataPdu, now: nat)
    requires cfg.flowCtrl && cfg.windowBased && Tight(cfg, w) && pdu in w.data
    ensures Modest(cfg, w, R.Receive(cfg, w.rcv, pdu, now))
  {
    UpdateModest(cfg, w, w.rcv.(drfRequired := false, lwe := pdu.sn, seqq := []));
    AcceptModest(cfg, w, R.Counted(cfg, w.rcv, pdu), pdu, now);
  }

  lemma TimerModest(cfg: Config, w: World, now: nat)
    requires cfg.flowCtrl && cfg.windowBased && Tight(cfg, w)
    ensures Modest(cfg, w, R.ATimer(cfg, w.rcv, now))
  {
    ExpireBehind(cfg, w.rcv.lwe, w.rcv.seqq, now, Taken(w.snd));
    var m := R.Expire(cfg, w.rcv.lwe, w.rcv.seqq, now);
    UpdateModest(cfg, w, w.rcv.(lwe := m.lwe, seqq := m.left));
  }

  /** Without rate control, or with a rate of zero, no control PDU carries a rate. */
  lemma NoRateCarried(cfg: Config, w: World, e: Event)
    requires !cfg.flowCtrl || cfg.sendingRate == 0
    requires e.EvData? || e.EvATimer? || e.EvRendezvous? || e.EvRendezvousTimer?
    ensures forall c :: c in Next(cfg, w, e).acks ==> c in w.acks || c.sndrRate == 0
  {
  }

  lemma ReceiverInTurn(cfg: Config, w: World, e: Event)
    requires InTurn(cfg, w) && Enabled(cfg, w, e)
    requires e.EvData? || e.EvATimer? || e.EvRendezvous? || e.EvRendezvousTimer?
    ensures InTurn(cfg, Next(cfg, w, e))
  {
    if cfg.rateBased {
      if !cfg.flowCtrl || cfg.sendingRate == 0 {
        NoRateCarried(cfg, w, e);
      } else if e.EvData? {
        DataModest(cfg, w, e.pdu, e.now);
      } else if e.EvATimer? {
        TimerModest(cfg, w, e.now);
      }
    }
  }

  // ---------------------------------------------------------------- every run

  lemma StepInTurn(cfg: Config, w: World, e: Event)
    requires InTurn(cfg, w) && Enabled(cfg, w, e)
    ensures InTurn(cfg, Next(cfg, w, e))
  {
    if e.EvWrite? {
      WriteInTurn(cfg, w, e);
    } else if e.EvCtrl? {
      if Processed(cfg, w.snd, e.c) {
        ControlInTurn(cfg, w, e);
      } else {
        IgnoredInTurn(cfg, w, e);
      }
    } else if e.EvRtx? {
      RtxInTurn(cfg, w, e);
    } else if e.EvRate? {
      RateTimerInTurn(cfg, w, e);
    } else if !e.EvSendRendezvous? {
      ReceiverInTurn(cfg, w, e);
    }
  }

  lemma {:induction false} InTurnRun(cfg: Config, n0: nat, tr: nat, es: seq<Event>)
    requires !Overtakes(cfg) && cfg.rtxCtrl && Runs(cfg, Start(cfg, n0, tr), es)
    ensures InTurn(cfg, Exec(cfg, Start(cfg, n0, tr), es))
  {
    if es != [] {
      InTurnRun(cfg, n0, tr, es[..|es| - 1]);
      StepInTurn(cfg, Exec(cfg, Start(cfg, n0, tr), es[..|es| - 1]), es[|es| - 1]);
    }
  }
}
