/**
 Window agreement, for window-only flow control with equal credits and no rendezvous: what the
 receiver advertises, what is in flight and what the sender believes stay ordered, so the sender's
 edge never retreats and the receiver never drops a PDU for exceeding the window.
 */
module EfcpAgreement {
  import opened EfcpTypes
  import opened RtxQueue
  import opened DtpSender
  import opened EfcpWorld
  import opened EfcpGenuine
  import opened EfcpWindow
  import opened EfcpReliable
  import R = DtpReceiver

  /** A control PDU that opens the window to the edge of the state it was sent from. */
  ghost predicate Advert(c: CtrlPdu, r: R.Rcv) {
    Opens(c) && c.csn == r.nextSndCtlSeq && c.newRwe == r.rcvrRtWindEdge
  }

  /** A receiver step that leaves the right edge `credit` above the left one and advertises at most that. */
  ghost predicate Advertises(cfg: Config, r: R.Rcv, d: R.RcvStep) {
    && d.r.rcvrRtWindEdge == d.r.lwe + cfg.initialCredit && !d.r.rendezvousRcvr
    && (d.ctrl == [] ==> d.r.nextSndCtlSeq == r.nextSndCtlSeq)
    && (d.ctrl != [] ==> |d.ctrl| == 1 && d.r.nextSndCtlSeq == r.nextSndCtlSeq + 1 && Advert(d.ctrl[0], d.r))
  }

  lemma UpdateAdvertises(cfg: Config, r: R.Rcv)
    requires cfg.WindowOnly() && !r.rendezvousRcvr
    ensures Advertises(cfg, r, R.SvUpdate(cfg, r))
  {
  }

  lemma AcceptAdvertises(cfg: Config, r: R.Rcv, pdu: DataPdu, now: nat)
    requires cfg.WindowOnly()
    ensures Advertises(cfg, r, R.Accept(cfg, r, pdu, now))
  {
    var r1 := r.(rendezvousRcvr := false);
    if cfg.a == 0 {
      UpdateAdvertises(cfg, if R.TakenAtOnce(cfg, r1, pdu.sn) then r1.(lwe := pdu.sn) else r1);
    } else {
      var next := pdu.sn == r1.lwe + 1;
      var q := if next then r1.seqq else R.SeqPush(r1.seqq, R.SeqEntry(pdu, now));
      var m := R.Drain(if next then pdu.sn else r1.lwe, q);
      UpdateAdvertises(cfg, r1.(lwe := m.lwe, seqq := m.left));
    }
  }

  lemma ReceiveAdvertises(cfg: Config, r: R.Rcv, pdu: DataPdu, now: nat)
    requires cfg.WindowOnly() && !r.rendezvousRcvr
    requires !r.drfRequired ==> r.rcvrRtWindEdge == r.lwe + cfg.initialCredit
    requires r.drfRequired ==> pdu.drf
    ensures Advertises(cfg, r, R.Receive(cfg, r, pdu, now))
  {
    UpdateAdvertises(cfg, r.(drfRequired := false, lwe := pdu.sn, seqq := []));
    AcceptAdvertises(cfg, R.Counted(cfg, r, pdu), pdu, now);
  }

  lemma {:induction false} ExpireStill(cfg: Config, lwe: nat, q: seq<R.SeqEntry>, now: nat)
    ensures R.Expire(cfg, lwe, q, now).posted == [] ==> R.Expire(cfg, lwe, q, now).lwe == lwe
    decreases |q|
  {
    if q != [] {
      ExpireStill(cfg, lwe, q[1..], now);
    }
  }

  lemma ATimerAdvertises(cfg: Config, r: R.Rcv, now: nat)
    requires cfg.WindowOnly() && !r.rendezvousRcvr && r.rcvrRtWindEdge == r.lwe + cfg.initialCredit
    ensures Advertises(cfg, r, R.ATimer(cfg, r, now))
  {
    ExpireStill(cfg, r.lwe, r.seqq, now);
    var m := R.Expire(cfg, r.lwe, r.seqq, now);
    UpdateAdvertises(cfg, r.(lwe := m.lwe, seqq := m.left));
  }

  // ---------------------------------------------------------------- the invariant

  /** An advertisement in flight: not above the receiver's edge, and not below the sender's if it would still be used. */
  ghost predicate InFlight(w: World, c: CtrlPdu) {
    && Opens(c) && c.csn <= w.rcv.nextSndCtlSeq && c.newRwe <= w.rcv.rcvrRtWindEdge
    && (c.csn > w.snd.lastRcvCtlSeq ==> w.snd.sndRtWindEdge <= c.newRwe)
  }

  /** Later advertisements never promise less. */
  ghost predicate Rising(c: CtrlPdu, d: CtrlPdu) { c.csn <= d.csn ==> c.newRwe <= d.newRwe }

  ghost predicate Edges(cfg: Config, w: World) {
    if w.rcv.drfRequired then
      w.acks == {} && w.snd.sndRtWindEdge == w.n0 + cfg.initialCredit && w.snd.lastRcvCtlSeq == w.rcv.nextSndCtlSeq
    else
      w.rcv.rcvrRtWindEdge == w.rcv.lwe + cfg.initialCredit && w.snd.sndRtWindEdge <= w.rcv.rcvrRtWindEdge
  }

  /** The flows on which the edges agree: they retransmit, take every PDU at once, or have a credit of at most three. */
  ghost predicate Steady(cfg: Config) { cfg.rtxCtrl || cfg.a == 0 || cfg.initialCredit <= 3 }

  /** The resequencing queue is strictly sorted, and every entry waits for at least one number before it. */
  ghost predicate Waiting(cfg: Config, lwe: nat, q: seq<R.SeqEntry>) {
    && (cfg.a == 0 ==> q == [])
    && (forall i :: 0 <= i < |q| ==> lwe + 2 <= q[i].pdu.sn <= lwe + cfg.initialCredit)
    && (forall i, j :: 0 <= i < j < |q| ==> q[i].pdu.sn < q[j].pdu.sn)
  }

  /** Without retransmission: nothing is queued before the run starts, and the queue is a waiting one in it. */
  ghost predicate Patient(cfg: Config, r: R.Rcv) {
    if r.drfRequired then r.seqq == [] else Waiting(cfg, r.lwe, r.seqq)
  }

  ghost predicate Agree(cfg: Config, w: World) {
    && Edges(cfg, w)
    && (forall c :: c in w.acks ==> InFlight(w, c))
    && (forall c, d :: c in w.acks && d in w.acks ==> Rising(c, d))
    && w.snd.lastRcvCtlSeq <= w.rcv.nextSndCtlSeq
    && w.snd.maxSeqNrSent <= w.snd.sndRtWindEdge
    && (forall p :: p in w.data ==> p.sn <= w.snd.maxSeqNrSent)
    && w.rvs == {} && !w.rcv.rendezvousRcvr && w.overruns == 0
    && (!cfg.rtxCtrl ==> Patient(cfg, w.rcv))
  }

  // ---------------------------------------------------------------- receiver steps

  lemma AdvertisedStep(cfg: Config, w: World, w': World, d: R.RcvStep)
    requires Agree(cfg, w) && Advertises(cfg, w.rcv, d)
    requires w' == w.(rcv := d.r, posted := w'.posted, acks := w.acks + Elements(d.ctrl))
    requires !d.r.drfRequired && (!cfg.rtxCtrl ==> Patient(cfg, d.r))
    requires w.snd.sndRtWindEdge <= d.r.rcvrRtWindEdge
    requires !w.rcv.drfRequired ==> w.rcv.rcvrRtWindEdge <= d.r.rcvrRtWindEdge
    ensures Agree(cfg, w')
  {
    forall c | c in w'.acks ensures InFlight(w', c) {
      assert c in w.acks ==> InFlight(w, c);
    }
    forall b, c | b in w'.acks && c in w'.acks ensures Rising(b, c) {
      assert b in w.acks ==> InFlight(w, b);
      assert c in w.acks ==> InFlight(w, c);
      assert b in w.acks && c in w.acks ==> Rising(b, c);
    }
  }

  lemma StartAgrees(cfg: Config, w: World, e: Event)
    requires cfg.WindowOnly() && Agree(cfg, w) && AllGenuine(w)
    requires e.EvData? && e.pdu in w.data && w.rcv.drfRequired
    ensures Agree(cfg, Next(cfg, w, e))
  {
    assert Genuine(w, e.pdu);
    ReceiveAdvertises(cfg, w.rcv, e.pdu, e.now);
    AdvertisedStep(cfg, w, Next(cfg, w, e), R.Receive(cfg, w.rcv, e.pdu, e.now));
  }

  /** The waiting entries climb by at least one each. */
  lemma {:induction false} WaitingClimbs(cfg: Config, lwe: nat, q: seq<R.SeqEntry>, i: nat)
    requires Waiting(cfg, lwe, q) && i < |q|
    ensures lwe + 2 + i <= q[i].pdu.sn
  {
    if i > 0 {
      WaitingClimbs(cfg, lwe, q, i - 1);
      assert q[i - 1].pdu.sn < q[i].pdu.sn;
    }
  }

  /** A window of at most three leaves room for two waiting entries. */
  lemma FewWait(cfg: Config, lwe: nat, q: seq<R.SeqEntry>)
    requires Waiting(cfg, lwe, q) && cfg.initialCredit <= 3
    ensures |q| <= 2
    ensures |q| == 2 ==> q[0].pdu.sn == lwe + 2 && q[1].pdu.sn == lwe + 3
  {
    if q != [] {
      WaitingClimbs(cfg, lwe, q, |q| - 1);
    }
  }

  lemma PushWaits(cfg: Config, lwe: nat, q: seq<R.SeqEntry>, e: R.SeqEntry)
    requires Waiting(cfg, lwe, q) && 0 < cfg.a && cfg.initialCredit <= 3
    requires lwe + 2 <= e.pdu.sn <= lwe + cfg.initialCredit
    ensures Waiting(cfg, lwe, R.SeqPush(q, e))
  {
    FewWait(cfg, lwe, q);
    if q != [] && e.pdu.sn < q[|q| - 1].pdu.sn {
      assert R.InsertFrom(q, e, |q|) == q;
      assert R.InsertFrom(q, e, 0) == q;
    }
  }

  /** Draining may start one number further on, and leaves only entries that still wait. */
  lemma {:induction false} DrainWaits(cfg: Config, lwe: nat, q: seq<R.SeqEntry>)
    requires forall i :: 0 <= i < |q| ==> lwe + 1 <= q[i].pdu.sn <= lwe + cfg.initialCredit
    requires forall i, j :: 0 <= i < j < |q| ==> q[i].pdu.sn < q[j].pdu.sn
    requires cfg.a == 0 ==> q == []
    ensures var m := R.Drain(lwe, q); lwe <= m.lwe && Waiting(cfg, m.lwe, m.left)
    decreases |q|
  {
    if q != [] && q[0].pdu.sn == lwe + 1 {
      DrainWaits(cfg, lwe + 1, q[1..]);
    }
  }

  /** Whatever expires, a number that follows the last posted one directly is posted too. */
  lemma ExpireWaits(cfg: Config, lwe: nat, q: seq<R.SeqEntry>, now: nat)
    requires !cfg.rtxCtrl && Waiting(cfg, lwe, q) && (cfg.a == 0 || cfg.initialCredit <= 3)
    ensures var m := R.Expire(cfg, lwe, q, now); lwe <= m.lwe && Waiting(cfg, m.lwe, m.left)
  {
    if q != [] {
      FewWait(cfg, lwe, q);
      if |q| == 1 {
        assert q[1..] == [];
      } else {
        assert q[1..][1..] == [];
        assert R.InGap(q[1].pdu.sn, q[0].pdu.sn, cfg.maxSduGap);
        assert R.Expire(cfg, q[0].pdu.sn, q[1..], now).left == [];
      }
    }
  }

  lemma ReceiveWaits(cfg: Config, r: R.Rcv, pdu: DataPdu, now: nat)
    requires cfg.WindowOnly() && !cfg.rtxCtrl && Steady(cfg)
    requires !r.drfRequired && Patient(cfg, r) && r.rcvrRtWindEdge == r.lwe + cfg.initialCredit
    ensures var r' := R.Receive(cfg, r, pdu, now).r; r.lwe <= r'.lwe && !r'.drfRequired && Patient(cfg, r')
  {
    if 0 < cfg.a && r.lwe < pdu.sn <= r.rcvrRtWindEdge {
      if pdu.sn == r.lwe + 1 {
        DrainWaits(cfg, pdu.sn, r.seqq);
      } else {
        PushWaits(cfg, r.lwe, r.seqq, R.SeqEntry(pdu, now));
        DrainWaits(cfg, r.lwe, R.SeqPush(r.seqq, R.SeqEntry(pdu, now)));
      }
    }
  }

  /** In the middle of a run the left edge moves forward: by the order of posting, or because what is queued only waits. */
  lemma LeftEdgeGrows(cfg: Config, w: World, e: Event)
    requires cfg.WindowOnly() && Steady(cfg) && Agree(cfg, w)
    requires cfg.rtxCtrl ==> AllGenuine(w) && NoRollover(cfg, w) && InOrder(cfg, w) && Enabled(cfg, w, e)
    requires !w.rcv.drfRequired && (e.EvData? || e.EvATimer?)
    ensures var r' := Next(cfg, w, e).rcv;
            w.rcv.lwe <= r'.lwe && !r'.drfRequired && (!cfg.rtxCtrl ==> Patient(cfg, r'))
  {
    if cfg.rtxCtrl {
      OrderStep(cfg, w, e);
    } else if e.EvData? {
      ReceiveWaits(cfg, w.rcv, e.pdu, e.now);
    } else {
      ExpireWaits(cfg, w.rcv.lwe, w.rcv.seqq, e.now);
    }
  }

  lemma ReceiverAgrees(cfg: Config, w: World, e: Event)
    requires cfg.WindowOnly() && Steady(cfg) && Agree(cfg, w) && Enabled(cfg, w, e)
    requires cfg.rtxCtrl ==> AllGenuine(w) && NoRollover(cfg, w) && InOrder(cfg, w)
    requires !w.rcv.drfRequired && (e.EvData? || e.EvATimer?)
    ensures Agree(cfg, Next(cfg, w, e))
  {
    LeftEdgeGrows(cfg, w, e);
    if e.EvData? {
      ReceiveAdvertises(cfg, w.rcv, e.pdu, e.now);
      AdvertisedStep(cfg, w, Next(cfg, w, e), R.Receive(cfg, w.rcv, e.pdu, e.now));
    } else {
      ATimerAdvertises(cfg, w.rcv, e.now);
      AdvertisedStep(cfg, w, Next(cfg, w, e), R.ATimer(cfg, w.rcv, e.now));
    }
  }

  // ---------------------------------------------------------------- sender steps

  /** What opening the window does to the sender's edge, and to the numbers sent. */
  lemma OpenedEdge(cfg: Config, n0: nat, s: Snd, c: CtrlPdu, now: nat, ticks: seq<bool>, first: seq<Sent>)
    requires cfg.WindowOnly() && Discipline(cfg, n0, s, first)
    ensures var s' := Deliver(cfg, Opened(cfg, s, c), now, ticks).s;
            && s'.lastRcvCtlSeq == s.lastRcvCtlSeq && s'.sndRtWindEdge == c.newRwe
            && s'.maxSeqNrSent <= Max(s.maxSeqNrSent, c.newRwe)
  {
    DeliverIsBatch(cfg, Opened(cfg, s, c), now, ticks);
  }

  /** What a control PDU can do to the sender's edge, and to the numbers sent. */
  lemma ControlEdge(cfg: Config, n0: nat, s: Snd, c: CtrlPdu, now: nat, ticks: seq<bool>, first: seq<Sent>)
    requires cfg.WindowOnly() && Discipline(cfg, n0, s, first)
    ensures var s' := ReceiveControl(cfg, s, c, now, ticks).s;
            && s'.lastRcvCtlSeq == Max(s.lastRcvCtlSeq, c.csn)
            && (s'.sndRtWindEdge == s.sndRtWindEdge || (c.csn > s.lastRcvCtlSeq && s'.sndRtWindEdge == c.newRwe))
            && s'.maxSeqNrSent <= Max(s.maxSeqNrSent, s'.sndRtWindEdge)
  {
    if c.csn > s.lastRcvCtlSeq {
      var s1 := s.(lastRcvCtlSeq := c.csn);
      var _ := AcknowledgedShape(cfg, s1, c, now);
      AckKeepsDiscipline(cfg, n0, s1, c, now, first);
      OpenedEdge(cfg, n0, Acknowledged(cfg, s1, c, now), c, now, ticks, first);
    }
  }

  /** First transmissions stay at or below the highest number sent. */
  lemma SentBelow(cfg: Config, w: World, step: Step)
    requires Discipline(cfg, w.n0, w.snd, w.first)
    requires Discipline(cfg, w.n0, step.s, w.first + AsSent(step.out, step.s.sndRtWindEdge))
    ensures w.snd.maxSeqNrSent <= step.s.maxSeqNrSent
    ensures forall p :: p in step.out ==> p.sn <= step.s.maxSeqNrSent
  {
    var first' := w.first + AsSent(step.out, step.s.sndRtWindEdge);
    forall p | p in step.out ensures p.sn <= step.s.maxSeqNrSent {
      var i :| 0 <= i < |step.out| && step.out[i] == p;
      assert first'[|w.first| + i].pdu == p;
    }
  }

  /** A sender step that moves its edge only forward, and only to an advertised one. */
  lemma SenderKeepsAgreement(cfg: Config, w: World, w': World)
    requires Agree(cfg, w)
    requires w' == w.(snd := w'.snd, data := w'.data, first := w'.first, written := w'.written, dropped := w'.dropped)
    requires forall p :: p in w'.data ==> p.sn <= w'.snd.maxSeqNrSent <= w'.snd.sndRtWindEdge
    requires w'.snd.maxSeqNrSent <= w'.snd.sndRtWindEdge
    requires (w'.snd.sndRtWindEdge == w.snd.sndRtWindEdge && w'.snd.lastRcvCtlSeq == w.snd.lastRcvCtlSeq)
             || exists c :: c in w.acks && Moves(w, w', c)
    ensures Agree(cfg, w') && w.snd.sndRtWindEdge <= w'.snd.sndRtWindEdge
  {
    if !(w'.snd.sndRtWindEdge == w.snd.sndRtWindEdge && w'.snd.lastRcvCtlSeq == w.snd.lastRcvCtlSeq) {
      var c :| c in w.acks && Moves(w, w', c);
      assert InFlight(w, c);
      forall d | d in w'.acks ensures InFlight(w', d) {
        assert InFlight(w, d) && Rising(c, d);
      }
    } else {
      forall d | d in w'.acks ensures InFlight(w', d) {
        assert InFlight(w, d);
      }
    }
  }

  /** The sender has seen `c`, and its edge is the old one or the one that `c` carries. */
  ghost predicate Moves(w: World, w': World, c: CtrlPdu) {
    && w'.snd.lastRcvCtlSeq == Max(w.snd.lastRcvCtlSeq, c.csn)
    && (w'.snd.sndRtWindEdge == w.snd.sndRtWindEdge
        || (c.csn > w.snd.lastRcvCtlSeq && w'.snd.sndRtWindEdge == c.newRwe))
  }

  lemma WriteAgrees(cfg: Config, w: World, e: Event)
    requires cfg.WindowOnly() && Agree(cfg, w) && Discipline(cfg, w.n0, w.snd, w.first) && e.EvWrite?
    ensures Agree(cfg, Next(cfg, w, e)) && w.snd.sndRtWindEdge <= Next(cfg, w, e).snd.sndRtWindEdge
  {
    var d := Write(cfg, w.snd, e.data, e.now, e.tick);
    WriteKeepsDiscipline(cfg, w.n0, w.snd, e.data, e.now, e.tick, w.first);
    SentBelow(cfg, w, d);
    SenderKeepsAgreement(cfg, w, Next(cfg, w, e));
  }

  lemma ControlAgrees(cfg: Config, w: World, e: Event)
    requires cfg.WindowOnly() && Agree(cfg, w) && Discipline(cfg, w.n0, w.snd, w.first) && e.EvCtrl? && e.c in w.acks
    ensures Agree(cfg, Next(cfg, w, e)) && w.snd.sndRtWindEdge <= Next(cfg, w, e).snd.sndRtWindEdge
  {
    var d := ReceiveControl(cfg, w.snd, e.c, e.now, e.ticks);
    var w' := FirstSends(w, d);
    assert InFlight(w, e.c);
    ControlKeepsDiscipline(cfg, w.n0, w.snd, e.c, e.now, e.ticks, w.first);
    ControlEdge(cfg, w.n0, w.snd, e.c, e.now, e.ticks, w.first);
    SentBelow(cfg, w, d);
    assert Moves(w, w', e.c);
    SenderKeepsAgreement(cfg, w, w');
  }

  lemma RtxAgrees(cfg: Config, w: World, e: Event)
    requires Agree(cfg, w) && Discipline(cfg, w.n0, w.snd, w.first) && e.EvRtx?
    ensures Agree(cfg, Next(cfg, w, e)) && w.snd.sndRtWindEdge <= Next(cfg, w, e).snd.sndRtWindEdge
  {
    RetransmitConserves(cfg, w.snd.rtxq, w.snd.rtt.tr, e.now, w.snd.rate, e.ticks);
    var w' := Next(cfg, w, e);
    forall p | p in w'.data ensures p.sn <= w'.snd.maxSeqNrSent {
      if p !in w.data {
        assert HasPdu(w.snd.rtxq, p);
      }
    }
    SenderKeepsAgreement(cfg, w, w');
  }

  // ---------------------------------------------------------------- every run

  ghost predicate NoRendezvous(es: seq<Event>) {
    forall i :: 0 <= i < |es| ==> !es[i].EvSendRendezvous?
  }

  lemma IdleAgrees(cfg: Config, w: World, e: Event)
    requires cfg.WindowOnly() && Agree(cfg, w) && Enabled(cfg, w, e)
    requires (e.EvATimer? && w.rcv.drfRequired && w.rcv.seqq == []) || e.EvRendezvousTimer?
    ensures Agree(cfg, Next(cfg, w, e))
  {
    var w' := Next(cfg, w, e);
    assert w'.acks == w.acks;
    forall c | c in w'.acks ensures InFlight(w', c) {
      assert InFlight(w, c);
    }
  }

  lemma AgreeStep(cfg: Config, w: World, e: Event)
    requires cfg.WindowOnly() && Steady(cfg) && Enabled(cfg, w, e) && !e.EvSendRendezvous?
    requires AllGenuine(w) && Discipline(cfg, w.n0, w.snd, w.first) && Agree(cfg, w)
    requires cfg.rtxCtrl ==> NoRollover(cfg, w) && InOrder(cfg, w)
    ensures Agree(cfg, Next(cfg, w, e)) && w.snd.sndRtWindEdge <= Next(cfg, w, e).snd.sndRtWindEdge
  {
    if e.EvWrite? {
      WriteAgrees(cfg, w, e);
    } else if e.EvCtrl? {
      ControlAgrees(cfg, w, e);
    } else if e.EvRtx? {
      RtxAgrees(cfg, w, e);
    } else if e.EvData? && w.rcv.drfRequired {
      StartAgrees(cfg, w, e);
    } else if (e.EvData? || e.EvATimer?) && !w.rcv.drfRequired {
      ReceiverAgrees(cfg, w, e);
    } else {
      IdleAgrees(cfg, w, e);
    }
  }

  lemma {:induction false} AgreeRun(cfg: Config, n0: nat, tr: nat, es: seq<Event>)
    requires cfg.WindowOnly() && Steady(cfg) && NoRendezvous(es)
    requires Runs(cfg, Start(cfg, n0, tr), es)
    requires cfg.rtxCtrl ==> NoRollover(cfg, Exec(cfg, Start(cfg, n0, tr), es))
    ensures Agree(cfg, Exec(cfg, Start(cfg, n0, tr), es))
    ensures es != [] ==> Exec(cfg, Start(cfg, n0, tr), es[..|es| - 1]).snd.sndRtWindEdge
                         <= Exec(cfg, Start(cfg, n0, tr), es).snd.sndRtWindEdge
  {
    if es != [] {
      var prefix, e := es[..|es| - 1], es[|es| - 1];
      var w := Exec(cfg, Start(cfg, n0, tr), prefix);
      NumberingGrows(cfg, w, e);
      AgreeRun(cfg, n0, tr, prefix);
      GenuineRun(cfg, n0, tr, prefix);
      SenderDiscipline(cfg, n0, tr, prefix);
      if cfg.rtxCtrl {
        ExactlyOnceInOrder(cfg, n0, tr, prefix);
      }
      AgreeStep(cfg, w, e);
    }
  }

  /**
   Once a run of data has started, the receiver's right edge is its left edge plus the credit, neither the
   sender's edge nor any advertised edge exceeds it, and every number ever sent is inside it; and no PDU was
   dropped for overrunning the window.
   */
  ghost predicate EdgesAgree(cfg: Config, w: World) {
    && w.overruns == 0
    && (!w.rcv.drfRequired ==>
          && w.rcv.rcvrRtWindEdge == w.rcv.lwe + cfg.initialCredit
          && w.snd.maxSeqNrSent <= w.snd.sndRtWindEdge <= w.rcv.rcvrRtWindEdge
          && (forall c :: c in w.acks ==> c.newRwe <= w.rcv.rcvrRtWindEdge)
          && (forall p :: p in w.data ==> p.sn <= w.rcv.rcvrRtWindEdge))
  }

  /**
   Window agreement, over every run without rendezvous, on every flow that retransmits, has no A-timer or
   has a credit of at most three.
   */
  lemma WindowAgreement(cfg: Config, n0: nat, tr: nat, es: seq<Event>)
    requires cfg.WindowOnly() && Steady(cfg) && NoRendezvous(es)
    requires Runs(cfg, Start(cfg, n0, tr), es)
    requires cfg.rtxCtrl ==> NoRollover(cfg, Exec(cfg, Start(cfg, n0, tr), es))
    ensures EdgesAgree(cfg, Exec(cfg, Start(cfg, n0, tr), es))
  {
    AgreeRun(cfg, n0, tr, es);
    var w := Exec(cfg, Start(cfg, n0, tr), es);
    forall c | c in w.acks ensures c.newRwe <= w.rcv.rcvrRtWindEdge {
      assert InFlight(w, c);
    }
  }

  /** The sender's right edge never retreats, although control PDUs are reordered and repeated. */
  lemma {:induction false} EdgeNeverRetreats(cfg: Config, n0: nat, tr: nat, es: seq<Event>, k: nat)
    requires cfg.WindowOnly() && Steady(cfg) && NoRendezvous(es)
    requires Runs(cfg, Start(cfg, n0, tr), es) && k <= |es|
    requires cfg.rtxCtrl ==> NoRollover(cfg, Exec(cfg, Start(cfg, n0, tr), es))
    ensures Exec(cfg, Start(cfg, n0, tr), es[..k]).snd.sndRtWindEdge
            <= Exec(cfg, Start(cfg, n0, tr), es).snd.sndRtWindEdge
    decreases |es|
  {
    if k == |es| {
      assert es[..k] == es;
    } else {
      var prefix := es[..|es| - 1];
      NumberingGrows(cfg, Exec(cfg, Start(cfg, n0, tr), prefix), es[|es| - 1]);
      EdgeNeverRetreats(cfg, n0, tr, prefix, k);
      assert prefix[..k] == es[..k];
      AgreeRun(cfg, n0, tr, es);
    }
  }
}
