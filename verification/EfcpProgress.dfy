/**
 No deadlock, for reliable window-based flows: from every state that a run can reach without giving up
 on a PDU, the network can still deliver everything that was written, with nothing more than the PDUs
 that are in flight already and the answers to them.
 */
module EfcpProgress {
  import opened EfcpTypes
  import opened Rtt
  import opened RtxQueue
  import opened DtpSender
  import opened EfcpWorld
  import opened EfcpGenuine
  import opened EfcpWindow
  import opened EfcpReliable
  import opened EfcpAgreement
  import R = DtpReceiver

  ghost predicate Reliable(cfg: Config) { cfg.WindowOnly() && cfg.rtxCtrl && cfg.initialCredit >= 1 }

  // ---------------------------------------------------------------- what is tracked

  /** What the receiver holds and has posted, and every number sent, is in flight for ever. */
  ghost predicate Arrived(w: World) {
    && (forall p :: p in w.posted ==> p in w.data)
    && (forall i :: 0 <= i < |w.rcv.seqq| ==> w.rcv.seqq[i].pdu in w.data)
    && (forall i :: 0 <= i < |w.first| ==> w.first[i].pdu in w.data)
  }

  /** The last answer of the receiver says where it is now. */
  ghost predicate Newest(w: World, c: CtrlPdu) {
    c in w.acks && c.csn == w.rcv.nextSndCtlSeq && c.ackSn == w.rcv.lwe && c.newRwe == w.rcv.rcvrRtWindEdge
  }

  ghost predicate Answered(w: World) {
    if w.rcv.drfRequired then w.rcv.lastSndDataAck == 0 && w.acks == {}
    else w.rcv.lastSndDataAck == w.rcv.lwe && exists c :: Newest(w, c)
  }

  ghost predicate AckOk(w: World, c: CtrlPdu) {
    Acks(c) && Opens(c) && w.n0 < c.ackSn <= w.rcv.lwe && c.csn <= w.rcv.nextSndCtlSeq
  }

  /** Later answers acknowledge more, and there is one answer for each control number. */
  ghost predicate InTurn(c: CtrlPdu, d: CtrlPdu) {
    (c.csn < d.csn ==> c.ackSn < d.ackSn) && (c.csn == d.csn ==> c == d)
  }

  /** The last number that is not kept for retransmission any more. */
  function Base(s: Snd): int { s.maxSeqNrSent - |s.rtxq| }

  ghost predicate Contiguous(s: Snd) {
    forall i :: 0 <= i < |s.rtxq| ==> s.rtxq[i].pdu.sn == Base(s) + 1 + i
  }

  /** The answers that the sender has taken in are the ones up to `Base`. */
  ghost predicate Splits(s: Snd, c: CtrlPdu) {
    if c.csn <= s.lastRcvCtlSeq then c.ackSn <= Base(s) else c.ackSn > Base(s)
  }

  ghost predicate Held(w: World) {
    && Contiguous(w.snd) && w.n0 <= Base(w.snd)
    && (Base(w.snd) == w.n0 || (!w.rcv.drfRequired && Base(w.snd) <= w.rcv.lwe))
    && (forall c :: c in w.acks ==> Splits(w.snd, c))
    && (!w.rcv.drfRequired && w.snd.lastRcvCtlSeq == w.rcv.nextSndCtlSeq ==> w.snd.sndRtWindEdge == w.rcv.rcvrRtWindEdge)
  }

  ghost predicate Track(w: World) {
    && Arrived(w) && Answered(w)
    && (forall c :: c in w.acks ==> AckOk(w, c))
    && (forall c, d :: c in w.acks && d in w.acks ==> InTurn(c, d))
    && (w.dropped == [] ==> Held(w))
  }

  /** What the other modules prove of every reachable state. */
  ghost predicate Known(cfg: Config, w: World) {
    AllGenuine(w) && NoRollover(cfg, w) && InOrder(cfg, w) && Discipline(cfg, w.n0, w.snd, w.first) && Agree(cfg, w)
  }

  // ---------------------------------------------------------------- the receiver answers whenever it moves

  ghost predicate Answer(c: CtrlPdu, r: R.Rcv) {
    Acks(c) && Opens(c) && c.csn == r.nextSndCtlSeq && c.ackSn == r.lwe && c.newRwe == r.rcvrRtWindEdge
  }

  ghost predicate Emits(r: R.Rcv, d: R.RcvStep) {
    if d.r.lwe == r.lwe && !r.drfRequired then
      && d.ctrl == [] && d.r.nextSndCtlSeq == r.nextSndCtlSeq && d.r.lastSndDataAck == r.lastSndDataAck
      && d.r.rcvrRtWindEdge == r.rcvrRtWindEdge
    else
      && |d.ctrl| == 1 && Answer(d.ctrl[0], d.r) && d.r.nextSndCtlSeq == r.nextSndCtlSeq + 1
      && d.r.lastSndDataAck == d.r.lwe
  }

  lemma UpdateEmits(cfg: Config, r: R.Rcv)
    requires cfg.WindowOnly() && cfg.rtxCtrl
    ensures var d := R.SvUpdate(cfg, r);
            && d.r.lwe == r.lwe && d.r.rcvrRtWindEdge == r.lwe + cfg.initialCredit
            && (r.lastSndDataAck < r.lwe ==>
                  (|d.ctrl| == 1 && Answer(d.ctrl[0], d.r) && d.r.nextSndCtlSeq == r.nextSndCtlSeq + 1 && d.r.lastSndDataAck == r.lwe))
            && (r.lastSndDataAck >= r.lwe ==>
                  (d.ctrl == [] && d.r.nextSndCtlSeq == r.nextSndCtlSeq && d.r.lastSndDataAck == r.lastSndDataAck))
  {
  }

  lemma StartEmits(cfg: Config, r: R.Rcv, pdu: DataPdu)
    requires cfg.WindowOnly() && cfg.rtxCtrl && r.drfRequired && r.lastSndDataAck == 0 && pdu.drf && pdu.sn > 0
    ensures Emits(r, R.StartRun(cfg, r, pdu))
  {
    UpdateEmits(cfg, r.(drfRequired := false, lwe := pdu.sn, seqq := []));
  }

  lemma AcceptEmits(cfg: Config, r: R.Rcv, pdu: DataPdu, now: nat)
    requires cfg.WindowOnly() && cfg.rtxCtrl && !r.drfRequired
    requires r.lastSndDataAck == r.lwe && r.rcvrRtWindEdge == r.lwe + cfg.initialCredit
    requires r.lwe <= R.Accept(cfg, r, pdu, now).r.lwe
    ensures Emits(r, R.Accept(cfg, r, pdu, now))
  {
    var r1 := r.(rendezvousRcvr := false);
    if cfg.a == 0 {
      UpdateEmits(cfg, if R.TakenAtOnce(cfg, r1, pdu.sn) then r1.(lwe := pdu.sn) else r1);
    } else {
      var next := pdu.sn == r1.lwe + 1;
      var q := if next then r1.seqq else R.SeqPush(r1.seqq, R.SeqEntry(pdu, now));
      var m := R.Drain(if next then pdu.sn else r1.lwe, q);
      UpdateEmits(cfg, r1.(lwe := m.lwe, seqq := m.left));
    }
  }

  lemma ReceiveEmits(cfg: Config, r: R.Rcv, pdu: DataPdu, now: nat)
    requires cfg.WindowOnly() && cfg.rtxCtrl && pdu.drf && pdu.sn > 0
    requires if r.drfRequired then r.lastSndDataAck == 0 else r.lastSndDataAck == r.lwe && r.rcvrRtWindEdge == r.lwe + cfg.initialCredit
    requires r.lwe <= R.Receive(cfg, r, pdu, now).r.lwe
    ensures Emits(r, R.Receive(cfg, r, pdu, now))
  {
    if r.drfRequired {
      StartEmits(cfg, r, pdu);
    } else if pdu.sn > r.lwe && !R.Overrun(cfg, r, pdu.sn) {
      assert R.Counted(cfg, r, pdu) == r;
      AcceptEmits(cfg, r, pdu, now);
    }
  }

  lemma ATimerEmits(cfg: Config, r: R.Rcv, now: nat)
    requires cfg.WindowOnly() && cfg.rtxCtrl && !r.drfRequired
    requires r.lastSndDataAck == r.lwe && r.rcvrRtWindEdge == r.lwe + cfg.initialCredit
    requires r.lwe <= R.ATimer(cfg, r, now).r.lwe
    ensures Emits(r, R.ATimer(cfg, r, now))
  {
    ExpireStill(cfg, r.lwe, r.seqq, now);
    var m := R.Expire(cfg, r.lwe, r.seqq, now);
    UpdateEmits(cfg, r.(lwe := m.lwe, seqq := m.left));
  }

  // ---------------------------------------------------------------- receiver steps

  lemma HandedStaysArrived(w: World, w': World, d: R.RcvStep, extra: seq<DataPdu>)
    requires Arrived(w) && Handed(d.r.seqq, d.posted, w.rcv.seqq, extra) && forall x :: x in extra ==> x in w.data
    requires w'.rcv == d.r && w'.posted == w.posted + d.posted && w'.data == w.data && w'.first == w.first
    ensures Arrived(w')
  {
  }

  lemma TrackReceiver(cfg: Config, w: World, w': World, d: R.RcvStep)
    requires Agree(cfg, w) && Track(w) && Arrived(w') && Emits(w.rcv, d)
    requires w.rcv.lwe <= d.r.lwe && w.n0 < d.r.lwe && !d.r.drfRequired
    requires w' == w.(rcv := d.r, posted := w'.posted, acks := w.acks + Elements(d.ctrl), overruns := w'.overruns)
    ensures Track(w')
  {
    if d.ctrl == [] {
      assert w'.acks == w.acks;
      var c :| Newest(w, c);
      assert Newest(w', c);
    } else {
      var c := d.ctrl[0];
      assert Newest(w', c);
      forall b | b in w'.acks ensures AckOk(w', b) {
        assert b in w.acks ==> AckOk(w, b);
      }
      forall a, b | a in w'.acks && b in w'.acks ensures InTurn(a, b) {
        assert a in w.acks ==> AckOk(w, a);
        assert b in w.acks ==> AckOk(w, b);
        assert a in w.acks && b in w.acks ==> InTurn(a, b);
      }
    }
    forall b | b in w'.acks ensures AckOk(w', b) {
      assert b in w.acks ==> AckOk(w, b);
    }
    if w.dropped == [] {
      forall b | b in w'.acks ensures Splits(w'.snd, b) {
        assert b in w.acks ==> Splits(w.snd, b);
      }
    }
  }

  // ---------------------------------------------------------------- sender steps

  lemma TrackSender(w: World, w': World)
    requires Track(w) && Arrived(w') && (w'.dropped == [] ==> Held(w'))
    requires w' == w.(snd := w'.snd, data := w'.data, first := w'.first, written := w'.written, dropped := w'.dropped)
    ensures Track(w')
  {
    forall c | c in w'.acks ensures AckOk(w', c) {
      assert AckOk(w, c);
    }
    if !w.rcv.drfRequired {
      var c :| Newest(w, c);
      assert Newest(w', c);
    }
  }

  lemma SendsArrive(w: World, step: Step)
    requires Arrived(w)
    ensures Arrived(FirstSends(w, step))
  {
    var w' := FirstSends(w, step);
    forall i | 0 <= i < |w'.first| ensures w'.first[i].pdu in w'.data {
      if i >= |w.first| {
        assert w'.first[i].pdu == step.out[i - |w.first|];
      }
    }
  }

  /** The base and the edge did not move, and what was pushed continues the queue. */
  lemma SameBase(w: World, w': World)
    requires Held(w) && Contiguous(w'.snd) && Base(w'.snd) == Base(w.snd)
    requires w'.snd.lastRcvCtlSeq == w.snd.lastRcvCtlSeq && w'.snd.sndRtWindEdge == w.snd.sndRtWindEdge
    requires w'.rcv == w.rcv && w'.acks == w.acks && w'.n0 == w.n0
    ensures Held(w')
  {
    forall c | c in w'.acks ensures Splits(w'.snd, c) {
      assert Splits(w.snd, c);
    }
  }

  lemma WriteShape(cfg: Config, n0: nat, s: Snd, data: seq<Octet>, now: nat, tick: bool, first: seq<Sent>)
    requires cfg.WindowOnly() && cfg.rtxCtrl && Discipline(cfg, n0, s, first)
    ensures var s' := Write(cfg, s, data, now, tick).s;
            && s'.lastRcvCtlSeq == s.lastRcvCtlSeq && s'.sndRtWindEdge == s.sndRtWindEdge
            && (|| (s'.maxSeqNrSent == s.maxSeqNrSent && s'.rtxq == s.rtxq)
                || (s'.maxSeqNrSent == s.maxSeqNrSent + 1 && |s'.rtxq| == |s.rtxq| + 1 && s'.rtxq[..|s.rtxq|] == s.rtxq
                    && s'.rtxq[|s.rtxq|].pdu.sn == s.maxSeqNrSent + 1))
  {
    PushAtTail(s.rtxq, RtxEntry(NewPdu(cfg, s, data), now, 0));
  }

  lemma TrackWrite(cfg: Config, w: World, e: Event)
    requires Reliable(cfg) && Known(cfg, w) && Track(w) && e.EvWrite?
    ensures Track(Next(cfg, w, e))
  {
    var d := Write(cfg, w.snd, e.data, e.now, e.tick);
    var w' := Next(cfg, w, e);
    SendsArrive(w, d);
    WriteShape(cfg, w.n0, w.snd, e.data, e.now, e.tick, w.first);
    if w.dropped == [] {
      forall i | 0 <= i < |w'.snd.rtxq| ensures w'.snd.rtxq[i].pdu.sn == Base(w.snd) + 1 + i {
        assert i < |w.snd.rtxq| ==> w'.snd.rtxq[i] == w'.snd.rtxq[..|w.snd.rtxq|][i];
      }
      SameBase(w, w');
    }
    TrackSender(w, w');
  }

  lemma {:induction false} AckContiguous(q: seq<RtxEntry>, base: nat, ack: nat)
    requires base <= ack <= base + |q| && forall i :: 0 <= i < |q| ==> q[i].pdu.sn == base + 1 + i
    ensures AckUpTo(q, ack) == q[ack - base..]
    decreases |q|
  {
    if base < ack {
      AckContiguous(q[1..], base + 1, ack);
      assert q[1..][ack - base - 1..] == q[ack - base..];
    } else {
      assert q[0..] == q;
    }
  }

  /** An acknowledgement of a number that is still kept is taken in, and moves the base there. */
  lemma AckMovesBase(cfg: Config, s: Snd, c: CtrlPdu, now: nat)
    requires cfg.rtxCtrl && Acks(c) && Sorted(s.rtxq) && Contiguous(s) && 0 <= Base(s) < c.ackSn <= s.maxSeqNrSent
    ensures !AckStamp(cfg, s, c).Absent?
    ensures var s' := Acknowledged(cfg, s, c, now);
            Contiguous(s') && Base(s') == c.ackSn && s'.maxSeqNrSent == s.maxSeqNrSent && s'.lastRcvCtlSeq == s.lastRcvCtlSeq
  {
    var e := s.rtxq[c.ackSn - Base(s) - 1];
    assert e in s.rtxq && e.pdu.sn == c.ackSn;
    LookupIsSearch(s.rtxq, c.ackSn);
    AckContiguous(s.rtxq, Base(s), c.ackSn);
    var _ := AcknowledgedShape(cfg, s, c, now);
  }

  /** Delivering from the closed-window queue appends to a contiguous queue. */
  lemma OpeningKeepsBase(cfg: Config, n0: nat, s: Snd, c: CtrlPdu, now: nat, ticks: seq<bool>, first: seq<Sent>)
    requires cfg.WindowOnly() && cfg.rtxCtrl && Discipline(cfg, n0, s, first) && Contiguous(s)
    ensures var s' := Deliver(cfg, Opened(cfg, s, c), now, ticks).s;
            && Contiguous(s') && Base(s') == Base(s) && s'.lastRcvCtlSeq == s.lastRcvCtlSeq && s'.sndRtWindEdge == c.newRwe
            && s'.seqNrToSend == s.seqNrToSend && s'.maxSeqNrSent == s.maxSeqNrSent + Batch(Opened(cfg, s, c))
  {
    DeliverIsBatch(cfg, Opened(cfg, s, c), now, ticks);
  }

  /** The sender after a new answer: everything up to the acknowledged number is gone, and the edge is the one carried. */
  lemma AnswerTaken(cfg: Config, n0: nat, s: Snd, c: CtrlPdu, now: nat, ticks: seq<bool>, first: seq<Sent>)
    requires cfg.WindowOnly() && cfg.rtxCtrl && Discipline(cfg, n0, s, first) && Contiguous(s)
    requires Acks(c) && Opens(c) && c.csn > s.lastRcvCtlSeq && n0 <= Base(s) < c.ackSn <= s.maxSeqNrSent
    ensures var s' := ReceiveControl(cfg, s, c, now, ticks).s;
            && Contiguous(s') && Base(s') == c.ackSn && s'.lastRcvCtlSeq == c.csn && s'.sndRtWindEdge == c.newRwe
            && s'.seqNrToSend == s.seqNrToSend && s.maxSeqNrSent <= s'.maxSeqNrSent
            && (c.newRwe > s.maxSeqNrSent && s.cwq != [] ==> s.maxSeqNrSent < s'.maxSeqNrSent)
  {
    var s1 := s.(lastRcvCtlSeq := c.csn);
    AckMovesBase(cfg, s1, c, now);
    AckKeepsDiscipline(cfg, n0, s1, c, now, first);
    var _ := AcknowledgedShape(cfg, s1, c, now);
    OpeningKeepsBase(cfg, n0, Acknowledged(cfg, s1, c, now), c, now, ticks, first);
  }

  /** The receiver is never ahead of the sender. */
  lemma NeverAhead(cfg: Config, w: World)
    requires Known(cfg, w) && Track(w) && !w.rcv.drfRequired
    ensures w.n0 < w.rcv.lwe <= w.snd.maxSeqNrSent
  {
    var last := w.posted[|w.posted| - 1];
    assert last in w.posted && last in w.data;
    assert Genuine(w, last);
  }

  lemma TrackControl(cfg: Config, w: World, e: Event)
    requires Reliable(cfg) && Known(cfg, w) && Track(w) && e.EvCtrl? && e.c in w.acks
    ensures Track(Next(cfg, w, e))
  {
    var d := ReceiveControl(cfg, w.snd, e.c, e.now, e.ticks);
    var w' := FirstSends(w, d);
    SendsArrive(w, d);
    assert AckOk(w, e.c);
    if w.dropped == [] && e.c.csn > w.snd.lastRcvCtlSeq {
      NeverAhead(cfg, w);
      assert Splits(w.snd, e.c);
      AnswerTaken(cfg, w.n0, w.snd, e.c, e.now, e.ticks, w.first);
      AnswerSplits(w, w', e.c);
    } else if w.dropped == [] {
      SameBase(w, w');
    }
    TrackSender(w, w');
  }

  lemma AnswerSplits(w: World, w': World, c: CtrlPdu)
    requires Track(w) && w.dropped == [] && c in w.acks && !w.rcv.drfRequired
    requires w'.rcv == w.rcv && w'.acks == w.acks && w'.n0 == w.n0 && Contiguous(w'.snd)
    requires Base(w'.snd) == c.ackSn && w'.snd.lastRcvCtlSeq == c.csn && w'.snd.sndRtWindEdge == c.newRwe
    ensures Held(w')
  {
    assert AckOk(w, c);
    forall b | b in w'.acks ensures Splits(w'.snd, b) {
      assert InTurn(b, c) && InTurn(c, b);
    }
    var newest :| Newest(w, newest);
    assert InTurn(c, newest);
  }

  lemma {:induction false} NothingGivenUp(
      cfg: Config, q: seq<RtxEntry>, tr: nat, now: nat, rate: RateControl.Rate, ticks: seq<bool>)
    requires Retransmit(cfg, q, tr, now, rate, ticks).dropped == []
    ensures var p := Retransmit(cfg, q, tr, now, rate, ticks);
            |p.queue| == |q| && forall i :: 0 <= i < |q| ==> p.queue[i].pdu == q[i].pdu
  {
    if q != [] && TimeToRtx(q[0], tr) <= now && q[0].retries + 1 < cfg.dataRtxMax {
      var charged := RateControl.Elapse(RateControl.Charge(rate, |q[0].pdu.data|), Tick(ticks));
      if !cfg.rateBased {
        NothingGivenUp(cfg, q[1..], tr, now, rate, ticks);
      } else if !RateControl.Exceeded(charged, true) {
        NothingGivenUp(cfg, q[1..], tr, now, charged, Later(ticks));
      }
    }
  }

  lemma TrackRtx(cfg: Config, w: World, e: Event)
    requires Known(cfg, w) && Track(w) && e.EvRtx?
    ensures Track(Next(cfg, w, e))
  {
    var w' := Next(cfg, w, e);
    if w'.dropped == [] {
      assert Numbers(GivenUp(cfg, w.snd, e.now, e.ticks)) == [];
      NothingGivenUp(cfg, w.snd.rtxq, w.snd.rtt.tr, e.now, w.snd.rate, e.ticks);
      SameBase(w, w');
    }
    TrackSender(w, w');
  }

  // ---------------------------------------------------------------- every run

  lemma TrackArrival(cfg: Config, w: World, e: Event)
    requires Reliable(cfg) && Known(cfg, w) && Track(w) && Enabled(cfg, w, e)
    requires e.EvData? || (e.EvATimer? && !w.rcv.drfRequired)
    ensures Track(Next(cfg, w, e))
  {
    var w' := Next(cfg, w, e);
    OrderStep(cfg, w, e);
    if e.EvData? {
      assert Genuine(w, e.pdu);
      var d := R.Receive(cfg, w.rcv, e.pdu, e.now);
      ReceiveEmits(cfg, w.rcv, e.pdu, e.now);
      ReceiveHolds(cfg, w.rcv, e.pdu, e.now);
      HandedStaysArrived(w, w', d, [e.pdu]);
      StartedAbove(cfg, w, e);
      TrackReceiver(cfg, w, w', d);
    } else {
      var d := R.ATimer(cfg, w.rcv, e.now);
      NeverAhead(cfg, w);
      ATimerEmits(cfg, w.rcv, e.now);
      ExpireHolds(cfg, w.rcv.lwe, w.rcv.seqq, e.now, []);
      HandedStaysArrived(w, w', d, []);
      TrackReceiver(cfg, w, w', d);
    }
  }

  lemma StartedAbove(cfg: Config, w: World, e: Event)
    requires Reliable(cfg) && Known(cfg, w) && Track(w) && Enabled(cfg, w, e) && e.EvData?
    ensures var r' := Next(cfg, w, e).rcv; !r'.drfRequired && w.n0 < r'.lwe
  {
    assert Genuine(w, e.pdu);
    OrderStep(cfg, w, e);
    if w.rcv.drfRequired {
      assert Next(cfg, w, e).rcv.lwe == e.pdu.sn;
    } else {
      NeverAhead(cfg, w);
    }
  }

  lemma TrackIdle(cfg: Config, w: World, e: Event)
    requires Known(cfg, w) && Track(w) && ((e.EvATimer? && w.rcv.drfRequired) || e.EvRendezvousTimer?)
    ensures Track(Next(cfg, w, e))
  {
    var w' := Next(cfg, w, e);
    assert w'.acks == w.acks && w'.rcv == w.rcv && w'.posted == w.posted;
    TrackSender(w, w');
  }

  lemma TrackStep(cfg: Config, w: World, e: Event)
    requires Reliable(cfg) && Known(cfg, w) && Track(w) && Enabled(cfg, w, e) && !e.EvSendRendezvous?
    ensures Track(Next(cfg, w, e))
  {
    if e.EvWrite? {
      TrackWrite(cfg, w, e);
    } else if e.EvCtrl? {
      TrackControl(cfg, w, e);
    } else if e.EvRtx? {
      TrackRtx(cfg, w, e);
    } else if e.EvData? || (e.EvATimer? && !w.rcv.drfRequired) {
      TrackArrival(cfg, w, e);
    } else {
      TrackIdle(cfg, w, e);
    }
  }

  /** A run without rendezvous, of which the numbers have not rolled over. */
  ghost predicate Smooth(cfg: Config, n0: nat, tr: nat, es: seq<Event>) {
    Runs(cfg, Start(cfg, n0, tr), es) && NoRendezvous(es) && NoRollover(cfg, Exec(cfg, Start(cfg, n0, tr), es))
  }

  lemma KnownRun(cfg: Config, n0: nat, tr: nat, es: seq<Event>)
    requires Reliable(cfg) && Smooth(cfg, n0, tr, es)
    ensures Known(cfg, Exec(cfg, Start(cfg, n0, tr), es)) && Exec(cfg, Start(cfg, n0, tr), es).n0 == n0
  {
    ExactlyOnceInOrder(cfg, n0, tr, es);
    SenderDiscipline(cfg, n0, tr, es);
    AgreeRun(cfg, n0, tr, es);
  }

  lemma {:induction false} TrackRun(cfg: Config, n0: nat, tr: nat, es: seq<Event>)
    requires Reliable(cfg) && Smooth(cfg, n0, tr, es)
    ensures Track(Exec(cfg, Start(cfg, n0, tr), es))
    decreases |es|
  {
    if es != [] {
      var prefix, e := es[..|es| - 1], es[|es| - 1];
      var w := Exec(cfg, Start(cfg, n0, tr), prefix);
      NumberingGrows(cfg, w, e);
      KnownRun(cfg, n0, tr, prefix);
      TrackRun(cfg, n0, tr, prefix);
      TrackStep(cfg, w, e);
    }
  }

  // ---------------------------------------------------------------- the network can finish

  /** `es'` extends `es` by deliveries of PDUs that are in flight. */
  ghost predicate Extends(es: seq<Event>, es': seq<Event>) {
    es <= es' && forall i :: |es| <= i < |es'| ==> es'[i].EvData? || es'[i].EvCtrl?
  }

  lemma OneMore(cfg: Config, n0: nat, tr: nat, es: seq<Event>, e: Event)
    requires Smooth(cfg, n0, tr, es) && Enabled(cfg, Exec(cfg, Start(cfg, n0, tr), es), e) && (e.EvData? || e.EvCtrl?)
    requires NoRollover(cfg, Next(cfg, Exec(cfg, Start(cfg, n0, tr), es), e))
    ensures Smooth(cfg, n0, tr, es + [e]) && Extends(es, es + [e])
    ensures Exec(cfg, Start(cfg, n0, tr), es + [e]) == Next(cfg, Exec(cfg, Start(cfg, n0, tr), es), e)
  {
    Onward(cfg, Start(cfg, n0, tr), es, e);
  }

  /** How many numbers the receiver is behind what was sent. */
  function Behind(w: World): int { w.snd.maxSeqNrSent - if w.rcv.drfRequired then w.n0 else w.rcv.lwe }

  /** The next number, or the first one of the run, is accepted when it arrives. */
  lemma NextIsTaken(cfg: Config, w: World, p: DataPdu)
    requires Reliable(cfg) && Known(cfg, w) && p in w.data
    requires p.sn == if w.rcv.drfRequired then w.n0 + 1 else w.rcv.lwe + 1
    ensures var r' := R.Receive(cfg, w.rcv, p, 0).r; !r'.drfRequired && p.sn <= r'.lwe
  {
    assert Genuine(w, p);
    if !w.rcv.drfRequired {
      assert R.Counted(cfg, w.rcv, p) == w.rcv;
      var r := w.rcv.(rendezvousRcvr := false);
      if cfg.a == 0 {
        Fits(cfg.maxSduGap + 1);
        UpdateAcks(cfg, r.(lwe := p.sn));
      } else {
        var m := R.Drain(p.sn, r.seqq);
        DrainChain(p.sn, r.seqq, 0);
        ChainGrows(p.sn, m.posted, 0);
        UpdateAcks(cfg, r.(lwe := m.lwe, seqq := m.left));
      }
    }
  }

  /** Delivering the PDUs in flight in order brings the receiver to the last number sent. */
  lemma {:induction false} CatchUp(cfg: Config, n0: nat, tr: nat, es: seq<Event>) returns (es': seq<Event>)
    requires Reliable(cfg) && Smooth(cfg, n0, tr, es) && n0 < Exec(cfg, Start(cfg, n0, tr), es).snd.maxSeqNrSent
    ensures Smooth(cfg, n0, tr, es') && Extends(es, es')
    ensures var w, w' := Exec(cfg, Start(cfg, n0, tr), es), Exec(cfg, Start(cfg, n0, tr), es');
            && w'.snd == w.snd && w'.written == w.written && w'.dropped == w.dropped
            && !w'.rcv.drfRequired && w'.rcv.lwe == w.snd.maxSeqNrSent
    decreases Behind(Exec(cfg, Start(cfg, n0, tr), es))
  {
    var w := Exec(cfg, Start(cfg, n0, tr), es);
    KnownRun(cfg, n0, tr, es);
    TrackRun(cfg, n0, tr, es);
    if !w.rcv.drfRequired && w.rcv.lwe == w.snd.maxSeqNrSent {
      es' := es;
    } else {
      if !w.rcv.drfRequired {
        NeverAhead(cfg, w);
      }
      var n := if w.rcv.drfRequired then n0 + 1 else w.rcv.lwe + 1;
      var p := w.first[n - n0 - 1].pdu;
      NextIsTaken(cfg, w, p);
      OneMore(cfg, n0, tr, es, EvData(p, 0));
      es' := CatchUp(cfg, n0, tr, es + [EvData(p, 0)]);
    }
  }

  /** Everything written has been posted or precedes the run of data, nothing is kept, and the writer may go on. */
  ghost predicate Drained(w: World) {
    w.rcv.lwe == w.snd.seqNrToSend && w.snd.rtxq == [] && w.snd.cwq == [] && !w.snd.portDisabled
  }

  lemma SomethingSent(cfg: Config, w: World)
    requires Reliable(cfg) && Known(cfg, w) && Track(w) && w.n0 < w.snd.seqNrToSend
    ensures w.n0 < w.snd.maxSeqNrSent
  {
    assert w.posted != [] ==> w.posted[0] in w.posted && w.posted[0] in w.data && Genuine(w, w.posted[0]);
  }

  /** When the receiver has everything that was sent, taking in its last answer empties the retransmission queue. */
  lemma LastAnswer(cfg: Config, w: World) returns (c: CtrlPdu)
    requires Reliable(cfg) && Known(cfg, w) && Track(w) && w.dropped == []
    requires !w.rcv.drfRequired && w.rcv.lwe == w.snd.maxSeqNrSent
    ensures c in w.acks
    ensures w.snd.lastRcvCtlSeq == w.rcv.nextSndCtlSeq ==> Drained(w)
    ensures w.snd.lastRcvCtlSeq != w.rcv.nextSndCtlSeq ==>
              (var s' := ReceiveControl(cfg, w.snd, c, 0, []).s;
               && s'.seqNrToSend == w.snd.seqNrToSend && |s'.rtxq| == s'.maxSeqNrSent - w.snd.maxSeqNrSent
               && (w.snd.cwq != [] ==> w.snd.maxSeqNrSent < s'.maxSeqNrSent))
  {
    c :| Newest(w, c);
    assert AckOk(w, c) && Splits(w.snd, c);
    NeverAhead(cfg, w);
    if w.snd.lastRcvCtlSeq != w.rcv.nextSndCtlSeq {
      AnswerTaken(cfg, w.n0, w.snd, c, 0, [], w.first);
    }
  }

  /** One round: the receiver catches up and the sender takes in its last answer, which sends more if anything is queued. */
  lemma OneRound(cfg: Config, n0: nat, tr: nat, es: seq<Event>) returns (es': seq<Event>)
    requires Reliable(cfg) && Smooth(cfg, n0, tr, es)
    requires var w := Exec(cfg, Start(cfg, n0, tr), es); w.dropped == [] && n0 < w.snd.maxSeqNrSent
    ensures Smooth(cfg, n0, tr, es') && Extends(es, es')
    ensures var w, w' := Exec(cfg, Start(cfg, n0, tr), es), Exec(cfg, Start(cfg, n0, tr), es');
            && w'.written == w.written && w'.dropped == [] && w'.snd.seqNrToSend == w.snd.seqNrToSend
            && w.snd.maxSeqNrSent <= w'.snd.maxSeqNrSent
            && (Drained(w') || w.snd.maxSeqNrSent < w'.snd.maxSeqNrSent)
  {
    var es1 := CatchUp(cfg, n0, tr, es);
    var w1 := Exec(cfg, Start(cfg, n0, tr), es1);
    KnownRun(cfg, n0, tr, es1);
    TrackRun(cfg, n0, tr, es1);
    var c := LastAnswer(cfg, w1);
    if w1.snd.lastRcvCtlSeq == w1.rcv.nextSndCtlSeq {
      es' := es1;
    } else {
      es' := es1 + [EvCtrl(c, 0, [])];
      OneMore(cfg, n0, tr, es1, EvCtrl(c, 0, []));
      KnownRun(cfg, n0, tr, es');
    }
  }

  /**
   No deadlock: every run on which no PDU was given up can be continued, by delivering PDUs that are in
   flight and nothing else, to a state in which the receiver has everything that was written, the sender
   keeps nothing and the writer may go on.
   */
  lemma {:induction false} CanDrain(cfg: Config, n0: nat, tr: nat, es: seq<Event>) returns (es': seq<Event>)
    requires Reliable(cfg) && Smooth(cfg, n0, tr, es)
    requires var w := Exec(cfg, Start(cfg, n0, tr), es); w.dropped == [] && n0 < w.snd.seqNrToSend
    ensures Smooth(cfg, n0, tr, es') && Extends(es, es')
    ensures Exec(cfg, Start(cfg, n0, tr), es').written == Exec(cfg, Start(cfg, n0, tr), es).written
    ensures Drained(Exec(cfg, Start(cfg, n0, tr), es'))
    decreases var s := Exec(cfg, Start(cfg, n0, tr), es).snd; s.seqNrToSend - s.maxSeqNrSent
  {
    KnownRun(cfg, n0, tr, es);
    TrackRun(cfg, n0, tr, es);
    SomethingSent(cfg, Exec(cfg, Start(cfg, n0, tr), es));
    es' := OneRound(cfg, n0, tr, es);
    if !Drained(Exec(cfg, Start(cfg, n0, tr), es')) {
      KnownRun(cfg, n0, tr, es');
      es' := CanDrain(cfg, n0, tr, es');
    }
  }

  /** With no gap allowed, what has been posted by then is everything written from the start of the run of data on. */
  lemma DrainedIsSuffix(cfg: Config, n0: nat, tr: nat, es: seq<Event>) returns (k: nat)
    requires Reliable(cfg) && cfg.maxSduGap == 0 && Smooth(cfg, n0, tr, es)
    requires Drained(Exec(cfg, Start(cfg, n0, tr), es)) && n0 < Exec(cfg, Start(cfg, n0, tr), es).snd.seqNrToSend
    ensures var w := Exec(cfg, Start(cfg, n0, tr), es);
            k < |w.written| && Payloads(w.posted) == w.written[k..] && w.posted[0].sn == n0 + 1 + k
  {
    var w := Exec(cfg, Start(cfg, n0, tr), es);
    ExactlyOnceInOrder(cfg, n0, tr, es);
    k := BlockFromChain(w);
    assert w.written[k..k + |w.posted|] == w.written[k..];
  }
}
