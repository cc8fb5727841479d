/**
 What taking a write as one step leaves out. When the window is closed a write checks the window, pushes
 to the closed-window queue and stops the writer in three pieces, and a control PDU may be processed
 between any two of them. The module cuts the step there and says exactly when the order shows.
 */
module EfcpRaces {
  import opened EfcpTypes
  import opened RtxQueue
  import opened DtpSender
  import opened EfcpWorld
  import opened EfcpWindow
  import opened EfcpGivenUp
  import R = DtpReceiver

  /** The PDU has been numbered and found outside the window. */
  ghost predicate FindsClosed(cfg: Config, s: Snd, data: seq<Octet>, tick: bool) {
    WindowIsClosed(cfg, Checked(cfg, Numbered(s), NewPdu(cfg, s, data).sn, tick), NewPdu(cfg, s, data).sn)
  }

  function AfterCheck(cfg: Config, s: Snd, data: seq<Octet>, tick: bool): Snd {
    Checked(cfg, Numbered(s), NewPdu(cfg, s, data).sn, tick)
  }

  function Pushed(s: Snd, pdu: DataPdu): Snd { s.(cwq := s.cwq + [pdu]) }

  function WriterStopped(s: Snd): Snd { s.(portDisabled := true) }

  /** With nothing in between, the pieces are the step. */
  lemma PiecesMakeTheStep(cfg: Config, s: Snd, data: seq<Octet>, now: nat, tick: bool)
    requires cfg.WindowOnly() && FindsClosed(cfg, s, data, tick)
    ensures var d := Write(cfg, s, data, now, tick);
            var p := Pushed(AfterCheck(cfg, s, data, tick), NewPdu(cfg, s, data));
            d.out == [] && d.s == WriterStopped(p).(rendezvousSndr := d.s.rendezvousSndr)
  {
  }

  /** The control PDU is processed, and opens the window as far as number `sn`. */
  predicate OpensUpTo(cfg: Config, s: Snd, c: CtrlPdu, sn: nat) {
    Processed(cfg, s, c) && Opens(c) && c.newRwe >= sn
  }

  /** What waits follows the last number sent, and what is kept does not exceed it. */
  ghost predicate Ready(s: Snd) { Consecutive(s.cwq, s.maxSeqNrSent) && AllBelow(s.rtxq, s.maxSeqNrSent + 1) }

  lemma PushedReady(cfg: Config, n0: nat, s: Snd, data: seq<Octet>, tick: bool, first: seq<Sent>)
    requires cfg.WindowOnly() && Discipline(cfg, n0, s, first) && FindsClosed(cfg, s, data, tick)
    ensures var p := Pushed(AfterCheck(cfg, s, data, tick), NewPdu(cfg, s, data));
            Ready(p) && p.maxSeqNrSent + |p.cwq| == s.seqNrToSend + 1
  {
  }

  lemma SuffixReady(s: Snd, s': Snd, k: nat)
    requires Ready(s) && k <= |s.rtxq|
    requires s' == s.(rtxq := s.rtxq[k..], sndLftWin := s'.sndLftWin, rtt := s'.rtt)
    ensures Ready(s')
  {
  }

  /** Opening the window sends as much as it has room for. */
  lemma OpenedBatch(cfg: Config, s: Snd, c: CtrlPdu, now: nat, ticks: seq<bool>)
    requires cfg.WindowOnly() && Ready(s)
    ensures var d := Deliver(cfg, Opened(cfg, s, c), now, ticks).s;
            && d.sndRtWindEdge == c.newRwe
            && d.maxSeqNrSent == Max(s.maxSeqNrSent, Min(s.maxSeqNrSent + |s.cwq|, c.newRwe))
            && |d.cwq| == |s.cwq| - (d.maxSeqNrSent - s.maxSeqNrSent)
  {
    DeliverIsBatch(cfg, Opened(cfg, s, c), now, ticks);
  }

  /** The same, after an acknowledgement. */
  lemma ControlBatch(cfg: Config, s: Snd, c: CtrlPdu, now: nat, ticks: seq<bool>)
    requires cfg.WindowOnly() && Ready(s) && Processed(cfg, s, c) && Opens(c)
    ensures var d := ReceiveControl(cfg, s, c, now, ticks).s;
            && d.sndRtWindEdge == c.newRwe
            && d.maxSeqNrSent == Max(s.maxSeqNrSent, Min(s.maxSeqNrSent + |s.cwq|, c.newRwe))
            && |d.cwq| == |s.cwq| - (d.maxSeqNrSent - s.maxSeqNrSent)
  {
    var s1 := s.(lastRcvCtlSeq := c.csn);
    var k := AcknowledgedShape(cfg, s1, c, now);
    SuffixReady(s1, Acknowledged(cfg, s1, c, now), k);
    OpenedBatch(cfg, Acknowledged(cfg, s1, c, now), c, now, ticks);
  }

  /** A control PDU that is not processed, or opens nothing, leaves the window and the closed-window queue alone. */
  lemma ControlIdle(cfg: Config, s: Snd, c: CtrlPdu, now: nat, ticks: seq<bool>)
    requires !(Processed(cfg, s, c) && Opens(c))
    ensures var d := ReceiveControl(cfg, s, c, now, ticks).s;
            d.sndRtWindEdge == s.sndRtWindEdge && d.maxSeqNrSent == s.maxSeqNrSent && d.cwq == s.cwq && d.portDisabled == s.portDisabled
  {
    var _ := AcknowledgedShape(cfg, s.(lastRcvCtlSeq := c.csn), c, now);
  }

  lemma StoppedStep(
      cfg: Config, n0: nat, s: Snd, data: seq<Octet>, tick: bool, c: CtrlPdu, now: nat, ticks: seq<bool>,
      first: seq<Sent>)
    requires cfg.WindowOnly() && Discipline(cfg, n0, s, first) && FindsClosed(cfg, s, data, tick)
    ensures var p := Pushed(AfterCheck(cfg, s, data, tick), NewPdu(cfg, s, data));
            ReceiveControl(cfg, p, c, now, ticks).s.cwq == [] <==> OpensUpTo(cfg, s, c, s.seqNrToSend + 1)
  {
    var p := Pushed(AfterCheck(cfg, s, data, tick), NewPdu(cfg, s, data));
    PushedReady(cfg, n0, s, data, tick, first);
    assert Processed(cfg, p, c) == Processed(cfg, s, c);
    if Processed(cfg, p, c) && Opens(c) {
      ControlBatch(cfg, p, c, now, ticks);
    } else {
      ControlIdle(cfg, p, c, now, ticks);
    }
  }

  /**
   A control PDU processed after the push and before the writer is stopped leaves the writer stopped with
   nothing queued exactly if it opens the window as far as the number just assigned.
   */
  lemma StoppedForNothing(
      cfg: Config, n0: nat, tr: nat, es: seq<Event>, s: Snd, data: seq<Octet>, tick: bool, c: CtrlPdu, now: nat,
      ticks: seq<bool>)
    requires cfg.WindowOnly() && Runs(cfg, Start(cfg, n0, tr), es) && s == Exec(cfg, Start(cfg, n0, tr), es).snd
    requires FindsClosed(cfg, s, data, tick)
    ensures var p := Pushed(AfterCheck(cfg, s, data, tick), NewPdu(cfg, s, data));
            var s' := WriterStopped(ReceiveControl(cfg, p, c, now, ticks).s);
            s'.portDisabled && s'.cwq == [] <==> OpensUpTo(cfg, s, c, s.seqNrToSend + 1)
  {
    SenderDiscipline(cfg, n0, tr, es);
    StoppedStep(cfg, n0, s, data, tick, c, now, ticks, Exec(cfg, Start(cfg, n0, tr), es).first);
  }

  lemma OpeningStarts(cfg: Config, s: Snd, c: CtrlPdu, now: nat, ticks: seq<bool>)
    requires cfg.WindowOnly() && s.cwq == [] && Processed(cfg, s, c) && Opens(c)
    ensures !ReceiveControl(cfg, s, c, now, ticks).s.portDisabled
  {
    var _ := AcknowledgedShape(cfg, s.(lastRcvCtlSeq := c.csn), c, now);
  }

  /**
   The stopped writer with nothing queued is started again by the next control PDU that is processed and
   opens the window, however far, and by no other event.
   */
  lemma RestartedBy(cfg: Config, w: World, e: Event)
    requires cfg.WindowOnly() && Enabled(cfg, w, e) && w.snd.portDisabled && w.snd.cwq == []
    ensures !Next(cfg, w, e).snd.portDisabled <==> e.EvCtrl? && Processed(cfg, w.snd, e.c) && Opens(e.c)
  {
    if e.EvCtrl? {
      if Processed(cfg, w.snd, e.c) && Opens(e.c) {
        OpeningStarts(cfg, w.snd, e.c, e.now, e.ticks);
      } else {
        ControlIdle(cfg, w.snd, e.c, e.now, e.ticks);
      }
    }
  }

  lemma ParkedStep(
      cfg: Config, n0: nat, s: Snd, data: seq<Octet>, tick: bool, c: CtrlPdu, now: nat, ticks: seq<bool>,
      first: seq<Sent>)
    requires cfg.WindowOnly() && Discipline(cfg, n0, s, first) && FindsClosed(cfg, s, data, tick)
    ensures var d := ReceiveControl(cfg, AfterCheck(cfg, s, data, tick), c, now, ticks).s;
            d.maxSeqNrSent < d.sndRtWindEdge <==> OpensUpTo(cfg, s, c, s.seqNrToSend + 1)
  {
    var p := AfterCheck(cfg, s, data, tick);
    assert Processed(cfg, p, c) == Processed(cfg, s, c);
    if Processed(cfg, p, c) && Opens(c) {
      ControlBatch(cfg, p, c, now, ticks);
    } else {
      ControlIdle(cfg, p, c, now, ticks);
    }
  }

  /**
   A control PDU processed after the check and before the push leaves the PDU parked although the window
   has room for it, exactly if it opens the window as far as the number just assigned.
   */
  lemma ParkedForNothing(
      cfg: Config, n0: nat, tr: nat, es: seq<Event>, s: Snd, data: seq<Octet>, tick: bool, c: CtrlPdu, now: nat,
      ticks: seq<bool>)
    requires cfg.WindowOnly() && Runs(cfg, Start(cfg, n0, tr), es) && s == Exec(cfg, Start(cfg, n0, tr), es).snd
    requires FindsClosed(cfg, s, data, tick)
    ensures var s' := Pushed(ReceiveControl(cfg, AfterCheck(cfg, s, data, tick), c, now, ticks).s, NewPdu(cfg, s, data));
            s'.cwq != [] && s'.maxSeqNrSent < s'.sndRtWindEdge <==> OpensUpTo(cfg, s, c, s.seqNrToSend + 1)
  {
    SenderDiscipline(cfg, n0, tr, es);
    ParkedStep(cfg, n0, s, data, tick, c, now, ticks, Exec(cfg, Start(cfg, n0, tr), es).first);
  }

  // ---------------------------------------------------------------- the race can happen

  /** After the run a control PDU is in flight that opens the window up to the number that a write is about to find closed. */
  ghost predicate RaceOpen(cfg: Config, n0: nat, tr: nat, es: seq<Event>, c: CtrlPdu) {
    && Runs(cfg, Start(cfg, n0, tr), es)
    && var w := Exec(cfg, Start(cfg, n0, tr), es);
       c in w.acks && FindsClosed(cfg, w.snd, [], false) && OpensUpTo(cfg, w.snd, c, w.snd.seqNrToSend + 1)
  }

  function First(n0: nat): DataPdu { DataPdu(n0 + 1, true, []) }

  /** The sender has sent `k` PDUs and heard nothing. */
  ghost predicate Filling(cfg: Config, w: World, k: nat) {
    && w.snd.drfFlag && w.snd.cwq == [] && w.snd.seqNrToSend == w.n0 + k && w.snd.lastRcvCtlSeq == 0
    && w.snd.sndRtWindEdge == w.n0 + cfg.initialCredit && w.rcv == R.Init(cfg)
    && AllBelow(w.snd.rtxq, w.n0 + k + 1)
    && (if 0 < k then First(w.n0) in w.data else w.snd.rtxq == [])
    && (0 < k && cfg.rtxCtrl ==> w.snd.rtxq != [] && w.snd.rtxq[0] == RtxEntry(First(w.n0), 0, 0))
  }

  lemma OneFills(cfg: Config, w: World, k: nat)
    requires cfg.WindowOnly() && Filling(cfg, w, k) && k < cfg.initialCredit
    ensures var w' := Next(cfg, w, EvWrite([], 0, false)); w'.n0 == w.n0 && Filling(cfg, w', k + 1)
  {
    var pdu := NewPdu(cfg, w.snd, []);
    PushAtTail(w.snd.rtxq, RtxEntry(pdu, 0, 0));
    assert Write(cfg, w.snd, [], 0, false).out == [pdu];
  }

  /** The answer to the first PDU opens the window by one. */
  function Answer(cfg: Config, n0: nat): CtrlPdu {
    CtrlPdu(if cfg.rtxCtrl then AckAndFlowCtl else FlowCtl, 1, n0 + 1, n0 + 1, n0 + 1 + cfg.initialCredit, 0, 0, 0, 0)
  }

  lemma FullAndAnswered(cfg: Config, w: World)
    requires cfg.WindowOnly() && 0 < cfg.initialCredit && Filling(cfg, w, cfg.initialCredit)
    ensures var w' := Next(cfg, w, EvData(First(w.n0), 0)); var c := Answer(cfg, w.n0);
            c in w'.acks && FindsClosed(cfg, w'.snd, [], false) && OpensUpTo(cfg, w'.snd, c, w'.snd.seqNrToSend + 1)
  {
    assert R.Receive(cfg, w.rcv, First(w.n0), 0).ctrl == [Answer(cfg, w.n0)];
  }

  /** The window is filled, the first PDU arrives, and the next write meets the answer. */
  lemma RaceRun(cfg: Config, n0: nat, tr: nat) returns (es: seq<Event>)
    requires cfg.WindowOnly() && 0 < cfg.initialCredit
    ensures RaceOpen(cfg, n0, tr, es, Answer(cfg, n0))
  {
    var w0, e := Start(cfg, n0, tr), EvWrite([], 0, false);
    es := [];
    for k := 0 to cfg.initialCredit
      invariant Runs(cfg, w0, es) && Exec(cfg, w0, es).n0 == n0 && Filling(cfg, Exec(cfg, w0, es), k)
    {
      OneFills(cfg, Exec(cfg, w0, es), k);
      Onward(cfg, w0, es, e);
      es := es + [e];
    }
    FullAndAnswered(cfg, Exec(cfg, w0, es));
    Onward(cfg, w0, es, EvData(First(n0), 0));
    es := es + [EvData(First(n0), 0)];
  }

  /** The race can happen on every window-only flow that can send at all. */
  lemma RaceExactly(cfg: Config, n0: nat, tr: nat)
    requires cfg.WindowOnly()
    ensures (exists es, c :: RaceOpen(cfg, n0, tr, es, c)) <==> cfg.initialCredit > 0
  {
    if cfg.initialCredit > 0 {
      var es := RaceRun(cfg, n0, tr);
    } else {
      forall es, c | RaceOpen(cfg, n0, tr, es, c) ensures false {
        SilentRun(cfg, n0, tr, es);
      }
    }
  }
}
