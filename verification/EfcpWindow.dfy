/**
 Sender window discipline and the absence of lost wake-ups, for window-only flow control: what the
 closed-window queue holds at every moment, when a number is transmitted for the first time, and why
 neither a stopped writer nor an inactivity reset can be left with data behind.
 */
module EfcpWindow {
  import opened EfcpTypes
  import opened RateControl
  import opened RtxQueue
  import opened DtpSender
  import opened EfcpWorld

  ghost predicate Consecutive(pdus: seq<DataPdu>, from: nat) {
    forall i :: 0 <= i < |pdus| ==> pdus[i].sn == from + 1 + i
  }

  function Stamped(pdus: seq<DataPdu>, now: nat): (es: seq<RtxEntry>)
    ensures |es| == |pdus| && forall i :: 0 <= i < |pdus| ==> es[i] == RtxEntry(pdus[i], now, 0)
  {
    seq(|pdus|, i requires 0 <= i < |pdus| => RtxEntry(pdus[i], now, 0))
  }

  /** How many queued PDUs the window has room for. */
  function Batch(s: Snd): (k: nat)
    ensures k <= |s.cwq|
  {
    Min(|s.cwq|, if s.sndRtWindEdge > s.maxSeqNrSent then s.sndRtWindEdge - s.maxSeqNrSent else 0)
  }

  /** What sending the first `k` queued PDUs at once does to everything but the window and rate flags. */
  ghost predicate BatchSent(cfg: Config, s: Snd, d: Step, k: nat, now: nat)
    requires k <= |s.cwq|
  {
    && d.out == s.cwq[..k] && d.s.cwq == s.cwq[k..]
    && d.s.maxSeqNrSent == s.maxSeqNrSent + k
    && d.s.rtxq == (if cfg.rtxCtrl then s.rtxq + Stamped(s.cwq[..k], now) else s.rtxq)
    && d.s.portDisabled == (s.portDisabled && k < |s.cwq|) && (d.s.windowClosed <==> k < |s.cwq|)
    && d.s.seqNrToSend == s.seqNrToSend && d.s.sndRtWindEdge == s.sndRtWindEdge
    && d.s.inactivityArmed == s.inactivityArmed && d.s.rtxDrops == s.rtxDrops
    && d.s.lastRcvCtlSeq == s.lastRcvCtlSeq && d.s.nextSndCtlSeq == s.nextSndCtlSeq
  }

  lemma OneSent(cfg: Config, s: Snd, now: nat, ticks: seq<bool>)
    requires cfg.WindowOnly() && s.cwq != []
    requires Consecutive(s.cwq, s.maxSeqNrSent) && AllBelow(s.rtxq, s.maxSeqNrSent + 1)
    ensures var s' := Delivered1(cfg, s, now, ticks);
            && s'.cwq == s.cwq[1..] && s'.maxSeqNrSent == s.maxSeqNrSent + 1
            && s'.rtxq == (if cfg.rtxCtrl then s.rtxq + [RtxEntry(s.cwq[0], now, 0)] else s.rtxq)
            && AllBelow(s'.rtxq, s'.maxSeqNrSent + 1) && Consecutive(s'.cwq, s'.maxSeqNrSent)
            && s'.portDisabled == s.portDisabled && s'.seqNrToSend == s.seqNrToSend
            && s'.sndRtWindEdge == s.sndRtWindEdge && s'.inactivityArmed == s.inactivityArmed
            && s'.rtxDrops == s.rtxDrops && s'.lastRcvCtlSeq == s.lastRcvCtlSeq && s'.nextSndCtlSeq == s.nextSndCtlSeq
  {
    PushAtTail(s.rtxq, RtxEntry(s.cwq[0], now, 0));
  }

  lemma StampedMore(q: seq<RtxEntry>, pdus: seq<DataPdu>, n: nat, now: nat)
    requires 0 < n <= |pdus|
    ensures q + [RtxEntry(pdus[0], now, 0)] + Stamped(pdus[1..][..n - 1], now) == q + Stamped(pdus[..n], now)
  {
    assert [RtxEntry(pdus[0], now, 0)] + Stamped(pdus[1..][..n - 1], now) == Stamped(pdus[..n], now);
    assert q + [RtxEntry(pdus[0], now, 0)] + Stamped(pdus[1..][..n - 1], now)
        == q + ([RtxEntry(pdus[0], now, 0)] + Stamped(pdus[1..][..n - 1], now));
  }

  lemma BatchMore(cfg: Config, s: Snd, s': Snd, rest: Step, k: nat, now: nat)
    requires s.cwq != [] && k < |s.cwq|
    requires s'.cwq == s.cwq[1..] && s'.maxSeqNrSent == s.maxSeqNrSent + 1
    requires s'.rtxq == (if cfg.rtxCtrl then s.rtxq + [RtxEntry(s.cwq[0], now, 0)] else s.rtxq)
    requires s'.portDisabled == s.portDisabled && s'.seqNrToSend == s.seqNrToSend
    requires s'.sndRtWindEdge == s.sndRtWindEdge && s'.inactivityArmed == s.inactivityArmed
    requires s'.rtxDrops == s.rtxDrops && s'.lastRcvCtlSeq == s.lastRcvCtlSeq && s'.nextSndCtlSeq == s.nextSndCtlSeq
    requires BatchSent(cfg, s', rest, k, now)
    ensures BatchSent(cfg, s, Step(rest.s, [s.cwq[0]] + rest.out), k + 1, now)
  {
    assert [s.cwq[0]] + s.cwq[1..][..k] == s.cwq[..k + 1];
    assert s.cwq[1..][k..] == s.cwq[k + 1..];
    StampedMore(s.rtxq, s.cwq, k + 1, now);
  }

  lemma NothingSent(cfg: Config, s: Snd, now: nat, ticks: seq<bool>)
    requires cfg.WindowOnly() && !Continues(cfg, s, now, ticks)
    ensures Batch(s) == 0 && BatchSent(cfg, s, Step(Settle(cfg, Stopped(cfg, s, now, ticks)), []), 0, now)
  {
    assert s.rtxq + Stamped(s.cwq[..0], now) == s.rtxq;
  }

  /** With window-only flow control the delivery loop sends, at once, as much as the window has room for. */
  lemma {:induction false} DeliverIsBatch(cfg: Config, s: Snd, now: nat, ticks: seq<bool>)
    requires cfg.WindowOnly()
    requires Consecutive(s.cwq, s.maxSeqNrSent) && AllBelow(s.rtxq, s.maxSeqNrSent + 1)
    ensures BatchSent(cfg, s, Deliver(cfg, s, now, ticks), Batch(s), now)
    decreases |s.cwq|
  {
    if Continues(cfg, s, now, ticks) {
      var s' := Delivered1(cfg, s, now, ticks);
      OneSent(cfg, s, now, ticks);
      DeliverIsBatch(cfg, s', now, Later(ticks));
      BatchMore(cfg, s, s', Deliver(cfg, s', now, Later(ticks)), Batch(s'), now);
    } else {
      NothingSent(cfg, s, now, ticks);
    }
  }

  // ---------------------------------------------------------------- the invariant

  ghost predicate WellTransmitted(n0: nat, first: seq<Sent>) {
    forall i :: 0 <= i < |first| ==> first[i].pdu.sn == n0 + 1 + i <= first[i].edge
  }

  ghost predicate Discipline(cfg: Config, n0: nat, s: Snd, first: seq<Sent>) {
    && n0 <= s.maxSeqNrSent <= s.seqNrToSend
    && |s.cwq| == s.seqNrToSend - s.maxSeqNrSent && Consecutive(s.cwq, s.maxSeqNrSent)
    && (s.cwq != [] ==> s.maxSeqNrSent >= s.sndRtWindEdge)
    && |first| == s.maxSeqNrSent - n0 && WellTransmitted(n0, first)
    && Sorted(s.rtxq) && AllBelow(s.rtxq, s.maxSeqNrSent + 1)
    && (forall i :: 0 <= i < |s.rtxq| ==> n0 < s.rtxq[i].pdu.sn)
    && (!cfg.rtxCtrl ==> s.rtxq == [])
    && (s.portDisabled <==> s.cwq != []) && (s.windowClosed <==> s.cwq != [])
    && (s.inactivityArmed ==> s.cwq == [])
  }

  lemma BatchKeepsDiscipline(cfg: Config, n0: nat, s: Snd, d: Step, now: nat, first: seq<Sent>)
    requires cfg.WindowOnly() && BatchSent(cfg, s, d, Batch(s), now)
    requires Discipline(cfg, n0, s.(sndRtWindEdge := s.maxSeqNrSent), first)
    ensures Discipline(cfg, n0, d.s, first + AsSent(d.out, d.s.sndRtWindEdge))
  {
  }

  lemma ParkKeepsDiscipline(cfg: Config, n0: nat, s: Snd, data: seq<Octet>, tick: bool, first: seq<Sent>)
    requires cfg.WindowOnly() && Discipline(cfg, n0, s, first)
    ensures var pdu := NewPdu(cfg, s, data); var s1 := Checked(cfg, Numbered(s), pdu.sn, tick);
            WindowIsClosed(cfg, s1, pdu.sn) ==> Discipline(cfg, n0, Park(cfg, s1, pdu), first)
  {
  }

  lemma TransmitKeepsDiscipline(cfg: Config, n0: nat, s: Snd, data: seq<Octet>, now: nat, tick: bool, first: seq<Sent>)
    requires cfg.WindowOnly() && Discipline(cfg, n0, s, first)
    ensures var pdu := NewPdu(cfg, s, data); var s1 := Checked(cfg, Numbered(s), pdu.sn, tick);
            var d := Transmit(cfg, s1, pdu, now);
            !WindowIsClosed(cfg, s1, pdu.sn) ==> Discipline(cfg, n0, d.s, first + AsSent(d.out, d.s.sndRtWindEdge))
  {
    PushAtTail(s.rtxq, RtxEntry(NewPdu(cfg, s, data), now, 0));
  }

  lemma NoSends(first: seq<Sent>, edge: nat)
    ensures first + AsSent([], edge) == first
  {
  }

  lemma WriteKeepsDiscipline(cfg: Config, n0: nat, s: Snd, data: seq<Octet>, now: nat, tick: bool, first: seq<Sent>)
    requires cfg.WindowOnly() && Discipline(cfg, n0, s, first)
    ensures var d := Write(cfg, s, data, now, tick);
            Discipline(cfg, n0, d.s, first + AsSent(d.out, d.s.sndRtWindEdge))
  {
    ParkKeepsDiscipline(cfg, n0, s, data, tick, first);
    TransmitKeepsDiscipline(cfg, n0, s, data, now, tick, first);
    NoSends(first, Write(cfg, s, data, now, tick).s.sndRtWindEdge);
  }

  /** Losing a prefix of the retransmission queue. */
  lemma SuffixKeepsDiscipline(cfg: Config, n0: nat, s: Snd, s': Snd, k: nat, first: seq<Sent>)
    requires Discipline(cfg, n0, s, first) && k <= |s.rtxq|
    requires s' == s.(rtxq := s.rtxq[k..], sndLftWin := s'.sndLftWin, rtt := s'.rtt)
    ensures Discipline(cfg, n0, s', first)
  {
  }

  lemma AckKeepsDiscipline(cfg: Config, n0: nat, s: Snd, c: CtrlPdu, now: nat, first: seq<Sent>)
    requires Discipline(cfg, n0, s, first)
    ensures Discipline(cfg, n0, Acknowledged(cfg, s, c, now), first)
  {
    var k := AcknowledgedShape(cfg, s, c, now);
    SuffixKeepsDiscipline(cfg, n0, s, Acknowledged(cfg, s, c, now), k, first);
  }

  lemma OpenedKeepsDiscipline(cfg: Config, n0: nat, s: Snd, c: CtrlPdu, now: nat, ticks: seq<bool>, first: seq<Sent>)
    requires cfg.WindowOnly() && Discipline(cfg, n0, s, first)
    ensures var d := Deliver(cfg, Opened(cfg, s, c), now, ticks);
            Discipline(cfg, n0, d.s, first + AsSent(d.out, d.s.sndRtWindEdge))
  {
    var s' := Opened(cfg, s, c);
    DeliverIsBatch(cfg, s', now, ticks);
    BatchKeepsDiscipline(cfg, n0, s', Deliver(cfg, s', now, ticks), now, first);
  }

  lemma ControlKeepsDiscipline(cfg: Config, n0: nat, s: Snd, c: CtrlPdu, now: nat, ticks: seq<bool>, first: seq<Sent>)
    requires cfg.WindowOnly() && Discipline(cfg, n0, s, first)
    ensures var d := ReceiveControl(cfg, s, c, now, ticks);
            Discipline(cfg, n0, d.s, first + AsSent(d.out, d.s.sndRtWindEdge))
  {
    var s1 := s.(lastRcvCtlSeq := c.csn);
    var s2 := Acknowledged(cfg, s1, c, now);
    AckKeepsDiscipline(cfg, n0, s1, c, now, first);
    NoSends(first, s.sndRtWindEdge);
    NoSends(first, s2.sndRtWindEdge);
    OpenedKeepsDiscipline(cfg, n0, s2, c, now, ticks, first);
  }

  lemma RtxKeepsDiscipline(cfg: Config, n0: nat, s: Snd, now: nat, ticks: seq<bool>, first: seq<Sent>)
    requires Discipline(cfg, n0, s, first)
    ensures Discipline(cfg, n0, RtxTimer(cfg, s, now, ticks).s, first)
  {
    var p := Retransmit(cfg, s.rtxq, s.rtt.tr, now, s.rate, ticks);
    RetransmitConserves(cfg, s.rtxq, s.rtt.tr, now, s.rate, ticks);
    forall i | 0 <= i < |p.queue| ensures n0 < p.queue[i].pdu.sn < s.maxSeqNrSent + 1 {
      assert HasPdu(p.queue, p.queue[i].pdu);
    }
    if s.rtxq == [] {
      assert p.queue == [];
    }
  }

  lemma DisciplineStep(cfg: Config, w: World, e: Event)
    requires cfg.WindowOnly() && Enabled(cfg, w, e)
    requires Discipline(cfg, w.n0, w.snd, w.first)
    ensures var w' := Next(cfg, w, e); Discipline(cfg, w'.n0, w'.snd, w'.first)
  {
    match e
    case EvWrite(data, now, tick) => WriteKeepsDiscipline(cfg, w.n0, w.snd, data, now, tick, w.first);
    case EvCtrl(c, now, ticks) => ControlKeepsDiscipline(cfg, w.n0, w.snd, c, now, ticks, w.first);
    case EvRtx(now, ticks) => RtxKeepsDiscipline(cfg, w.n0, w.snd, now, ticks, w.first);
    case _ =>
  }

  /**
   In every state of every run the closed-window queue holds exactly the numbers after the last one
   sent, a non-empty queue means the window is used up, and first transmissions happened once each, in
   order, without gaps and inside the window of their moment. The writer is stopped exactly while the
   queue is not empty.
   */
  lemma {:induction false} SenderDiscipline(cfg: Config, n0: nat, tr: nat, es: seq<Event>)
    requires cfg.WindowOnly() && Runs(cfg, Start(cfg, n0, tr), es)
    ensures var w := Exec(cfg, Start(cfg, n0, tr), es);
            w.n0 == n0 && Discipline(cfg, n0, w.snd, w.first)
  {
    if es != [] {
      SenderDiscipline(cfg, n0, tr, es[..|es| - 1]);
      DisciplineStep(cfg, Exec(cfg, Start(cfg, n0, tr), es[..|es| - 1]), es[|es| - 1]);
    }
  }

  /** A stopped writer has the next number queued, outside the window; an armed timer finds nothing queued and the writer running. */
  ghost predicate Awake(s: Snd) {
    && (s.portDisabled ==> s.cwq != [] && s.cwq[0].sn == s.maxSeqNrSent + 1 > s.sndRtWindEdge)
    && (s.inactivityArmed ==> s.cwq == [] && !s.portDisabled)
  }

  /**
   No lost wake-up: a stopped writer has data in the closed-window queue, which the next opening of the
   window delivers; and when the sender-inactivity timer may expire that queue is empty, so the reset
   discards nothing from it and finds the writer running.
   */
  lemma NoLostWakeUp(cfg: Config, n0: nat, tr: nat, es: seq<Event>)
    requires cfg.WindowOnly() && Runs(cfg, Start(cfg, n0, tr), es)
    ensures Awake(Exec(cfg, Start(cfg, n0, tr), es).snd)
  {
    SenderDiscipline(cfg, n0, tr, es);
  }

  /** Opening the window far enough empties the queue and lets the writer go on, from any reachable state. */
  lemma OpeningWakes(cfg: Config, n0: nat, tr: nat, es: seq<Event>, c: CtrlPdu, now: nat, ticks: seq<bool>)
    requires cfg.WindowOnly() && Runs(cfg, Start(cfg, n0, tr), es)
    ensures var s := Exec(cfg, Start(cfg, n0, tr), es).snd;
            var d := Deliver(cfg, Opened(cfg, s, c), now, ticks);
            && (c.newRwe >= s.seqNrToSend ==> d.s.cwq == [] && !d.s.portDisabled && d.out == s.cwq)
            && (s.portDisabled && c.newRwe < s.seqNrToSend ==> d.s.portDisabled)
  {
    SenderDiscipline(cfg, n0, tr, es);
    var s := Exec(cfg, Start(cfg, n0, tr), es).snd;
    DeliverIsBatch(cfg, Opened(cfg, s, c), now, ticks);
  }

  // ---------------------------------------------------------------- after a sender-inactivity reset

  /**
   An expiry of the sender-inactivity timer, which finds nothing parked, throws away what is kept and starts a new run of
   data after `newSn`: but for the highest number sent, which it leaves as it was, the state is in order for that run.
   */
  lemma ResetExactly(cfg: Config, n0: nat, tr: nat, es: seq<Event>, newSn: nat)
    requires cfg.WindowOnly() && Runs(cfg, Start(cfg, n0, tr), es) && Exec(cfg, Start(cfg, n0, tr), es).snd.inactivityArmed
    ensures var s := Exec(cfg, Start(cfg, n0, tr), es).snd; var s' := SenderInactivity(cfg, s, newSn);
            && Discipline(cfg, newSn, s'.(maxSeqNrSent := newSn), []) && s'.maxSeqNrSent == s.maxSeqNrSent
            && s'.seqNrToSend == newSn && s'.sndRtWindEdge == newSn + cfg.initialCredit && s'.cwq == s.cwq == []
            && s'.drfFlag && !s'.rendezvousSndr && !s'.inactivityArmed && !s'.windowClosed && !s'.portDisabled && s'.rtxq == []
            && s'.sndLftWin == s.sndLftWin && s'.lastRcvCtlSeq == s.lastRcvCtlSeq && s'.nextSndCtlSeq == s.nextSndCtlSeq
            && s'.rtt == s.rtt && s'.rate == s.rate && s'.rtxDrops == s.rtxDrops
  {
    SenderDiscipline(cfg, n0, tr, es);
  }

  /** With a credit the first write of the new run is transmitted, and from then on the discipline holds as before. */
  lemma ResetThenWrite(cfg: Config, n0: nat, tr: nat, es: seq<Event>, newSn: nat, data: seq<Octet>, now: nat, tick: bool)
    requires cfg.WindowOnly() && cfg.initialCredit > 0
    requires Runs(cfg, Start(cfg, n0, tr), es) && Exec(cfg, Start(cfg, n0, tr), es).snd.inactivityArmed
    ensures var s' := SenderInactivity(cfg, Exec(cfg, Start(cfg, n0, tr), es).snd, newSn); var d := Write(cfg, s', data, now, tick);
            && d.out == [DataPdu(newSn + 1, true, data)]
            && Discipline(cfg, newSn, d.s, AsSent(d.out, d.s.sndRtWindEdge))
  {
    ResetExactly(cfg, n0, tr, es, newSn);
    var s := SenderInactivity(cfg, Exec(cfg, Start(cfg, n0, tr), es).snd, newSn);
    FirstAfterReset(cfg, newSn, s, data, now, tick);
  }

  lemma FirstAfterReset(cfg: Config, newSn: nat, s: Snd, data: seq<Octet>, now: nat, tick: bool)
    requires cfg.WindowOnly() && cfg.initialCredit > 0 && Discipline(cfg, newSn, s.(maxSeqNrSent := newSn), [])
    requires s.seqNrToSend == newSn && s.sndRtWindEdge == newSn + cfg.initialCredit && s.drfFlag && s.cwq == [] && s.rtxq == []
    ensures var d := Write(cfg, s, data, now, tick);
            d.out == [DataPdu(newSn + 1, true, data)] && Discipline(cfg, newSn, d.s, AsSent(d.out, d.s.sndRtWindEdge))
  {
  }
}
