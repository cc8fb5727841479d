/**
 Exactly what a step of the receiver does: which PDUs are refused, posted or kept, how far the left window edge moves,
 and what is answered; each said without going through the loops of the source.
 */
module ReceiverLaws {
  import opened EfcpTypes
  import opened Rtt
  import opened DtpReceiver

  function PdusOf(q: seq<SeqEntry>): (ps: seq<DataPdu>)
    ensures |ps| == |q| && forall i :: 0 <= i < |q| ==> ps[i] == q[i].pdu
  {
    seq(|q|, i requires 0 <= i < |q| => q[i].pdu)
  }

  lemma PdusMore(q: seq<SeqEntry>, k: nat)
    requires 0 < k <= |q|
    ensures PdusOf(q[..k]) == [q[0].pdu] + PdusOf(q[1..][..k - 1])
  {
  }

  // ---------------------------------------------------------------- the resequencing queue

  /** `k` is the length of the longest prefix that continues the numbers after `lwe` without a gap. */
  ghost predicate FollowUpTo(q: seq<SeqEntry>, lwe: nat, k: nat) {
    k <= |q| && (forall i :: 0 <= i < k ==> q[i].pdu.sn == lwe + 1 + i) && (k < |q| ==> q[k].pdu.sn != lwe + 1 + k)
  }

  /** Draining posts that prefix and no more. */
  lemma {:induction false} DrainExactly(lwe: nat, q: seq<SeqEntry>, k: nat)
    requires FollowUpTo(q, lwe, k)
    ensures Drain(lwe, q) == Moved(lwe + k, q[k..], PdusOf(q[..k]))
    decreases |q|
  {
    if k == 0 {
      assert q[0..] == q && PdusOf(q[..0]) == [];
    } else {
      assert FollowUpTo(q[1..], lwe + 1, k - 1) by {
        assert forall i :: 0 <= i < k - 1 ==> q[1..][i] == q[i + 1];
      }
      DrainExactly(lwe + 1, q[1..], k - 1);
      PdusMore(q, k);
      assert q[1..][k - 1..] == q[k..];
    }
  }

  predicate Expired(cfg: Config, e: SeqEntry, now: nat) { e.timeStamp + cfg.a <= now }

  /** What an expiry posts of these entries; with retransmission those whose time is over are thrown away. */
  function Posts(cfg: Config, q: seq<SeqEntry>, now: nat): seq<DataPdu> {
    if q == [] then []
    else (if cfg.rtxCtrl && Expired(cfg, q[0], now) then [] else [q[0].pdu]) + Posts(cfg, q[1..], now)
  }

  /** The left edge when these entries have been posted. */
  function EdgeAfter(lwe: nat, posted: seq<DataPdu>): nat { if posted == [] then lwe else posted[|posted| - 1].sn }

  /** The entry is taken out when the edge is at `lwe`: its time is over, or it is within the gap. */
  predicate TakenOut(cfg: Config, lwe: nat, e: SeqEntry, now: nat) { Expired(cfg, e, now) || InGap(e.pdu.sn, lwe, cfg.maxSduGap) }

  /** `k` is the length of the longest prefix of which every entry is taken out when its turn comes. */
  ghost predicate ExpireUpTo(cfg: Config, lwe: nat, q: seq<SeqEntry>, now: nat, k: nat) {
    && k <= |q|
    && (forall i :: 0 <= i < k ==> TakenOut(cfg, EdgeAfter(lwe, Posts(cfg, q[..i], now)), q[i], now))
    && (k < |q| ==> !TakenOut(cfg, EdgeAfter(lwe, Posts(cfg, q[..k], now)), q[k], now))
  }

  lemma EdgeMore(lwe: nat, p: DataPdu, rest: seq<DataPdu>)
    ensures EdgeAfter(lwe, [p] + rest) == EdgeAfter(p.sn, rest)
  {
  }

  lemma PostsMore(cfg: Config, q: seq<SeqEntry>, now: nat, k: nat)
    requires 0 < k <= |q|
    ensures Posts(cfg, q[..k], now)
         == (if cfg.rtxCtrl && Expired(cfg, q[0], now) then [] else [q[0].pdu]) + Posts(cfg, q[1..][..k - 1], now)
  {
    assert q[..k][1..] == q[1..][..k - 1];
  }

  /** An A-timer expiry takes out that prefix: it posts of it what has to be posted, and leaves the rest alone. */
  lemma {:induction false} ExpireExactly(cfg: Config, lwe: nat, q: seq<SeqEntry>, now: nat, k: nat)
    requires ExpireUpTo(cfg, lwe, q, now, k)
    ensures var posted := Posts(cfg, q[..k], now); Expire(cfg, lwe, q, now) == Moved(EdgeAfter(lwe, posted), q[k..], posted)
    decreases |q|
  {
    if k == 0 {
      assert q[..0] == [] && q[0..] == q;
    } else {
      var thrown := cfg.rtxCtrl && Expired(cfg, q[0], now);
      var lwe' := if thrown then lwe else q[0].pdu.sn;
      assert TakenOut(cfg, lwe, q[0], now) by { assert q[..0] == []; }
      ExpireRest(cfg, lwe, q, now, k);
      ExpireExactly(cfg, lwe', q[1..], now, k - 1);
      PostsMore(cfg, q, now, k);
      assert q[1..][k - 1..] == q[k..];
      if !thrown {
        EdgeMore(lwe, q[0].pdu, Posts(cfg, q[1..][..k - 1], now));
      }
    }
  }

  lemma ExpireRest(cfg: Config, lwe: nat, q: seq<SeqEntry>, now: nat, k: nat)
    requires ExpireUpTo(cfg, lwe, q, now, k) && k > 0
    ensures ExpireUpTo(cfg, if cfg.rtxCtrl && Expired(cfg, q[0], now) then lwe else q[0].pdu.sn, q[1..], now, k - 1)
  {
    var lwe' := if cfg.rtxCtrl && Expired(cfg, q[0], now) then lwe else q[0].pdu.sn;
    forall i | 0 <= i < |q[1..]|
      ensures EdgeAfter(lwe', Posts(cfg, q[1..][..i], now)) == EdgeAfter(lwe, Posts(cfg, q[..i + 1], now)) && q[1..][i] == q[i + 1]
    {
      PostsMore(cfg, q, now, i + 1);
      EdgeMore(lwe, q[0].pdu, Posts(cfg, q[1..][..i], now));
    }
  }

  /** There is always such a prefix. */
  lemma {:induction false} SomePrefix(cfg: Config, lwe: nat, q: seq<SeqEntry>, now: nat, from: nat) returns (k: nat)
    requires from <= |q|
    requires forall i :: 0 <= i < from ==> TakenOut(cfg, EdgeAfter(lwe, Posts(cfg, q[..i], now)), q[i], now)
    ensures ExpireUpTo(cfg, lwe, q, now, k)
    decreases |q| - from
  {
    if from < |q| && TakenOut(cfg, EdgeAfter(lwe, Posts(cfg, q[..from], now)), q[from], now) {
      k := SomePrefix(cfg, lwe, q, now, from + 1);
    } else {
      k := from;
    }
  }

  ghost predicate SortedSeq(q: seq<SeqEntry>) { forall i, j :: 0 <= i < j < |q| ==> q[i].pdu.sn < q[j].pdu.sn }

  /**
   Into a sorted queue a PDU beyond the last one goes behind it, and a repetition of the last one nowhere. Any other goes
   right behind the head, wherever it belongs and even if it is queued already; one that does not exceed the head is lost.
   */
  lemma SeqPushExactly(q: seq<SeqEntry>, e: SeqEntry)
    requires SortedSeq(q)
    ensures SeqPush(q, e) ==
            if q == [] || e.pdu.sn > q[|q| - 1].pdu.sn then q + [e]
            else if e.pdu.sn == q[|q| - 1].pdu.sn || e.pdu.sn <= q[0].pdu.sn then q
            else [q[0]] + [e] + q[1..]
  {
    if q != [] && e.pdu.sn < q[|q| - 1].pdu.sn {
      if e.pdu.sn <= q[0].pdu.sn {
        InsertBelow(q, e, 0);
      } else {
        assert q[..1] == [q[0]];
      }
    }
  }

  /** In general it goes right behind the first entry that does not exceed it, and nowhere if that one has its number. */
  lemma {:induction false} InsertExactly(q: seq<SeqEntry>, e: SeqEntry, i: nat, f: nat)
    requires i <= f <= |q| && (forall j :: i <= j < f ==> q[j].pdu.sn > e.pdu.sn) && (f < |q| ==> q[f].pdu.sn <= e.pdu.sn)
    ensures InsertFrom(q, e, i) == if f == |q| || q[f].pdu.sn == e.pdu.sn then q else q[..f + 1] + [e] + q[f + 1..]
    decreases f - i
  {
    if i < f {
      InsertExactly(q, e, i + 1, f);
    }
  }

  lemma {:induction false} InsertBelow(q: seq<SeqEntry>, e: SeqEntry, i: nat)
    requires i <= |q| && forall j :: i <= j < |q| ==> q[j].pdu.sn >= e.pdu.sn
    ensures InsertFrom(q, e, i) == q
    decreases |q| - i
  {
    if i < |q| && q[i].pdu.sn != e.pdu.sn {
      InsertBelow(q, e, i + 1);
    }
  }

  // ---------------------------------------------------------------- answers

  /** Something has to be answered when the left edge is at `lwe`. */
  predicate MustAnswer(cfg: Config, r: Rcv, lwe: nat) { if cfg.rtxCtrl then r.lastSndDataAck < lwe else cfg.flowCtrl }

  /** The answer: its number is the next one, it acknowledges the left edge and carries the edges and the rate there are. */
  ghost predicate IsAnswer(cfg: Config, csn: nat, lwe: nat, edge: nat, c: CtrlPdu) {
    && c.kind == (if !cfg.rtxCtrl then FlowCtl else if cfg.flowCtrl then AckAndFlowCtl else Ack)
    && c.csn == csn && c.ackSn == lwe
    && Carries(cfg, lwe, edge, c)
  }

  /** The edges and the rate are carried if the flow has them, and zeros otherwise. */
  ghost predicate Carries(cfg: Config, lwe: nat, edge: nat, c: CtrlPdu) {
    && (if cfg.flowCtrl && cfg.windowBased then c.newLwe == lwe && c.newRwe == edge else c.newLwe == c.newRwe == 0)
    && (if cfg.flowCtrl && cfg.rateBased then c.sndrRate == cfg.sendingRate && c.timeFrame == cfg.timePeriod
        else c.sndrRate == c.timeFrame == 0)
    && c.myLwe == c.myRwe == 0
  }

  /** The right edge follows the left one, and an answer is sent if there is one to be sent, and remembered. */
  ghost predicate Answers(cfg: Config, r: Rcv, d: RcvStep) {
    && (cfg.flowCtrl && cfg.windowBased ==> d.r.rcvrRtWindEdge == d.r.lwe + cfg.initialCredit)
    && (!(cfg.flowCtrl && cfg.windowBased) ==> d.r.rcvrRtWindEdge == r.rcvrRtWindEdge)
    && d.r.nextSndCtlSeq == r.nextSndCtlSeq + |d.ctrl|
    && d.r.lastSndDataAck == (if cfg.rtxCtrl then Max(r.lastSndDataAck, d.r.lwe) else r.lastSndDataAck)
    && (if MustAnswer(cfg, r, d.r.lwe)
        then |d.ctrl| == 1 && IsAnswer(cfg, r.nextSndCtlSeq + 1, d.r.lwe, d.r.rcvrRtWindEdge, d.ctrl[0])
        else d.ctrl == [])
  }

  lemma UpdateAnswers(cfg: Config, r: Rcv)
    ensures var d := SvUpdate(cfg, r);
            && Answers(cfg, r, d) && d.posted == []
            && d.r == r.(rcvrRtWindEdge := d.r.rcvrRtWindEdge, lastSndDataAck := d.r.lastSndDataAck, nextSndCtlSeq := d.r.nextSndCtlSeq)
  {
  }

  /** Nothing else changed. */
  ghost predicate OnlyMoved(r: Rcv, r': Rcv) {
    && r'.lastRcvCtlSeq == r.lastRcvCtlSeq && r'.dropPdus == r.dropPdus
  }

  // ---------------------------------------------------------------- a data PDU

  /** The PDU is dropped: no run has started and it does not start one, it is a duplicate, or it overruns the window. */
  predicate Refuses(cfg: Config, r: Rcv, pdu: DataPdu) {
    if r.drfRequired then !pdu.drf else pdu.sn <= r.lwe || (cfg.windowBased && pdu.sn > r.rcvrRtWindEdge)
  }

  /** The bytes of a PDU in the middle of a run are counted, unless it is a duplicate. */
  predicate IsCounted(cfg: Config, r: Rcv, pdu: DataPdu) { cfg.rateBased && !r.drfRequired && pdu.sn > r.lwe }

  lemma AcceptKeepsCounters(cfg: Config, r: Rcv, pdu: DataPdu, now: nat)
    ensures var d := Accept(cfg, r, pdu, now); OnlyMoved(r, d.r) && d.r.rcvdInTimeUnit == r.rcvdInTimeUnit
  {
    var r1 := r.(rendezvousRcvr := false);
    if cfg.a == 0 {
      UpdateAnswers(cfg, if TakenAtOnce(cfg, r1, pdu.sn) then r1.(lwe := pdu.sn) else r1);
    } else {
      var next := pdu.sn == r1.lwe + 1;
      var m := Drain(if next then pdu.sn else r1.lwe, if next then r1.seqq else SeqPush(r1.seqq, SeqEntry(pdu, now)));
      UpdateAnswers(cfg, r1.(lwe := m.lwe, seqq := m.left));
    }
  }

  /** A refused PDU is counted as dropped and leaves no other trace; any other is not counted so. */
  lemma RefusedExactly(cfg: Config, r: Rcv, pdu: DataPdu, now: nat)
    ensures var d := Receive(cfg, r, pdu, now);
            && d.r.dropPdus == r.dropPdus + (if Refuses(cfg, r, pdu) then 1 else 0)
            && d.r.rcvdInTimeUnit == r.rcvdInTimeUnit + (if IsCounted(cfg, r, pdu) then |pdu.data| else 0)
            && (Refuses(cfg, r, pdu) ==>
                  d.posted == [] && d.ctrl == [] && d.r == r.(dropPdus := d.r.dropPdus, rcvdInTimeUnit := d.r.rcvdInTimeUnit))
  {
    if !Refuses(cfg, r, pdu) {
      if r.drfRequired {
        UpdateAnswers(cfg, r.(drfRequired := false, lwe := pdu.sn, seqq := []));
      } else {
        AcceptKeepsCounters(cfg, Counted(cfg, r, pdu), pdu, now);
      }
    }
  }

  /** The first PDU of a run of data is posted, and the left edge starts from it; what was queued is thrown away. */
  lemma StartExactly(cfg: Config, r: Rcv, pdu: DataPdu, now: nat)
    requires r.drfRequired && pdu.drf
    ensures var d := Receive(cfg, r, pdu, now);
            && d.posted == [pdu] && d.r.lwe == pdu.sn && d.r.seqq == [] && !d.r.drfRequired && Answers(cfg, r, d)
            && d.r.rendezvousRcvr == r.rendezvousRcvr && OnlyMoved(r, d.r)
  {
    UpdateAnswers(cfg, r.(drfRequired := false, lwe := pdu.sn, seqq := []));
  }

  /**
   Without an A-timer an accepted PDU is posted at once and the left edge moves to it, unless the flow retransmits and the
   numbers missing before it are more than the gap allows, reckoned in 32 bits; nothing is ever queued.
   */
  lemma AtOnceExactly(cfg: Config, r: Rcv, pdu: DataPdu, now: nat)
    requires !r.drfRequired && !Refuses(cfg, r, pdu) && cfg.a == 0
    ensures var d := Receive(cfg, r, pdu, now);
            && (d.posted == [pdu] <==> (cfg.rtxCtrl ==> pdu.sn - r.lwe <= U32(cfg.maxSduGap + 1)))
            && (cfg.maxSduGap + 1 < TWO32 ==> (d.posted == [pdu] <==> (cfg.rtxCtrl ==> pdu.sn - r.lwe - 1 <= cfg.maxSduGap)))
            && (d.posted == [pdu] || d.posted == [])
            && d.r.lwe == (if d.posted == [] then r.lwe else pdu.sn) && d.r.seqq == r.seqq
            && !d.r.drfRequired && !d.r.rendezvousRcvr && Answers(cfg, r, d) && OnlyMoved(r, d.r)
  {
    if cfg.maxSduGap + 1 < TWO32 {
      Fits(cfg.maxSduGap + 1);
    }
    UpdateAnswers(cfg, Counted(cfg, r, pdu).(rendezvousRcvr := false, lwe := pdu.sn));
    UpdateAnswers(cfg, Counted(cfg, r, pdu).(rendezvousRcvr := false));
  }

  /**
   With an A-timer the next number is posted together with everything that follows it in the queue; any other is queued,
   and what can then be drained is posted.
   */
  lemma InSequenceExactly(cfg: Config, r: Rcv, pdu: DataPdu, now: nat, k: nat)
    requires !r.drfRequired && !Refuses(cfg, r, pdu) && cfg.a > 0
    requires var next := pdu.sn == r.lwe + 1;
             FollowUpTo(if next then r.seqq else SeqPush(r.seqq, SeqEntry(pdu, now)), if next then pdu.sn else r.lwe, k)
    ensures var d := Receive(cfg, r, pdu, now); var next := pdu.sn == r.lwe + 1;
            var q := if next then r.seqq else SeqPush(r.seqq, SeqEntry(pdu, now));
            && d.posted == (if next then [pdu] else []) + PdusOf(q[..k]) && d.r.seqq == q[k..]
            && d.r.lwe == r.lwe + (if next then 1 else 0) + k
            && !d.r.drfRequired && !d.r.rendezvousRcvr && Answers(cfg, r, d) && OnlyMoved(r, d.r)
  {
    InSequenceStep(cfg, Counted(cfg, r, pdu).(rendezvousRcvr := false), pdu, now, k);
  }

  lemma InSequenceStep(cfg: Config, r: Rcv, pdu: DataPdu, now: nat, k: nat)
    requires var next := pdu.sn == r.lwe + 1;
             FollowUpTo(if next then r.seqq else SeqPush(r.seqq, SeqEntry(pdu, now)), if next then pdu.sn else r.lwe, k)
    ensures var d := ReceiveInSequence(cfg, r, pdu, now); var next := pdu.sn == r.lwe + 1;
            var q := if next then r.seqq else SeqPush(r.seqq, SeqEntry(pdu, now));
            && d.posted == (if next then [pdu] else []) + PdusOf(q[..k]) && d.r.seqq == q[k..]
            && d.r.lwe == r.lwe + (if next then 1 else 0) + k
            && d.r.drfRequired == r.drfRequired && d.r.rendezvousRcvr == r.rendezvousRcvr && Answers(cfg, r, d) && OnlyMoved(r, d.r)
  {
    var next := pdu.sn == r.lwe + 1;
    var q := if next then r.seqq else SeqPush(r.seqq, SeqEntry(pdu, now));
    DrainedExactly(cfg, r, if next then pdu.sn else r.lwe, q, if next then [pdu] else [], k);
  }

  /** The queue drained from edge `edge` on, behind what was posted already. */
  function Drained(cfg: Config, r: Rcv, edge: nat, q: seq<SeqEntry>, head: seq<DataPdu>): RcvStep {
    var m := Drain(edge, q);
    SvUpdate(cfg, r.(lwe := m.lwe, seqq := m.left)).(posted := head + m.posted)
  }

  lemma DrainedExactly(cfg: Config, r: Rcv, edge: nat, q: seq<SeqEntry>, head: seq<DataPdu>, k: nat)
    requires FollowUpTo(q, edge, k)
    ensures var d := Drained(cfg, r, edge, q, head);
            && d.posted == head + PdusOf(q[..k]) && d.r.seqq == q[k..] && d.r.lwe == edge + k
            && d.r.drfRequired == r.drfRequired && d.r.rendezvousRcvr == r.rendezvousRcvr && Answers(cfg, r, d) && OnlyMoved(r, d.r)
  {
    var r' := r.(lwe := edge + k, seqq := q[k..]);
    DrainExactly(edge, q, k);
    UpdateAnswers(cfg, r');
    AnswersMoved(cfg, r, r', SvUpdate(cfg, r'), head + PdusOf(q[..k]));
  }

  lemma AnswersMoved(cfg: Config, r: Rcv, r': Rcv, up: RcvStep, posted: seq<DataPdu>)
    requires r' == r.(lwe := r'.lwe, seqq := r'.seqq) && Answers(cfg, r', up)
    requires up.r == r'.(rcvrRtWindEdge := up.r.rcvrRtWindEdge, lastSndDataAck := up.r.lastSndDataAck, nextSndCtlSeq := up.r.nextSndCtlSeq)
    ensures Answers(cfg, r, up.(posted := posted)) && OnlyMoved(r, up.r) && up.r.lwe == r'.lwe && up.r.seqq == r'.seqq
    ensures up.r.drfRequired == r.drfRequired && up.r.rendezvousRcvr == r.rendezvousRcvr
  {
  }

  /** An expiry of the A-timer answers only if it posts something. */
  lemma ATimerExactly(cfg: Config, r: Rcv, now: nat, k: nat)
    requires ExpireUpTo(cfg, r.lwe, r.seqq, now, k)
    ensures var d := ATimer(cfg, r, now);
            && d.posted == Posts(cfg, r.seqq[..k], now) && d.r.seqq == r.seqq[k..] && d.r.lwe == EdgeAfter(r.lwe, d.posted)
            && (d.posted == [] ==> d.ctrl == [] && d.r == r.(seqq := r.seqq[k..]))
            && (d.posted != [] ==> Answers(cfg, r, d))
            && d.r.drfRequired == r.drfRequired && d.r.rendezvousRcvr == r.rendezvousRcvr && OnlyMoved(r, d.r)
            && d.r.rcvdInTimeUnit == r.rcvdInTimeUnit
  {
    ExpireExactly(cfg, r.lwe, r.seqq, now, k);
    var m := Expire(cfg, r.lwe, r.seqq, now);
    UpdateAnswers(cfg, r.(lwe := m.lwe, seqq := m.left));
  }

  // ---------------------------------------------------------------- rendezvous

  /** A flow-control PDU with the next number, whatever was answered before. */
  ghost predicate Repeats(cfg: Config, r: Rcv, d: RcvStep) {
    && |d.ctrl| == 1 && d.ctrl[0].kind == FlowCtl && d.ctrl[0].csn == r.nextSndCtlSeq + 1 == d.r.nextSndCtlSeq
    && d.ctrl[0].ackSn == r.lwe && Carries(cfg, r.lwe, d.r.rcvrRtWindEdge, d.ctrl[0])
  }

  /**
   A Rendezvous PDU that is newer than all before takes the right edge to a credit above the left edge that it carries,
   and flow control is sent at once, and again with every expiry of the timer until data is accepted.
   */
  lemma RendezvousExactly(cfg: Config, r: Rcv, c: CtrlPdu)
    ensures var d := ReceiveRendezvous(cfg, r, c);
            && d.posted == []
            && (c.csn <= r.lastRcvCtlSeq ==> d.r == r && d.ctrl == [])
            && (c.csn > r.lastRcvCtlSeq ==>
                  && Repeats(cfg, r, d) && d.r.rendezvousRcvr && d.r.lastRcvCtlSeq == c.csn
                  && d.r.rcvrRtWindEdge == (if cfg.windowBased then c.myLwe + cfg.initialCredit else r.rcvrRtWindEdge)
                  && d.r == r.(rendezvousRcvr := true, lastRcvCtlSeq := c.csn, rcvrRtWindEdge := d.r.rcvrRtWindEdge,
                               nextSndCtlSeq := d.r.nextSndCtlSeq))
    ensures var d := RendezvousTimer(cfg, r);
            && d.posted == [] && (!r.rendezvousRcvr ==> d.r == r && d.ctrl == [])
            && (r.rendezvousRcvr ==> Repeats(cfg, r, d) && d.r == r.(nextSndCtlSeq := r.nextSndCtlSeq + 1))
  {
  }
}
