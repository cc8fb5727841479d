/**
 Reliable delivery, for flows with retransmission control: what is posted to the user is in order
 and free of duplicates, with bounded gaps; and what keeps a number that was assigned from being lost.
 */
module EfcpReliable {
  import opened EfcpTypes
  import opened Rtt
  import opened RtxQueue
  import opened DtpSender
  import opened EfcpWorld
  import opened EfcpGenuine
  import opened EfcpWindow
  import R = DtpReceiver

  // ---------------------------------------------------------------- what one step of the receiver posts

  /** Each PDU exceeds the one before it by at least one and at most `gap + 1`. */
  ghost predicate Chain(lwe: nat, posted: seq<DataPdu>, gap: nat)
    decreases |posted|
  {
    posted == [] || (lwe < posted[0].sn <= lwe + gap + 1 && Chain(posted[0].sn, posted[1..], gap))
  }

  function EndOf(lwe: nat, posted: seq<DataPdu>): nat {
    if posted == [] then lwe else posted[|posted| - 1].sn
  }

  lemma {:induction false} ChainConcat(lwe: nat, a: seq<DataPdu>, b: seq<DataPdu>, gap: nat)
    requires Chain(lwe, a, gap) && Chain(EndOf(lwe, a), b, gap)
    ensures Chain(lwe, a + b, gap) && EndOf(lwe, a + b) == EndOf(EndOf(lwe, a), b)
    decreases |a|
  {
    if a == [] {
      assert a + b == b;
    } else {
      ChainConcat(a[0].sn, a[1..], b, gap);
      assert (a + b)[1..] == a[1..] + b;
    }
  }

  lemma {:induction false} ChainGrows(lwe: nat, posted: seq<DataPdu>, gap: nat)
    requires Chain(lwe, posted, gap)
    ensures lwe <= EndOf(lwe, posted)
    decreases |posted|
  {
    if posted != [] {
      ChainGrows(posted[0].sn, posted[1..], gap);
    }
  }

  /** The 32-bit distance test holds of the next numbers, and of numbers so far behind that the distance wraps. */
  lemma InGapExact(sn: nat, lwe: nat, gap: nat)
    requires sn < TWO32 && lwe < TWO32
    ensures R.InGap(sn, lwe, gap) <==> (lwe < sn <= lwe + gap + 1 || (sn <= lwe && sn + TWO32 <= lwe + gap + 1))
  {
    if sn <= lwe {
      assert sn - lwe - 1 == -1 * TWO32 + (sn - lwe - 1 + TWO32);
    }
  }

  /** Without roll-over the test is the gap itself. */
  lemma InGapIsGap(sn: nat, lwe: nat, gap: nat, lo: nat, hi: nat)
    requires lo < sn <= hi && lo < lwe <= hi && hi - lo + gap + 1 < TWO32
    ensures R.InGap(sn, lwe, gap) <==> lwe < sn <= lwe + gap + 1
  {
    if sn <= lwe {
      assert sn - lwe - 1 == -1 * TWO32 + (sn - lwe - 1 + TWO32);
    }
  }

  lemma {:induction false} DrainChain(lwe: nat, q: seq<R.SeqEntry>, gap: nat)
    ensures var m := R.Drain(lwe, q); Chain(lwe, m.posted, gap) && m.lwe == EndOf(lwe, m.posted)
    decreases |q|
  {
    if q != [] && q[0].pdu.sn == lwe + 1 {
      DrainChain(q[0].pdu.sn, q[1..], gap);
    }
  }

  ghost predicate Between(q: seq<R.SeqEntry>, lo: nat, hi: nat) {
    forall i :: 0 <= i < |q| ==> lo < q[i].pdu.sn <= hi
  }

  /** The A-timer posts in order although the resequencing queue need not be sorted. */
  lemma {:induction false} ExpireChain(cfg: Config, lwe: nat, q: seq<R.SeqEntry>, now: nat, lo: nat, hi: nat)
    requires cfg.rtxCtrl && Between(q, lo, hi) && lo < lwe <= hi && hi - lo + cfg.maxSduGap + 1 < TWO32
    ensures var m := R.Expire(cfg, lwe, q, now); Chain(lwe, m.posted, cfg.maxSduGap) && m.lwe == EndOf(lwe, m.posted)
    decreases |q|
  {
    if q != [] {
      InGapIsGap(q[0].pdu.sn, lwe, cfg.maxSduGap, lo, hi);
      ExpireChain(cfg, lwe, q[1..], now, lo, hi);
      ExpireChain(cfg, q[0].pdu.sn, q[1..], now, lo, hi);
    }
  }

  /** A step in the middle of a run: posts a chain from the left edge, and acknowledges no more than the new one. */
  ghost predicate Advances(cfg: Config, r: R.Rcv, d: R.RcvStep) {
    && d.r.drfRequired == r.drfRequired
    && Chain(r.lwe, d.posted, cfg.maxSduGap) && d.r.lwe == EndOf(r.lwe, d.posted)
    && (forall c :: c in d.ctrl ==> c.ackSn == d.r.lwe)
  }

  lemma AtOnceAdvances(cfg: Config, r: R.Rcv, pdu: DataPdu)
    requires cfg.rtxCtrl && cfg.maxSduGap + 1 < TWO32 && pdu.sn > r.lwe
    ensures Advances(cfg, r, R.ReceiveAtOnce(cfg, r, pdu))
  {
    Fits(cfg.maxSduGap + 1);
  }

  lemma UpdateAcks(cfg: Config, r: R.Rcv)
    ensures var d := R.SvUpdate(cfg, r);
            d.r.lwe == r.lwe && d.r.drfRequired == r.drfRequired && forall c :: c in d.ctrl ==> c.ackSn == r.lwe
  {
  }

  lemma InSequenceAdvances(cfg: Config, r: R.Rcv, pdu: DataPdu, now: nat)
    ensures Advances(cfg, r, R.ReceiveInSequence(cfg, r, pdu, now))
  {
    var next := pdu.sn == r.lwe + 1;
    var q := if next then r.seqq else R.SeqPush(r.seqq, R.SeqEntry(pdu, now));
    var direct := if next then [pdu] else [];
    DrainChain(EndOf(r.lwe, direct), q, cfg.maxSduGap);
    assert Chain(r.lwe, direct, cfg.maxSduGap);
    var m := R.Drain(EndOf(r.lwe, direct), q);
    ChainConcat(r.lwe, direct, m.posted, cfg.maxSduGap);
    UpdateAcks(cfg, r.(lwe := m.lwe, seqq := m.left));
  }

  lemma ReceiveAdvances(cfg: Config, r: R.Rcv, pdu: DataPdu, now: nat)
    requires cfg.rtxCtrl && cfg.maxSduGap + 1 < TWO32 && !r.drfRequired
    ensures Advances(cfg, r, R.Receive(cfg, r, pdu, now))
  {
    var r1 := R.Counted(cfg, r, pdu).(rendezvousRcvr := false);
    if pdu.sn > r.lwe {
      AtOnceAdvances(cfg, r1, pdu);
    }
    InSequenceAdvances(cfg, r1, pdu, now);
  }

  lemma ATimerAdvances(cfg: Config, r: R.Rcv, now: nat, lo: nat, hi: nat)
    requires cfg.rtxCtrl && Between(r.seqq, lo, hi) && lo < r.lwe <= hi && hi - lo + cfg.maxSduGap + 1 < TWO32
    ensures Advances(cfg, r, R.ATimer(cfg, r, now))
  {
    ExpireChain(cfg, r.lwe, r.seqq, now, lo, hi);
  }

  // ---------------------------------------------------------------- in order and exactly once

  ghost predicate InOrder(cfg: Config, w: World) {
    && (w.rcv.drfRequired <==> w.posted == [])
    && (w.posted == [] ==> w.rcv.lwe == 0 && w.rcv.seqq == [])
    && (w.posted != [] ==> w.posted[0].sn > 0 && Chain(w.posted[0].sn - 1, w.posted, cfg.maxSduGap) && w.rcv.lwe == EndOf(0, w.posted))
    && (forall c :: c in w.acks ==> c.ackSn <= w.rcv.lwe)
  }

  lemma AdvancesKeepsOrder(cfg: Config, w: World, w': World, d: R.RcvStep)
    requires AllGenuine(w) && InOrder(cfg, w) && w.posted != [] && Advances(cfg, w.rcv, d)
    requires w'.rcv == d.r && w'.posted == w.posted + d.posted && w'.acks == w.acks + Elements(d.ctrl)
    ensures InOrder(cfg, w') && w.rcv.lwe <= w'.rcv.lwe
  {
    assert w.posted[0] in w.posted;
    ChainConcat(w.posted[0].sn - 1, w.posted, d.posted, cfg.maxSduGap);
    ChainGrows(w.rcv.lwe, d.posted, cfg.maxSduGap);
  }

  lemma FirstKeepsOrder(cfg: Config, w: World, e: Event)
    requires AllGenuine(w) && InOrder(cfg, w) && w.posted == [] && e.EvData? && e.pdu in w.data
    ensures InOrder(cfg, Next(cfg, w, e)) && w.rcv.lwe <= Next(cfg, w, e).rcv.lwe
  {
    assert Genuine(w, e.pdu);
    assert Next(cfg, w, e).posted == [e.pdu];
  }

  lemma ReceiverKeepsOrder(cfg: Config, w: World, e: Event)
    requires cfg.rtxCtrl && AllGenuine(w) && NoRollover(cfg, w) && InOrder(cfg, w) && Enabled(cfg, w, e)
    requires w.posted != [] && (e.EvData? || e.EvATimer?)
    ensures InOrder(cfg, Next(cfg, w, e)) && w.rcv.lwe <= Next(cfg, w, e).rcv.lwe
  {
    var w' := Next(cfg, w, e);
    assert w.posted[|w.posted| - 1] in w.posted;
    match e {
      case EvData(pdu, now) =>
        ReceiveAdvances(cfg, w.rcv, pdu, now);
        AdvancesKeepsOrder(cfg, w, w', R.Receive(cfg, w.rcv, pdu, now));
      case EvATimer(now) =>
        ATimerAdvances(cfg, w.rcv, now, w.n0, w.snd.seqNrToSend);
        AdvancesKeepsOrder(cfg, w, w', R.ATimer(cfg, w.rcv, now));
    }
  }

  /** Steps that post nothing: the sender's, an A-timer with nothing queued, and rendezvous. */
  lemma OthersKeepOrder(cfg: Config, w: World, e: Event)
    requires InOrder(cfg, w) && !e.EvData? && !(e.EvATimer? && w.posted != [])
    ensures InOrder(cfg, Next(cfg, w, e)) && w.rcv.lwe == Next(cfg, w, e).rcv.lwe
  {
    if e.EvATimer? || e.EvRendezvous? || e.EvRendezvousTimer? {
      assert w.posted + [] == w.posted;
    }
  }

  lemma OrderStep(cfg: Config, w: World, e: Event)
    requires cfg.rtxCtrl && AllGenuine(w) && NoRollover(cfg, w) && InOrder(cfg, w) && Enabled(cfg, w, e)
    ensures InOrder(cfg, Next(cfg, w, e)) && w.rcv.lwe <= Next(cfg, w, e).rcv.lwe
  {
    if e.EvData? && w.posted == [] {
      FirstKeepsOrder(cfg, w, e);
    } else if (e.EvData? || e.EvATimer?) && w.posted != [] {
      ReceiverKeepsOrder(cfg, w, e);
    } else {
      OthersKeepOrder(cfg, w, e);
    }
  }

  lemma NumberingGrows(cfg: Config, w: World, e: Event)
    ensures var w' := Next(cfg, w, e); w'.n0 == w.n0 && w.snd.seqNrToSend <= w'.snd.seqNrToSend
  {
    match e
    case EvCtrl(c, now, ticks) => ControlHolds(cfg, w.snd, c, now, ticks);
    case EvRate(now, ticks) =>
      DeliverHolds(cfg, w.snd.(rate := RateControl.Elapse(w.snd.rate, true).(fulfilled := false), portDisabled := false), now, ticks);
    case _ =>
  }

  /**
   Exactly-once, in-order delivery: over every run, for any A-timer setting and any mix of arrivals and
   timer expiries, the posted PDUs are genuine, each exceeds the one before it by between 1 and
   maxSduGap + 1, and the left window edge is the last posted number.
   */
  lemma {:induction false} ExactlyOnceInOrder(cfg: Config, n0: nat, tr: nat, es: seq<Event>)
    requires cfg.rtxCtrl && Runs(cfg, Start(cfg, n0, tr), es) && NoRollover(cfg, Exec(cfg, Start(cfg, n0, tr), es))
    ensures var w := Exec(cfg, Start(cfg, n0, tr), es); InOrder(cfg, w) && AllGenuine(w) && w.n0 == n0
  {
    GenuineRun(cfg, n0, tr, es);
    if es != [] {
      var prefix, e := es[..|es| - 1], es[|es| - 1];
      var w := Exec(cfg, Start(cfg, n0, tr), prefix);
      NumberingGrows(cfg, w, e);
      ExactlyOnceInOrder(cfg, n0, tr, prefix);
      OrderStep(cfg, w, e);
    }
  }

  lemma {:induction false} ChainWithoutGaps(lwe: nat, posted: seq<DataPdu>, i: nat)
    requires Chain(lwe, posted, 0) && i < |posted|
    ensures posted[i].sn == lwe + 1 + i
    decreases i
  {
    if i > 0 {
      ChainWithoutGaps(posted[0].sn, posted[1..], i - 1);
    }
  }

  function Payloads(posted: seq<DataPdu>): (ps: seq<seq<Octet>>)
    ensures |ps| == |posted| && forall i :: 0 <= i < |posted| ==> ps[i] == posted[i].data
  {
    seq(|posted|, i requires 0 <= i < |posted| => posted[i].data)
  }

  /** `part` occurs in `whole` at position `k`. */
  ghost predicate Block<T(!new)>(part: seq<T>, whole: seq<T>, k: nat) {
    k + |part| <= |whole| && part == whole[k..k + |part|]
  }

  /** The place among the writes at which the run of data started: that of the first PDU posted. */
  function RunStart(w: World): nat {
    if w.posted != [] && w.posted[0].sn > w.n0 then w.posted[0].sn - w.n0 - 1 else 0
  }

  /** With no gap allowed, the posted payloads are the written ones from the first posted number on, without a hole. */
  lemma PostedIsBlock(cfg: Config, n0: nat, tr: nat, es: seq<Event>)
    requires cfg.rtxCtrl && cfg.maxSduGap == 0
    requires Runs(cfg, Start(cfg, n0, tr), es) && NoRollover(cfg, Exec(cfg, Start(cfg, n0, tr), es))
    ensures var w := Exec(cfg, Start(cfg, n0, tr), es);
            Block(Payloads(w.posted), w.written, RunStart(w)) && (w.posted != [] ==> w.posted[0].sn == n0 + 1 + RunStart(w))
  {
    ExactlyOnceInOrder(cfg, n0, tr, es);
    var w := Exec(cfg, Start(cfg, n0, tr), es);
    if w.posted != [] {
      var k := BlockFromChain(w);
    }
  }

  lemma BlockFromChain(w: World) returns (k: nat)
    requires AllGenuine(w) && w.posted != [] && w.posted[0].sn > 0 && Chain(w.posted[0].sn - 1, w.posted, 0)
    ensures k == w.posted[0].sn - w.n0 - 1 && Block(Payloads(w.posted), w.written, k)
    ensures EndOf(0, w.posted) == w.n0 + k + |w.posted|
  {
    assert w.posted[0] in w.posted && w.posted[|w.posted| - 1] in w.posted;
    k := w.posted[0].sn - w.n0 - 1;
    forall i | 0 <= i < |w.posted| ensures w.posted[i].sn == w.n0 + 1 + k + i && Genuine(w, w.posted[i]) {
      assert w.posted[i] in w.posted;
      ChainWithoutGaps(w.posted[0].sn - 1, w.posted, i);
    }
    ChainWithoutGaps(w.posted[0].sn - 1, w.posted, |w.posted| - 1);
  }

  // ---------------------------------------------------------------- where a number is

  /** A number that was transmitted is still kept, was given up on, or is behind the receiver's left edge. */
  ghost predicate Safe(q: seq<RtxEntry>, dropped: seq<nat>, lwe: nat, n: nat) {
    HasSn(q, n) || n in dropped || n <= lwe
  }

  ghost predicate AllSafe(n0: nat, max: nat, q: seq<RtxEntry>, dropped: seq<nat>, lwe: nat) {
    forall n :: n0 < n <= max ==> Safe(q, dropped, lwe, n)
  }

  lemma AppendedSafe(n0: nat, max: nat, q: seq<RtxEntry>, more: seq<RtxEntry>, dropped: seq<nat>, lwe: nat)
    requires AllSafe(n0, max, q, dropped, lwe)
    requires forall i :: 0 <= i < |more| ==> more[i].pdu.sn == max + 1 + i
    ensures AllSafe(n0, max + |more|, q + more, dropped, lwe)
  {
    forall n | n0 < n <= max + |more| ensures Safe(q + more, dropped, lwe, n) {
      if n > max {
        assert (q + more)[|q| + (n - max - 1)].pdu.sn == n;
      } else if HasSn(q, n) {
        var i :| 0 <= i < |q| && q[i].pdu.sn == n;
        assert (q + more)[i].pdu.sn == n;
      } else {
        assert Safe(q, dropped, lwe, n);
      }
    }
  }

  /** An acknowledgement only removes numbers that the receiver has moved past. */
  lemma AckSafe(n0: nat, max: nat, q: seq<RtxEntry>, ack: nat, dropped: seq<nat>, lwe: nat)
    requires Sorted(q) && AllSafe(n0, max, q, dropped, lwe) && ack <= lwe
    ensures AllSafe(n0, max, AckUpTo(q, ack), dropped, lwe)
  {
    AckIsFilter(q, ack);
    forall n | n0 < n <= max ensures Safe(AckUpTo(q, ack), dropped, lwe, n) {
      assert Safe(q, dropped, lwe, n);
      if HasSn(q, n) && n > lwe {
        var i :| 0 <= i < |q| && q[i].pdu.sn == n;
        assert q[i] in q;
        assert q[i] in AckUpTo(q, ack);
      }
    }
  }

  lemma AcknowledgedSafe(cfg: Config, n0: nat, max: nat, s: Snd, c: CtrlPdu, now: nat, dropped: seq<nat>, lwe: nat)
    requires Sorted(s.rtxq) && AllSafe(n0, max, s.rtxq, dropped, lwe) && c.ackSn <= lwe
    ensures AllSafe(n0, max, Acknowledged(cfg, s, c, now).rtxq, dropped, lwe)
  {
    var k := AcknowledgedShape(cfg, s, c, now);
    AckSafe(n0, max, s.rtxq, c.ackSn, dropped, lwe);
    assert s.rtxq[0..] == s.rtxq;
  }

  lemma RtxSafe(cfg: Config, n0: nat, max: nat, s: Snd, now: nat, ticks: seq<bool>, dropped: seq<nat>, lwe: nat)
    requires Sorted(s.rtxq) && AllSafe(n0, max, s.rtxq, dropped, lwe)
    ensures AllSafe(n0, max, RtxTimer(cfg, s, now, ticks).s.rtxq, dropped + Numbers(GivenUp(cfg, s, now, ticks)), lwe)
  {
    var p := Retransmit(cfg, s.rtxq, s.rtt.tr, now, s.rate, ticks);
    RetransmitConserves(cfg, s.rtxq, s.rtt.tr, now, s.rate, ticks);
    var dropped' := dropped + Numbers(p.dropped);
    forall n | n0 < n <= max ensures Safe(p.queue, dropped', lwe, n) {
      assert Safe(s.rtxq, dropped, lwe, n);
      if HasSn(s.rtxq, n) {
        var i :| 0 <= i < |s.rtxq| && s.rtxq[i].pdu.sn == n;
        assert HasPdu(s.rtxq, s.rtxq[i].pdu);
        if s.rtxq[i].pdu in p.dropped {
          var j :| 0 <= j < |p.dropped| && p.dropped[j] == s.rtxq[i].pdu;
          assert Numbers(p.dropped)[j] == n;
        }
      }
    }
  }

  ghost predicate InCwq(s: Snd, n: nat) {
    exists i :: 0 <= i < |s.cwq| && s.cwq[i].sn == n
  }

  /** Where a number that was assigned is. */
  ghost predicate Accounted(w: World, n: nat) {
    InCwq(w.snd, n) || HasSn(w.snd.rtxq, n) || n in w.dropped || n <= w.rcv.lwe
  }

  ghost predicate PostedOnce(w: World, i: nat, n: nat)
    requires i < |w.posted|
  {
    w.posted[i].sn == n && Genuine(w, w.posted[i]) && Times(w.posted, n) == 1
  }

  lemma BlockPostsOnce(w: World, n: nat)
    requires AllGenuine(w) && w.posted != [] && w.posted[0].sn > 0
    requires Chain(w.posted[0].sn - 1, w.posted, 0) && w.posted[0].sn <= n <= EndOf(0, w.posted)
    ensures exists i :: 0 <= i < |w.posted| && PostedOnce(w, i, n)
  {
    var lo := w.posted[0].sn - 1;
    ChainWithoutGaps(lo, w.posted, |w.posted| - 1);
    ChainWithoutGaps(lo, w.posted, n - lo - 1);
    assert w.posted[n - lo - 1] in w.posted;
    ChainTimes(lo, w.posted, n);
    assert PostedOnce(w, n - lo - 1, n);
  }

  lemma {:induction false} ChainTimes(lwe: nat, posted: seq<DataPdu>, n: nat)
    requires Chain(lwe, posted, 0)
    ensures Times(posted, n) == if lwe < n <= lwe + |posted| then 1 else 0
    decreases |posted|
  {
    if posted != [] {
      ChainTimes(posted[0].sn, posted[1..], n);
    }
  }
}
