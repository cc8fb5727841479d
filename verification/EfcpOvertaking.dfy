/**
 What goes wrong where a write can overtake the closed-window queue: a run, for every such configuration, in
 which a number is sent for the first time after a larger one, is not copied to the retransmission queue, and
 is then neither queued, acknowledged nor given up on. Together with `SenderFeeds` this makes the
 condition on the configuration exact.
 */
module EfcpOvertaking {
  import opened EfcpTypes
  import opened RateControl
  import opened RtxQueue
  import opened DtpSender
  import opened EfcpWorld
  import opened EfcpReliable
  import opened EfcpFeed
  import opened EfcpInTurn
  import opened EfcpQueueRuns
  import R = DtpReceiver

  // ---------------------------------------------------------------- the run

  function Zeros(size: nat): seq<Octet> { seq(size, i => 0) }

  function Nth(n0: nat, i: nat, data: seq<Octet>): DataPdu { DataPdu(n0 + i, true, data) }

  function Copy(pdu: DataPdu): RtxEntry { RtxEntry(pdu, 0, 0) }

  /** The sender with this closed-window and this retransmission queue, and nothing given up on. */
  ghost predicate SenderAt(cfg: Config, w: World, written: nat, edge: nat, cwq: seq<DataPdu>, rtxq: seq<RtxEntry>, sent: nat) {
    && w.snd.drfFlag && w.snd.seqNrToSend == w.n0 + written && w.snd.cwq == cwq && w.snd.rtxq == rtxq
    && (cfg.windowBased ==> w.snd.sndRtWindEdge == w.n0 + edge)
    && w.snd.rate.sent == sent && w.snd.rate.rcvd == 0
    && w.snd.rate.sndrRate == w.snd.rate.rcvrRate == cfg.sendingRate
    && w.dropped == []
  }

  /** The receiver has taken, and answered, this many PDUs one after the other. */
  ghost predicate ReceiverAt(cfg: Config, w: World, taken: nat) {
    if taken == 0 then w.rcv == R.Init(cfg)
    else
      && !w.rcv.drfRequired && w.rcv.lwe == w.rcv.lastSndDataAck == w.n0 + taken
      && w.rcv.seqq == [] && w.rcv.nextSndCtlSeq == taken
      && (cfg.windowBased ==> w.rcv.rcvrRtWindEdge == w.n0 + taken + cfg.initialCredit)
  }

  /** Everything written so far was taken, answered and acknowledged. */
  ghost predicate Quiet(cfg: Config, w: World, i: nat, sent: nat) {
    SenderAt(cfg, w, i, i + cfg.initialCredit, [], [], sent) && w.snd.lastRcvCtlSeq == i && ReceiverAt(cfg, w, i)
  }

  /** The rate that is spent after another PDU of this size. */
  function Spent(cfg: Config, sent: nat, size: nat): nat { Min(sent + size, cfg.sendingRate) }

  lemma Sends(cfg: Config, w: World, i: nat, sent: nat, size: nat)
    requires Overtakes(cfg) && Quiet(cfg, w, i, sent) && sent < cfg.sendingRate
    ensures var w' := Next(cfg, w, EvWrite(Zeros(size), 0, false)); var p := Nth(w.n0, i + 1, Zeros(size));
            && w'.n0 == w.n0 && w'.rcv == w.rcv && w'.snd.lastRcvCtlSeq == i && p in w'.data
            && SenderAt(cfg, w', i + 1, i + cfg.initialCredit, [], [Copy(p)], Spent(cfg, sent, size))
  {
    assert Write(cfg, w.snd, Zeros(size), 0, false).out == [Nth(w.n0, i + 1, Zeros(size))];
  }

  /** The answer to the PDU with this index. */
  function Answer(cfg: Config, n0: nat, i: nat): CtrlPdu {
    var lwe := if cfg.windowBased then n0 + i else 0;
    var edge := if cfg.windowBased then n0 + i + cfg.initialCredit else 0;
    CtrlPdu(AckAndFlowCtl, i, n0 + i, lwe, edge, 0, 0, cfg.sendingRate, cfg.timePeriod)
  }

  /** A receiver takes the PDU after the last one, unless the largest gap plus one wraps around to nothing. */
  predicate TakesNext(cfg: Config) { cfg.a > 0 || (cfg.maxSduGap + 1) % TWO32 > 0 }

  lemma Arrives(cfg: Config, w: World, i: nat, data: seq<Octet>)
    requires Overtakes(cfg) && ReceiverAt(cfg, w, i) && (i > 0 ==> TakesNext(cfg))
    ensures var w' := Next(cfg, w, EvData(Nth(w.n0, i + 1, data), 0));
            && w'.n0 == w.n0 && w'.snd == w.snd && w'.dropped == w.dropped
            && Answer(cfg, w.n0, i + 1) in w'.acks && ReceiverAt(cfg, w', i + 1)
  {
    assert R.Receive(cfg, w.rcv, Nth(w.n0, i + 1, data), 0).ctrl == [Answer(cfg, w.n0, i + 1)];
  }

  lemma AnswerAcks(cfg: Config, s: Snd, p: DataPdu, c: CtrlPdu)
    requires cfg.rtxCtrl && s.rtxq == [Copy(p)] && c.ackSn == p.sn && Acks(c)
    ensures AckStamp(cfg, s, c) == Stamp(0)
    ensures var s' := Acknowledged(cfg, s, c, 0); s' == s.(rtxq := [], sndLftWin := s'.sndLftWin, rtt := s'.rtt)
  {
    assert s.rtxq[1..] == [] && AckUpTo(s.rtxq, p.sn) == [];
  }

  lemma Answered(cfg: Config, w: World, i: nat, data: seq<Octet>, sent: nat)
    requires Overtakes(cfg) && w.snd.lastRcvCtlSeq == i && ReceiverAt(cfg, w, i + 1)
    requires SenderAt(cfg, w, i + 1, i + cfg.initialCredit, [], [Copy(Nth(w.n0, i + 1, data))], sent)
    ensures var w' := Next(cfg, w, EvCtrl(Answer(cfg, w.n0, i + 1), 0, [])); w'.n0 == w.n0 && Quiet(cfg, w', i + 1, sent)
  {
    var s1, c := w.snd.(lastRcvCtlSeq := i + 1), Answer(cfg, w.n0, i + 1);
    AnswerAcks(cfg, s1, Nth(w.n0, i + 1, data), c);
    var s3 := Opened(cfg, Acknowledged(cfg, s1, c, 0), c);
    assert ReceiveControl(cfg, w.snd, c, 0, []) == Step(Settle(cfg, s3), []);
  }

  /** No write of the run has more than this many bytes. */
  ghost predicate WritesWithin(es: seq<Event>, max: nat) { forall e :: e in es && e.EvWrite? ==> |e.data| <= max }

  lemma Onward3(cfg: Config, w0: World, es: seq<Event>, e1: Event, e2: Event, e3: Event, w1: World, w2: World)
    requires Runs(cfg, w0, es) && Enabled(cfg, Exec(cfg, w0, es), e1) && w1 == Next(cfg, Exec(cfg, w0, es), e1)
    requires Enabled(cfg, w1, e2) && w2 == Next(cfg, w1, e2) && Enabled(cfg, w2, e3)
    ensures var es' := es + [e1] + [e2] + [e3]; Runs(cfg, w0, es') && Exec(cfg, w0, es') == Next(cfg, w2, e3)
  {
    Onward(cfg, w0, es, e1);
    Onward(cfg, w0, es + [e1], e2);
    Onward(cfg, w0, es + [e1] + [e2], e3);
  }

  /** A PDU is written, taken and answered. */
  lemma Exchange(cfg: Config, w: World, i: nat, sent: nat, size: nat) returns (e1: Event, e2: Event, e3: Event)
    requires Overtakes(cfg) && Quiet(cfg, w, i, sent) && sent < cfg.sendingRate && (i > 0 ==> TakesNext(cfg))
    ensures Enabled(cfg, w, e1) && Enabled(cfg, Next(cfg, w, e1), e2) && Enabled(cfg, Next(cfg, Next(cfg, w, e1), e2), e3)
    ensures var w3 := Next(cfg, Next(cfg, Next(cfg, w, e1), e2), e3); w3.n0 == w.n0 && Quiet(cfg, w3, i + 1, Spent(cfg, sent, size))
    ensures WritesWithin([e1, e2, e3], size)
  {
    var p := Nth(w.n0, i + 1, Zeros(size));
    e1, e2, e3 := EvWrite(p.data, 0, false), EvData(p, 0), EvCtrl(Answer(cfg, w.n0, i + 1), 0, []);
    Sends(cfg, w, i, sent, size);
    Arrives(cfg, Next(cfg, w, e1), i, p.data);
    Answered(cfg, Next(cfg, Next(cfg, w, e1), e2), i, p.data, Spent(cfg, sent, size));
  }

  lemma WithinMore(es: seq<Event>, e1: Event, e2: Event, e3: Event, size: nat)
    requires WritesWithin(es, size) && WritesWithin([e1, e2, e3], size)
    ensures WritesWithin(es + [e1] + [e2] + [e3], size)
  {
    forall e | e in es + [e1] + [e2] + [e3] && e.EvWrite? ensures |e.data| <= size {
      assert e in es || e in [e1, e2, e3];
    }
  }

  lemma Round(cfg: Config, w0: World, es: seq<Event>, i: nat, sent: nat, size: nat) returns (es': seq<Event>)
    requires Overtakes(cfg) && Runs(cfg, w0, es) && WritesWithin(es, size) && (i > 0 ==> TakesNext(cfg))
    requires Quiet(cfg, Exec(cfg, w0, es), i, sent) && sent < cfg.sendingRate
    ensures Runs(cfg, w0, es') && WritesWithin(es', size) && Exec(cfg, w0, es').n0 == Exec(cfg, w0, es).n0
    ensures Quiet(cfg, Exec(cfg, w0, es'), i + 1, Spent(cfg, sent, size))
  {
    var w := Exec(cfg, w0, es);
    var e1, e2, e3 := Exchange(cfg, w, i, sent, size);
    Onward3(cfg, w0, es, e1, e2, e3, Next(cfg, w, e1), Next(cfg, Next(cfg, w, e1), e2));
    WithinMore(es, e1, e2, e3, size);
    es' := es + [e1] + [e2] + [e3];
  }

  /** PDUs of this size, all of them answered, until the rate is spent. */
  lemma {:induction false} SpendsRate(cfg: Config, w0: World, es: seq<Event>, i: nat, sent: nat, size: nat)
    returns (es': seq<Event>, k: nat)
    requires Overtakes(cfg) && size > 0 && Runs(cfg, w0, es) && WritesWithin(es, size)
    requires Quiet(cfg, Exec(cfg, w0, es), i, sent) && sent <= cfg.sendingRate
    requires sent == cfg.sendingRate || TakesNext(cfg) || (i == 0 && size >= cfg.sendingRate)
    ensures Runs(cfg, w0, es') && WritesWithin(es', size) && Exec(cfg, w0, es').n0 == Exec(cfg, w0, es).n0
    ensures Quiet(cfg, Exec(cfg, w0, es'), k, cfg.sendingRate)
    ensures i <= k <= i + cfg.sendingRate - sent && (size >= cfg.sendingRate ==> k <= i + 1)
    decreases cfg.sendingRate - sent
  {
    if sent == cfg.sendingRate {
      es', k := es, i;
    } else {
      var more := Round(cfg, w0, es, i, sent, size);
      es', k := SpendsRate(cfg, w0, more, i + 1, Spent(cfg, sent, size), size);
    }
  }

  /** With the rate spent the next PDU is parked. */
  lemma Parked(cfg: Config, w: World, k: nat)
    requires Overtakes(cfg) && Quiet(cfg, w, k, cfg.sendingRate)
    ensures var w' := Next(cfg, w, EvWrite([], 0, false));
            && w'.n0 == w.n0 && w'.rcv == w.rcv
            && SenderAt(cfg, w', k + 1, k + cfg.initialCredit, [Nth(w.n0, k + 1, [])], [], cfg.sendingRate)
  {
  }

  /** A new time unit begins, and the one after it overtakes it. */
  lemma Overtaken(cfg: Config, w: World, k: nat)
    requires Overtakes(cfg) && SenderAt(cfg, w, k + 1, k + cfg.initialCredit, [Nth(w.n0, k + 1, [])], [], cfg.sendingRate)
    ensures var w' := Next(cfg, w, EvWrite([], 0, true)); var p := Nth(w.n0, k + 2, []);
            && w'.n0 == w.n0 && w'.rcv == w.rcv
            && SenderAt(cfg, w', k + 2, k + cfg.initialCredit, [Nth(w.n0, k + 1, [])], [Copy(p)], 0)
            && OpsOf(cfg, w.snd, EvWrite([], 0, true)) == [OpPush(p, 0)]
  {
  }

  /** The rate timer sends the parked PDU; there is no room for it in front of the other. */
  lemma SentWithoutCopy(cfg: Config, w: World, k: nat)
    requires Overtakes(cfg)
    requires SenderAt(cfg, w, k + 2, k + cfg.initialCredit, [Nth(w.n0, k + 1, [])], [Copy(Nth(w.n0, k + 2, []))], 0)
    ensures var w' := Next(cfg, w, EvRate(0, [])); var p := Nth(w.n0, k + 1, []);
            && w'.n0 == w.n0 && w'.rcv == w.rcv && p in w'.data && w'.snd.seqNrToSend == w.snd.seqNrToSend
            && w'.snd.cwq == [] && w'.snd.rtxq == [Copy(Nth(w.n0, k + 2, []))] && w'.dropped == []
            && OpsOf(cfg, w.snd, EvRate(0, [])) == [OpPush(p, 0)]
  {
    var s, p := Reset(w.snd), Nth(w.n0, k + 1, []);
    assert InsertFrom(s.rtxq, Copy(p), 0) == None;
    assert Continues(cfg, s, 0, []);
    var s' := Delivered1(cfg, s, 0, []);
    assert s'.cwq == [] && s'.rtxq == s.rtxq;
    assert Deliver(cfg, s', 0, []).out == [] && DeliverOps(cfg, s', 0, []) == [];
    assert Deliver(cfg, s, 0, []).out == [p];
  }

  // ---------------------------------------------------------------- the loss

  /**
   A number was sent and has not been posted in order, and no copy of it is kept: it is in neither queue and
   was not given up on, so nothing sends it again should the network lose it.
   */
  ghost predicate Lost(w: World, p: DataPdu) { p in w.data && !Accounted(w, p.sn) }

  /** Up to the PDU that is parked. */
  lemma Prelude(cfg: Config, n0: nat, tr: nat, size: nat) returns (es: seq<Event>, k: nat)
    requires Overtakes(cfg) && size > 0 && (TakesNext(cfg) || size >= cfg.sendingRate)
    ensures k <= cfg.sendingRate && (size >= cfg.sendingRate ==> k <= 1) && WritesWithin(es, size)
    ensures var w0 := Start(cfg, n0, tr); var w := Exec(cfg, w0, es);
            Runs(cfg, w0, es) && w.n0 == n0 && Waits(cfg, w, k)
  {
    var w0, e := Start(cfg, n0, tr), EvWrite([], 0, false);
    var es1;
    es1, k := SpendsRate(cfg, w0, [], 0, 0, size);
    Parked(cfg, Exec(cfg, w0, es1), k);
    Onward(cfg, w0, es1, e);
    es := es1 + [e];
  }

  /** The event that overtakes, and the one that sends what was overtaken. */
  function Overtaking(): seq<Event> { [EvWrite([], 0, true)] + [EvRate(0, [])] }

  /** A PDU is parked, and everything before it acknowledged. */
  ghost predicate Waits(cfg: Config, w: World, k: nat) {
    w.rcv.lwe <= w.n0 + k && SenderAt(cfg, w, k + 1, k + cfg.initialCredit, [Nth(w.n0, k + 1, [])], [], cfg.sendingRate)
  }

  lemma Overtakes2(cfg: Config, w: World, k: nat)
    requires Overtakes(cfg) && Waits(cfg, w, k)
    ensures var e, e' := EvWrite([], 0, true), EvRate(0, []); var w1 := Next(cfg, w, e); var w2 := Next(cfg, w1, e');
            var p, q := Nth(w.n0, k + 2, []), Nth(w.n0, k + 1, []);
            && w2.snd.seqNrToSend == w.n0 + k + 2 && w2.n0 == w.n0 && Lost(w2, q)
            && OpsOf(cfg, w.snd, e) == [OpPush(p, 0)] && OpsOf(cfg, w1.snd, e') == [OpPush(q, 0)]
  {
    Overtaken(cfg, w, k);
    SentWithoutCopy(cfg, Next(cfg, w, EvWrite([], 0, true)), k);
  }

  lemma Onward2(cfg: Config, w0: World, es: seq<Event>, e: Event, e': Event, w: World)
    requires Runs(cfg, w0, es) && w == Exec(cfg, w0, es) && Enabled(cfg, w, e) && Enabled(cfg, Next(cfg, w, e), e')
    ensures var es' := es + ([e] + [e']); Runs(cfg, w0, es') && Exec(cfg, w0, es') == Next(cfg, Next(cfg, w, e), e')
    ensures Ops(cfg, w0, es + ([e] + [e'])) == Ops(cfg, w0, es) + OpsOf(cfg, w.snd, e) + OpsOf(cfg, Next(cfg, w, e).snd, e')
  {
    Onward(cfg, w0, es, e);
    Onward(cfg, w0, es + [e], e');
    OpsOnward(cfg, w0, es, e);
    OpsOnward(cfg, w0, es + [e], e');
    assert es + ([e] + [e']) == es + [e] + [e'];
  }

  lemma OpsOnward(cfg: Config, w: World, es: seq<Event>, e: Event)
    ensures Ops(cfg, w, es + [e]) == Ops(cfg, w, es) + OpsOf(cfg, Exec(cfg, w, es).snd, e)
  {
    assert (es + [e])[..|es + [e]| - 1] == es;
  }

  lemma LosesNext(cfg: Config, w0: World, es: seq<Event>, k: nat)
    requires Overtakes(cfg) && Runs(cfg, w0, es) && Waits(cfg, Exec(cfg, w0, es), k)
    ensures var es' := es + Overtaking(); var w, w' := Exec(cfg, w0, es), Exec(cfg, w0, es');
            Runs(cfg, w0, es') && w'.snd.seqNrToSend == w.n0 + k + 2 && w'.n0 == w.n0 && Lost(w', Nth(w.n0, k + 1, []))
  {
    var w := Exec(cfg, w0, es);
    Overtakes2(cfg, w, k);
    Onward2(cfg, w0, es, EvWrite([], 0, true), EvRate(0, []), w);
  }

  /**
   Where a write can overtake, a run loses a number silently. No write of it has more than `size` bytes, for any size of
   at least one byte if the receiver takes one PDU after the other.
   */
  lemma LosingRun(cfg: Config, n0: nat, tr: nat, size: nat) returns (es: seq<Event>, k: nat)
    requires Overtakes(cfg) && size > 0 && (TakesNext(cfg) || size >= cfg.sendingRate)
    ensures k <= cfg.sendingRate && (size >= cfg.sendingRate ==> k <= 1) && WritesWithin(es + Overtaking(), size)
    ensures var w0 := Start(cfg, n0, tr); var w := Exec(cfg, w0, es + Overtaking());
            && Runs(cfg, w0, es) && Exec(cfg, w0, es).n0 == n0 && Waits(cfg, Exec(cfg, w0, es), k)
            && Runs(cfg, w0, es + Overtaking()) && w.n0 == n0 && w.snd.seqNrToSend == n0 + k + 2 && Lost(w, Nth(n0, k + 1, []))
  {
    es, k := Prelude(cfg, n0, tr, size);
    LosesNext(cfg, Start(cfg, n0, tr), es, k);
  }

  lemma OpsOvertaking(cfg: Config, w0: World, es: seq<Event>, k: nat)
    requires Overtakes(cfg) && Runs(cfg, w0, es) && Waits(cfg, Exec(cfg, w0, es), k)
    ensures var n0 := Exec(cfg, w0, es).n0;
            Ops(cfg, w0, es + Overtaking()) == Ops(cfg, w0, es) + [OpPush(Nth(n0, k + 2, []), 0)] + [OpPush(Nth(n0, k + 1, []), 0)]
  {
    var w := Exec(cfg, w0, es);
    Overtakes2(cfg, w, k);
    Onward2(cfg, w0, es, EvWrite([], 0, true), EvRate(0, []), w);
  }

  /** The same run feeds the retransmission queue out of order. */
  lemma OvertakingLoses(cfg: Config, n0: nat, tr: nat, size: nat) returns (es: seq<Event>, k: nat)
    requires Overtakes(cfg) && size > 0 && (TakesNext(cfg) || size >= cfg.sendingRate)
    ensures k <= cfg.sendingRate && (size >= cfg.sendingRate ==> k <= 1) && WritesWithin(es, size)
    ensures var w0 := Start(cfg, n0, tr);
            Runs(cfg, w0, es) && !FedRun(cfg, EMPTY, Ops(cfg, w0, es)) && Lost(Exec(cfg, w0, es), Nth(n0, k + 1, []))
  {
    var prefix;
    prefix, k := LosingRun(cfg, n0, tr, size);
    OpsOvertaking(cfg, Start(cfg, n0, tr), prefix, k);
    OutOfOrder(cfg, n0, tr, prefix, Nth(n0, k + 2, []), Nth(n0, k + 1, []));
    es := prefix + Overtaking();
  }

  /** Onto an empty queue `p` is pushed, and after it a smaller number. */
  lemma OutOfOrder(cfg: Config, n0: nat, tr: nat, es: seq<Event>, p: DataPdu, q: DataPdu)
    requires cfg.rtxCtrl && q.sn < p.sn && Exec(cfg, Start(cfg, n0, tr), es).snd.rtxq == []
    ensures !FedRun(cfg, EMPTY, Ops(cfg, Start(cfg, n0, tr), es) + [OpPush(p, 0)] + [OpPush(q, 0)])
  {
    var ops := Ops(cfg, Start(cfg, n0, tr), es);
    QueueMirrors(cfg, n0, tr, es);
    var h := Run(cfg, EMPTY, ops);
    RunConcat(cfg, EMPTY, ops, [OpPush(p, 0)]);
    RunConcat(cfg, EMPTY, ops + [OpPush(p, 0)], [OpPush(q, 0)]);
    OneOp(cfg, h, OpPush(p, 0));
    OneOp(cfg, Apply(cfg, h, OpPush(p, 0)), OpPush(q, 0));
  }

  // ---------------------------------------------------------------- exactly which flows

  ghost predicate AlwaysFed(cfg: Config, n0: nat, tr: nat) {
    forall es :: Runs(cfg, Start(cfg, n0, tr), es) ==> FedRun(cfg, EMPTY, Ops(cfg, Start(cfg, n0, tr), es))
  }

  lemma {:induction false} NothingPushed(cfg: Config, w: World, es: seq<Event>)
    requires !cfg.rtxCtrl
    ensures Ops(cfg, w, es) == []
  {
    if es != [] {
      NothingPushed(cfg, w, es[..|es| - 1]);
    }
  }

  /**
   The sender feeds the retransmission queue in increasing order on every run exactly if it does not
   retransmit, has no rate to spend, or has a window that holds at most one number.
   */
  lemma FedExactly(cfg: Config, n0: nat, tr: nat)
    ensures AlwaysFed(cfg, n0, tr) <==>
            !(cfg.rtxCtrl && cfg.flowCtrl && cfg.rateBased && cfg.sendingRate > 0 && (cfg.windowBased ==> cfg.initialCredit >= 2))
  {
    if Overtakes(cfg) {
      var es, _ := OvertakingLoses(cfg, n0, tr, cfg.sendingRate);
      assert Runs(cfg, Start(cfg, n0, tr), es);
    } else {
      forall es | Runs(cfg, Start(cfg, n0, tr), es) ensures FedRun(cfg, EMPTY, Ops(cfg, Start(cfg, n0, tr), es)) {
        if cfg.rtxCtrl {
          SenderFeeds(cfg, n0, tr, es);
        } else {
          NothingPushed(cfg, Start(cfg, n0, tr), es);
        }
      }
    }
  }
}
