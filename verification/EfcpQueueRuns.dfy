/**
 The laws of the retransmission queue over every run of the connection. On the configurations where no write
 overtakes, the sender feeds the queue in increasing order and the laws hold; on every other one there is a run
 that sends a number without keeping a copy. So the condition is exact.
 */
module EfcpQueueRuns {
  import opened EfcpTypes
  import opened RateControl
  import opened RtxQueue
  import opened DtpSender
  import opened EfcpWorld
  import opened EfcpWindow
  import opened EfcpFeed
  import opened EfcpInTurn
  import R = DtpReceiver

  // ---------------------------------------------------------------- the retransmission queue is fed in order

  /** The history of the queue matches the sender: all numbers taken were pushed, none further. */
  ghost predicate Tied(n0: nat, h: History, s: Snd) {
    h.queue == s.rtxq && h.lastPushed <= Taken(s) && n0 + h.pushed == Taken(s) && h.flushed == 0
  }

  lemma TakeFeeds(cfg: Config, n0: nat, s: Snd, now: nat, h: History)
    requires cfg.rtxCtrl && Lined(s) && s.cwq != [] && Tied(n0, h, s)
    ensures Fed(h, OpPush(s.cwq[0], now))
    ensures Tied(n0, Apply(cfg, h, OpPush(s.cwq[0], now)), TakeHead(cfg, s, now))
  {
    HeadTaken(cfg, s, now);
  }

  lemma RoundFeeds(cfg: Config, n0: nat, s: Snd, now: nat, ticks: seq<bool>, h: History)
    requires cfg.rtxCtrl && Lined(s) && s.cwq != [] && Tied(n0, h, s)
    ensures Fed(h, OpPush(s.cwq[0], now))
    ensures Tied(n0, Apply(cfg, h, OpPush(s.cwq[0], now)), Delivered1(cfg, s, now, ticks))
  {
    var s1 := ClockRead(cfg, s, Tick(ticks));
    SameLine(s, s1);
    TakeFeeds(cfg, n0, s1, now, h);
    assert Taken(Delivered1(cfg, s, now, ticks)) == Taken(TakeHead(cfg, s1, now));
  }

  lemma StopFeeds(cfg: Config, n0: nat, s: Snd, now: nat, ticks: seq<bool>, h: History)
    requires cfg.rtxCtrl && Lined(s) && Tied(n0, h, s) && !Continues(cfg, s, now, ticks)
    ensures var ops := DeliverOps(cfg, s, now, ticks);
            FedRun(cfg, h, ops) && Tied(n0, Run(cfg, h, ops), Stopped(cfg, s, now, ticks))
  {
    if s.cwq != [] {
      var s1 := ClockRead(cfg, s, Tick(ticks));
      SameLine(s, s1);
      TakeFeeds(cfg, n0, s1, now, h);
      OneOp(cfg, h, OpPush(s.cwq[0], now));
    }
  }

  lemma {:induction false} DeliverFeeds(cfg: Config, n0: nat, s: Snd, now: nat, ticks: seq<bool>, h: History)
    requires cfg.rtxCtrl && Lined(s) && Tied(n0, h, s)
    ensures var ops := DeliverOps(cfg, s, now, ticks);
            FedRun(cfg, h, ops) && Tied(n0, Run(cfg, h, ops), Deliver(cfg, s, now, ticks).s)
    decreases |s.cwq|
  {
    if Continues(cfg, s, now, ticks) {
      var s', ops := Delivered1(cfg, s, now, ticks), DeliverOps(cfg, s, now, ticks);
      RoundKeepsLine(cfg, s, now, ticks);
      RoundFeeds(cfg, n0, s, now, ticks, h);
      assert ops[0] == OpPush(s.cwq[0], now) && ops[1..] == DeliverOps(cfg, s', now, Later(ticks));
      DeliverFeeds(cfg, n0, s', now, Later(ticks), Apply(cfg, h, ops[0]));
    } else {
      StopFeeds(cfg, n0, s, now, ticks, h);
    }
  }

  lemma WriteFeeds(cfg: Config, w: World, e: Event, h: History)
    requires cfg.rtxCtrl && InTurn(cfg, w) && Tied(w.n0, h, w.snd) && e.EvWrite?
    ensures var ops := WriteOps(cfg, w.snd, e.data, e.now, e.tick);
            FedRun(cfg, h, ops) && Tied(w.n0, Run(cfg, h, ops), Write(cfg, w.snd, e.data, e.now, e.tick).s)
  {
    if FindsOpen(cfg, w.snd, e.data, e.tick) {
      var pdu := NewPdu(cfg, w.snd, e.data);
      NoOvertaking(cfg, w, e.data, e.tick);
      PushAtTail(w.snd.rtxq, RtxEntry(pdu, e.now, 0));
      OneOp(cfg, h, OpPush(pdu, e.now));
    }
  }

  lemma AckFeeds(cfg: Config, w: World, c: CtrlPdu, now: nat, h: History)
    requires cfg.rtxCtrl && InTurn(cfg, w) && Tied(w.n0, h, w.snd) && c in w.acks
    ensures FedRun(cfg, h, AckOps(c))
    ensures Tied(w.n0, Run(cfg, h, AckOps(c)), Acknowledged(cfg, w.snd.(lastRcvCtlSeq := c.csn), c, now))
  {
    AckInTurn(cfg, w, c, now);
    AckMirrors(cfg, w.snd.(lastRcvCtlSeq := c.csn), c, now, h);
    OneOp(cfg, h, OpAck(c.ackSn));
  }

  lemma ControlFeeds(cfg: Config, w: World, e: Event, h: History)
    requires cfg.rtxCtrl && InTurn(cfg, w) && Tied(w.n0, h, w.snd) && e.EvCtrl? && e.c in w.acks
    requires Processed(cfg, w.snd, e.c)
    ensures var ops := ControlOps(cfg, w.snd, e.c, e.now, e.ticks);
            FedRun(cfg, h, ops) && Tied(w.n0, Run(cfg, h, ops), ReceiveControl(cfg, w.snd, e.c, e.now, e.ticks).s)
  {
    var c := e.c;
    var s2 := Acknowledged(cfg, w.snd.(lastRcvCtlSeq := c.csn), c, e.now);
    AckInTurn(cfg, w, c, e.now);
    AckFeeds(cfg, w, c, e.now, h);
    var h1 := Run(cfg, h, AckOps(c));
    if Opens(c) {
      var s3 := Opened(cfg, s2, c);
      var more := DeliverOps(cfg, s3, e.now, e.ticks);
      SameLine(s2, s3);
      DeliverFeeds(cfg, w.n0, s3, e.now, e.ticks, h1);
      RunConcat(cfg, h, AckOps(c), more);
      assert ControlOps(cfg, w.snd, c, e.now, e.ticks) == AckOps(c) + more;
    } else {
      assert ControlOps(cfg, w.snd, c, e.now, e.ticks) == AckOps(c);
    }
  }

  lemma StepFeeds(cfg: Config, w: World, e: Event, h: History)
    requires cfg.rtxCtrl && InTurn(cfg, w) && Tied(w.n0, h, w.snd) && Enabled(cfg, w, e)
    ensures var ops := OpsOf(cfg, w.snd, e);
            FedRun(cfg, h, ops) && Tied(w.n0, Run(cfg, h, ops), Next(cfg, w, e).snd)
  {
    if e.EvWrite? {
      WriteFeeds(cfg, w, e, h);
    } else if e.EvCtrl? {
      if Processed(cfg, w.snd, e.c) {
        ControlFeeds(cfg, w, e, h);
      }
    } else if e.EvRtx? {
      PassInLine(cfg, w.snd, e.now, e.ticks);
      OneOp(cfg, h, OpRtx(w.snd.rtt.tr, e.now, w.snd.rate, e.ticks));
    } else if e.EvRate? {
      SameLine(w.snd, Reset(w.snd));
      DeliverFeeds(cfg, w.n0, Reset(w.snd), e.now, e.ticks, h);
    }
  }

  lemma FeedsOnward(cfg: Config, w: World, e: Event, ops: seq<Op>)
    requires cfg.rtxCtrl && InTurn(cfg, w) && Enabled(cfg, w, e)
    requires FedRun(cfg, EMPTY, ops) && Tied(w.n0, Run(cfg, EMPTY, ops), w.snd)
    ensures var more := ops + OpsOf(cfg, w.snd, e); var w' := Next(cfg, w, e);
            FedRun(cfg, EMPTY, more) && Tied(w'.n0, Run(cfg, EMPTY, more), w'.snd) && w'.n0 == w.n0
  {
    StepFeeds(cfg, w, e, Run(cfg, EMPTY, ops));
    RunConcat(cfg, EMPTY, ops, OpsOf(cfg, w.snd, e));
  }

  /** On every flow without overtaking, whatever runs, the sender pushes in increasing order and skips nothing. */
  lemma {:induction false} SenderFeeds(cfg: Config, n0: nat, tr: nat, es: seq<Event>)
    requires cfg.rtxCtrl && !Overtakes(cfg) && Runs(cfg, Start(cfg, n0, tr), es)
    ensures var w0 := Start(cfg, n0, tr); var ops := Ops(cfg, w0, es);
            FedRun(cfg, EMPTY, ops) && Tied(n0, Run(cfg, EMPTY, ops), Exec(cfg, w0, es).snd) && Exec(cfg, w0, es).n0 == n0
  {
    if es != [] {
      var w0, prefix, e := Start(cfg, n0, tr), es[..|es| - 1], es[|es| - 1];
      SenderFeeds(cfg, n0, tr, prefix);
      InTurnRun(cfg, n0, tr, prefix);
      FeedsOnward(cfg, Exec(cfg, w0, prefix), e, Ops(cfg, w0, prefix));
    }
  }

  /**
   The laws of the retransmission queue over every run of the connection: it is strictly sorted, every number
   taken so far is queued, was removed by an acknowledgement or was given up on, and no number has been resent
   `dataRtxMax` times or more, nor more often than its entry has counted.
   */
  lemma QueueOverRuns(cfg: Config, n0: nat, tr: nat, es: seq<Event>)
    requires cfg.rtxCtrl && !Overtakes(cfg) && Runs(cfg, Start(cfg, n0, tr), es) && cfg.dataRtxMax >= 1
    ensures var w0 := Start(cfg, n0, tr); var w := Exec(cfg, w0, es);
            && Sorted(w.snd.rtxq)
            && Taken(w.snd) - n0 == |w.snd.rtxq| + Acked(cfg, w0, es) + |w.dropped|
            && (forall sn :: Times(Resends(cfg, w0, es), sn) < cfg.dataRtxMax)
            && (forall i :: 0 <= i < |w.snd.rtxq| ==>
                  Times(Resends(cfg, w0, es), w.snd.rtxq[i].pdu.sn) <= w.snd.rtxq[i].retries < cfg.dataRtxMax)
  {
    var w0, w := Start(cfg, n0, tr), Exec(cfg, Start(cfg, n0, tr), es);
    SenderFeeds(cfg, n0, tr, es);
    QueueMirrors(cfg, n0, tr, es);
    QueueRunFromEmpty(cfg, Ops(cfg, w0, es));
    var h := Run(cfg, EMPTY, Ops(cfg, w0, es));
    forall sn ensures Times(Resends(cfg, w0, es), sn) < cfg.dataRtxMax {
      assert Limited(h, cfg.dataRtxMax, sn);
    }
    forall i | 0 <= i < |w.snd.rtxq|
      ensures Times(Resends(cfg, w0, es), w.snd.rtxq[i].pdu.sn) <= w.snd.rtxq[i].retries < cfg.dataRtxMax
    {
      assert EntryOk(h, cfg.dataRtxMax, h.queue[i]);
    }
  }
}
