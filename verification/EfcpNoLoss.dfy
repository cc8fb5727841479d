/**
 Silent loss on all flows with retransmission control: on every configuration whose writers cannot overtake the
 closed-window queue no number is lost silently, whatever the run, and on all the others a run loses one.
 */
module EfcpNoLoss {
  import opened EfcpTypes
  import opened RateControl
  import opened RtxQueue
  import opened DtpSender
  import opened EfcpWorld
  import opened EfcpGenuine
  import opened EfcpWindow
  import opened EfcpReliable
  import opened EfcpFeed
  import opened EfcpInTurn
  import opened EfcpOvertaking
  import R = DtpReceiver

  /** Every number that is not waiting is still kept, was given up on, or is behind the receiver's left edge. */
  ghost predicate SafeSender(n0: nat, s: Snd, dropped: seq<nat>, lwe: nat) { AllSafe(n0, Taken(s), s.rtxq, dropped, lwe) }

  lemma HeadSafe(cfg: Config, n0: nat, s: Snd, now: nat, dropped: seq<nat>, lwe: nat)
    requires cfg.rtxCtrl && Lined(s) && s.cwq != [] && SafeSender(n0, s, dropped, lwe)
    ensures SafeSender(n0, TakeHead(cfg, s, now), dropped, lwe)
  {
    HeadTaken(cfg, s, now);
    AppendedSafe(n0, Taken(s), s.rtxq, [RtxEntry(s.cwq[0], now, 0)], dropped, lwe);
  }

  lemma RoundSafe(cfg: Config, n0: nat, s: Snd, now: nat, ticks: seq<bool>, dropped: seq<nat>, lwe: nat)
    requires cfg.rtxCtrl && Lined(s) && s.cwq != [] && SafeSender(n0, s, dropped, lwe)
    ensures SafeSender(n0, Delivered1(cfg, s, now, ticks), dropped, lwe)
  {
    var s1 := ClockRead(cfg, s, Tick(ticks));
    SameLine(s, s1);
    HeadSafe(cfg, n0, s1, now, dropped, lwe);
  }

  lemma SameSafe(n0: nat, s: Snd, s': Snd, dropped: seq<nat>, lwe: nat)
    requires SafeSender(n0, s, dropped, lwe) && s'.cwq == s.cwq && s'.rtxq == s.rtxq && s'.seqNrToSend == s.seqNrToSend
    ensures SafeSender(n0, s', dropped, lwe)
  {
  }

  lemma StoppedSafe(cfg: Config, n0: nat, s: Snd, now: nat, ticks: seq<bool>, dropped: seq<nat>, lwe: nat)
    requires cfg.rtxCtrl && Lined(s) && s.cwq != [] && SafeSender(n0, s, dropped, lwe)
    ensures SafeSender(n0, Stopped(cfg, s, now, ticks), dropped, lwe)
  {
    var s1 := ClockRead(cfg, s, Tick(ticks));
    SameLine(s, s1);
    if CanDeliver(cfg, s1) {
      HeadSafe(cfg, n0, s1, now, dropped, lwe);
      SameSafe(n0, TakeHead(cfg, s1, now), Stopped(cfg, s, now, ticks), dropped, lwe);
    }
  }

  lemma StopSafe(cfg: Config, n0: nat, s: Snd, now: nat, ticks: seq<bool>, dropped: seq<nat>, lwe: nat)
    requires cfg.rtxCtrl && Lined(s) && SafeSender(n0, s, dropped, lwe)
    ensures SafeSender(n0, Settle(cfg, Stopped(cfg, s, now, ticks)), dropped, lwe)
  {
    if s.cwq != [] {
      StoppedSafe(cfg, n0, s, now, ticks, dropped, lwe);
    }
    SameSafe(n0, Stopped(cfg, s, now, ticks), Settle(cfg, Stopped(cfg, s, now, ticks)), dropped, lwe);
  }

  lemma {:induction false} DeliverSafe(cfg: Config, n0: nat, s: Snd, now: nat, ticks: seq<bool>, dropped: seq<nat>, lwe: nat)
    requires cfg.rtxCtrl && Lined(s) && SafeSender(n0, s, dropped, lwe)
    ensures SafeSender(n0, Deliver(cfg, s, now, ticks).s, dropped, lwe)
    decreases |s.cwq|
  {
    if Continues(cfg, s, now, ticks) {
      RoundKeepsLine(cfg, s, now, ticks);
      RoundSafe(cfg, n0, s, now, ticks, dropped, lwe);
      DeliverSafe(cfg, n0, Delivered1(cfg, s, now, ticks), now, Later(ticks), dropped, lwe);
    } else {
      StopSafe(cfg, n0, s, now, ticks, dropped, lwe);
    }
  }

  ghost predicate Kept(w: World) {
    SafeSender(w.n0, w.snd, w.dropped, w.rcv.lwe) && |w.dropped| == w.snd.rtxDrops
  }

  lemma {:induction false} DeliverDrops(cfg: Config, s: Snd, now: nat, ticks: seq<bool>)
    ensures Deliver(cfg, s, now, ticks).s.rtxDrops == s.rtxDrops
    decreases |s.cwq|
  {
    if Continues(cfg, s, now, ticks) {
      DeliverDrops(cfg, Delivered1(cfg, s, now, ticks), now, Later(ticks));
    }
  }

  /** A write that is transmitted is the next in turn; one that is parked is not counted yet. */
  lemma WriteSafe(cfg: Config, w: World, e: Event)
    requires cfg.rtxCtrl && InTurn(cfg, w) && Kept(w) && e.EvWrite?
    ensures Kept(Next(cfg, w, e))
  {
    var pdu := NewPdu(cfg, w.snd, e.data);
    if FindsOpen(cfg, w.snd, e.data, e.tick) {
      NoOvertaking(cfg, w, e.data, e.tick);
      PushAtTail(w.snd.rtxq, RtxEntry(pdu, e.now, 0));
      AppendedSafe(w.n0, Taken(w.snd), w.snd.rtxq, [RtxEntry(pdu, e.now, 0)], w.dropped, w.rcv.lwe);
    }
  }

  lemma ControlSafe(cfg: Config, w: World, e: Event)
    requires cfg.rtxCtrl && InTurn(cfg, w) && Kept(w) && e.EvCtrl? && e.c in w.acks && e.c.ackSn <= w.rcv.lwe
    requires Processed(cfg, w.snd, e.c)
    ensures Kept(Next(cfg, w, e))
  {
    var s1 := w.snd.(lastRcvCtlSeq := e.c.csn);
    var s2 := Acknowledged(cfg, s1, e.c, e.now);
    AckInTurn(cfg, w, e.c, e.now);
    AcknowledgedSafe(cfg, w.n0, Taken(w.snd), s1, e.c, e.now, w.dropped, w.rcv.lwe);
    if Opens(e.c) {
      var s := Opened(cfg, s2, e.c);
      SameLine(s2, s);
      DeliverSafe(cfg, w.n0, s, e.now, e.ticks, w.dropped, w.rcv.lwe);
      DeliverDrops(cfg, s, e.now, e.ticks);
      assert Next(cfg, w, e) == FirstSends(w, Deliver(cfg, s, e.now, e.ticks));
    } else {
      assert Next(cfg, w, e) == FirstSends(w, Step(s2, []));
    }
  }

  lemma RateTimerSafe(cfg: Config, w: World, e: Event)
    requires cfg.rtxCtrl && InTurn(cfg, w) && Kept(w) && e.EvRate?
    ensures Kept(Next(cfg, w, e))
  {
    SameLine(w.snd, Reset(w.snd));
    DeliverSafe(cfg, w.n0, Reset(w.snd), e.now, e.ticks, w.dropped, w.rcv.lwe);
    DeliverDrops(cfg, Reset(w.snd), e.now, e.ticks);
  }

  lemma ReceiverSafe(cfg: Config, w: World, e: Event)
    requires Kept(w) && w.rcv.lwe <= Next(cfg, w, e).rcv.lwe
    requires e.EvData? || e.EvATimer? || e.EvRendezvous? || e.EvRendezvousTimer? || e.EvSendRendezvous?
    ensures Kept(Next(cfg, w, e))
  {
    forall n | w.n0 < n <= Taken(w.snd) ensures Safe(w.snd.rtxq, w.dropped, Next(cfg, w, e).rcv.lwe, n) {
      assert Safe(w.snd.rtxq, w.dropped, w.rcv.lwe, n);
    }
  }

  lemma SafeStep(cfg: Config, w: World, e: Event)
    requires cfg.rtxCtrl && Enabled(cfg, w, e) && InTurn(cfg, w) && Kept(w)
    requires forall c :: c in w.acks ==> c.ackSn <= w.rcv.lwe
    requires w.rcv.lwe <= Next(cfg, w, e).rcv.lwe
    ensures Kept(Next(cfg, w, e))
  {
    if e.EvWrite? {
      WriteSafe(cfg, w, e);
    } else if e.EvCtrl? {
      if Processed(cfg, w.snd, e.c) {
        ControlSafe(cfg, w, e);
      }
    } else if e.EvRtx? {
      RtxSafe(cfg, w.n0, Taken(w.snd), w.snd, e.now, e.ticks, w.dropped, w.rcv.lwe);
    } else if e.EvRate? {
      RateTimerSafe(cfg, w, e);
    } else {
      ReceiverSafe(cfg, w, e);
    }
  }

  lemma {:induction false} SafeRun(cfg: Config, n0: nat, tr: nat, es: seq<Event>)
    requires !Overtakes(cfg) && cfg.rtxCtrl
    requires Runs(cfg, Start(cfg, n0, tr), es) && NoRollover(cfg, Exec(cfg, Start(cfg, n0, tr), es))
    ensures Kept(Exec(cfg, Start(cfg, n0, tr), es))
  {
    if es != [] {
      var prefix, e := es[..|es| - 1], es[|es| - 1];
      var w := Exec(cfg, Start(cfg, n0, tr), prefix);
      NumberingGrows(cfg, w, e);
      SafeRun(cfg, n0, tr, prefix);
      InTurnRun(cfg, n0, tr, prefix);
      ExactlyOnceInOrder(cfg, n0, tr, prefix);
      OrderStep(cfg, w, e);
      SafeStep(cfg, w, e);
    }
  }

  /**
   No silent loss, on every flow with retransmission control whose writers cannot overtake: with window-based,
   rate-based, both or no flow control, every number assigned is parked, kept, counted as dropped, or at or below the
   receiver's left window edge.
   */
  lemma NoSilentLoss(cfg: Config, n0: nat, tr: nat, es: seq<Event>, n: nat)
    requires !Overtakes(cfg) && cfg.rtxCtrl
    requires Runs(cfg, Start(cfg, n0, tr), es) && NoRollover(cfg, Exec(cfg, Start(cfg, n0, tr), es))
    requires n0 < n <= Exec(cfg, Start(cfg, n0, tr), es).snd.seqNrToSend
    ensures var w := Exec(cfg, Start(cfg, n0, tr), es);
            Accounted(w, n) && |w.dropped| == w.snd.rtxDrops
  {
    SafeRun(cfg, n0, tr, es);
    InTurnRun(cfg, n0, tr, es);
    RunKeepsN0(cfg, Start(cfg, n0, tr), es);
    var w := Exec(cfg, Start(cfg, n0, tr), es);
    if n > Taken(w.snd) {
      assert w.snd.cwq[n - Taken(w.snd) - 1].sn == n;
    } else {
      assert Safe(w.snd.rtxq, w.dropped, w.rcv.lwe, n);
    }
  }

  lemma {:induction false} RunKeepsN0(cfg: Config, w: World, es: seq<Event>)
    ensures Exec(cfg, w, es).n0 == w.n0
  {
    if es != [] {
      RunKeepsN0(cfg, w, es[..|es| - 1]);
    }
  }

  /**
   With no gap allowed this means delivery: a number from the start of the run on is still with the
   sender, was counted as dropped, or has been posted, exactly once, with the payload written under it.
   */
  lemma DeliveredOrAccounted(cfg: Config, n0: nat, tr: nat, es: seq<Event>, n: nat)
    requires !Overtakes(cfg) && cfg.rtxCtrl && cfg.maxSduGap == 0
    requires Runs(cfg, Start(cfg, n0, tr), es) && NoRollover(cfg, Exec(cfg, Start(cfg, n0, tr), es))
    requires n0 < n <= Exec(cfg, Start(cfg, n0, tr), es).snd.seqNrToSend
    ensures var w := Exec(cfg, Start(cfg, n0, tr), es);
            || InCwq(w.snd, n) || HasSn(w.snd.rtxq, n) || n in w.dropped
            || (w.posted != [] && n < w.posted[0].sn)
            || (exists i :: 0 <= i < |w.posted| && PostedOnce(w, i, n))
  {
    NoSilentLoss(cfg, n0, tr, es, n);
    ExactlyOnceInOrder(cfg, n0, tr, es);
    var w := Exec(cfg, Start(cfg, n0, tr), es);
    if n <= w.rcv.lwe && w.posted[0].sn <= n {
      BlockPostsOnce(w, n);
    }
  }

  ghost predicate AllAccounted(w: World) { forall n :: w.n0 < n <= w.snd.seqNrToSend ==> Accounted(w, n) }

  ghost predicate NeverLoses(cfg: Config, n0: nat, tr: nat) {
    forall es :: Runs(cfg, Start(cfg, n0, tr), es) && NoRollover(cfg, Exec(cfg, Start(cfg, n0, tr), es)) ==>
                   AllAccounted(Exec(cfg, Start(cfg, n0, tr), es))
  }

  lemma OneLoss(cfg: Config, n0: nat, tr: nat, es: seq<Event>, w: World, n: nat)
    requires Runs(cfg, Start(cfg, n0, tr), es) && w == Exec(cfg, Start(cfg, n0, tr), es) && NoRollover(cfg, w)
    requires w.n0 < n <= w.snd.seqNrToSend && !Accounted(w, n)
    ensures !NeverLoses(cfg, n0, tr)
  {
    assert !AllAccounted(w);
  }

  lemma OvertakersLose(cfg: Config, n0: nat, tr: nat)
    requires Overtakes(cfg) && cfg.maxSduGap + 4 < TWO32
    ensures !NeverLoses(cfg, n0, tr)
  {
    var prefix, k := LosingRun(cfg, n0, tr, cfg.sendingRate);
    var es := prefix + Overtaking();
    OneLoss(cfg, n0, tr, es, Exec(cfg, Start(cfg, n0, tr), es), n0 + k + 1);
  }

  lemma OthersNeverLose(cfg: Config, n0: nat, tr: nat)
    requires !Overtakes(cfg) && cfg.rtxCtrl
    ensures NeverLoses(cfg, n0, tr)
  {
    forall es | Runs(cfg, Start(cfg, n0, tr), es) && NoRollover(cfg, Exec(cfg, Start(cfg, n0, tr), es))
      ensures AllAccounted(Exec(cfg, Start(cfg, n0, tr), es))
    {
      var w := Exec(cfg, Start(cfg, n0, tr), es);
      RunKeepsN0(cfg, Start(cfg, n0, tr), es);
      forall n | n0 < n <= w.snd.seqNrToSend ensures Accounted(w, n) {
        NoSilentLoss(cfg, n0, tr, es, n);
      }
    }
  }

  /**
   A flow with retransmission control never loses a number silently, whatever the run, exactly if no write can overtake
   the closed-window queue. The run that loses one takes three numbers, which the sequence numbers have room for.
   */
  lemma NoLossExactly(cfg: Config, n0: nat, tr: nat)
    requires cfg.rtxCtrl && cfg.maxSduGap + 4 < TWO32
    ensures NeverLoses(cfg, n0, tr) <==>
            !(cfg.flowCtrl && cfg.rateBased && cfg.sendingRate > 0 && (cfg.windowBased ==> cfg.initialCredit >= 2))
  {
    if Overtakes(cfg) {
      OvertakersLose(cfg, n0, tr);
    } else {
      OthersNeverLose(cfg, n0, tr);
    }
  }
}
