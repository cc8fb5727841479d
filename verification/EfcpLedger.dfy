/**
 The counters and flags of both ends as accounts of the run: which control numbers were seen and used, how many PDUs were
 refused, when a rendezvous is pending, and when the inactivity timer is armed, each told from the events alone.
 */
module EfcpLedger {
  import opened EfcpTypes
  import opened RateControl
  import opened RtxQueue
  import opened DtpSender
  import opened EfcpWorld
  import opened EfcpGenuine
  import opened EfcpFeed
  import opened EfcpWindow
  import opened EfcpInTurn
  import opened EfcpNoLoss
  import opened EfcpEstimator
  import R = DtpReceiver
  import L = ReceiverLaws
  import S = SenderLaws

  // ---------------------------------------------------------------- what the events account for

  /** The highest number of a control PDU that has arrived at the sender, or of a Rendezvous PDU at the receiver. */
  function HighestCsn(es: seq<Event>, rendezvous: bool): nat {
    if es == [] then 0
    else
      var e, before := es[|es| - 1], HighestCsn(es[..|es| - 1], rendezvous);
      if rendezvous then (if e.EvRendezvous? then Max(before, e.c.csn) else before)
      else (if e.EvCtrl? then Max(before, e.c.csn) else before)
  }

  /** How many PDUs the receiver has refused. */
  function Refusals(cfg: Config, w: World, es: seq<Event>): nat {
    if es == [] then 0
    else
      var prefix, e := es[..|es| - 1], es[|es| - 1];
      Refusals(cfg, w, prefix) + if e.EvData? && L.Refuses(cfg, Exec(cfg, w, prefix).rcv, e.pdu) then 1 else 0
  }

  /** How many bytes it has counted. */
  function BytesCounted(cfg: Config, w: World, es: seq<Event>): nat {
    if es == [] then 0
    else
      var prefix, e := es[..|es| - 1], es[|es| - 1];
      BytesCounted(cfg, w, prefix) + if e.EvData? && L.IsCounted(cfg, Exec(cfg, w, prefix).rcv, e.pdu) then |e.pdu.data| else 0
  }

  /** The last write was transmitted at once. */
  ghost predicate LastWriteSent(cfg: Config, w: World, es: seq<Event>) {
    es != [] &&
    var prefix, e := es[..|es| - 1], es[|es| - 1];
    if e.EvWrite? then !S.Closed(cfg, Exec(cfg, w, prefix).snd, e.tick) else LastWriteSent(cfg, w, prefix)
  }

  /** The event makes the sender ask for a rendezvous: nothing is kept, and a write is parked or the last copy given up on. */
  ghost predicate Asks(cfg: Config, s: Snd, e: Event) {
    || (e.EvWrite? && S.Closed(cfg, s, e.tick) && (!cfg.rtxCtrl || s.rtxq == []))
    || (e.EvRtx? && |s.cwq| == cfg.MaxClosedWinqLength()
        && var p := Retransmit(cfg, s.rtxq, s.rtt.tr, e.now, s.rate, e.ticks); p.dropped != [] && p.queue == [])
  }

  /** The event is an opening of the window that is taken. */
  ghost predicate IsOpening(cfg: Config, s: Snd, e: Event) {
    e.EvCtrl? && !S.Refuses(cfg, s, e.c) && (e.c.kind.FlowCtl? || e.c.kind.AckAndFlowCtl?)
  }

  /** A rendezvous was asked for since the last opening. */
  ghost predicate Asking(cfg: Config, w: World, es: seq<Event>) {
    es != [] &&
    var prefix, e := es[..|es| - 1], es[|es| - 1];
    var s := Exec(cfg, w, prefix).snd;
    Asks(cfg, s, e) || (Asking(cfg, w, prefix) && !IsOpening(cfg, s, e))
  }

  /** A Rendezvous PDU was taken since data was last accepted in the middle of a run. */
  ghost predicate Meeting(cfg: Config, w: World, es: seq<Event>) {
    es != [] &&
    var prefix, e := es[..|es| - 1], es[|es| - 1];
    var r := Exec(cfg, w, prefix).rcv;
    if e.EvRendezvous? && e.c.csn > r.lastRcvCtlSeq then true
    else Meeting(cfg, w, prefix) && !(e.EvData? && !r.drfRequired && !L.Refuses(cfg, r, e.pdu))
  }

  // ---------------------------------------------------------------- the receiver

  /** The control PDUs of the receiver: every number up to the last one was used exactly once. */
  ghost predicate UsedOnce(acks: set<CtrlPdu>, last: nat) {
    && (forall c :: c in acks ==> 1 <= c.csn <= last)
    && (forall c, c' :: c in acks && c' in acks && c.csn == c'.csn ==> c == c')
    && (forall n :: 1 <= n <= last ==> UsedBy(acks, n))
  }

  ghost predicate UsedBy(acks: set<CtrlPdu>, n: nat) { exists c :: c in acks && c.csn == n }

  /** A step of the receiver emits at most one control PDU, with the next number. */
  ghost predicate EmitsNext(r: R.Rcv, d: R.RcvStep) {
    || (d.ctrl == [] && d.r.nextSndCtlSeq == r.nextSndCtlSeq)
    || (|d.ctrl| == 1 && d.ctrl[0].csn == r.nextSndCtlSeq + 1 == d.r.nextSndCtlSeq)
  }

  lemma EmitsKeepsNumbers(acks: set<CtrlPdu>, r: R.Rcv, d: R.RcvStep)
    requires UsedOnce(acks, r.nextSndCtlSeq) && EmitsNext(r, d)
    ensures UsedOnce(acks + Elements(d.ctrl), d.r.nextSndCtlSeq)
  {
    var acks', last := acks + Elements(d.ctrl), d.r.nextSndCtlSeq;
    if d.ctrl == [] {
      assert Elements(d.ctrl) == {} && acks' == acks;
    } else {
      assert Elements(d.ctrl) == {d.ctrl[0]};
      forall n | 1 <= n <= last ensures UsedBy(acks', n) {
        if n == last {
          assert d.ctrl[0] in acks';
        } else {
          assert UsedBy(acks, n);
          var c :| c in acks && c.csn == n;
          assert c in acks';
        }
      }
    }
  }

  ghost predicate ReceiverAccount(cfg: Config, w0: World, es: seq<Event>) {
    var r := Exec(cfg, w0, es).rcv;
    && r.dropPdus == Refusals(cfg, w0, es) && r.rcvdInTimeUnit == BytesCounted(cfg, w0, es)
    && r.lastRcvCtlSeq == HighestCsn(es, true) && (r.rendezvousRcvr <==> Meeting(cfg, w0, es))
    && UsedOnce(Exec(cfg, w0, es).acks, r.nextSndCtlSeq)
  }

  lemma UpdateEmits(cfg: Config, r: R.Rcv)
    ensures var d := R.SvUpdate(cfg, r);
            EmitsNext(r, d) && d.r.rendezvousRcvr == r.rendezvousRcvr && d.r.lastRcvCtlSeq == r.lastRcvCtlSeq
  {
    L.UpdateAnswers(cfg, r);
  }

  /** What a data PDU means for the accounts. */
  lemma DataAccounts(cfg: Config, r: R.Rcv, pdu: DataPdu, now: nat)
    ensures var d := R.Receive(cfg, r, pdu, now);
            && EmitsNext(r, d) && d.r.lastRcvCtlSeq == r.lastRcvCtlSeq
            && d.r.rendezvousRcvr == (r.rendezvousRcvr && (r.drfRequired || L.Refuses(cfg, r, pdu)))
  {
    if r.drfRequired {
      UpdateEmits(cfg, r.(drfRequired := false, lwe := pdu.sn, seqq := []));
    } else if !L.Refuses(cfg, r, pdu) {
      AcceptAccounts(cfg, R.Counted(cfg, r, pdu), pdu, now);
    }
  }

  lemma AcceptAccounts(cfg: Config, r: R.Rcv, pdu: DataPdu, now: nat)
    ensures var d := R.Accept(cfg, r, pdu, now); EmitsNext(r, d) && d.r.lastRcvCtlSeq == r.lastRcvCtlSeq && !d.r.rendezvousRcvr
  {
    var r1 := r.(rendezvousRcvr := false);
    if cfg.a == 0 {
      UpdateEmits(cfg, if R.TakenAtOnce(cfg, r1, pdu.sn) then r1.(lwe := pdu.sn) else r1);
    } else {
      var next := pdu.sn == r1.lwe + 1;
      var m := R.Drain(if next then pdu.sn else r1.lwe, if next then r1.seqq else R.SeqPush(r1.seqq, R.SeqEntry(pdu, now)));
      UpdateEmits(cfg, r1.(lwe := m.lwe, seqq := m.left));
    }
  }

  lemma ATimerAccounts(cfg: Config, r: R.Rcv, now: nat)
    ensures var d := R.ATimer(cfg, r, now);
            && EmitsNext(r, d) && d.r.lastRcvCtlSeq == r.lastRcvCtlSeq && d.r.rendezvousRcvr == r.rendezvousRcvr
            && d.r.dropPdus == r.dropPdus && d.r.rcvdInTimeUnit == r.rcvdInTimeUnit
  {
    var k := L.SomePrefix(cfg, r.lwe, r.seqq, now, 0);
    L.ATimerExactly(cfg, r, now, k);
    var m := R.Expire(cfg, r.lwe, r.seqq, now);
    UpdateEmits(cfg, r.(lwe := m.lwe, seqq := m.left));
  }

  /** What an event means for the accounts of the receiver. */
  ghost predicate ReceiverEffect(cfg: Config, w: World, e: Event, w': World) {
    && w'.rcv.dropPdus == w.rcv.dropPdus + (if e.EvData? && L.Refuses(cfg, w.rcv, e.pdu) then 1 else 0)
    && w'.rcv.rcvdInTimeUnit == w.rcv.rcvdInTimeUnit + (if e.EvData? && L.IsCounted(cfg, w.rcv, e.pdu) then |e.pdu.data| else 0)
    && w'.rcv.lastRcvCtlSeq == (if e.EvRendezvous? then Max(w.rcv.lastRcvCtlSeq, e.c.csn) else w.rcv.lastRcvCtlSeq)
    && w'.rcv.rendezvousRcvr == (
         || (e.EvRendezvous? && e.c.csn > w.rcv.lastRcvCtlSeq)
         || (w.rcv.rendezvousRcvr && !(e.EvData? && !w.rcv.drfRequired && !L.Refuses(cfg, w.rcv, e.pdu))))
    && (UsedOnce(w.acks, w.rcv.nextSndCtlSeq) ==> UsedOnce(w'.acks, w'.rcv.nextSndCtlSeq))
  }

  lemma Emitted(w: World, d: R.RcvStep, w': World)
    requires EmitsNext(w.rcv, d) && w'.acks == w.acks + Elements(d.ctrl) && w'.rcv == d.r
    ensures UsedOnce(w.acks, w.rcv.nextSndCtlSeq) ==> UsedOnce(w'.acks, w'.rcv.nextSndCtlSeq)
  {
    if UsedOnce(w.acks, w.rcv.nextSndCtlSeq) {
      EmitsKeepsNumbers(w.acks, w.rcv, d);
    }
  }

  lemma DataEffect(cfg: Config, w: World, e: Event)
    requires e.EvData?
    ensures ReceiverEffect(cfg, w, e, Next(cfg, w, e))
  {
    L.RefusedExactly(cfg, w.rcv, e.pdu, e.now);
    DataAccounts(cfg, w.rcv, e.pdu, e.now);
    Emitted(w, R.Receive(cfg, w.rcv, e.pdu, e.now), Next(cfg, w, e));
  }

  lemma TimerEffect(cfg: Config, w: World, e: Event)
    requires e.EvATimer? || e.EvRendezvousTimer?
    ensures ReceiverEffect(cfg, w, e, Next(cfg, w, e))
  {
    if e.EvATimer? {
      ATimerAccounts(cfg, w.rcv, e.now);
      Emitted(w, R.ATimer(cfg, w.rcv, e.now), Next(cfg, w, e));
    } else {
      L.RendezvousExactly(cfg, w.rcv, RendezvousPdu(w.snd));
      Emitted(w, R.RendezvousTimer(cfg, w.rcv), Next(cfg, w, e));
    }
  }

  lemma RendezvousEffect(cfg: Config, w: World, e: Event)
    requires e.EvRendezvous?
    ensures ReceiverEffect(cfg, w, e, Next(cfg, w, e))
  {
    L.RendezvousExactly(cfg, w.rcv, e.c);
    Emitted(w, R.ReceiveRendezvous(cfg, w.rcv, e.c), Next(cfg, w, e));
  }

  lemma ReceiverEffects(cfg: Config, w: World, e: Event)
    ensures ReceiverEffect(cfg, w, e, Next(cfg, w, e))
  {
    if e.EvData? {
      DataEffect(cfg, w, e);
    } else if e.EvATimer? || e.EvRendezvousTimer? {
      TimerEffect(cfg, w, e);
    } else if e.EvRendezvous? {
      RendezvousEffect(cfg, w, e);
    }
  }

  /**
   After every run the receiver has counted as dropped exactly the PDUs that it refused, knows the highest number of a
   Rendezvous PDU that arrived, repeats flow control exactly while a rendezvous waits for data, and has used every
   control number up to the last one exactly once.
   */
  lemma {:induction false} ReceiverLedger(cfg: Config, n0: nat, tr: nat, es: seq<Event>)
    ensures ReceiverAccount(cfg, Start(cfg, n0, tr), es)
  {
    if es != [] {
      ReceiverLedger(cfg, n0, tr, es[..|es| - 1]);
      ReceiverEffects(cfg, Exec(cfg, Start(cfg, n0, tr), es[..|es| - 1]), es[|es| - 1]);
    }
  }

  // ---------------------------------------------------------------- the sender

  ghost predicate SenderAccount(cfg: Config, w0: World, es: seq<Event>) {
    var w := Exec(cfg, w0, es);
    && w.snd.lastRcvCtlSeq == HighestCsn(es, false) && UsedOnce(w.rvs, w.snd.nextSndCtlSeq)
    && w.snd.rtxDrops == |w.dropped|
    && (w.snd.inactivityArmed <==> LastWriteSent(cfg, w0, es)) && (w.snd.rendezvousSndr <==> Asking(cfg, w0, es))
  }

  /** What a delivery leaves alone. */
  lemma {:induction false} DeliverAccounts(cfg: Config, s: Snd, now: nat, ticks: seq<bool>)
    ensures var s' := Deliver(cfg, s, now, ticks).s;
            && s'.lastRcvCtlSeq == s.lastRcvCtlSeq && s'.nextSndCtlSeq == s.nextSndCtlSeq && s'.rtxDrops == s.rtxDrops
            && s'.inactivityArmed == s.inactivityArmed && s'.rendezvousSndr == s.rendezvousSndr
    decreases |s.cwq|
  {
    if Continues(cfg, s, now, ticks) {
      DeliverAccounts(cfg, Delivered1(cfg, s, now, ticks), now, Later(ticks));
    } else {
      StopAccounts(cfg, s, now, ticks);
      S.SettlesExactly(cfg, Stopped(cfg, s, now, ticks));
    }
  }

  lemma StopAccounts(cfg: Config, s: Snd, now: nat, ticks: seq<bool>)
    ensures S.DeliveryLeaves(s, Stopped(cfg, s, now, ticks))
  {
    if s.cwq != [] {
      var s1 := ClockRead(cfg, s, Tick(ticks));
      assert S.DeliveryLeaves(s, s1);
      if CanDeliver(cfg, s1) {
        TakingLeaves(cfg, s1, now);
      }
    }
  }

  lemma TakingLeaves(cfg: Config, s: Snd, now: nat)
    requires s.cwq != []
    ensures S.DeliveryLeaves(s, TakeHead(cfg, s, now))
  {
  }

  lemma ControlAccounts(cfg: Config, s: Snd, e: Event)
    requires Sorted(s.rtxq) && e.EvCtrl?
    ensures var s' := ReceiveControl(cfg, s, e.c, e.now, e.ticks).s;
            && s'.lastRcvCtlSeq == Max(s.lastRcvCtlSeq, e.c.csn) && s'.nextSndCtlSeq == s.nextSndCtlSeq && s'.rtxDrops == s.rtxDrops
            && s'.inactivityArmed == s.inactivityArmed && s'.rendezvousSndr == (s.rendezvousSndr && !IsOpening(cfg, s, e))
  {
    var s' := S.ControlExactly(cfg, s, e.c, e.now, e.ticks);
    DeliverAccounts(cfg, s', e.now, e.ticks);
  }

  lemma WriteAccounts(cfg: Config, s: Snd, e: Event)
    requires AllBelow(s.rtxq, s.seqNrToSend + 1) && e.EvWrite?
    ensures var s' := Write(cfg, s, e.data, e.now, e.tick).s;
            && s'.lastRcvCtlSeq == s.lastRcvCtlSeq && s'.nextSndCtlSeq == s.nextSndCtlSeq && s'.rtxDrops == s.rtxDrops
            && s'.inactivityArmed == !S.Closed(cfg, s, e.tick) && s'.rendezvousSndr == (s.rendezvousSndr || Asks(cfg, s, e))
  {
    if S.Closed(cfg, s, e.tick) {
      S.ParkedExactly(cfg, s, e.data, e.now, e.tick);
    } else {
      S.SentExactly(cfg, s, e.data, e.now, e.tick);
    }
  }

  lemma RendezvousSent(rvs: set<CtrlPdu>, s: Snd)
    requires UsedOnce(rvs, s.nextSndCtlSeq)
    ensures UsedOnce(rvs + {RendezvousPdu(s)}, s.nextSndCtlSeq + 1)
  {
    var rvs', last := rvs + {RendezvousPdu(s)}, s.nextSndCtlSeq + 1;
    forall n | 1 <= n <= last ensures UsedBy(rvs', n) {
      if n == last {
        assert RendezvousPdu(s) in rvs' && RendezvousPdu(s).csn == n;
      } else {
        assert UsedBy(rvs, n);
        var c :| c in rvs && c.csn == n;
        assert c in rvs';
      }
    }
  }

  /** What an event means for the accounts of the sender. */
  ghost predicate SenderEffect(cfg: Config, w: World, e: Event, w': World) {
    && w'.snd.lastRcvCtlSeq == (if e.EvCtrl? then Max(w.snd.lastRcvCtlSeq, e.c.csn) else w.snd.lastRcvCtlSeq)
    && (UsedOnce(w.rvs, w.snd.nextSndCtlSeq) ==> UsedOnce(w'.rvs, w'.snd.nextSndCtlSeq))
    && w'.snd.rtxDrops - w.snd.rtxDrops == |w'.dropped| - |w.dropped|
    && w'.snd.inactivityArmed == (if e.EvWrite? then !S.Closed(cfg, w.snd, e.tick) else w.snd.inactivityArmed)
    && w'.snd.rendezvousSndr == (Asks(cfg, w.snd, e) || (w.snd.rendezvousSndr && !IsOpening(cfg, w.snd, e)))
  }

  lemma WriteEffect(cfg: Config, w: World, e: Event)
    requires AllBelow(w.snd.rtxq, w.snd.seqNrToSend + 1) && e.EvWrite?
    ensures SenderEffect(cfg, w, e, Next(cfg, w, e))
  {
    WriteAccounts(cfg, w.snd, e);
  }

  lemma ControlEffect(cfg: Config, w: World, e: Event)
    requires Sorted(w.snd.rtxq) && e.EvCtrl?
    ensures SenderEffect(cfg, w, e, Next(cfg, w, e))
  {
    ControlAccounts(cfg, w.snd, e);
  }

  lemma SenderTimerEffect(cfg: Config, w: World, e: Event)
    requires e.EvRtx? || e.EvRate?
    ensures SenderEffect(cfg, w, e, Next(cfg, w, e))
  {
    if e.EvRtx? {
      S.RtxTimerExactly(cfg, w.snd, e.now, e.ticks);
    } else {
      var s' := S.RateTimerExactly(cfg, w.snd, e.now, e.ticks);
      DeliverAccounts(cfg, s', e.now, e.ticks);
    }
  }

  lemma SenderEffects(cfg: Config, w: World, e: Event)
    requires Sorted(w.snd.rtxq) && AllBelow(w.snd.rtxq, w.snd.seqNrToSend + 1)
    ensures SenderEffect(cfg, w, e, Next(cfg, w, e))
  {
    if e.EvWrite? {
      WriteEffect(cfg, w, e);
    } else if e.EvCtrl? {
      ControlEffect(cfg, w, e);
    } else if e.EvRtx? || e.EvRate? {
      SenderTimerEffect(cfg, w, e);
    } else if e.EvSendRendezvous? && UsedOnce(w.rvs, w.snd.nextSndCtlSeq) {
      RendezvousSent(w.rvs, w.snd);
    }
  }

  /**
   After every run on which nothing overtakes, the sender knows the highest number of a control PDU that arrived, has used
   every control number of its own exactly once, has counted every PDU that it gave up on, has its inactivity timer armed
   exactly if the last write went out at once, and asks for a rendezvous exactly if one was called for since the last opening.
   */
  lemma {:induction false} SenderLedger(cfg: Config, n0: nat, tr: nat, es: seq<Event>)
    requires !Overtakes(cfg) && Runs(cfg, Start(cfg, n0, tr), es)
    ensures SenderAccount(cfg, Start(cfg, n0, tr), es)
  {
    if es != [] {
      var prefix := es[..|es| - 1];
      SenderLedger(cfg, n0, tr, prefix);
      SortedRun(cfg, n0, tr, prefix);
      GenuineRun(cfg, n0, tr, prefix);
      KeptBelow(Exec(cfg, Start(cfg, n0, tr), prefix));
      SenderEffects(cfg, Exec(cfg, Start(cfg, n0, tr), prefix), es[|es| - 1]);
    }
  }

  lemma KeptBelow(w: World)
    requires AllGenuine(w)
    ensures AllBelow(w.snd.rtxq, w.snd.seqNrToSend + 1)
  {
    forall i | 0 <= i < |w.snd.rtxq| ensures w.snd.rtxq[i].pdu.sn < w.snd.seqNrToSend + 1 {
      assert Genuine(w, w.snd.rtxq[i].pdu);
    }
  }

  // ---------------------------------------------------------------- retransmissions

  /**
   An expiry of the retransmission timer sends again, in order, every PDU of the longest prefix of the queue that is due
   and may be tried once more, and gives up on the others of that prefix; with rate control up to the PDU that uses up
   the rate. Nothing behind the prefix is touched.
   */
  lemma RetransmissionEvent(cfg: Config, w: World, now: nat, ticks: seq<bool>, k: nat) returns (p: nat)
    requires DueUpTo(w.snd.rtxq, w.snd.rtt.tr, now, k)
    ensures p <= k && (!cfg.rateBased ==> p == k)
    ensures var e := EvRtx(now, ticks); var w' := Next(cfg, w, e);
            var sent, lost := PdusOf(w.snd.rtxq[..p], cfg.dataRtxMax, true), PdusOf(w.snd.rtxq[..p], cfg.dataRtxMax, false);
            && Resent(cfg, w.snd, e) == sent && w'.data == w.data + Elements(sent) && w'.dropped == w.dropped + Numbers(lost)
            && w'.snd.rtxq == (if p == k then Recounted(w.snd.rtxq[..k], cfg.dataRtxMax) + w.snd.rtxq[k..]
                               else Recounted(w.snd.rtxq[..p + 1], cfg.dataRtxMax) + w.snd.rtxq[p + 1..])
            && (p < k ==> w.snd.rtxq[p].retries + 1 < cfg.dataRtxMax
                          && Exceeded(Spend(w.snd.rate, sent + [w.snd.rtxq[p].pdu], ticks), true))
            && (cfg.rateBased ==> Affords(w.snd.rate, sent, ticks))
  {
    p := RetransmitExactly(cfg, w.snd.rtxq, w.snd.rtt.tr, now, w.snd.rate, ticks, k);
    S.RtxTimerExactly(cfg, w.snd, now, ticks);
  }
}
