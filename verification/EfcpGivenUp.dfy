/**
 Giving up on what was posted: the receiver drops a duplicate without answering it, so if the only answer to a PDU is
 lost the sender retransmits until it counts the PDU as dropped, although the user has it. That can happen on every
 flow that retransmits and can transmit at all, and on no other.
 */
module EfcpGivenUp {
  import opened EfcpTypes
  import opened RateControl
  import opened RtxQueue
  import opened DtpSender
  import opened EfcpWorld
  import opened EfcpFeed
  import opened EfcpOvertaking
  import R = DtpReceiver

  /** A PDU was counted as dropped although it was posted. */
  ghost predicate DroppedAndPosted(w: World, p: DataPdu) { p in w.posted && p.sn in w.dropped }

  ghost predicate GivesUpOnPosted(cfg: Config, n0: nat, tr: nat, es: seq<Event>, p: DataPdu) {
    Runs(cfg, Start(cfg, n0, tr), es) && DroppedAndPosted(Exec(cfg, Start(cfg, n0, tr), es), p)
  }

  /**
   The flows that never transmit: a window without credit and no rate; a rate of zero; or rate control that is set
   without flow control, and with it a rate of zero, unless a window lets the rate timer through.
   */
  predicate Silenced(cfg: Config) {
    if !cfg.rateBased then cfg.windowBased && cfg.initialCredit == 0
    else if cfg.flowCtrl then cfg.sendingRate == 0
    else !cfg.windowBased || cfg.initialCredit == 0
  }

  // ---------------------------------------------------------------- the run

  function FirstPdu(n0: nat): DataPdu { Nth(n0, 1, []) }

  /** The first PDU is in flight and kept, and nothing has arrived. */
  ghost predicate FirstOut(cfg: Config, w: World) {
    && FirstPdu(w.n0) in w.data && w.snd.rtxq == [Copy(FirstPdu(w.n0))] && w.rcv == R.Init(cfg)
    && w.posted == [] && w.dropped == []
  }

  /** The write finds the window open. */
  predicate OpenAtOnce(cfg: Config) {
    (cfg.windowBased ==> cfg.initialCredit > 0) && (cfg.rateBased ==> cfg.flowCtrl && cfg.sendingRate > 0)
  }

  lemma SentAtOnce(cfg: Config, n0: nat, tr: nat)
    requires cfg.rtxCtrl && OpenAtOnce(cfg)
    ensures var w := Next(cfg, Start(cfg, n0, tr), EvWrite([], 0, false)); w.n0 == n0 && FirstOut(cfg, w)
  {
    assert Write(cfg, Start(cfg, n0, tr).snd, [], 0, false).out == [FirstPdu(n0)];
  }

  lemma ParkedFirst(cfg: Config, n0: nat, tr: nat)
    requires cfg.rateBased && !OpenAtOnce(cfg) && !Silenced(cfg)
    ensures var w0 := Start(cfg, n0, tr); var w := Next(cfg, w0, EvWrite([], 0, false));
            && w.n0 == n0 && w.rcv == R.Init(cfg) && w.posted == [] && w.dropped == []
            && w.snd.cwq == [FirstPdu(n0)] && w.snd.rtxq == [] && w.snd.maxSeqNrSent == n0
            && w.snd.sndRtWindEdge == n0 + cfg.initialCredit && w.snd.rate == w0.snd.rate.(fulfilled := w.snd.rate.fulfilled)
  {
  }

  /** A parked PDU goes out with the rate timer, past the window or past the rate. */
  lemma SentLater(cfg: Config, n0: nat, tr: nat, w: World)
    requires cfg.rtxCtrl && cfg.rateBased && !OpenAtOnce(cfg) && !Silenced(cfg)
    requires w == Next(cfg, Start(cfg, n0, tr), EvWrite([], 0, false))
    ensures var w' := Next(cfg, w, EvRate(0, [])); w'.n0 == n0 && FirstOut(cfg, w')
  {
    ParkedFirst(cfg, n0, tr);
    var s := Reset(w.snd);
    assert Continues(cfg, s, 0, []);
    var s' := Delivered1(cfg, s, 0, []);
    assert s'.cwq == [] && s'.rtxq == [Copy(FirstPdu(n0))];
    assert Deliver(cfg, s', 0, []).out == [];
    assert Deliver(cfg, s, 0, []).out == [FirstPdu(n0)];
  }

  lemma RunToFirst(cfg: Config, n0: nat, tr: nat) returns (es: seq<Event>)
    requires cfg.rtxCtrl && !Silenced(cfg)
    ensures var w0 := Start(cfg, n0, tr); Runs(cfg, w0, es) && Exec(cfg, w0, es).n0 == n0 && FirstOut(cfg, Exec(cfg, w0, es))
  {
    var w0, e1, e2 := Start(cfg, n0, tr), EvWrite([], 0, false), EvRate(0, []);
    Onward(cfg, w0, [], e1);
    es := [] + [e1];
    if OpenAtOnce(cfg) {
      SentAtOnce(cfg, n0, tr);
    } else {
      SentLater(cfg, n0, tr, Exec(cfg, w0, es));
      Onward(cfg, w0, es, e2);
      es := es + [e2];
    }
  }

  /** The first PDU was posted, and its copy retransmitted this many times. */
  ghost predicate Unanswered(w: World, retries: nat) {
    FirstPdu(w.n0) in w.posted && w.snd.rtxq == [RtxEntry(FirstPdu(w.n0), 0, retries)] && w.dropped == []
  }

  lemma FirstPosted(cfg: Config, w: World)
    requires FirstOut(cfg, w)
    ensures var w' := Next(cfg, w, EvData(FirstPdu(w.n0), 0)); w'.n0 == w.n0 && Unanswered(w', 0)
  {
    assert R.Receive(cfg, w.rcv, FirstPdu(w.n0), 0).posted == [FirstPdu(w.n0)];
  }

  /** One pass over a queue of one PDU whose time has come. */
  lemma OnePass(cfg: Config, e: RtxEntry, tr: nat, rate: Rate)
    requires e.timeStamp == 0
    ensures var p := Retransmit(cfg, [e], tr, MAX_RTX_WAIT_TIME, rate, []);
            if e.retries + 1 >= cfg.dataRtxMax then p.queue == [] && p.dropped == [e.pdu]
            else p.queue == [e.(retries := e.retries + 1)] && p.dropped == []
  {
    assert [e][1..] == [];
  }

  lemma TriedAgain(cfg: Config, w: World, retries: nat)
    requires Unanswered(w, retries)
    ensures var w' := Next(cfg, w, EvRtx(MAX_RTX_WAIT_TIME, []));
            && w'.n0 == w.n0
            && (if retries + 1 >= cfg.dataRtxMax then DroppedAndPosted(w', FirstPdu(w.n0)) else Unanswered(w', retries + 1))
  {
    OnePass(cfg, RtxEntry(FirstPdu(w.n0), 0, retries), w.snd.rtt.tr, w.snd.rate);
    var w' := Next(cfg, w, EvRtx(MAX_RTX_WAIT_TIME, []));
    assert FirstPdu(w.n0) in w'.posted;
    if retries + 1 >= cfg.dataRtxMax {
      assert w'.dropped[0] == w.n0 + 1;
    }
  }

  lemma TriesNext(cfg: Config, w0: World, es: seq<Event>, w: World, retries: nat) returns (es': seq<Event>)
    requires Runs(cfg, w0, es) && w == Exec(cfg, w0, es) && Unanswered(w, retries)
    ensures var w' := Exec(cfg, w0, es');
            && Runs(cfg, w0, es') && w'.n0 == w.n0
            && (if retries + 1 >= cfg.dataRtxMax then DroppedAndPosted(w', FirstPdu(w.n0)) else Unanswered(w', retries + 1))
  {
    TriedAgain(cfg, w, retries);
    Onward(cfg, w0, es, EvRtx(MAX_RTX_WAIT_TIME, []));
    es' := es + [EvRtx(MAX_RTX_WAIT_TIME, [])];
  }

  lemma {:induction false} GivesUp(cfg: Config, w0: World, es: seq<Event>, n0: nat, retries: nat) returns (es': seq<Event>)
    requires Runs(cfg, w0, es) && Unanswered(Exec(cfg, w0, es), retries) && Exec(cfg, w0, es).n0 == n0
    ensures Runs(cfg, w0, es') && DroppedAndPosted(Exec(cfg, w0, es'), FirstPdu(n0))
    decreases cfg.dataRtxMax - retries
  {
    es' := TriesNext(cfg, w0, es, Exec(cfg, w0, es), retries);
    if retries + 1 < cfg.dataRtxMax {
      es' := GivesUp(cfg, w0, es', n0, retries + 1);
    }
  }

  lemma PostsNext(cfg: Config, w0: World, es: seq<Event>, w: World) returns (es': seq<Event>)
    requires Runs(cfg, w0, es) && w == Exec(cfg, w0, es) && FirstOut(cfg, w)
    ensures Runs(cfg, w0, es') && Exec(cfg, w0, es').n0 == w.n0 && Unanswered(Exec(cfg, w0, es'), 0)
  {
    FirstPosted(cfg, w);
    Onward(cfg, w0, es, EvData(FirstPdu(w.n0), 0));
    es' := es + [EvData(FirstPdu(w.n0), 0)];
  }

  /** Written, posted, and retransmitted until the sender gives up; the answer is lost. */
  lemma GivingUpRun(cfg: Config, n0: nat, tr: nat) returns (es: seq<Event>)
    requires cfg.rtxCtrl && !Silenced(cfg)
    ensures GivesUpOnPosted(cfg, n0, tr, es, FirstPdu(n0))
  {
    var out := RunToFirst(cfg, n0, tr);
    var posted := PostsNext(cfg, Start(cfg, n0, tr), out, Exec(cfg, Start(cfg, n0, tr), out));
    es := GivesUp(cfg, Start(cfg, n0, tr), posted, n0, 0);
  }

  // ---------------------------------------------------------------- the flows on which it cannot happen

  /** Nothing is kept, and nothing given up on, where nothing is retransmitted. */
  ghost predicate KeepsNothing(w: World) { w.snd.rtxq == [] && w.dropped == [] }

  lemma {:induction false} DeliverNoCopies(cfg: Config, s: Snd, now: nat, ticks: seq<bool>)
    requires !cfg.rtxCtrl
    ensures Deliver(cfg, s, now, ticks).s.rtxq == s.rtxq
    decreases |s.cwq|
  {
    if Continues(cfg, s, now, ticks) {
      DeliverNoCopies(cfg, Delivered1(cfg, s, now, ticks), now, Later(ticks));
    }
  }

  lemma NoCopiesStep(cfg: Config, w: World, e: Event)
    requires !cfg.rtxCtrl && KeepsNothing(w)
    ensures KeepsNothing(Next(cfg, w, e))
  {
    if e.EvCtrl? {
      var s2 := Acknowledged(cfg, w.snd.(lastRcvCtlSeq := e.c.csn), e.c, e.now);
      DeliverNoCopies(cfg, Opened(cfg, s2, e.c), e.now, e.ticks);
    } else if e.EvRate? {
      DeliverNoCopies(cfg, Reset(w.snd), e.now, e.ticks);
    }
  }

  lemma {:induction false} NoCopiesRun(cfg: Config, n0: nat, tr: nat, es: seq<Event>)
    requires !cfg.rtxCtrl
    ensures KeepsNothing(Exec(cfg, Start(cfg, n0, tr), es))
  {
    if es != [] {
      NoCopiesRun(cfg, n0, tr, es[..|es| - 1]);
      NoCopiesStep(cfg, Exec(cfg, Start(cfg, n0, tr), es[..|es| - 1]), es[|es| - 1]);
    }
  }

  /** No window edge ever leaves zero once it was advertised. */
  ghost predicate NoCredit(w: World) {
    && w.snd.sndRtWindEdge <= w.n0 && w.rcv.rcvrRtWindEdge == 0
    && (forall c :: c in w.rvs ==> c.myLwe == 0) && (forall c :: c in w.acks ==> c.newRwe == 0)
  }

  ghost predicate NoRate(w: World) { w.snd.rate.sndrRate == 0 && forall c :: c in w.acks ==> c.sndrRate == 0 }

  /** On a flow with flow control and a rate of zero PDUs may be taken from the queue, but are not sent. */
  predicate RateZero(cfg: Config) { cfg.rateBased && cfg.flowCtrl }

  ghost predicate Silent(cfg: Config, w: World) {
    && w.data == {} && w.posted == [] && w.rcv.drfRequired && w.rcv.seqq == []
    && (cfg.rateBased ==> NoRate(w))
    && (!RateZero(cfg) ==>
          && w.snd.rtxq == [] && w.snd.sndLftWin == 0 && w.n0 <= w.snd.maxSeqNrSent <= w.snd.seqNrToSend
          && (cfg.rateBased ==> w.snd.rate.rcvrRate == 0) && (cfg.windowBased ==> NoCredit(w)))
  }

  /** The sender of a flow that is silent, when it is about to deliver. */
  ghost predicate Blocked(cfg: Config, n0: nat, s: Snd) {
    && (cfg.rateBased ==> s.rate.sndrRate == 0)
    && (!RateZero(cfg) ==>
          && s.rtxq == [] && n0 <= s.maxSeqNrSent <= s.seqNrToSend
          && (cfg.rateBased ==> s.rate.rcvrRate == 0) && (cfg.windowBased ==> s.sndRtWindEdge <= n0))
  }

  lemma CannotGoOn(cfg: Config, n0: nat, s: Snd, now: nat, ticks: seq<bool>)
    requires Silenced(cfg) && Blocked(cfg, n0, s)
    ensures !Continues(cfg, s, now, ticks)
    ensures !RateZero(cfg) ==> !CanDeliver(cfg, ClockRead(cfg, s, Tick(ticks)))
  {
  }

  lemma StoppedBlocked(cfg: Config, n0: nat, s: Snd, now: nat, ticks: seq<bool>)
    requires Silenced(cfg) && Blocked(cfg, n0, s)
    ensures var x := Stopped(cfg, s, now, ticks); Blocked(cfg, n0, x) && x.sndLftWin == s.sndLftWin
  {
    CannotGoOn(cfg, n0, s, now, ticks);
  }

  lemma SettleBlocked(cfg: Config, n0: nat, s: Snd)
    requires Blocked(cfg, n0, s)
    ensures Blocked(cfg, n0, Settle(cfg, s)) && Settle(cfg, s).sndLftWin == s.sndLftWin
  {
  }

  lemma DeliversNothing(cfg: Config, n0: nat, s: Snd, now: nat, ticks: seq<bool>)
    requires Silenced(cfg) && Blocked(cfg, n0, s)
    ensures var d := Deliver(cfg, s, now, ticks); d.out == [] && Blocked(cfg, n0, d.s) && d.s.sndLftWin == s.sndLftWin
  {
    CannotGoOn(cfg, n0, s, now, ticks);
    StoppedBlocked(cfg, n0, s, now, ticks);
    SettleBlocked(cfg, n0, Stopped(cfg, s, now, ticks));
  }

  /** A sender step that sends nothing and stays blocked. */
  ghost predicate StillBlocked(cfg: Config, w: World, d: Step) {
    d.out == [] && Blocked(cfg, w.n0, d.s) && (!RateZero(cfg) ==> d.s.sndLftWin == 0)
  }

  lemma StaysSilent(cfg: Config, w: World, d: Step)
    requires Silent(cfg, w) && StillBlocked(cfg, w, d)
    ensures Silent(cfg, FirstSends(w, d))
  {
    assert Elements(d.out) == {};
  }

  lemma AckBlocked(cfg: Config, w: World, c: CtrlPdu, now: nat)
    requires Silent(cfg, w) && Processed(cfg, w.snd, c)
    ensures var s2 := Acknowledged(cfg, w.snd.(lastRcvCtlSeq := c.csn), c, now);
            Blocked(cfg, w.n0, s2) && (!RateZero(cfg) ==> s2.sndLftWin == 0)
  {
    var _ := AcknowledgedShape(cfg, w.snd.(lastRcvCtlSeq := c.csn), c, now);
  }

  lemma OpenedBlocked(cfg: Config, w: World, s: Snd, c: CtrlPdu)
    requires Silent(cfg, w) && c in w.acks && Blocked(cfg, w.n0, s)
    ensures Blocked(cfg, w.n0, Opened(cfg, s, c)) && Opened(cfg, s, c).sndLftWin == s.sndLftWin
  {
  }

  lemma SilentControl(cfg: Config, w: World, e: Event)
    requires Silenced(cfg) && Silent(cfg, w) && e.EvCtrl? && e.c in w.acks && Processed(cfg, w.snd, e.c)
    ensures Silent(cfg, Next(cfg, w, e))
  {
    var s2 := Acknowledged(cfg, w.snd.(lastRcvCtlSeq := e.c.csn), e.c, e.now);
    AckBlocked(cfg, w, e.c, e.now);
    var d := ReceiveControl(cfg, w.snd, e.c, e.now, e.ticks);
    if Opens(e.c) {
      OpenedBlocked(cfg, w, s2, e.c);
      DeliversNothing(cfg, w.n0, Opened(cfg, s2, e.c), e.now, e.ticks);
      assert d == Deliver(cfg, Opened(cfg, s2, e.c), e.now, e.ticks);
    } else {
      assert d == Step(s2, []);
    }
    StaysSilent(cfg, w, d);
  }

  lemma SilentIgnored(cfg: Config, w: World, e: Event)
    requires Silent(cfg, w) && e.EvCtrl? && !Processed(cfg, w.snd, e.c)
    ensures Silent(cfg, Next(cfg, w, e))
  {
    StaysSilent(cfg, w, ReceiveControl(cfg, w.snd, e.c, e.now, e.ticks));
  }

  lemma SilentWrite(cfg: Config, w: World, e: Event)
    requires Silenced(cfg) && Silent(cfg, w) && e.EvWrite?
    ensures Silent(cfg, Next(cfg, w, e))
  {
    var d := Write(cfg, w.snd, e.data, e.now, e.tick);
    var s1 := Checked(cfg, Numbered(w.snd), NewPdu(cfg, w.snd, e.data).sn, e.tick);
    assert d == Step(Park(cfg, s1, NewPdu(cfg, w.snd, e.data)), []);
    StaysSilent(cfg, w, d);
  }

  /** With a rate of zero a pass resends nothing. */
  lemma {:induction false} ResendsNothing(cfg: Config, q: seq<RtxEntry>, tr: nat, now: nat, rate: Rate, ticks: seq<bool>)
    requires cfg.rateBased && rate.sndrRate == 0
    ensures var p := Retransmit(cfg, q, tr, now, rate, ticks); p.resent == [] && p.rate.sndrRate == 0
  {
    if q != [] {
      ResendsNothing(cfg, q[1..], tr, now, rate, ticks);
    }
  }

  lemma SilentRtx(cfg: Config, w: World, e: Event)
    requires Silent(cfg, w) && e.EvRtx?
    ensures Silent(cfg, Next(cfg, w, e))
  {
    if RateZero(cfg) {
      ResendsNothing(cfg, w.snd.rtxq, w.snd.rtt.tr, e.now, w.snd.rate, e.ticks);
    }
    assert RtxTimer(cfg, w.snd, e.now, e.ticks).out == [];
  }

  lemma SilentRate(cfg: Config, w: World, e: Event)
    requires Silenced(cfg) && Silent(cfg, w) && e.EvRate?
    ensures Silent(cfg, Next(cfg, w, e))
  {
    DeliversNothing(cfg, w.n0, Reset(w.snd), e.now, e.ticks);
    StaysSilent(cfg, w, Deliver(cfg, Reset(w.snd), e.now, e.ticks));
  }

  lemma SilentReceiver(cfg: Config, w: World, e: Event)
    requires Silenced(cfg) && Silent(cfg, w) && Enabled(cfg, w, e)
    requires e.EvData? || e.EvATimer? || e.EvRendezvous? || e.EvRendezvousTimer? || e.EvSendRendezvous?
    ensures Silent(cfg, Next(cfg, w, e))
  {
  }

  lemma SilentStep(cfg: Config, w: World, e: Event)
    requires Silenced(cfg) && Silent(cfg, w) && Enabled(cfg, w, e)
    ensures Silent(cfg, Next(cfg, w, e))
  {
    match e
    case EvWrite(_, _, _) => SilentWrite(cfg, w, e);
    case EvCtrl(c, _, _) =>
      if Processed(cfg, w.snd, c) {
        SilentControl(cfg, w, e);
      } else {
        SilentIgnored(cfg, w, e);
      }
    case EvRtx(_, _) => SilentRtx(cfg, w, e);
    case EvRate(_, _) => SilentRate(cfg, w, e);
    case _ => SilentReceiver(cfg, w, e);
  }

  /** Such a flow never transmits anything, so its peer never posts anything. */
  lemma {:induction false} SilentRun(cfg: Config, n0: nat, tr: nat, es: seq<Event>)
    requires Silenced(cfg) && Runs(cfg, Start(cfg, n0, tr), es)
    ensures Silent(cfg, Exec(cfg, Start(cfg, n0, tr), es))
  {
    if es != [] {
      SilentRun(cfg, n0, tr, es[..|es| - 1]);
      SilentStep(cfg, Exec(cfg, Start(cfg, n0, tr), es[..|es| - 1]), es[|es| - 1]);
    }
  }

  /** The sender can count a PDU as dropped that was posted exactly if the flow retransmits and can transmit at all. */
  lemma GivenUpExactly(cfg: Config, n0: nat, tr: nat)
    ensures (exists es, p :: GivesUpOnPosted(cfg, n0, tr, es, p)) <==> cfg.rtxCtrl && !Silenced(cfg)
  {
    if cfg.rtxCtrl && !Silenced(cfg) {
      var es := GivingUpRun(cfg, n0, tr);
    } else {
      forall es, p | GivesUpOnPosted(cfg, n0, tr, es, p) ensures false {
        if cfg.rtxCtrl {
          SilentRun(cfg, n0, tr, es);
        } else {
          NoCopiesRun(cfg, n0, tr, es);
        }
      }
    }
  }
}
