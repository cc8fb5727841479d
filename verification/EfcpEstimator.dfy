/**
 The round-trip estimator over runs: it is fed with the age of every PDU that is acknowledged by a new control PDU
 and was sent only once, and with nothing else; so the timeout is what the estimator makes of these samples.
 */
module EfcpEstimator {
  import opened EfcpTypes
  import opened RateControl
  import opened RtxQueue
  import opened Rtt
  import opened DtpSender
  import opened EfcpWorld
  import opened EfcpInTurn
  import opened EfcpGivenUp

  lemma StoppedRtt(cfg: Config, s: Snd, now: nat, ticks: seq<bool>)
    ensures Stopped(cfg, s, now, ticks).rtt == s.rtt
  {
  }

  lemma RoundRtt(cfg: Config, s: Snd, now: nat, ticks: seq<bool>)
    requires s.cwq != []
    ensures Delivered1(cfg, s, now, ticks).rtt == s.rtt
  {
  }

  lemma {:induction false} DeliverKeepsRtt(cfg: Config, s: Snd, now: nat, ticks: seq<bool>)
    ensures Deliver(cfg, s, now, ticks).s.rtt == s.rtt
    decreases |s.cwq|
  {
    if Continues(cfg, s, now, ticks) {
      RoundRtt(cfg, s, now, ticks);
      DeliverKeepsRtt(cfg, Delivered1(cfg, s, now, ticks), now, Later(ticks));
    } else {
      StoppedRtt(cfg, s, now, ticks);
    }
  }

  /** The queue holds the PDU with this number, sent once and never again. */
  ghost predicate SentOnce(q: seq<RtxEntry>, sn: nat, e: RtxEntry) { e in q && e.pdu.sn == sn && e.retries == 0 }

  function Age(e: RtxEntry, now: nat): nat { if now >= e.timeStamp then now - e.timeStamp else 0 }

  /** The control PDU is newer than all before it, and acknowledges. */
  ghost predicate NewAck(cfg: Config, s: Snd, c: CtrlPdu) {
    cfg.rtxCtrl && c.csn > s.lastRcvCtlSeq && (c.kind.Ack? || c.kind.AckAndFlowCtl?)
  }

  /** The samples that an event yields: none, or the age of the PDU that it acknowledges. */
  ghost function SamplesOf(cfg: Config, s: Snd, e: Event): seq<nat> {
    if e.EvCtrl? && NewAck(cfg, s, e.c) && exists x :: SentOnce(s.rtxq, e.c.ackSn, x) then
      var x :| SentOnce(s.rtxq, e.c.ackSn, x);
      [Age(x, e.now)]
    else []
  }

  lemma OneEntry(q: seq<RtxEntry>, e: RtxEntry, e': RtxEntry)
    requires Sorted(q) && e in q && e' in q && e.pdu.sn == e'.pdu.sn
    ensures e == e'
  {
  }

  /** The estimator after the acknowledgement, before the queue is delivered. */
  function AckedRtt(cfg: Config, s: Snd, c: CtrlPdu, now: nat): RttVars {
    if c.csn <= s.lastRcvCtlSeq then s.rtt else Acknowledged(cfg, s.(lastRcvCtlSeq := c.csn), c, now).rtt
  }

  lemma ControlRtt(cfg: Config, s: Snd, c: CtrlPdu, now: nat, ticks: seq<bool>)
    ensures ReceiveControl(cfg, s, c, now, ticks).s.rtt == AckedRtt(cfg, s, c, now)
  {
    DeliverKeepsRtt(cfg, Opened(cfg, Acknowledged(cfg, s.(lastRcvCtlSeq := c.csn), c, now), c), now, ticks);
  }

  /** The sample by what the lookup in the queue yields. */
  ghost function Looked(cfg: Config, s: Snd, c: CtrlPdu, now: nat): seq<nat> {
    if NewAck(cfg, s, c) && Lookup(s.rtxq, c.ackSn).Stamp?
    then (var t := Lookup(s.rtxq, c.ackSn).time; [if now >= t then now - t else 0])
    else []
  }

  lemma AckedLooked(cfg: Config, s: Snd, c: CtrlPdu, now: nat)
    ensures AckedRtt(cfg, s, c, now) == Samples(s.rtt, Looked(cfg, s, c, now), cfg.a)
  {
    if Looked(cfg, s, c, now) != [] {
      assert Looked(cfg, s, c, now)[..0] == [];
    }
  }

  lemma LookedIs(cfg: Config, s: Snd, e: Event)
    requires Sorted(s.rtxq) && e.EvCtrl?
    ensures Looked(cfg, s, e.c, e.now) == SamplesOf(cfg, s, e)
  {
    LookupIsSearch(s.rtxq, e.c.ackSn);
    if NewAck(cfg, s, e.c) && Lookup(s.rtxq, e.c.ackSn).Stamp? {
      var x :| x in s.rtxq && x.pdu.sn == e.c.ackSn && x.retries == 0;
      assert SentOnce(s.rtxq, e.c.ackSn, x);
    }
  }

  /** A control PDU: the estimator takes its sample exactly if the PDU that it acknowledges was sent once. */
  lemma ControlSamples(cfg: Config, s: Snd, e: Event)
    requires Sorted(s.rtxq) && e.EvCtrl?
    ensures ReceiveControl(cfg, s, e.c, e.now, e.ticks).s.rtt == Samples(s.rtt, SamplesOf(cfg, s, e), cfg.a)
  {
    ControlRtt(cfg, s, e.c, e.now, e.ticks);
    AckedLooked(cfg, s, e.c, e.now);
    LookedIs(cfg, s, e);
  }

  lemma OthersKeepRtt(cfg: Config, w: World, e: Event)
    requires !e.EvCtrl?
    ensures Next(cfg, w, e).snd.rtt == w.snd.rtt
  {
    if e.EvRate? {
      DeliverKeepsRtt(cfg, w.snd.(rate := Elapse(w.snd.rate, true).(fulfilled := false), portDisabled := false), e.now, e.ticks);
    }
  }

  /** The samples of a run, in order. */
  ghost function SampleLog(cfg: Config, w: World, es: seq<Event>): seq<nat> {
    if es == [] then []
    else SampleLog(cfg, w, es[..|es| - 1]) + SamplesOf(cfg, Exec(cfg, w, es[..|es| - 1]).snd, es[|es| - 1])
  }

  lemma SamplesMore(v: RttVars, xs: seq<nat>, ys: seq<nat>, a: nat)
    requires |ys| <= 1
    ensures Samples(v, xs + ys, a) == Samples(Samples(v, xs, a), ys, a)
  {
    if ys == [] {
      assert xs + ys == xs;
    } else {
      assert (xs + ys)[..|xs|] == xs && ys[..0] == [];
    }
  }

  lemma SortedRun(cfg: Config, n0: nat, tr: nat, es: seq<Event>)
    requires !Overtakes(cfg) && Runs(cfg, Start(cfg, n0, tr), es)
    ensures Sorted(Exec(cfg, Start(cfg, n0, tr), es).snd.rtxq)
  {
    if cfg.rtxCtrl {
      InTurnRun(cfg, n0, tr, es);
    } else {
      NoCopiesRun(cfg, n0, tr, es);
    }
  }

  /**
   After every run the estimate, its variation and the timeout are what the estimator makes of the samples of the run,
   from nothing and the initial timeout: no sample ever comes from a retransmitted PDU, and none is left out.
   */
  lemma {:induction false} EstimatorFed(cfg: Config, n0: nat, tr: nat, es: seq<Event>)
    requires !Overtakes(cfg) && Runs(cfg, Start(cfg, n0, tr), es)
    ensures Exec(cfg, Start(cfg, n0, tr), es).snd.rtt == Samples(RttVars(0, 0, 0, tr), SampleLog(cfg, Start(cfg, n0, tr), es), cfg.a)
  {
    if es != [] {
      var w0, prefix, e := Start(cfg, n0, tr), es[..|es| - 1], es[|es| - 1];
      var w := Exec(cfg, w0, prefix);
      EstimatorFed(cfg, n0, tr, prefix);
      SortedRun(cfg, n0, tr, prefix);
      if e.EvCtrl? {
        ControlSamples(cfg, w.snd, e);
      } else {
        OthersKeepRtt(cfg, w, e);
      }
      SamplesMore(RttVars(0, 0, 0, tr), SampleLog(cfg, w0, prefix), SamplesOf(cfg, w.snd, e), cfg.a);
    }
  }

  /** No round-trip sample ever comes from a retransmitted PDU, and every new acknowledgement of one sent once gives one. */
  lemma NoRetransmittedSample(cfg: Config, n0: nat, tr: nat, es: seq<Event>, c: CtrlPdu, now: nat, ticks: seq<bool>, e: RtxEntry)
    requires !Overtakes(cfg) && Runs(cfg, Start(cfg, n0, tr), es)
    ensures var s := Exec(cfg, Start(cfg, n0, tr), es).snd; var s' := ReceiveControl(cfg, s, c, now, ticks).s;
            && (NewAck(cfg, s, c) && SentOnce(s.rtxq, c.ackSn, e) ==> s'.rtt == Calculate(s.rtt, Age(e, now), cfg.a))
            && (!(NewAck(cfg, s, c) && exists x :: SentOnce(s.rtxq, c.ackSn, x)) ==> s'.rtt == s.rtt)
  {
    var s, ev := Exec(cfg, Start(cfg, n0, tr), es).snd, EvCtrl(c, now, ticks);
    SortedRun(cfg, n0, tr, es);
    ControlSamples(cfg, s, ev);
    if NewAck(cfg, s, c) && SentOnce(s.rtxq, c.ackSn, e) {
      var x :| SentOnce(s.rtxq, c.ackSn, x) && SamplesOf(cfg, s, ev) == [Age(x, now)];
      OneEntry(s.rtxq, x, e);
      assert [Age(x, now)][..0] == [];
    }
  }

  /**
   With all samples of a run between `lo` and `hi` and no wrap-around, the estimate stays between them and the timeout
   within the bounds of the estimator.
   */
  lemma TimeoutOverRuns(cfg: Config, n0: nat, tr: nat, es: seq<Event>, lo: nat, hi: nat)
    requires !Overtakes(cfg) && Runs(cfg, Start(cfg, n0, tr), es)
    requires var xs := SampleLog(cfg, Start(cfg, n0, tr), es); xs != [] && Within(xs, lo, hi)
    requires 128 * hi < TWO32 && Max(CLOCK_GRANULARITY, 4 * hi) + hi + cfg.a < TWO32
    ensures var v := Exec(cfg, Start(cfg, n0, tr), es).snd.rtt;
            lo <= v.rtt <= hi && v.srtt + CLOCK_GRANULARITY + cfg.a <= v.tr <= Max(CLOCK_GRANULARITY, 4 * hi) + hi + cfg.a
  {
    EstimatorFed(cfg, n0, tr, es);
    EstimatorBounds(SampleLog(cfg, Start(cfg, n0, tr), es), lo, hi, cfg.a, RttVars(0, 0, 0, tr));
  }
}
