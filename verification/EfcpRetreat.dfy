/**
 Where window agreement ends: on a window-only flow without retransmission, with an A-timer and a credit
 of at least four, the resequencing queue can come to hold a number twice and out of order, and an A-timer
 expiry then moves the receiver's edges, and after them the sender's, backwards. The run is given for every
 such configuration, so the condition of `WindowAgreement` is exact.
 */
module EfcpRetreat {
  import opened EfcpTypes
  import opened RtxQueue
  import opened DtpSender
  import opened EfcpWorld
  import opened EfcpAgreement
  import R = DtpReceiver

  // ---------------------------------------------------------------- the scene

  /** The `i`-th PDU of the run, and its place in the resequencing queue. */
  function Nth(n0: nat, i: nat): DataPdu { DataPdu(n0 + i, true, []) }

  function Queued(n0: nat, i: nat): R.SeqEntry { R.SeqEntry(Nth(n0, i), 0) }

  /** What the receiver last advertised. */
  function Newest(r: R.Rcv): CtrlPdu {
    CtrlPdu(FlowCtl, r.nextSndCtlSeq, r.lwe, r.lwe, r.rcvrRtWindEdge, 0, 0, 0, 0)
  }

  /** The sender has sent the numbers up to `n0 + sent`, and nothing waits. */
  ghost predicate SenderAt(w: World, sent: nat, edge: nat) {
    && w.snd.drfFlag && w.snd.cwq == []
    && w.snd.seqNrToSend == w.snd.maxSeqNrSent == w.n0 + sent && w.snd.sndRtWindEdge == w.n0 + edge
    && (forall i :: 1 <= i <= sent ==> Nth(w.n0, i) in w.data)
  }

  /** The receiver is in a run, with this left edge and this resequencing queue, and has said so. */
  ghost predicate ReceiverAt(cfg: Config, w: World, left: nat, q: seq<R.SeqEntry>) {
    && !w.rcv.drfRequired && w.rcv.lwe == w.n0 + left && w.rcv.seqq == q
    && w.rcv.rcvrRtWindEdge == w.rcv.lwe + cfg.initialCredit
    && Newest(w.rcv) in w.acks && w.snd.lastRcvCtlSeq <= w.rcv.nextSndCtlSeq
  }

  ghost predicate Scene(cfg: Config, w: World, sent: nat, edge: nat, left: nat, q: seq<R.SeqEntry>) {
    SenderAt(w, sent, edge) && ReceiverAt(cfg, w, left, q)
  }

  /** Window-only flows outside the reach of `WindowAgreement`. */
  ghost predicate Unsteady(cfg: Config) { cfg.WindowOnly() && !Steady(cfg) }

  // ---------------------------------------------------------------- single steps

  const WRITES := EvWrite([], 0, false)

  lemma OneWrite(cfg: Config, w: World, sent: nat, edge: nat)
    requires Unsteady(cfg) && SenderAt(w, sent, edge) && sent < edge
    ensures var w' := Next(cfg, w, WRITES);
            SenderAt(w', sent + 1, edge) && w'.rcv == w.rcv && w'.acks == w.acks && w'.n0 == w.n0
            && w'.snd.lastRcvCtlSeq == w.snd.lastRcvCtlSeq
  {
    var w' := Next(cfg, w, WRITES);
    assert Write(cfg, w.snd, [], 0, false).out == [Nth(w.n0, sent + 1)];
    assert w'.data == w.data + {Nth(w.n0, sent + 1)};
  }

  /** The sender processes what the receiver last advertised. */
  function Hears(w: World): Event { EvCtrl(Newest(w.rcv), 0, []) }

  lemma OneHearing(cfg: Config, w: World, sent: nat, edge: nat, left: nat, q: seq<R.SeqEntry>)
    requires Unsteady(cfg) && Scene(cfg, w, sent, edge, left, q) && w.snd.lastRcvCtlSeq < w.rcv.nextSndCtlSeq
    ensures var w' := Next(cfg, w, Hears(w));
            Scene(cfg, w', sent, left + cfg.initialCredit, left, q) && w'.n0 == w.n0
  {
    var w' := Next(cfg, w, Hears(w));
    assert ReceiveControl(cfg, w.snd, Newest(w.rcv), 0, []).out == [];
    assert w'.data == w.data;
  }

  function Takes(w: World, i: nat): Event { EvData(Nth(w.n0, i), 0) }

  lemma Answered(cfg: Config, w: World, w': World, d: R.RcvStep, r: R.Rcv, left: nat)
    requires Unsteady(cfg) && w' == w.(rcv := d.r, posted := w'.posted, acks := w.acks + Elements(d.ctrl), overruns := w'.overruns)
    requires d == R.SvUpdate(cfg, r).(posted := d.posted) && r.nextSndCtlSeq == w.rcv.nextSndCtlSeq
    requires !r.drfRequired && r.lwe == w.n0 + left && w.snd.lastRcvCtlSeq <= w.rcv.nextSndCtlSeq
    ensures ReceiverAt(cfg, w', left, r.seqq) && w'.snd.lastRcvCtlSeq < w'.rcv.nextSndCtlSeq
  {
    assert d.ctrl == [Newest(d.r)];
  }

  /** The first arrival starts the run. */
  lemma FirstArrival(cfg: Config, w: World, sent: nat, edge: nat)
    requires Unsteady(cfg) && SenderAt(w, sent, edge) && w.rcv == R.Init(cfg) && w.snd.lastRcvCtlSeq == 0
    ensures var w' := Next(cfg, w, Takes(w, 1));
            Scene(cfg, w', sent, edge, 1, []) && w'.snd.lastRcvCtlSeq < w'.rcv.nextSndCtlSeq && w'.n0 == w.n0
  {
    Answered(cfg, w, Next(cfg, w, Takes(w, 1)), R.Receive(cfg, w.rcv, Nth(w.n0, 1), 0),
             w.rcv.(drfRequired := false, lwe := w.n0 + 1, seqq := []), 1);
  }

  /** A later arrival inside the window. */
  lemma OneArrival(
      cfg: Config, w: World, sent: nat, edge: nat, left: nat, q: seq<R.SeqEntry>, i: nat, left': nat,
      q': seq<R.SeqEntry>)
    requires Unsteady(cfg) && Scene(cfg, w, sent, edge, left, q) && left < i <= left + cfg.initialCredit
    requires var next := i == left + 1;
             var m := R.Drain(w.n0 + if next then i else left, if next then q else R.SeqPush(q, Queued(w.n0, i)));
             m.lwe == w.n0 + left' && m.left == q'
    ensures var w' := Next(cfg, w, Takes(w, i));
            Scene(cfg, w', sent, edge, left', q') && w'.snd.lastRcvCtlSeq < w'.rcv.nextSndCtlSeq && w'.n0 == w.n0
  {
    Answered(cfg, w, Next(cfg, w, Takes(w, i)), R.Receive(cfg, w.rcv, Nth(w.n0, i), 0),
             w.rcv.(rendezvousRcvr := false, lwe := w.n0 + left', seqq := q'), left');
  }

  /** An arrival that only joins the queue. */
  lemma JoinsQueue(cfg: Config, w: World, sent: nat, edge: nat, left: nat, q: seq<R.SeqEntry>, i: nat, q': seq<R.SeqEntry>)
    requires Unsteady(cfg) && Scene(cfg, w, sent, edge, left, q) && left + 1 < i <= left + cfg.initialCredit
    requires R.SeqPush(q, Queued(w.n0, i)) == q' && q' != [] && q'[0].pdu.sn != w.n0 + left + 1
    ensures var w' := Next(cfg, w, Takes(w, i));
            Scene(cfg, w', sent, edge, left, q') && w'.snd.lastRcvCtlSeq < w'.rcv.nextSndCtlSeq && w'.n0 == w.n0
  {
    OneArrival(cfg, w, sent, edge, left, q, i, left, q');
  }

  /** The A-timer posts two old numbers, and takes the left edge back to the second. */
  lemma OldOnesPosted(cfg: Config, w: World, sent: nat, edge: nat, left: nat)
    requires Unsteady(cfg) && Scene(cfg, w, sent, edge, left, [Queued(w.n0, 4), Queued(w.n0, 5)])
    ensures var w' := Next(cfg, w, EvATimer(cfg.a));
            Scene(cfg, w', sent, edge, 5, []) && w'.snd.lastRcvCtlSeq < w'.rcv.nextSndCtlSeq && w'.n0 == w.n0
  {
    var q := [Queued(w.n0, 4), Queued(w.n0, 5)];
    assert q[1..] == [Queued(w.n0, 5)] && q[1..][1..] == [];
    assert R.Expire(cfg, w.n0 + 4, q[1..], cfg.a) == R.Moved(w.n0 + 5, [], [Nth(w.n0, 5)]);
    Answered(cfg, w, Next(cfg, w, EvATimer(cfg.a)), R.ATimer(cfg, w.rcv, cfg.a),
             w.rcv.(lwe := w.n0 + 5, seqq := []), 5);
  }

  // ---------------------------------------------------------------- the run

  /** `es` is a run without rendezvous that ends in `w`. */
  ghost predicate Reaches(cfg: Config, n0: nat, tr: nat, es: seq<Event>, w: World) {
    Runs(cfg, Start(cfg, n0, tr), es) && NoRendezvous(es) && Exec(cfg, Start(cfg, n0, tr), es) == w
  }

  lemma ReachesOn(cfg: Config, n0: nat, tr: nat, es: seq<Event>, w: World, e: Event)
    requires Reaches(cfg, n0, tr, es, w) && Enabled(cfg, w, e) && !e.EvSendRendezvous?
    ensures Reaches(cfg, n0, tr, es + [e], Next(cfg, w, e))
  {
    Onward(cfg, Start(cfg, n0, tr), es, e);
  }

  /** Numbers 1 to 4 are sent, 1 arrives, the sender hears of it and sends 5. */
  lemma Opening(cfg: Config, n0: nat, tr: nat) returns (es: seq<Event>, w: World)
    requires Unsteady(cfg)
    ensures Reaches(cfg, n0, tr, es, w) && w.n0 == n0
    ensures Scene(cfg, w, 5, cfg.initialCredit + 1, 1, [])
  {
    w, es := Start(cfg, n0, tr), [];
    for i := 0 to 4
      invariant Reaches(cfg, n0, tr, es, w) && w.n0 == n0 && SenderAt(w, i, cfg.initialCredit)
      invariant w.rcv == R.Init(cfg) && w.snd.lastRcvCtlSeq == 0
    {
      OneWrite(cfg, w, i, cfg.initialCredit);
      ReachesOn(cfg, n0, tr, es, w, WRITES);
      w, es := Next(cfg, w, WRITES), es + [WRITES];
    }
    FirstArrival(cfg, w, 4, cfg.initialCredit);
    ReachesOn(cfg, n0, tr, es, w, Takes(w, 1));
    w, es := Next(cfg, w, Takes(w, 1)), es + [Takes(w, 1)];
    OneHearing(cfg, w, 4, cfg.initialCredit, 1, []);
    ReachesOn(cfg, n0, tr, es, w, Hears(w));
    w, es := Next(cfg, w, Hears(w)), es + [Hears(w)];
    OneWrite(cfg, w, 4, cfg.initialCredit + 1);
    ReachesOn(cfg, n0, tr, es, w, WRITES);
    w, es := Next(cfg, w, WRITES), es + [WRITES];
  }

  lemma {:induction false} OneJoins(
      cfg: Config, n0: nat, tr: nat, es: seq<Event>, w: World, q: seq<R.SeqEntry>, i: nat, q': seq<R.SeqEntry>)
    returns (es': seq<Event>, w': World)
    requires Unsteady(cfg) && Reaches(cfg, n0, tr, es, w) && w.n0 == n0 && Scene(cfg, w, 5, cfg.initialCredit + 1, 1, q)
    requires 2 < i <= 5 && R.SeqPush(q, Queued(n0, i)) == q' && q' != [] && q'[0].pdu.sn == n0 + 3
    ensures Reaches(cfg, n0, tr, es', w') && w'.n0 == n0 && Scene(cfg, w', 5, cfg.initialCredit + 1, 1, q')
  {
    JoinsQueue(cfg, w, 5, cfg.initialCredit + 1, 1, q, i, q');
    ReachesOn(cfg, n0, tr, es, w, Takes(w, i));
    w', es' := Next(cfg, w, Takes(w, i)), es + [Takes(w, i)];
  }

  /** A repeated number is inserted behind the first smaller one, in front of the one that it repeats. */
  lemma PushesDouble(a: R.SeqEntry, b: R.SeqEntry, c: R.SeqEntry)
    requires a.pdu.sn < b.pdu.sn < c.pdu.sn
    ensures R.SeqPush([], a) == [a] && R.SeqPush([a], c) == [a, c]
    ensures R.SeqPush([a, c], b) == [a, b, c] && R.SeqPush([a, b, c], b) == [a, b, b, c]
  {
  }

  /** 3, 5 and twice 4 arrive: the queue does not see that it holds 4 already. */
  lemma Doubled(cfg: Config, n0: nat, tr: nat) returns (es: seq<Event>, w: World)
    requires Unsteady(cfg)
    ensures Reaches(cfg, n0, tr, es, w) && w.n0 == n0
    ensures Scene(cfg, w, 5, cfg.initialCredit + 1, 1, [Queued(n0, 3), Queued(n0, 4), Queued(n0, 4), Queued(n0, 5)])
  {
    var a, b, c := Queued(n0, 3), Queued(n0, 4), Queued(n0, 5);
    PushesDouble(a, b, c);
    es, w := Opening(cfg, n0, tr);
    es, w := OneJoins(cfg, n0, tr, es, w, [], 3, [a]);
    es, w := OneJoins(cfg, n0, tr, es, w, [a], 5, [a, c]);
    es, w := OneJoins(cfg, n0, tr, es, w, [a, c], 4, [a, b, c]);
    es, w := OneJoins(cfg, n0, tr, es, w, [a, b, c], 4, [a, b, b, c]);
  }

  /** 2 arrives and lets 3 and 4 through; the second 4 stops the draining, before 5. */
  lemma Stuck(cfg: Config, n0: nat, tr: nat) returns (es: seq<Event>, w: World)
    requires Unsteady(cfg)
    ensures Reaches(cfg, n0, tr, es, w) && w.n0 == n0
    ensures Scene(cfg, w, 6, cfg.initialCredit + 4, 4, [Queued(n0, 4), Queued(n0, 5)])
  {
    var a, b, c := Queued(n0, 3), Queued(n0, 4), Queued(n0, 5);
    es, w := Doubled(cfg, n0, tr);
    assert [a, b, b, c][1..] == [b, b, c] && [b, b, c][1..] == [b, c];
    assert R.Drain(n0 + 4, [b, c]) == R.Moved(n0 + 4, [b, c], []);
    assert R.Drain(n0 + 3, [b, b, c]) == R.Moved(n0 + 4, [b, c], [b.pdu]);
    OneArrival(cfg, w, 5, cfg.initialCredit + 1, 1, [a, b, b, c], 2, 4, [b, c]);
    ReachesOn(cfg, n0, tr, es, w, Takes(w, 2));
    w, es := Next(cfg, w, Takes(w, 2)), es + [Takes(w, 2)];
    OneHearing(cfg, w, 5, cfg.initialCredit + 1, 4, [b, c]);
    ReachesOn(cfg, n0, tr, es, w, Hears(w));
    w, es := Next(cfg, w, Hears(w)), es + [Hears(w)];
    OneWrite(cfg, w, 5, cfg.initialCredit + 4);
    ReachesOn(cfg, n0, tr, es, w, WRITES);
    w, es := Next(cfg, w, WRITES), es + [WRITES];
  }

  /** 5 and 6 arrive, and the sender hears of 6. */
  lemma Ahead(cfg: Config, n0: nat, tr: nat) returns (es: seq<Event>, w: World)
    requires Unsteady(cfg)
    ensures Reaches(cfg, n0, tr, es, w) && w.n0 == n0
    ensures Scene(cfg, w, 6, cfg.initialCredit + 6, 6, [Queued(n0, 4), Queued(n0, 5)])
  {
    var q := [Queued(n0, 4), Queued(n0, 5)];
    es, w := Stuck(cfg, n0, tr);
    OneArrival(cfg, w, 6, cfg.initialCredit + 4, 4, q, 5, 5, q);
    ReachesOn(cfg, n0, tr, es, w, Takes(w, 5));
    w, es := Next(cfg, w, Takes(w, 5)), es + [Takes(w, 5)];
    OneArrival(cfg, w, 6, cfg.initialCredit + 4, 5, q, 6, 6, q);
    ReachesOn(cfg, n0, tr, es, w, Takes(w, 6));
    w, es := Next(cfg, w, Takes(w, 6)), es + [Takes(w, 6)];
    OneHearing(cfg, w, 6, cfg.initialCredit + 4, 6, q);
    ReachesOn(cfg, n0, tr, es, w, Hears(w));
    w, es := Next(cfg, w, Hears(w)), es + [Hears(w)];
  }

  // ---------------------------------------------------------------- exactly which flows agree

  /**
   On every unsteady flow, whatever its credit, A-timer and allowed gap: a run after which the receiver's
   right edge is below the sender's, and one event more takes the sender's own edge back.
   */
  lemma EdgeCanRetreat(cfg: Config, n0: nat, tr: nat) returns (es: seq<Event>, e: Event)
    requires Unsteady(cfg)
    ensures Runs(cfg, Start(cfg, n0, tr), es + [e]) && NoRendezvous(es + [e])
    ensures Runs(cfg, Start(cfg, n0, tr), es) && NoRendezvous(es)
    ensures var w := Exec(cfg, Start(cfg, n0, tr), es);
            && !w.rcv.drfRequired && w.rcv.rcvrRtWindEdge < w.snd.sndRtWindEdge
            && Exec(cfg, Start(cfg, n0, tr), es + [e]).snd.sndRtWindEdge < w.snd.sndRtWindEdge
  {
    var w;
    es, w := Ahead(cfg, n0, tr);
    OldOnesPosted(cfg, w, 6, cfg.initialCredit + 6, 6);
    ReachesOn(cfg, n0, tr, es, w, EvATimer(cfg.a));
    w, es := Next(cfg, w, EvATimer(cfg.a)), es + [EvATimer(cfg.a)];
    e := Hears(w);
    OneHearing(cfg, w, 6, cfg.initialCredit + 6, 5, []);
    ReachesOn(cfg, n0, tr, es, w, e);
  }

  /** A run without rendezvous, on a retransmitting flow also without roll-over. */
  ghost predicate Covered(cfg: Config, n0: nat, tr: nat, es: seq<Event>) {
    && Runs(cfg, Start(cfg, n0, tr), es) && NoRendezvous(es)
    && (cfg.rtxCtrl ==> NoRollover(cfg, Exec(cfg, Start(cfg, n0, tr), es)))
  }

  /** The sender's edge has moved back somewhere between the first `k` events and the last one. */
  ghost predicate Retreats(cfg: Config, n0: nat, tr: nat, es: seq<Event>, k: nat) {
    && k <= |es|
    && Exec(cfg, Start(cfg, n0, tr), es).snd.sndRtWindEdge < Exec(cfg, Start(cfg, n0, tr), es[..k]).snd.sndRtWindEdge
  }

  ghost predicate AlwaysAgrees(cfg: Config, n0: nat, tr: nat) {
    forall es :: Covered(cfg, n0, tr, es) ==> EdgesAgree(cfg, Exec(cfg, Start(cfg, n0, tr), es))
  }

  ghost predicate NeverRetreats(cfg: Config, n0: nat, tr: nat) {
    forall es, k: nat :: Covered(cfg, n0, tr, es) ==> !Retreats(cfg, n0, tr, es, k)
  }

  lemma SteadyAgrees(cfg: Config, n0: nat, tr: nat)
    requires cfg.WindowOnly() && Steady(cfg)
    ensures AlwaysAgrees(cfg, n0, tr) && NeverRetreats(cfg, n0, tr)
  {
    forall es | Covered(cfg, n0, tr, es) ensures EdgesAgree(cfg, Exec(cfg, Start(cfg, n0, tr), es)) {
      WindowAgreement(cfg, n0, tr, es);
    }
    forall es, k: nat | Covered(cfg, n0, tr, es) ensures !Retreats(cfg, n0, tr, es, k) {
      if k <= |es| {
        EdgeNeverRetreats(cfg, n0, tr, es, k);
      }
    }
  }

  lemma UnsteadyFails(cfg: Config, n0: nat, tr: nat)
    requires Unsteady(cfg)
    ensures !AlwaysAgrees(cfg, n0, tr) && !NeverRetreats(cfg, n0, tr)
  {
    var es, e := EdgeCanRetreat(cfg, n0, tr);
    var longer := es + [e];
    assert longer[..|es|] == es;
    assert Covered(cfg, n0, tr, es) && Covered(cfg, n0, tr, longer);
    assert Retreats(cfg, n0, tr, longer, |es|);
  }

  /**
   The flows on which the edges agree after every run, and the flows on which the sender's edge never
   retreats, are the same: those that retransmit, have no A-timer, or have a credit of at most three.
   */
  lemma AgreementExactly(cfg: Config, n0: nat, tr: nat)
    requires cfg.WindowOnly()
    ensures AlwaysAgrees(cfg, n0, tr) <==> (cfg.rtxCtrl || cfg.a == 0 || cfg.initialCredit <= 3)
    ensures NeverRetreats(cfg, n0, tr) <==> (cfg.rtxCtrl || cfg.a == 0 || cfg.initialCredit <= 3)
  {
    if Steady(cfg) {
      SteadyAgrees(cfg, n0, tr);
    } else {
      UnsteadyFails(cfg, n0, tr);
    }
  }
}
