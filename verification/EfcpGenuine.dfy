/** Every PDU anywhere in the system is the one that was written under its number, with the Data Run Flag set. */
module EfcpGenuine {
  import opened EfcpTypes
  import opened RateControl
  import opened RtxQueue
  import opened DtpSender
  import opened EfcpWorld
  import R = DtpReceiver

  // ---------------------------------------------------------------- the sender only handles PDUs that it holds

  /** Every PDU of `q'` was in `q` or among `more`. */
  ghost predicate From(q': seq<RtxEntry>, q: seq<RtxEntry>, more: seq<DataPdu>) {
    forall i :: 0 <= i < |q'| ==> HasPdu(q, q'[i].pdu) || q'[i].pdu in more
  }

  ghost predicate Subset(xs: seq<DataPdu>, ys: seq<DataPdu>) {
    forall x :: x in xs ==> x in ys
  }

  /** What a delivery of the closed-window queue leaves alone, and where its PDUs come from. */
  ghost predicate Delivered(s: Snd, d: Step) {
    && d.s.seqNrToSend == s.seqNrToSend && d.s.drfFlag == s.drfFlag
    && Subset(d.s.cwq, s.cwq) && Subset(d.out, s.cwq)
    && From(d.s.rtxq, s.rtxq, s.cwq)
  }

  lemma {:induction false} InsertAdds(q: seq<RtxEntry>, e: RtxEntry, i: nat)
    requires i <= |q|
    ensures InsertFrom(q, e, i).Some? ==> From(InsertFrom(q, e, i).value, q, [e.pdu])
    decreases |q| - i
  {
    if i < |q| && q[i].pdu.sn > e.pdu.sn {
      InsertAdds(q, e, i + 1);
    } else if i < |q| && q[i].pdu.sn < e.pdu.sn {
      var r := InsertFrom(q, e, i).value;
      forall k | 0 <= k < |r| ensures HasPdu(q, r[k].pdu) || r[k].pdu in [e.pdu] {
        if k <= i {
          assert r[k] == q[k];
        } else if k > i + 1 {
          assert r[k] == q[k - 1];
        }
      }
    }
  }

  lemma PushAdds(q: seq<RtxEntry>, e: RtxEntry)
    ensures Push(q, e).Some? ==> From(Push(q, e).value, q, [e.pdu])
  {
    InsertAdds(q, e, 0);
    if Push(q, e) == Some(q + [e]) {
      forall k | 0 <= k < |q| ensures HasPdu(q, (q + [e])[k].pdu) {
        assert (q + [e])[k] == q[k];
      }
    }
  }

  lemma SelfFrom(q: seq<RtxEntry>, more: seq<DataPdu>)
    ensures From(q, q, more)
  {
  }

  lemma FromTrans(q'': seq<RtxEntry>, q': seq<RtxEntry>, q: seq<RtxEntry>, more': seq<DataPdu>, more: seq<DataPdu>)
    requires From(q'', q', more') && From(q', q, more) && Subset(more', more)
    ensures From(q'', q, more)
  {
    forall i | 0 <= i < |q''| ensures HasPdu(q, q''[i].pdu) || q''[i].pdu in more {
      if HasPdu(q', q''[i].pdu) {
        var j :| 0 <= j < |q'| && q'[j].pdu == q''[i].pdu;
        assert HasPdu(q, q'[j].pdu) || q'[j].pdu in more;
      }
    }
  }

  lemma TakeHeadFrom(cfg: Config, s: Snd, now: nat)
    requires s.cwq != []
    ensures From(TakeHead(cfg, s, now).rtxq, s.rtxq, s.cwq)
  {
    SelfFrom(s.rtxq, s.cwq);
    var e := RtxEntry(s.cwq[0], now, 0);
    PushAdds(s.rtxq, e);
    if cfg.rtxCtrl && Push(s.rtxq, e).Some? {
      FromTrans(Push(s.rtxq, e).value, Push(s.rtxq, e).value, s.rtxq, [], s.cwq) by {
        SelfFrom(Push(s.rtxq, e).value, []);
        assert From(Push(s.rtxq, e).value, s.rtxq, [e.pdu]);
      }
    }
  }

  lemma StoppedHolds(cfg: Config, s: Snd, now: nat, ticks: seq<bool>)
    ensures Delivered(s, Step(Stopped(cfg, s, now, ticks), []))
  {
    SelfFrom(s.rtxq, s.cwq);
    if s.cwq != [] {
      TakeHeadFrom(cfg, ClockRead(cfg, s, Tick(ticks)), now);
    }
  }

  lemma SettledHolds(cfg: Config, s: Snd, x: Snd)
    requires Delivered(s, Step(x, []))
    ensures Delivered(s, Step(Settle(cfg, x), []))
  {
  }

  lemma DeliverGoesOn(cfg: Config, s: Snd, now: nat, ticks: seq<bool>, s3: Snd, rest: Step)
    requires Continues(cfg, s, now, ticks) && s3 == Delivered1(cfg, s, now, ticks)
    requires Delivered(s3, rest)
    ensures Delivered(s, Step(rest.s, [s.cwq[0]] + rest.out))
  {
    TakeHeadFrom(cfg, ClockRead(cfg, s, Tick(ticks)), now);
    assert Subset(s3.cwq, s.cwq);
    FromTrans(rest.s.rtxq, s3.rtxq, s.rtxq, s3.cwq, s.cwq);
  }

  lemma {:induction false} DeliverHolds(cfg: Config, s: Snd, now: nat, ticks: seq<bool>)
    ensures Delivered(s, Deliver(cfg, s, now, ticks))
    decreases |s.cwq|
  {
    if Continues(cfg, s, now, ticks) {
      var s3 := Delivered1(cfg, s, now, ticks);
      DeliverHolds(cfg, s3, now, Later(ticks));
      DeliverGoesOn(cfg, s, now, ticks, s3, Deliver(cfg, s3, now, Later(ticks)));
    } else {
      StoppedHolds(cfg, s, now, ticks);
      SettledHolds(cfg, s, Stopped(cfg, s, now, ticks));
    }
  }

  lemma AckKeeps(q: seq<RtxEntry>, ack: nat)
    ensures From(AckUpTo(q, ack), q, [])
  {
    AckShrinks(q, ack);
    var k :| 0 <= k <= |q| && AckUpTo(q, ack) == q[k..];
    forall i | 0 <= i < |q[k..]| ensures HasPdu(q, q[k..][i].pdu) {
      assert q[k..][i] == q[k + i];
    }
  }

  lemma OpenedHolds(cfg: Config, s: Snd, s2: Snd, c: CtrlPdu, now: nat, ticks: seq<bool>)
    requires Delivered(s, Step(s2, [])) && s2.cwq == s.cwq
    ensures Delivered(s, Deliver(cfg, Opened(cfg, s2, c), now, ticks))
  {
    var s3 := Opened(cfg, s2, c);
    DeliverHolds(cfg, s3, now, ticks);
    FromTrans(Deliver(cfg, s3, now, ticks).s.rtxq, s3.rtxq, s.rtxq, s.cwq, s.cwq);
  }

  lemma AcknowledgedHolds(cfg: Config, s: Snd, c: CtrlPdu, now: nat)
    ensures Delivered(s, Step(Acknowledged(cfg, s, c, now), [])) && Acknowledged(cfg, s, c, now).cwq == s.cwq
  {
    SelfFrom(s.rtxq, s.cwq);
    AckKeeps(s.rtxq, c.ackSn);
  }

  lemma ControlHolds(cfg: Config, s: Snd, c: CtrlPdu, now: nat, ticks: seq<bool>)
    ensures Delivered(s, ReceiveControl(cfg, s, c, now, ticks))
  {
    var s1 := s.(lastRcvCtlSeq := c.csn);
    SelfFrom(s.rtxq, s.cwq);
    AcknowledgedHolds(cfg, s1, c, now);
    OpenedHolds(cfg, s1, Acknowledged(cfg, s1, c, now), c, now, ticks);
  }

  lemma {:induction false} RetransmitHolds(cfg: Config, q: seq<RtxEntry>, tr: nat, now: nat, rate: Rate, ticks: seq<bool>)
    ensures var r := Retransmit(cfg, q, tr, now, rate, ticks);
            From(r.queue, q, []) && forall x :: x in r.resent ==> HasPdu(q, x)
  {
    SelfFrom(q, []);
    if q != [] && TimeToRtx(q[0], tr) <= now {
      var e := q[0].(retries := q[0].retries + 1);
      var limited := e.retries < cfg.dataRtxMax && cfg.rateBased;
      var charged := Elapse(Charge(rate, |e.pdu.data|), Tick(ticks));
      var rate' := if limited then charged else rate;
      var ticks' := if limited then Later(ticks) else ticks;
      HasHeadTail(q);
      RetransmitHolds(cfg, q[1..], tr, now, rate', ticks');
      assert q == [q[0]] + q[1..];
      assert forall i :: 0 <= i < |q[1..]| ==> HasPdu(q, q[1..][i].pdu);
    }
  }

  // ---------------------------------------------------------------- the receiver only posts what it got

  ghost predicate InQueue(q: seq<R.SeqEntry>, x: DataPdu) {
    exists i :: 0 <= i < |q| && q[i].pdu == x
  }

  /** Everything left or posted was in the queue, or among `extra`. */
  ghost predicate Handed(left: seq<R.SeqEntry>, posted: seq<DataPdu>, q: seq<R.SeqEntry>, extra: seq<DataPdu>) {
    && (forall i :: 0 <= i < |left| ==> InQueue(q, left[i].pdu) || left[i].pdu in extra)
    && (forall x :: x in posted ==> InQueue(q, x) || x in extra)
  }

  lemma {:induction false} SeqInsertAdds(q: seq<R.SeqEntry>, e: R.SeqEntry, i: nat)
    requires i <= |q|
    ensures Handed(R.InsertFrom(q, e, i), [], q, [e.pdu])
    decreases |q| - i
  {
    if i < |q| && q[i].pdu.sn > e.pdu.sn {
      SeqInsertAdds(q, e, i + 1);
    } else if i < |q| && q[i].pdu.sn < e.pdu.sn {
      var r := R.InsertFrom(q, e, i);
      forall k | 0 <= k < |r| ensures InQueue(q, r[k].pdu) || r[k].pdu in [e.pdu] {
        if k <= i {
          assert r[k] == q[k];
        } else if k > i + 1 {
          assert r[k] == q[k - 1];
        }
      }
    }
  }

  lemma SeqPushAdds(q: seq<R.SeqEntry>, e: R.SeqEntry)
    ensures Handed(R.SeqPush(q, e), [], q, [e.pdu])
  {
    SeqInsertAdds(q, e, 0);
    if R.SeqPush(q, e) == q + [e] {
      forall k | 0 <= k < |q| ensures InQueue(q, (q + [e])[k].pdu) {
        assert (q + [e])[k] == q[k];
      }
    }
  }

  lemma TailInQueue(q: seq<R.SeqEntry>)
    requires q != []
    ensures forall x :: InQueue(q[1..], x) ==> InQueue(q, x)
  {
    forall x | InQueue(q[1..], x) ensures InQueue(q, x) {
      var i :| 0 <= i < |q[1..]| && q[1..][i].pdu == x;
      assert q[i + 1].pdu == x;
    }
  }

  lemma {:induction false} DrainHolds(lwe: nat, q: seq<R.SeqEntry>, extra: seq<DataPdu>)
    ensures var m := R.Drain(lwe, q); Handed(m.left, m.posted, q, extra)
    decreases |q|
  {
    if q != [] && q[0].pdu.sn == lwe + 1 {
      TailInQueue(q);
      DrainHolds(q[0].pdu.sn, q[1..], extra);
    }
  }

  lemma {:induction false} ExpireHolds(cfg: Config, lwe: nat, q: seq<R.SeqEntry>, now: nat, extra: seq<DataPdu>)
    ensures var m := R.Expire(cfg, lwe, q, now); Handed(m.left, m.posted, q, extra)
    decreases |q|
  {
    if q != [] {
      TailInQueue(q);
      ExpireHolds(cfg, lwe, q[1..], now, extra);
      ExpireHolds(cfg, q[0].pdu.sn, q[1..], now, extra);
    }
  }

  lemma SequenceHolds(cfg: Config, r: R.Rcv, pdu: DataPdu, now: nat)
    ensures var d := R.ReceiveInSequence(cfg, r, pdu, now); Handed(d.r.seqq, d.posted, r.seqq, [pdu])
  {
    var next := pdu.sn == r.lwe + 1;
    var q := if next then r.seqq else R.SeqPush(r.seqq, R.SeqEntry(pdu, now));
    SeqPushAdds(r.seqq, R.SeqEntry(pdu, now));
    DrainHolds(if next then pdu.sn else r.lwe, q, [pdu]);
    assert forall x :: InQueue(q, x) ==> InQueue(r.seqq, x) || x == pdu;
  }

  lemma ReceiveHolds(cfg: Config, r: R.Rcv, pdu: DataPdu, now: nat)
    ensures var d := R.Receive(cfg, r, pdu, now); Handed(d.r.seqq, d.posted, r.seqq, [pdu])
  {
    var r1 := R.Counted(cfg, r, pdu).(rendezvousRcvr := false);
    SequenceHolds(cfg, r1, pdu, now);
  }

  // ---------------------------------------------------------------- over every run

  /** The PDU is the one that was written under its number. */
  ghost predicate Genuine(w: World, p: DataPdu) {
    && w.n0 < p.sn <= w.n0 + |w.written|
    && p.data == w.written[p.sn - w.n0 - 1]
    && p.drf
  }

  ghost predicate AllGenuine(w: World) {
    && w.snd.drfFlag
    && w.snd.seqNrToSend == w.n0 + |w.written|
    && (forall p :: p in w.snd.cwq ==> Genuine(w, p))
    && (forall i :: 0 <= i < |w.snd.rtxq| ==> Genuine(w, w.snd.rtxq[i].pdu))
    && (forall p :: p in w.data ==> Genuine(w, p))
    && (forall i :: 0 <= i < |w.rcv.seqq| ==> Genuine(w, w.rcv.seqq[i].pdu))
    && (forall p :: p in w.posted ==> Genuine(w, p))
  }

  /** A step of the sender: the history may grow, and its PDUs come from the old state or are `extra`. */
  lemma SenderExtends(w: World, w': World, extra: seq<DataPdu>)
    requires AllGenuine(w) && w'.n0 == w.n0 && w.written <= w'.written
    requires w'.snd.drfFlag && w'.snd.seqNrToSend == w.n0 + |w'.written|
    requires forall p :: p in extra ==> Genuine(w', p)
    requires Subset(w'.snd.cwq, w.snd.cwq + extra) && From(w'.snd.rtxq, w.snd.rtxq, w.snd.cwq + extra)
    requires forall p :: p in w'.data ==> p in w.data || p in w.snd.cwq + extra || HasPdu(w.snd.rtxq, p)
    requires w'.rcv == w.rcv && w'.posted == w.posted
    ensures AllGenuine(w')
  {
    assert forall p :: Genuine(w, p) ==> Genuine(w', p);
  }

  lemma ReceiverExtends(w: World, w': World, posted: seq<DataPdu>, extra: seq<DataPdu>)
    requires AllGenuine(w) && forall p :: p in extra ==> Genuine(w, p)
    requires w' == w.(rcv := w'.rcv, posted := w.posted + posted, acks := w'.acks, overruns := w'.overruns)
    requires Handed(w'.rcv.seqq, posted, w.rcv.seqq, extra)
    ensures AllGenuine(w')
  {
    assert forall p :: Genuine(w, p) ==> Genuine(w', p);
  }

  lemma WriteGenuine(cfg: Config, w: World, e: Event)
    requires AllGenuine(w) && e.EvWrite?
    ensures AllGenuine(Next(cfg, w, e))
  {
    var w' := Next(cfg, w, e);
    var pdu := NewPdu(cfg, w.snd, e.data);
    PushAdds(w.snd.rtxq, RtxEntry(pdu, e.now, 0));
    SelfFrom(w.snd.rtxq, w.snd.cwq + [pdu]);
    assert From(w'.snd.rtxq, w.snd.rtxq, w.snd.cwq + [pdu]);
    SenderExtends(w, w', [pdu]);
  }

  lemma SenderGenuine(cfg: Config, w: World, e: Event)
    requires AllGenuine(w) && (e.EvCtrl? || e.EvRtx? || e.EvRate? || e.EvSendRendezvous?)
    ensures AllGenuine(Next(cfg, w, e))
  {
    match e {
      case EvCtrl(c, now, ticks) => ControlHolds(cfg, w.snd, c, now, ticks);
      case EvRtx(now, ticks) =>
        RetransmitHolds(cfg, w.snd.rtxq, w.snd.rtt.tr, now, w.snd.rate, ticks);
      case EvRate(now, ticks) =>
        DeliverHolds(cfg, w.snd.(rate := Elapse(w.snd.rate, true).(fulfilled := false), portDisabled := false), now, ticks);
      case EvSendRendezvous =>
        SelfFrom(w.snd.rtxq, w.snd.cwq);
    }
    assert w.snd.cwq + [] == w.snd.cwq;
    SenderExtends(w, Next(cfg, w, e), []);
  }

  lemma ReceiverGenuine(cfg: Config, w: World, e: Event)
    requires AllGenuine(w) && Enabled(cfg, w, e)
    requires e.EvData? || e.EvATimer? || e.EvRendezvous? || e.EvRendezvousTimer?
    ensures AllGenuine(Next(cfg, w, e))
  {
    var w' := Next(cfg, w, e);
    match e {
      case EvData(pdu, now) =>
        ReceiveHolds(cfg, w.rcv, pdu, now);
        ReceiverExtends(w, w', R.Receive(cfg, w.rcv, pdu, now).posted, [pdu]);
      case EvATimer(now) =>
        ExpireHolds(cfg, w.rcv.lwe, w.rcv.seqq, now, []);
        ReceiverExtends(w, w', R.ATimer(cfg, w.rcv, now).posted, []);
      case EvRendezvous(c) =>
      case EvRendezvousTimer =>
    }
    assert forall p :: Genuine(w, p) ==> Genuine(w', p);
  }

  lemma GenuineStep(cfg: Config, w: World, e: Event)
    requires AllGenuine(w) && Enabled(cfg, w, e)
    ensures AllGenuine(Next(cfg, w, e))
  {
    if e.EvWrite? {
      WriteGenuine(cfg, w, e);
    } else if e.EvCtrl? || e.EvRtx? || e.EvRate? || e.EvSendRendezvous? {
      SenderGenuine(cfg, w, e);
    } else {
      ReceiverGenuine(cfg, w, e);
    }
  }

  /** No run ever corrupts, invents or renumbers a PDU, for any configuration. */
  lemma {:induction false} GenuineRun(cfg: Config, n0: nat, tr: nat, es: seq<Event>)
    requires Runs(cfg, Start(cfg, n0, tr), es)
    ensures AllGenuine(Exec(cfg, Start(cfg, n0, tr), es))
  {
    if es != [] {
      GenuineRun(cfg, n0, tr, es[..|es| - 1]);
      GenuineStep(cfg, Exec(cfg, Start(cfg, n0, tr), es[..|es| - 1]), es[|es| - 1]);
    }
  }
}
