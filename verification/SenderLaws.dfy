/**
 Exactly what a step of the sender does: when a write is parked and when the writer is stopped, how much of the
 closed-window queue is sent, what a control PDU and the timers change, and what each of them leaves alone.
 */
module SenderLaws {
  import opened EfcpTypes
  import opened RateControl
  import opened RtxQueue
  import opened DtpSender
  import opened EfcpWindow

  // ---------------------------------------------------------------- writing

  /** The next number is outside the window, or the rate of the time unit is used up. */
  predicate Closed(cfg: Config, s: Snd, tick: bool) {
    || (cfg.windowBased && s.seqNrToSend + 1 > s.sndRtWindEdge)
    || (cfg.rateBased && (if tick then 0 else s.rate.sent) >= s.rate.sndrRate)
  }

  ghost predicate IsNext(cfg: Config, s: Snd, data: seq<Octet>, p: DataPdu) {
    p.sn == s.seqNrToSend + 1 && p.data == data && (p.drf <==> s.drfFlag || (cfg.rtxCtrl && s.sndLftWin == s.seqNrToSend))
  }

  /** Nothing that only deliveries, control PDUs and the timers change. */
  ghost predicate WriteLeaves(s: Snd, s': Snd) {
    && s'.sndRtWindEdge == s.sndRtWindEdge && s'.drfFlag == s.drfFlag && s'.rtxDrops == s.rtxDrops && s'.rtt == s.rtt
    && s'.lastRcvCtlSeq == s.lastRcvCtlSeq && s'.nextSndCtlSeq == s.nextSndCtlSeq
    && s'.rate.sndrRate == s.rate.sndrRate && s'.rate.rcvrRate == s.rate.rcvrRate
  }

  /**
   A write that finds the window closed is parked behind all others. The writer is stopped once the queue has reached its
   length, and a rendezvous is asked for if nothing is kept whose acknowledgement could open the window.
   */
  lemma ParkedExactly(cfg: Config, s: Snd, data: seq<Octet>, now: nat, tick: bool)
    requires Closed(cfg, s, tick)
    ensures var d := Write(cfg, s, data, now, tick);
            && d.out == [] && d.s.seqNrToSend == s.seqNrToSend + 1
            && (exists p :: IsNext(cfg, s, data, p) && d.s.cwq == s.cwq + [p])
            && d.s.portDisabled == (s.portDisabled || |s.cwq| + 1 >= cfg.MaxClosedWinqLength())
            && d.s.rendezvousSndr == (s.rendezvousSndr || !cfg.rtxCtrl || s.rtxq == [])
            && d.s.windowClosed == (s.windowClosed || (cfg.windowBased && s.seqNrToSend + 1 > s.sndRtWindEdge))
            && d.s.rtxq == s.rtxq && d.s.maxSeqNrSent == s.maxSeqNrSent && d.s.sndLftWin == s.sndLftWin
            && !d.s.inactivityArmed && WriteLeaves(s, d.s)
            && d.s.rate.sent == (if cfg.rateBased && tick then 0 else s.rate.sent)
  {
    assert IsNext(cfg, s, data, NewPdu(cfg, s, data));
  }

  /** A write that finds it open is transmitted, a copy is kept if the flow retransmits, and its bytes are charged. */
  lemma SentExactly(cfg: Config, s: Snd, data: seq<Octet>, now: nat, tick: bool)
    requires !Closed(cfg, s, tick) && AllBelow(s.rtxq, s.seqNrToSend + 1)
    ensures var d := Write(cfg, s, data, now, tick);
            && |d.out| == 1 && IsNext(cfg, s, data, d.out[0]) && d.s.seqNrToSend == s.seqNrToSend + 1
            && d.s.rtxq == (if cfg.rtxCtrl then s.rtxq + [RtxEntry(d.out[0], now, 0)] else s.rtxq)
            && d.s.maxSeqNrSent == d.s.sndLftWin == s.seqNrToSend + 1
            && d.s.cwq == s.cwq && d.s.portDisabled == s.portDisabled && d.s.rendezvousSndr == s.rendezvousSndr
            && d.s.windowClosed == s.windowClosed && d.s.inactivityArmed && WriteLeaves(s, d.s)
            && d.s.rate.sent == (if !cfg.rateBased then s.rate.sent
                                 else Min((if tick then 0 else s.rate.sent) + |data|, s.rate.sndrRate))
  {
    PushAtTail(s.rtxq, RtxEntry(NewPdu(cfg, s, data), now, 0));
  }

  // ---------------------------------------------------------------- delivering

  /** The counters after these PDUs were delivered, the clock being read before each. */
  function PaidFor(cfg: Config, rate: Rate, pdus: seq<DataPdu>, ticks: seq<bool>): Rate
    decreases |pdus|
  {
    if pdus == [] then rate
    else
      var r := if cfg.rateBased then Elapse(rate, Tick(ticks)) else rate;
      var c := if cfg.flowCtrl && cfg.rateBased then Charge(r, |pdus[0].data|) else r;
      PaidFor(cfg, FirstTransmission(c, |pdus[0].data|), pdus[1..], Later(ticks))
  }

  /** While no time unit ends the counter grows by the payload, up to the rate. */
  lemma {:induction false} PaidTotal(cfg: Config, rate: Rate, pdus: seq<DataPdu>, ticks: seq<bool>)
    requires cfg.flowCtrl && cfg.rateBased && rate.sent <= rate.sndrRate && forall i :: 0 <= i < |ticks| ==> !ticks[i]
    ensures PaidFor(cfg, rate, pdus, ticks)
         == rate.(sent := Min(rate.sent + Payload(pdus), rate.sndrRate), firstTx := rate.firstTx + Payload(pdus))
    decreases |pdus|
  {
    if pdus != [] {
      PaidTotal(cfg, FirstTransmission(Charge(rate, |pdus[0].data|), |pdus[0].data|), pdus[1..], Later(ticks));
    }
  }

  function After(ticks: seq<bool>, k: nat): seq<bool> { if k <= |ticks| then ticks[k..] else [] }

  /** The counters when the clock has been read for PDU number `i` of the queue. */
  function RateAt(cfg: Config, s: Snd, ticks: seq<bool>, i: nat): Rate
    requires i <= |s.cwq|
  {
    var r := PaidFor(cfg, s.rate, s.cwq[..i], ticks);
    if cfg.rateBased then Elapse(r, Tick(After(ticks, i))) else r
  }

  /** The highest number sent before PDU number `i` of the queue. */
  function SentBefore(s: Snd, i: nat): nat
    requires i <= |s.cwq|
  {
    if i == 0 then s.maxSeqNrSent else s.cwq[i - 1].sn
  }

  /** There is room for PDU number `i`: in the window, or by the count of what was received. */
  ghost predicate HasRoom(cfg: Config, s: Snd, ticks: seq<bool>, i: nat)
    requires i < |s.cwq|
  {
    || (cfg.windowBased && SentBefore(s, i) < s.sndRtWindEdge)
    || (cfg.rateBased && RateAt(cfg, s, ticks, i).rcvd < s.rate.rcvrRate)
  }

  /** Its bytes do not use up the rate. */
  ghost predicate CanPay(cfg: Config, s: Snd, ticks: seq<bool>, i: nat)
    requires i < |s.cwq|
  {
    cfg.flowCtrl && cfg.rateBased ==> RateAt(cfg, s, ticks, i).sent + |s.cwq[i].data| < s.rate.sndrRate
  }

  /** `k` is the length of the longest prefix of the queue that there is room for and that can be paid for. */
  ghost predicate SendsUpTo(cfg: Config, s: Snd, ticks: seq<bool>, k: nat) {
    && k <= |s.cwq| && (forall i :: 0 <= i < k ==> HasRoom(cfg, s, ticks, i) && CanPay(cfg, s, ticks, i))
    && (k < |s.cwq| ==> !(HasRoom(cfg, s, ticks, k) && CanPay(cfg, s, ticks, k)))
  }

  /** How many PDUs leave the queue: one for which there is room, but not rate, is taken without being sent. */
  ghost function TakenOut(cfg: Config, s: Snd, ticks: seq<bool>, k: nat): nat
    requires k <= |s.cwq|
  {
    if k < |s.cwq| && HasRoom(cfg, s, ticks, k) then k + 1 else k
  }

  /** What a delivery that sends `k` PDUs and takes out `n` does to the queues and to what was sent. */
  ghost predicate Moves(cfg: Config, s: Snd, now: nat, k: nat, n: nat, out: seq<DataPdu>, s': Snd)
    requires k <= n <= |s.cwq|
  {
    && out == s.cwq[..k] && s'.cwq == s.cwq[n..]
    && s'.rtxq == (if cfg.rtxCtrl then s.rtxq + Stamped(s.cwq[..n], now) else s.rtxq)
    && s'.maxSeqNrSent == SentBefore(s, k) && s'.sndLftWin == (if k == 0 then s.sndLftWin else SentBefore(s, k))
  }

  /** What it does to the flags: the writer goes on, and the window counts as open, if it empties the queue. */
  ghost predicate Flags(cfg: Config, s: Snd, emptied: bool, s': Snd) {
    && s'.portDisabled == (s.portDisabled && (!emptied || cfg.MaxClosedWinqLength() == 0))
    && s'.windowClosed == (if cfg.windowBased then !emptied else s.windowClosed)
    && (cfg.rateBased ==> s'.rate.fulfilled)
  }

  ghost predicate Delivers(cfg: Config, s: Snd, now: nat, k: nat, n: nat, d: Step)
    requires k <= n <= |s.cwq|
  {
    Moves(cfg, s, now, k, n, d.out, d.s) && Flags(cfg, s, n == |s.cwq|, d.s) && DeliveryLeaves(s, d.s)
  }

  /** Nothing that has to do neither with the queues nor with the window and rate flags. */
  ghost predicate DeliveryLeaves(s: Snd, s': Snd) {
    && s'.seqNrToSend == s.seqNrToSend && s'.sndRtWindEdge == s.sndRtWindEdge && s'.drfFlag == s.drfFlag
    && s'.rendezvousSndr == s.rendezvousSndr && s'.rtxDrops == s.rtxDrops && s'.rtt == s.rtt
    && s'.lastRcvCtlSeq == s.lastRcvCtlSeq && s'.nextSndCtlSeq == s.nextSndCtlSeq && s'.inactivityArmed == s.inactivityArmed
  }

  /** What it leaves of the counters; a PDU that is taken without being sent uses the rate up. */
  ghost predicate Pays(cfg: Config, s: Snd, ticks: seq<bool>, k: nat, n: nat, d: Step)
    requires k <= n <= |s.cwq|
  {
    var r := if k == |s.cwq| then PaidFor(cfg, s.rate, s.cwq, ticks) else RateAt(cfg, s, ticks, k);
    d.s.rate.(fulfilled := false) == (if k < n then r.(sent := r.sndrRate) else r).(fulfilled := false)
  }

  lemma PaidKeeps(cfg: Config, rate: Rate, pdus: seq<DataPdu>, ticks: seq<bool>)
    ensures var r := PaidFor(cfg, rate, pdus, ticks); r.sndrRate == rate.sndrRate && r.rcvrRate == rate.rcvrRate
    decreases |pdus|
  {
    if pdus != [] {
      var r := if cfg.rateBased then Elapse(rate, Tick(ticks)) else rate;
      var c := if cfg.flowCtrl && cfg.rateBased then Charge(r, |pdus[0].data|) else r;
      PaidKeeps(cfg, FirstTransmission(c, |pdus[0].data|), pdus[1..], Later(ticks));
    }
  }

  /** The queue is in order, and behind everything that is kept. */
  ghost predicate InOrder(s: Snd) {
    && (s.cwq != [] ==> s.cwq[0].sn > 0 && Consecutive(s.cwq, s.cwq[0].sn - 1) && AllBelow(s.rtxq, s.cwq[0].sn))
  }

  // The state after the first PDU, seen from the state before it.

  ghost predicate Follows(cfg: Config, s: Snd, now: nat, ticks: seq<bool>, s': Snd) {
    && s.cwq != [] && s'.cwq == s.cwq[1..] && s'.maxSeqNrSent == s'.sndLftWin == s.cwq[0].sn
    && s'.rtxq == (if cfg.rtxCtrl then s.rtxq + [RtxEntry(s.cwq[0], now, 0)] else s.rtxq)
    && s'.rate == PaidFor(cfg, s.rate, s.cwq[..1], ticks)
    && s' == s.(cwq := s'.cwq, rtxq := s'.rtxq, maxSeqNrSent := s'.maxSeqNrSent, sndLftWin := s'.sndLftWin, rate := s'.rate)
  }

  lemma NextRound(cfg: Config, s: Snd, now: nat, ticks: seq<bool>, s': Snd)
    requires InOrder(s) && s.cwq != [] && s' == Delivered1(cfg, s, now, ticks)
    ensures InOrder(s') && Follows(cfg, s, now, ticks, s')
  {
    NextQueues(cfg, s, now, ticks, s');
    NextRate(cfg, s, now, ticks, s');
    NextInOrder(cfg, s, now, s');
  }

  lemma NextQueues(cfg: Config, s: Snd, now: nat, ticks: seq<bool>, s': Snd)
    requires InOrder(s) && s.cwq != [] && s' == Delivered1(cfg, s, now, ticks)
    ensures s'.cwq == s.cwq[1..] && s'.maxSeqNrSent == s'.sndLftWin == s.cwq[0].sn
    ensures s'.rtxq == (if cfg.rtxCtrl then s.rtxq + [RtxEntry(s.cwq[0], now, 0)] else s.rtxq)
    ensures s' == s.(cwq := s'.cwq, rtxq := s'.rtxq, maxSeqNrSent := s'.maxSeqNrSent, sndLftWin := s'.sndLftWin, rate := s'.rate)
  {
    PushAtTail(s.rtxq, RtxEntry(s.cwq[0], now, 0));
  }

  lemma NextRate(cfg: Config, s: Snd, now: nat, ticks: seq<bool>, s': Snd)
    requires s.cwq != [] && s' == Delivered1(cfg, s, now, ticks)
    ensures s'.rate == PaidFor(cfg, s.rate, s.cwq[..1], ticks)
  {
    assert s.cwq[..1] == [s.cwq[0]] && [s.cwq[0]][1..] == [];
  }

  lemma NextInOrder(cfg: Config, s: Snd, now: nat, s': Snd)
    requires InOrder(s) && s.cwq != [] && s'.cwq == s.cwq[1..]
    requires s'.rtxq == (if cfg.rtxCtrl then s.rtxq + [RtxEntry(s.cwq[0], now, 0)] else s.rtxq)
    ensures InOrder(s')
  {
  }

  lemma PaidOneMore(cfg: Config, rate: Rate, pdus: seq<DataPdu>, ticks: seq<bool>, i: nat)
    requires 0 < i <= |pdus|
    ensures PaidFor(cfg, rate, pdus[..i], ticks) == PaidFor(cfg, PaidFor(cfg, rate, pdus[..1], ticks), pdus[1..][..i - 1], Later(ticks))
  {
    assert pdus[..i][0] == pdus[0] && pdus[..i][1..] == pdus[1..][..i - 1];
    assert pdus[..1][0] == pdus[0] && pdus[..1][1..] == [];
  }

  lemma RateLater(cfg: Config, s: Snd, now: nat, ticks: seq<bool>, s': Snd, i: nat)
    requires Follows(cfg, s, now, ticks, s') && i < |s.cwq|
    ensures |s'.cwq| == |s.cwq| - 1 && RateAt(cfg, s', Later(ticks), i) == RateAt(cfg, s, ticks, i + 1)
  {
    PaidOneMore(cfg, s.rate, s.cwq, ticks, i + 1);
    assert Tick(After(Later(ticks), i)) == Tick(After(ticks, i + 1));
  }

  lemma GoesOnExactly(cfg: Config, s: Snd, now: nat, ticks: seq<bool>)
    requires s.cwq != []
    ensures CanDeliver(cfg, ClockRead(cfg, s, Tick(ticks))) <==> HasRoom(cfg, s, ticks, 0)
    ensures Continues(cfg, s, now, ticks) <==> HasRoom(cfg, s, ticks, 0) && CanPay(cfg, s, ticks, 0)
  {
    assert s.cwq[..0] == [] && After(ticks, 0) == ticks;
  }

  lemma SettlesExactly(cfg: Config, s: Snd)
    ensures var x := Settle(cfg, s);
            && x.cwq == s.cwq && x.rtxq == s.rtxq && x.maxSeqNrSent == s.maxSeqNrSent && x.sndLftWin == s.sndLftWin
            && Flags(cfg, s, s.cwq == [], x) && DeliveryLeaves(s, x)
            && x.rate == (if cfg.rateBased then s.rate.(fulfilled := true) else s.rate)
  {
  }

  /** Without room the loop stops with the queue as it was, and otherwise with the head taken and the rate used up. */
  lemma StopsAt(cfg: Config, s: Snd, now: nat, ticks: seq<bool>)
    requires InOrder(s) && s.cwq != [] && SendsUpTo(cfg, s, ticks, 0)
    ensures var x := Stopped(cfg, s, now, ticks);
            && x == s.(cwq := x.cwq, rtxq := x.rtxq, rate := x.rate)
            && (if HasRoom(cfg, s, ticks, 0)
                then x.cwq == s.cwq[1..] && x.rtxq == (if cfg.rtxCtrl then s.rtxq + [RtxEntry(s.cwq[0], now, 0)] else s.rtxq)
                     && x.rate == RateAt(cfg, s, ticks, 0).(sent := s.rate.sndrRate)
                else x.cwq == s.cwq && x.rtxq == s.rtxq && x.rate == RateAt(cfg, s, ticks, 0))
  {
    assert s.cwq[..0] == [] && After(ticks, 0) == ticks;
    GoesOnExactly(cfg, s, now, ticks);
    PushAtTail(s.rtxq, RtxEntry(s.cwq[0], now, 0));
  }

  lemma StopMoves(cfg: Config, s: Snd, now: nat, x: Snd, y: Snd, n: nat)
    requires n <= 1 && n <= |s.cwq| && x.cwq == s.cwq[n..]
    requires x.rtxq == (if cfg.rtxCtrl && n == 1 then s.rtxq + [RtxEntry(s.cwq[0], now, 0)] else s.rtxq)
    requires x.maxSeqNrSent == s.maxSeqNrSent && x.sndLftWin == s.sndLftWin
    requires y.cwq == x.cwq && y.rtxq == x.rtxq && y.maxSeqNrSent == x.maxSeqNrSent && y.sndLftWin == x.sndLftWin
    ensures Moves(cfg, s, now, 0, n, [], y)
  {
    assert s.cwq[..0] == [];
    if n == 0 {
      assert s.rtxq + Stamped(s.cwq[..0], now) == s.rtxq;
    } else {
      assert Stamped(s.cwq[..1], now) == [RtxEntry(s.cwq[0], now, 0)];
    }
  }

  lemma StopExactly(cfg: Config, s: Snd, now: nat, ticks: seq<bool>)
    requires InOrder(s) && s.cwq != [] && SendsUpTo(cfg, s, ticks, 0)
    ensures var d, n := Deliver(cfg, s, now, ticks), TakenOut(cfg, s, ticks, 0);
            Delivers(cfg, s, now, 0, n, d) && Pays(cfg, s, ticks, 0, n, d)
  {
    var x, n := Stopped(cfg, s, now, ticks), TakenOut(cfg, s, ticks, 0);
    GoesOnExactly(cfg, s, now, ticks);
    StopsAt(cfg, s, now, ticks);
    SettlesExactly(cfg, x);
    assert s.cwq[0..] == s.cwq;
    StopMoves(cfg, s, now, x, Settle(cfg, x), n);
    assert Deliver(cfg, s, now, ticks) == Step(Settle(cfg, x), []);
  }

  lemma NothingToDeliver(cfg: Config, s: Snd, now: nat, ticks: seq<bool>)
    requires s.cwq == []
    ensures var d := Deliver(cfg, s, now, ticks); Delivers(cfg, s, now, 0, 0, d) && Pays(cfg, s, ticks, 0, 0, d)
  {
    SettlesExactly(cfg, s);
    StopMoves(cfg, s, now, s, Settle(cfg, s), 0);
  }

  lemma RoomLater(cfg: Config, s: Snd, now: nat, ticks: seq<bool>, s': Snd, i: nat)
    requires Follows(cfg, s, now, ticks, s') && i + 1 < |s.cwq|
    ensures |s'.cwq| == |s.cwq| - 1
    ensures HasRoom(cfg, s', Later(ticks), i) <==> HasRoom(cfg, s, ticks, i + 1)
    ensures CanPay(cfg, s', Later(ticks), i) <==> CanPay(cfg, s, ticks, i + 1)
  {
    RateLater(cfg, s, now, ticks, s', i);
    PaidKeeps(cfg, s.rate, s.cwq[..1], ticks);
  }

  lemma SendsLater(cfg: Config, s: Snd, now: nat, ticks: seq<bool>, s': Snd, k: nat)
    requires Follows(cfg, s, now, ticks, s') && k > 0 && SendsUpTo(cfg, s, ticks, k)
    ensures |s'.cwq| == |s.cwq| - 1 && SendsUpTo(cfg, s', Later(ticks), k - 1)
    ensures TakenOut(cfg, s', Later(ticks), k - 1) == TakenOut(cfg, s, ticks, k) - 1 && k <= TakenOut(cfg, s, ticks, k) <= |s.cwq|
    ensures HasRoom(cfg, s, ticks, 0) && CanPay(cfg, s, ticks, 0)
  {
    forall i | 0 <= i < |s.cwq| - 1
      ensures HasRoom(cfg, s', Later(ticks), i) <==> HasRoom(cfg, s, ticks, i + 1)
      ensures CanPay(cfg, s', Later(ticks), i) <==> CanPay(cfg, s, ticks, i + 1)
    {
      RoomLater(cfg, s, now, ticks, s', i);
    }
  }

  lemma MovesLater(cfg: Config, s: Snd, now: nat, s': Snd, k: nat, n: nat, out: seq<DataPdu>, x: Snd)
    requires s.cwq != [] && 0 < k <= n <= |s.cwq| && s'.cwq == s.cwq[1..]
    requires s'.maxSeqNrSent == s'.sndLftWin == s.cwq[0].sn
    requires s'.rtxq == (if cfg.rtxCtrl then s.rtxq + [RtxEntry(s.cwq[0], now, 0)] else s.rtxq)
    requires Moves(cfg, s', now, k - 1, n - 1, out, x)
    ensures Moves(cfg, s, now, k, n, [s.cwq[0]] + out, x)
  {
    assert [s.cwq[0]] + s.cwq[1..][..k - 1] == s.cwq[..k] && s.cwq[1..][n - 1..] == s.cwq[n..];
    StampedMore(s.rtxq, s.cwq, n, now);
  }

  lemma DeliversLater(cfg: Config, s: Snd, now: nat, s': Snd, k: nat, n: nat, rest: Step)
    requires s.cwq != [] && 0 < k <= n <= |s.cwq| && s'.cwq == s.cwq[1..]
    requires s'.maxSeqNrSent == s'.sndLftWin == s.cwq[0].sn
    requires s'.rtxq == (if cfg.rtxCtrl then s.rtxq + [RtxEntry(s.cwq[0], now, 0)] else s.rtxq)
    requires s'.portDisabled == s.portDisabled && s'.windowClosed == s.windowClosed && DeliveryLeaves(s, s')
    requires Delivers(cfg, s', now, k - 1, n - 1, rest)
    ensures Delivers(cfg, s, now, k, n, Step(rest.s, [s.cwq[0]] + rest.out))
  {
    MovesLater(cfg, s, now, s', k, n, rest.out, rest.s);
  }

  lemma PaysLater(cfg: Config, s: Snd, now: nat, ticks: seq<bool>, s': Snd, k: nat, n: nat, rest: Step)
    requires Follows(cfg, s, now, ticks, s') && 0 < k <= n <= |s.cwq| && Pays(cfg, s', Later(ticks), k - 1, n - 1, rest)
    ensures Pays(cfg, s, ticks, k, n, Step(rest.s, [s.cwq[0]] + rest.out))
  {
    if k == |s.cwq| {
      PaidOneMore(cfg, s.rate, s.cwq, ticks, k);
      assert s.cwq[..k] == s.cwq && s.cwq[1..][..k - 1] == s.cwq[1..];
    } else {
      RateLater(cfg, s, now, ticks, s', k - 1);
    }
  }

  /**
   Delivering the closed-window queue, whatever the flow control: the longest prefix is sent that there is room for and
   that can be paid for, each PDU with a copy kept if the flow retransmits; a PDU with room but without rate is taken out
   and kept, but not sent. The writer goes on exactly if that empties the queue.
   */
  lemma {:induction false} DeliverExactly(cfg: Config, s: Snd, now: nat, ticks: seq<bool>, k: nat)
    requires InOrder(s) && SendsUpTo(cfg, s, ticks, k)
    ensures DeliversExactly(cfg, s, now, ticks, k, TakenOut(cfg, s, ticks, k))
    decreases k
  {
    if k == 0 {
      NoneSent(cfg, s, now, ticks);
    } else {
      var s', n := FirstSent(cfg, s, now, ticks, k);
      DeliverExactly(cfg, s', now, Later(ticks), k - 1);
    }
  }

  /** After the first PDU is sent, what is left to deliver. */
  lemma FirstSent(cfg: Config, s: Snd, now: nat, ticks: seq<bool>, k: nat) returns (s': Snd, n: nat)
    requires InOrder(s) && SendsUpTo(cfg, s, ticks, k) && k > 0
    ensures InOrder(s') && SendsUpTo(cfg, s', Later(ticks), k - 1) && TakenOut(cfg, s', Later(ticks), k - 1) == n
    ensures DeliversExactly(cfg, s', now, Later(ticks), k - 1, n) ==> DeliversExactly(cfg, s, now, ticks, k, TakenOut(cfg, s, ticks, k))
  {
    s' := FirstRound(cfg, s, now, ticks);
    SendsLater(cfg, s, now, ticks, s', k);
    n := TakenOut(cfg, s, ticks, k) - 1;
    if DeliversExactly(cfg, s', now, Later(ticks), k - 1, n) {
      OneMore(cfg, s, now, ticks, s', k, n + 1);
    }
  }

  lemma FirstRound(cfg: Config, s: Snd, now: nat, ticks: seq<bool>) returns (s': Snd)
    requires InOrder(s) && s.cwq != [] && HasRoom(cfg, s, ticks, 0) && CanPay(cfg, s, ticks, 0)
    ensures InOrder(s') && Follows(cfg, s, now, ticks, s') && SendsFirst(cfg, s, now, ticks, s')
  {
    s' := Delivered1(cfg, s, now, ticks);
    NextRound(cfg, s, now, ticks, s');
    GoesOnExactly(cfg, s, now, ticks);
  }

  ghost predicate SendsFirst(cfg: Config, s: Snd, now: nat, ticks: seq<bool>, s': Snd) {
    s.cwq != [] && var rest := Deliver(cfg, s', now, Later(ticks)); Deliver(cfg, s, now, ticks) == Step(rest.s, [s.cwq[0]] + rest.out)
  }

  /** `k` PDUs are sent and `n` taken out of the queue. */
  ghost predicate DeliversExactly(cfg: Config, s: Snd, now: nat, ticks: seq<bool>, k: nat, n: nat) {
    && k <= n <= |s.cwq|
    && Delivers(cfg, s, now, k, n, Deliver(cfg, s, now, ticks)) && Pays(cfg, s, ticks, k, n, Deliver(cfg, s, now, ticks))
  }

  lemma NoneSent(cfg: Config, s: Snd, now: nat, ticks: seq<bool>)
    requires InOrder(s) && SendsUpTo(cfg, s, ticks, 0)
    ensures DeliversExactly(cfg, s, now, ticks, 0, TakenOut(cfg, s, ticks, 0))
  {
    if s.cwq == [] {
      NothingToDeliver(cfg, s, now, ticks);
    } else {
      StopExactly(cfg, s, now, ticks);
    }
  }

  lemma OneMore(cfg: Config, s: Snd, now: nat, ticks: seq<bool>, s': Snd, k: nat, n: nat)
    requires Follows(cfg, s, now, ticks, s') && SendsFirst(cfg, s, now, ticks, s') && 0 < k <= n <= |s.cwq|
    requires DeliversExactly(cfg, s', now, Later(ticks), k - 1, n - 1)
    ensures DeliversExactly(cfg, s, now, ticks, k, n)
  {
    OneMoreFrom(cfg, s, now, ticks, s', k, n, Deliver(cfg, s', now, Later(ticks)), Deliver(cfg, s, now, ticks));
  }

  lemma OneMoreFrom(cfg: Config, s: Snd, now: nat, ticks: seq<bool>, s': Snd, k: nat, n: nat, rest: Step, d: Step)
    requires Follows(cfg, s, now, ticks, s') && 0 < k <= n <= |s.cwq| && d == Step(rest.s, [s.cwq[0]] + rest.out)
    requires Delivers(cfg, s', now, k - 1, n - 1, rest) && Pays(cfg, s', Later(ticks), k - 1, n - 1, rest)
    ensures Delivers(cfg, s, now, k, n, d) && Pays(cfg, s, ticks, k, n, d)
  {
    DeliversLater(cfg, s, now, s', k, n, rest);
    PaysLater(cfg, s, now, ticks, s', k, n, rest);
  }

  // ---------------------------------------------------------------- control PDUs

  /** The control PDU is refused: it is not newer than all before, or acknowledges a number that is not kept. */
  ghost predicate Refuses(cfg: Config, s: Snd, c: CtrlPdu) {
    || c.csn <= s.lastRcvCtlSeq
    || (cfg.rtxCtrl && (c.kind.Ack? || c.kind.AckAndFlowCtl?) && !HasSn(s.rtxq, c.ackSn))
  }

  /** What an acknowledgement and an opening make of the state, before the queue is delivered. */
  ghost predicate Takes(cfg: Config, s: Snd, c: CtrlPdu, s': Snd) {
    var acks, opens := cfg.rtxCtrl && (c.kind.Ack? || c.kind.AckAndFlowCtl?), c.kind.FlowCtl? || c.kind.AckAndFlowCtl?;
    && s'.lastRcvCtlSeq == c.csn
    && (if acks then s'.sndLftWin == c.ackSn + 1 && (forall e :: e in s'.rtxq <==> e in s.rtxq && e.pdu.sn > c.ackSn)
        else s'.sndLftWin == s.sndLftWin && s'.rtxq == s.rtxq)
    && s'.sndRtWindEdge == (if opens && cfg.windowBased then c.newRwe else s.sndRtWindEdge)
    && s'.rate == (if opens && cfg.rateBased && c.sndrRate != 0 && c.timeFrame != 0 then s.rate.(sndrRate := c.sndrRate) else s.rate)
    && s'.rendezvousSndr == (s.rendezvousSndr && !opens)
    && s' == s.(lastRcvCtlSeq := s'.lastRcvCtlSeq, sndLftWin := s'.sndLftWin, rtxq := s'.rtxq, sndRtWindEdge := s'.sndRtWindEdge,
                rate := s'.rate, rendezvousSndr := s'.rendezvousSndr, rtt := s'.rtt)
  }

  /**
   A control PDU that is refused changes nothing, but for its number if it is new. Any other takes away the copies up to
   the number that it acknowledges, and if it opens the window sets the edge and the rate, ends the rendezvous, and has the
   queue delivered.
   */
  lemma ControlExactly(cfg: Config, s: Snd, c: CtrlPdu, now: nat, ticks: seq<bool>) returns (s': Snd)
    requires Sorted(s.rtxq)
    ensures var d := ReceiveControl(cfg, s, c, now, ticks);
            && (Refuses(cfg, s, c) ==> d == Step(s.(lastRcvCtlSeq := Max(s.lastRcvCtlSeq, c.csn)), []))
            && (!Refuses(cfg, s, c) ==>
                  && Takes(cfg, s, c, s')
                  && d == if c.kind.FlowCtl? || c.kind.AckAndFlowCtl? then Deliver(cfg, s', now, ticks) else Step(s', []))
  {
    RefusedExactly(cfg, s, c);
    s' := s;
    if !Refuses(cfg, s, c) {
      var s2 := Acknowledged(cfg, s.(lastRcvCtlSeq := c.csn), c, now);
      s' := if Opens(c) then Opened(cfg, s2, c) else s2;
      TakesBoth(cfg, s, c, now, s2, s');
    }
  }

  lemma TakesBoth(cfg: Config, s: Snd, c: CtrlPdu, now: nat, s2: Snd, s': Snd)
    requires Sorted(s.rtxq) && s2 == Acknowledged(cfg, s.(lastRcvCtlSeq := c.csn), c, now)
    requires s' == if Opens(c) then Opened(cfg, s2, c) else s2
    ensures Takes(cfg, s, c, s')
  {
    AckTakes(cfg, s, c, now);
    OpeningTakes(cfg, s2, c);
  }

  lemma RefusedExactly(cfg: Config, s: Snd, c: CtrlPdu)
    requires Sorted(s.rtxq)
    ensures Refuses(cfg, s, c) <==> !Processed(cfg, s, c)
  {
    LookupIsSearch(s.rtxq, c.ackSn);
    if HasSn(s.rtxq, c.ackSn) {
      var i :| 0 <= i < |s.rtxq| && s.rtxq[i].pdu.sn == c.ackSn;
      assert s.rtxq[i] in s.rtxq;
    }
  }

  lemma AckTakes(cfg: Config, s: Snd, c: CtrlPdu, now: nat)
    requires Sorted(s.rtxq)
    ensures var s2 := Acknowledged(cfg, s.(lastRcvCtlSeq := c.csn), c, now); var acks := cfg.rtxCtrl && (c.kind.Ack? || c.kind.AckAndFlowCtl?);
            && (if acks then s2.sndLftWin == c.ackSn + 1 && (forall e :: e in s2.rtxq <==> e in s.rtxq && e.pdu.sn > c.ackSn)
                else s2.sndLftWin == s.sndLftWin && s2.rtxq == s.rtxq)
            && s2 == s.(lastRcvCtlSeq := c.csn, sndLftWin := s2.sndLftWin, rtxq := s2.rtxq, rtt := s2.rtt)
  {
    AckIsFilter(s.rtxq, c.ackSn);
  }

  lemma OpeningTakes(cfg: Config, s: Snd, c: CtrlPdu)
    ensures var s' := Opened(cfg, s, c);
            && s'.sndRtWindEdge == (if cfg.windowBased then c.newRwe else s.sndRtWindEdge)
            && s'.rate == (if cfg.rateBased && c.sndrRate != 0 && c.timeFrame != 0 then s.rate.(sndrRate := c.sndrRate) else s.rate)
            && !s'.rendezvousSndr && s' == s.(sndRtWindEdge := s'.sndRtWindEdge, rate := s'.rate, rendezvousSndr := false)
  {
  }

  // ---------------------------------------------------------------- timers

  ghost predicate LargestOf(pdus: seq<DataPdu>, n: nat) {
    (exists p :: p in pdus && p.sn == n) && forall p :: p in pdus ==> p.sn <= n
  }

  lemma {:induction false} MaxSnIsLargest(pdus: seq<DataPdu>)
    requires pdus != []
    ensures LargestOf(pdus, MaxSn(pdus))
  {
    assert pdus[0] in pdus;
    if |pdus| > 1 {
      MaxSnIsLargest(pdus[1..]);
      var p :| p in pdus[1..] && p.sn == MaxSn(pdus[1..]);
      assert p in pdus;
    }
  }

  /**
   An expiry of the retransmission timer does to the queue what a pass does. If it gives up on PDUs they are counted, the
   left edge is moved to the last of them at least, and a sender that then keeps nothing, with its queue full, asks for a
   rendezvous.
   */
  lemma RtxTimerExactly(cfg: Config, s: Snd, now: nat, ticks: seq<bool>)
    ensures var d := RtxTimer(cfg, s, now, ticks); var p := Retransmit(cfg, s.rtxq, s.rtt.tr, now, s.rate, ticks);
            && d.out == p.resent && d.s.rtxq == p.queue && d.s.rate == p.rate && d.s.rtxDrops == s.rtxDrops + |p.dropped|
            && (p.dropped == [] ==> d.s.sndLftWin == s.sndLftWin && d.s.rendezvousSndr == s.rendezvousSndr)
            && (p.dropped != [] ==>
                  && (exists n :: LargestOf(p.dropped, n) && d.s.sndLftWin == Max(s.sndLftWin, n))
                  && d.s.rendezvousSndr == (s.rendezvousSndr || (p.queue == [] && |s.cwq| == cfg.MaxClosedWinqLength())))
            && d.s == s.(rtxq := d.s.rtxq, rate := d.s.rate, rtxDrops := d.s.rtxDrops, sndLftWin := d.s.sndLftWin,
                         rendezvousSndr := d.s.rendezvousSndr)
  {
    var p := Retransmit(cfg, s.rtxq, s.rtt.tr, now, s.rate, ticks);
    if p.dropped != [] {
      MaxSnIsLargest(p.dropped);
    }
  }

  /** The rate timer begins a new time unit: it resets the counters, starts the writer and delivers the queue. */
  lemma RateTimerExactly(cfg: Config, s: Snd, now: nat, ticks: seq<bool>) returns (s': Snd)
    ensures s'.rate.sent == s'.rate.rcvd == 0 && s'.rate.sndrRate == s.rate.sndrRate && s'.rate.rcvrRate == s.rate.rcvrRate
    ensures !s'.portDisabled && !s'.rate.fulfilled && s' == s.(rate := s'.rate, portDisabled := false)
    ensures RateTimer(cfg, s, now, ticks) == Deliver(cfg, s', now, ticks)
  {
    s' := s.(rate := Elapse(s.rate, true).(fulfilled := false), portDisabled := false);
  }

  /**
   After an inactivity reset, in whatever state it came, nothing of the old run of data is sent any more, and the next write
   starts a new one after `newSn`: it goes out at once if there is a credit and the rate is not used up.
   */
  lemma ResetForgets(cfg: Config, s: Snd, newSn: nat, data: seq<Octet>, now: nat, tick: bool, ticks: seq<bool>)
    ensures var s' := SenderInactivity(cfg, s, newSn);
            && (cfg.flowCtrl ==> Deliver(cfg, s', now, ticks).out == [] && RateTimer(cfg, s', now, ticks).out == [])
            && (cfg.rtxCtrl ==> RtxTimer(cfg, s', now, ticks).out == [] && RtxTimer(cfg, s', now, ticks).s.rtxDrops == s.rtxDrops)
            && (!Closed(cfg, s', tick) && (cfg.rtxCtrl || s.rtxq == []) ==>
                  Write(cfg, s', data, now, tick).out == [DataPdu(newSn + 1, true, data)])
            && (Closed(cfg, s', tick) <==> (cfg.windowBased && cfg.initialCredit == 0) || RateClosed(cfg, s, tick))
  {
  }

  /** The rate is used up, or is zero. */
  ghost predicate RateClosed(cfg: Config, s: Snd, tick: bool) {
    cfg.rateBased && (if tick then 0 else s.rate.sent) >= s.rate.sndrRate
  }

  /** The Rendezvous PDU has the next control number and carries the sender's own edges; the other direction is not modelled. */
  lemma RendezvousCarries(s: Snd)
    ensures var c := RendezvousPdu(s);
            && c.kind.Rendezvous? && c.csn == s.nextSndCtlSeq + 1 && c.myLwe == s.sndLftWin && c.myRwe == s.sndRtWindEdge
            && c.ackSn == c.newLwe == c.newRwe == c.sndrRate == c.timeFrame == 0
  {
  }
}
