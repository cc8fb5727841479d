/** The sending half as the object that the kernel updates in place, proved against the step functions. */
module DtpSenderObject {
  import opened EfcpTypes
  import opened RateControl
  import opened RtxQueue
  import opened Rtt
  import opened DtpSender

  class Sender {
    const cfg: Config
    const queue: Queue
    var seqNrToSend: nat
    var maxSeqNrSent: nat
    var sndLftWin: nat
    var sndRtWindEdge: nat
    var windowClosed: bool
    var drfFlag: bool
    var rendezvousSndr: bool
    var cwq: seq<DataPdu>
    var lastRcvCtlSeq: nat
    var nextSndCtlSeq: nat
    var rate: Rate
    var rtt: RttVars
    var portDisabled: bool
    var inactivityArmed: bool

    ghost predicate Valid()
      reads this, queue
    {
      queue.Valid()
    }

    ghost function State(): Snd
      reads this, queue
    {
      Snd(seqNrToSend, maxSeqNrSent, sndLftWin, sndRtWindEdge, windowClosed, drfFlag, rendezvousSndr,
          cwq, queue.entries, queue.dropPdus, lastRcvCtlSeq, nextSndCtlSeq, rate, rtt, portDisabled, inactivityArmed)
    }

    constructor (cfg: Config, initialSn: nat, tr: nat)
      ensures Valid() && fresh(queue) && this.cfg == cfg
      ensures State() == Init(cfg, initialSn, tr)
    {
      this.cfg := cfg;
      queue := new Queue();
      seqNrToSend, maxSeqNrSent, sndLftWin := initialSn, initialSn, 0;
      sndRtWindEdge := cfg.initialCredit + initialSn;
      windowClosed, drfFlag, rendezvousSndr := false, true, false;
      cwq, lastRcvCtlSeq, nextSndCtlSeq := [], 0, 0;
      rate := InitialRate(cfg);
      rtt := RttVars(0, 0, 0, tr);
      portDisabled, inactivityArmed := false, false;
    }

    /** dtp_write: one user-data field becomes one PDU, parked or transmitted. */
    method WriteData(data: seq<Octet>, now: nat, tick: bool) returns (out: seq<DataPdu>)
      requires Valid()
      modifies this, queue
      ensures Valid() && Step(State(), out) == Write(cfg, old(State()), data, now, tick)
    {
      var pdu := NumberPdu(data);
      var closed := CheckWindow(pdu.sn, tick);
      if closed {
        ParkPdu(pdu);
        return [];
      }
      if cfg.rateBased {
        rate := Charge(rate, |data|);
      }
      out := TransmitPdu(pdu, now);
    }

    method NumberPdu(data: seq<Octet>) returns (pdu: DataPdu)
      requires Valid()
      modifies this
      ensures Valid() && State() == Numbered(old(State())) && pdu == NewPdu(cfg, old(State()), data)
    {
      inactivityArmed := false;
      var drf := drfFlag || (sndLftWin == seqNrToSend && cfg.rtxCtrl);
      seqNrToSend := seqNrToSend + 1;
      pdu := DataPdu(seqNrToSend, drf, data);
    }

    /** The copy to the retransmission queue, and default_transmission_control. */
    method TransmitPdu(pdu: DataPdu, now: nat) returns (out: seq<DataPdu>)
      requires Valid()
      modifies this, queue
      ensures Valid() && Step(State(), out) == Transmit(cfg, old(State()), pdu, now)
    {
      if cfg.rtxCtrl {
        var ok := queue.PushNi(pdu, now);
        if !ok {
          return [];
        }
      }
      maxSeqNrSent, sndLftWin := pdu.sn, pdu.sn;
      rate, inactivityArmed := FirstTransmission(rate, |pdu.data|), true;
      out := [pdu];
    }

    /** window_is_closed */
    method CheckWindow(sn: nat, tick: bool) returns (closed: bool)
      requires Valid()
      modifies this
      ensures Valid() && State() == Checked(cfg, old(State()), sn, tick)
      ensures closed == WindowIsClosed(cfg, State(), sn)
    {
      var windowRet, rateRet := false, false;
      if cfg.windowBased && sn > sndRtWindEdge {
        windowClosed, windowRet := true, true;
      }
      if cfg.rateBased {
        rate := Elapse(rate, tick);
        rateRet := Exceeded(rate, true);
        rate := rate.(fulfilled := rateRet);
      }
      closed := windowRet || rateRet;
    }

    /** default_closed_window, default_snd_flow_control_overrun and the rendezvous test after them. */
    method ParkPdu(pdu: DataPdu)
      requires Valid()
      modifies this
      ensures Valid() && State() == Park(cfg, old(State()), pdu)
    {
      var maxLen := cfg.MaxClosedWinqLength();
      var room := maxLen != 0 && |cwq| < maxLen - 1;
      cwq := cwq + [pdu];
      if !room {
        portDisabled := true;
      }
      if cfg.rtxCtrl && queue.len > 0 {
        return;
      }
      rendezvousSndr := true;
    }

    /** cwq_deliver */
    method DeliverQueue(now: nat, ticks: seq<bool>) returns (out: seq<DataPdu>)
      requires Valid()
      modifies this, queue
      ensures Valid() && Step(State(), out) == Deliver(cfg, old(State()), now, ticks)
    {
      out := [];
      var clock, more := ticks, true;
      ghost var goal := Deliver(cfg, State(), now, ticks);
      while more
        invariant Valid()
        invariant goal == After(out, if more then Deliver(cfg, State(), now, clock) else Step(Settle(cfg, State()), []))
        decreases more, |cwq|
      {
        ghost var before := State();
        var head := DeliverHead(now, clock);
        if head.None? {
          more := false;
        } else {
          DeliverOne(cfg, before, now, clock, out);
          out, clock := out + [head.value], Later(clock);
        }
      }
      SettleQueue();
    }

    /** One round of the loop of cwq_deliver: the head of the queue is sent, or the loop stops. */
    method DeliverHead(now: nat, clock: seq<bool>) returns (head: Option<DataPdu>)
      requires Valid()
      modifies this, queue
      ensures Valid() && head.Some? == Continues(cfg, old(State()), now, clock)
      ensures head.Some? ==> head.value == old(cwq[0]) && State() == Delivered1(cfg, old(State()), now, clock)
      ensures head.None? ==> State() == Stopped(cfg, old(State()), now, clock)
    {
      if |cwq| == 0 {
        return None;
      }
      var can := MayDeliver(Tick(clock));
      if !can {
        return None;
      }
      var pdu := TakeHeadPdu(now);
      if cfg.flowCtrl && cfg.rateBased && |pdu.data| + rate.sent >= rate.sndrRate {
        rate := Charge(rate, |pdu.data|);
        return None;
      }
      SendHeadPdu(pdu);
      head := Some(pdu);
    }

    /** can_deliver */
    method MayDeliver(tick: bool) returns (can: bool)
      requires Valid()
      modifies this
      ensures Valid() && State() == ClockRead(cfg, old(State()), tick) && can == CanDeliver(cfg, State())
    {
      var windowRet := cfg.windowBased && maxSeqNrSent < sndRtWindEdge;
      var rateRet := false;
      if cfg.rateBased {
        rate := Elapse(rate, tick);
        rateRet := !Exceeded(rate, false);
      }
      can := windowRet || rateRet;
    }

    method TakeHeadPdu(now: nat) returns (pdu: DataPdu)
      requires Valid() && |cwq| != 0
      modifies this, queue
      ensures Valid() && State() == TakeHead(cfg, old(State()), now) && pdu == old(cwq[0])
    {
      pdu := cwq[0];
      cwq := cwq[1..];
      if cfg.rtxCtrl {
        var _ := queue.PushNi(pdu, now);
      }
    }

    method SendHeadPdu(pdu: DataPdu)
      requires Valid()
      modifies this
      ensures Valid() && State() == SendHead(cfg, old(State()), pdu)
    {
      if cfg.flowCtrl && cfg.rateBased {
        rate := Charge(rate, |pdu.data|);
      }
      maxSeqNrSent, sndLftWin := pdu.sn, pdu.sn;
      rate := FirstTransmission(rate, |pdu.data|);
    }

    method SettleQueue()
      requires Valid()
      modifies this
      ensures Valid() && State() == Settle(cfg, old(State()))
    {
      if cfg.rateBased {
        rate := rate.(fulfilled := true);
      }
      if |cwq| != 0 {
        if cfg.windowBased {
          windowClosed := true;
        }
        return;
      }
      if cfg.windowBased {
        windowClosed := false;
      }
      if |cwq| < cfg.MaxClosedWinqLength() {
        portDisabled := false;
      }
    }

    /** dtcp_common_rcv_control, for the kinds of control PDU that a sender acts on. */
    method ReceiveCtrl(c: CtrlPdu, now: nat, ticks: seq<bool>) returns (out: seq<DataPdu>)
      requires Valid()
      modifies this, queue
      ensures Valid() && Step(State(), out) == ReceiveControl(cfg, old(State()), c, now, ticks)
    {
      if c.csn <= lastRcvCtlSeq {
        return [];
      }
      lastRcvCtlSeq := c.csn;
      if c.kind.Ack? || c.kind.AckAndFlowCtl? {
        var known := ProcessAck(c.ackSn, now);
        if !known {
          return [];
        }
      }
      if c.kind.FlowCtl? || c.kind.AckAndFlowCtl? {
        OpenWindow(c);
        out := DeliverQueue(now, ticks);
      } else {
        out := [];
      }
    }

    /** default_rtt_estimator and default_sender_ack; an ack of a PDU that is not queued is not known. */
    method ProcessAck(ack: nat, now: nat) returns (known: bool)
      requires Valid()
      modifies this, queue
      ensures Valid()
      ensures var stamp := if cfg.rtxCtrl then Lookup(old(queue.entries), ack) else Retransmitted;
              known == !stamp.Absent? &&
              State() == if known then SenderAck(cfg, Estimate(cfg, old(State()), stamp, now), ack) else old(State())
    {
      if !cfg.rtxCtrl {
        return true;
      }
      var stamp := queue.EntryTimestamp(ack);
      if stamp.Absent? {
        return false;
      }
      if stamp.Stamp? {
        rtt := Calculate(rtt, if now >= stamp.time then now - stamp.time else 0, cfg.a);
      }
      queue.EntriesAck(ack);
      sndLftWin := ack + 1;
      known := true;
    }

    /** update_window_and_rate, up to the delivery of the closed-window queue. */
    method OpenWindow(c: CtrlPdu)
      requires Valid()
      modifies this
      ensures Valid() && State() == Opened(cfg, old(State()), c)
    {
      if cfg.windowBased {
        sndRtWindEdge := c.newRwe;
      }
      if cfg.rateBased {
        rate := SetRate(rate, c.sndrRate, c.timeFrame);
      }
      rendezvousSndr := false;
    }

    /** rtx_timer_func */
    method RtxTimerExpires(now: nat, ticks: seq<bool>) returns (out: seq<DataPdu>)
      requires Valid()
      modifies this, queue
      ensures Valid() && Step(State(), out) == RtxTimer(cfg, old(State()), now, ticks)
    {
      var dropped, rate';
      out, dropped, rate' := queue.Rtx(cfg, rtt.tr, now, rate, ticks);
      rate := rate';
      if |dropped| != 0 {
        var i, droppedSn := 0, 0;
        while i < |dropped|
          invariant i <= |dropped| && MaxSn(dropped) == Max(droppedSn, MaxSn(dropped[i..]))
        {
          assert dropped[i..][1..] == dropped[i + 1..];
          droppedSn := Max(droppedSn, dropped[i].sn);
          i := i + 1;
        }
        sndLftWin := Max(sndLftWin, droppedSn);
        if queue.len == 0 && |cwq| == cfg.MaxClosedWinqLength() {
          rendezvousSndr := true;
        }
      }
    }

    /** tf_rate_window */
    method RateTimerExpires(now: nat, ticks: seq<bool>) returns (out: seq<DataPdu>)
      requires Valid()
      modifies this, queue
      ensures Valid() && Step(State(), out) == RateTimer(cfg, old(State()), now, ticks)
    {
      rate := Elapse(rate, true).(fulfilled := false);
      portDisabled := false;
      out := DeliverQueue(now, ticks);
    }

    /** default_sender_inactivity_timer */
    method InactivityTimerExpires(newSn: nat)
      requires Valid()
      modifies this, queue
      ensures Valid() && State() == SenderInactivity(cfg, old(State()), newSn)
    {
      if cfg.rtxCtrl {
        queue.Flush();
      }
      if cfg.flowCtrl {
        FlushCwq();
      }
      seqNrToSend, drfFlag, windowClosed := newSn, true, false;
      sndRtWindEdge, rendezvousSndr := newSn + cfg.initialCredit, false;
      inactivityArmed := false;
    }

    /** cwq_flush */
    method FlushCwq()
      modifies this`cwq
      ensures cwq == []
    {
      while |cwq| != 0
        decreases |cwq|
      {
        cwq := cwq[1..];
      }
    }
  }
}
