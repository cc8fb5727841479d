/** The receiving half as the object that the kernel updates in place, proved against the step functions. */
module DtpReceiverObject {
  import opened EfcpTypes
  import opened Rtt
  import opened DtpReceiver

  class Receiver {
    const cfg: Config
    var lwe: nat
    var drfRequired: bool
    var seqq: seq<SeqEntry>
    var rcvrRtWindEdge: nat
    var lastSndDataAck: nat
    var nextSndCtlSeq: nat
    var lastRcvCtlSeq: nat
    var rendezvousRcvr: bool
    var dropPdus: nat
    var rcvdInTimeUnit: nat

    ghost function State(): Rcv
      reads this
    {
      Rcv(lwe, drfRequired, seqq, rcvrRtWindEdge, lastSndDataAck, nextSndCtlSeq, lastRcvCtlSeq,
          rendezvousRcvr, dropPdus, rcvdInTimeUnit)
    }

    constructor (cfg: Config)
      ensures this.cfg == cfg && State() == Init(cfg)
    {
      this.cfg := cfg;
      lwe, drfRequired, seqq, rcvrRtWindEdge := 0, true, [], cfg.initialCredit;
      lastSndDataAck, nextSndCtlSeq, lastRcvCtlSeq := 0, 0, 0;
      rendezvousRcvr, dropPdus, rcvdInTimeUnit := false, 0, 0;
    }

    /** seq_queue_push_ni */
    method PushSeq(e: SeqEntry)
      modifies this`seqq
      ensures seqq == SeqPush(old(seqq), e)
    {
      if |seqq| == 0 {
        seqq := [e];
        return;
      }
      var last := seqq[|seqq| - 1].pdu.sn;
      if e.pdu.sn == last {
        return;
      }
      if e.pdu.sn > last {
        seqq := seqq + [e];
        return;
      }
      var i := 0;
      while i < |seqq|
        invariant i <= |seqq| && seqq == old(seqq)
        invariant InsertFrom(seqq, e, 0) == InsertFrom(seqq, e, i)
      {
        if e.pdu.sn == seqq[i].pdu.sn {
          return;
        }
        if e.pdu.sn > seqq[i].pdu.sn {
          seqq := seqq[..i + 1] + [e] + seqq[i + 1..];
          return;
        }
        i := i + 1;
      }
    }

    /** The loop that pops the resequencing queue while its head is the next number. */
    method DrainSeq() returns (posted: seq<DataPdu>)
      modifies this`lwe, this`seqq
      ensures Moved(lwe, seqq, posted) == Drain(old(lwe), old(seqq))
    {
      posted := [];
      ghost var goal := Drain(lwe, seqq);
      while |seqq| != 0 && seqq[0].pdu.sn == lwe + 1
        invariant var rest := Drain(lwe, seqq); goal == rest.(posted := posted + rest.posted)
        decreases |seqq|
      {
        ghost var rest := Drain(seqq[0].pdu.sn, seqq[1..]);
        assert posted + ([seqq[0].pdu] + rest.posted) == (posted + [seqq[0].pdu]) + rest.posted;
        posted, lwe, seqq := posted + [seqq[0].pdu], seqq[0].pdu.sn, seqq[1..];
      }
    }

    /** The loop of process_A_expiration. */
    method ExpireSeq(now: nat) returns (posted: seq<DataPdu>)
      modifies this`lwe, this`seqq
      ensures Moved(lwe, seqq, posted) == Expire(cfg, old(lwe), old(seqq), now)
    {
      posted := [];
      ghost var goal := Expire(cfg, lwe, seqq, now);
      while |seqq| != 0
        invariant var rest := Expire(cfg, lwe, seqq, now); goal == rest.(posted := posted + rest.posted)
        decreases |seqq|
      {
        var e := seqq[0];
        var expired := e.timeStamp + cfg.a <= now;
        if !expired && !InGap(e.pdu.sn, lwe, cfg.maxSduGap) {
          return;
        }
        if expired && cfg.rtxCtrl {
          seqq := seqq[1..];
          continue;
        }
        ghost var rest := Expire(cfg, e.pdu.sn, seqq[1..], now);
        assert posted + ([e.pdu] + rest.posted) == (posted + [e.pdu]) + rest.posted;
        posted, lwe, seqq := posted + [e.pdu], e.pdu.sn, seqq[1..];
      }
    }

    method EmitCtrl(kind: CtrlKind) returns (ctrl: seq<CtrlPdu>)
      modifies this
      ensures RcvStep(State(), [], ctrl) == Emit(cfg, old(State()), kind)
    {
      var window, rate := cfg.flowCtrl && cfg.windowBased, cfg.flowCtrl && cfg.rateBased;
      nextSndCtlSeq := nextSndCtlSeq + 1;
      ctrl := [CtrlPdu(kind, nextSndCtlSeq, lwe,
                       if window then lwe else 0, if window then rcvrRtWindEdge else 0, 0, 0,
                       if rate then cfg.sendingRate else 0, if rate then cfg.timePeriod else 0)];
    }

    /** dtcp_sv_update */
    method UpdateSv() returns (ctrl: seq<CtrlPdu>)
      modifies this
      ensures RcvStep(State(), [], ctrl) == SvUpdate(cfg, old(State()))
    {
      if cfg.flowCtrl {
        if cfg.windowBased {
          rcvrRtWindEdge := lwe + cfg.initialCredit;
        }
        if !cfg.rtxCtrl {
          ctrl := EmitCtrl(FlowCtl);
          return;
        }
      }
      if cfg.rtxCtrl && lastSndDataAck < lwe {
        lastSndDataAck := lwe;
        ctrl := EmitCtrl(if cfg.flowCtrl then AckAndFlowCtl else Ack);
      } else {
        ctrl := [];
      }
    }

    /** dtp_receive */
    method ReceiveData(pdu: DataPdu, now: nat) returns (posted: seq<DataPdu>, ctrl: seq<CtrlPdu>)
      modifies this
      ensures RcvStep(State(), posted, ctrl) == Receive(cfg, old(State()), pdu, now)
    {
      if drfRequired {
        posted, ctrl := BeginRun(pdu);
        return;
      }
      posted, ctrl := [], [];
      if pdu.sn <= lwe {
        dropPdus := dropPdus + 1;
        return;
      }
      var overrun := CountAndCheck(pdu);
      if overrun {
        dropPdus := dropPdus + 1;
        return;
      }
      posted, ctrl := AcceptPdu(pdu, now);
    }

    /** is_fc_overrun: counts the bytes received, whether or not the PDU overruns the window. */
    method CountAndCheck(pdu: DataPdu) returns (overrun: bool)
      modifies this
      ensures State() == Counted(cfg, old(State()), pdu) && overrun == Overrun(cfg, old(State()), pdu.sn)
    {
      if cfg.rateBased {
        rcvdInTimeUnit := rcvdInTimeUnit + |pdu.data|;
      }
      overrun := cfg.windowBased && pdu.sn > rcvrRtWindEdge;
    }

    method AcceptPdu(pdu: DataPdu, now: nat) returns (posted: seq<DataPdu>, ctrl: seq<CtrlPdu>)
      modifies this
      ensures RcvStep(State(), posted, ctrl) == Accept(cfg, old(State()), pdu, now)
    {
      rendezvousRcvr := false;
      if cfg.a == 0 {
        posted, ctrl := TakeAtOnce(pdu);
      } else {
        posted, ctrl := TakeInSequence(pdu, now);
      }
    }

    method BeginRun(pdu: DataPdu) returns (posted: seq<DataPdu>, ctrl: seq<CtrlPdu>)
      modifies this
      ensures RcvStep(State(), posted, ctrl) == StartRun(cfg, old(State()), pdu)
    {
      if !pdu.drf {
        dropPdus := dropPdus + 1;
        return [], [];
      }
      drfRequired, lwe, seqq := false, pdu.sn, [];
      ctrl := UpdateSv();
      posted := [pdu];
    }

    method TakeAtOnce(pdu: DataPdu) returns (posted: seq<DataPdu>, ctrl: seq<CtrlPdu>)
      modifies this
      ensures RcvStep(State(), posted, ctrl) == ReceiveAtOnce(cfg, old(State()), pdu)
    {
      var setLftWinEdge := !(cfg.rtxCtrl && pdu.sn - lwe > U32(cfg.maxSduGap + 1));
      if setLftWinEdge {
        lwe := pdu.sn;
      }
      ctrl := UpdateSv();
      posted := if setLftWinEdge then [pdu] else [];
    }

    method TakeInSequence(pdu: DataPdu, now: nat) returns (posted: seq<DataPdu>, ctrl: seq<CtrlPdu>)
      modifies this
      ensures RcvStep(State(), posted, ctrl) == ReceiveInSequence(cfg, old(State()), pdu, now)
    {
      posted := [];
      if pdu.sn == lwe + 1 {
        lwe, posted := pdu.sn, [pdu];
      } else {
        PushSeq(SeqEntry(pdu, now));
      }
      var drained := DrainSeq();
      posted := posted + drained;
      ctrl := UpdateSv();
    }

    /** tf_a, through default_sending_ack */
    method ATimerExpires(now: nat) returns (posted: seq<DataPdu>, ctrl: seq<CtrlPdu>)
      modifies this
      ensures RcvStep(State(), posted, ctrl) == ATimer(cfg, old(State()), now)
    {
      posted := ExpireSeq(now);
      if |posted| == 0 {
        ctrl := [];
      } else {
        ctrl := UpdateSv();
      }
    }

    /** dtcp_common_rcv_control and default_rcvr_rendezvous */
    method ReceiveRendezvousPdu(c: CtrlPdu) returns (ctrl: seq<CtrlPdu>)
      modifies this
      ensures RcvStep(State(), [], ctrl) == ReceiveRendezvous(cfg, old(State()), c)
    {
      if c.csn <= lastRcvCtlSeq {
        return [];
      }
      lastRcvCtlSeq := c.csn;
      if cfg.windowBased {
        rcvrRtWindEdge := c.myLwe + cfg.initialCredit;
      }
      rendezvousRcvr := true;
      ctrl := EmitCtrl(FlowCtl);
    }
  }
}
