/**
 The receiving half of a connection: the Data Run Flag, duplicate and overrun detection, the
 resequencing queue, the A-timer and the control PDUs that answer the sender.
 */
module DtpReceiver {
  import opened EfcpTypes
  import opened Rtt

  datatype SeqEntry = SeqEntry(pdu: DataPdu, timeStamp: nat)

  datatype Rcv = Rcv(
    lwe: nat, drfRequired: bool, seqq: seq<SeqEntry>, rcvrRtWindEdge: nat,
    lastSndDataAck: nat, nextSndCtlSeq: nat, lastRcvCtlSeq: nat,
    rendezvousRcvr: bool, dropPdus: nat, rcvdInTimeUnit: nat)

  /** A step's new state, the PDUs posted to the user and the control PDUs sent, in order. */
  datatype RcvStep = RcvStep(r: Rcv, posted: seq<DataPdu>, ctrl: seq<CtrlPdu>)

  function Init(cfg: Config): Rcv {
    Rcv(0, true, [], cfg.initialCredit, 0, 0, 0, false, 0, 0)
  }

  // ---------------------------------------------------------------- resequencing queue

  /** Inserts after the first smaller entry; a repeated number and one below all others are lost. */
  function InsertFrom(q: seq<SeqEntry>, e: SeqEntry, i: nat): seq<SeqEntry>
    requires i <= |q|
    decreases |q| - i
  {
    if i == |q| || q[i].pdu.sn == e.pdu.sn then q
    else if q[i].pdu.sn < e.pdu.sn then q[..i + 1] + [e] + q[i + 1..]
    else InsertFrom(q, e, i + 1)
  }

  function SeqPush(q: seq<SeqEntry>, e: SeqEntry): seq<SeqEntry> {
    if q == [] then [e]
    else
      var last := q[|q| - 1].pdu.sn;
      if e.pdu.sn == last then q
      else if e.pdu.sn > last then q + [e]
      else InsertFrom(q, e, 0)
  }

  /** How far the left window edge moves, what stays queued, and what is posted on the way. */
  datatype Moved = Moved(lwe: nat, left: seq<SeqEntry>, posted: seq<DataPdu>)

  /** Posts from the head for as long as the head is the next number. */
  function Drain(lwe: nat, q: seq<SeqEntry>): Moved
    decreases |q|
  {
    if q == [] || q[0].pdu.sn != lwe + 1 then Moved(lwe, q, [])
    else
      var rest := Drain(q[0].pdu.sn, q[1..]);
      rest.(posted := [q[0].pdu] + rest.posted)
  }

  /** The distance test of the A-timer, in 32-bit arithmetic. */
  predicate InGap(sn: nat, lwe: nat, gap: nat) {
    U32(sn - lwe - 1) <= gap
  }

  /** What an A-timer expiry does from the head of the queue on. */
  function Expire(cfg: Config, lwe: nat, q: seq<SeqEntry>, now: nat): Moved
    decreases |q|
  {
    if q == [] then Moved(lwe, [], [])
    else
      var expired := q[0].timeStamp + cfg.a <= now;
      if expired && cfg.rtxCtrl then Expire(cfg, lwe, q[1..], now)
      else if expired || InGap(q[0].pdu.sn, lwe, cfg.maxSduGap) then
        var rest := Expire(cfg, q[0].pdu.sn, q[1..], now);
        rest.(posted := [q[0].pdu] + rest.posted)
      else Moved(lwe, q, [])
  }

  // ---------------------------------------------------------------- answering the sender

  function ControlPdu(cfg: Config, r: Rcv, kind: CtrlKind): CtrlPdu {
    var window, rate := cfg.flowCtrl && cfg.windowBased, cfg.flowCtrl && cfg.rateBased;
    CtrlPdu(kind, r.nextSndCtlSeq + 1, r.lwe,
            if window then r.lwe else 0, if window then r.rcvrRtWindEdge else 0, 0, 0,
            if rate then cfg.sendingRate else 0, if rate then cfg.timePeriod else 0)
  }

  function Emit(cfg: Config, r: Rcv, kind: CtrlKind): RcvStep {
    RcvStep(r.(nextSndCtlSeq := r.nextSndCtlSeq + 1), [], [ControlPdu(cfg, r, kind)])
  }

  /** Moves the right edge, then sends flow control, or an ack when there is something new to acknowledge. */
  function SvUpdate(cfg: Config, r: Rcv): RcvStep {
    var r1 := if cfg.flowCtrl && cfg.windowBased then r.(rcvrRtWindEdge := r.lwe + cfg.initialCredit) else r;
    if cfg.flowCtrl && !cfg.rtxCtrl then Emit(cfg, r1, FlowCtl)
    else if cfg.rtxCtrl && r1.lastSndDataAck < r1.lwe then
      Emit(cfg, r1.(lastSndDataAck := r1.lwe), if cfg.flowCtrl then AckAndFlowCtl else Ack)
    else RcvStep(r1, [], [])
  }

  // ---------------------------------------------------------------- receiving

  predicate Overrun(cfg: Config, r: Rcv, sn: nat) {
    cfg.windowBased && sn > r.rcvrRtWindEdge
  }

  function Counted(cfg: Config, r: Rcv, pdu: DataPdu): Rcv {
    if cfg.rateBased then r.(rcvdInTimeUnit := r.rcvdInTimeUnit + |pdu.data|) else r
  }

  /** Without an A-timer a reliable flow takes a PDU only if the gap before it is small enough. */
  predicate TakenAtOnce(cfg: Config, r: Rcv, sn: nat) {
    !(cfg.rtxCtrl && sn - r.lwe > U32(cfg.maxSduGap + 1))
  }

  function ReceiveAtOnce(cfg: Config, r: Rcv, pdu: DataPdu): RcvStep {
    var taken := TakenAtOnce(cfg, r, pdu.sn);
    var upd := SvUpdate(cfg, if taken then r.(lwe := pdu.sn) else r);
    upd.(posted := if taken then [pdu] else [])
  }

  function ReceiveInSequence(cfg: Config, r: Rcv, pdu: DataPdu, now: nat): RcvStep {
    var next := pdu.sn == r.lwe + 1;
    var q := if next then r.seqq else SeqPush(r.seqq, SeqEntry(pdu, now));
    var m := Drain(if next then pdu.sn else r.lwe, q);
    var upd := SvUpdate(cfg, r.(lwe := m.lwe, seqq := m.left));
    upd.(posted := (if next then [pdu] else []) + m.posted)
  }

  /** A run starts with whatever PDU carries the Data Run Flag. */
  function StartRun(cfg: Config, r: Rcv, pdu: DataPdu): RcvStep {
    if pdu.drf then
      SvUpdate(cfg, r.(drfRequired := false, lwe := pdu.sn, seqq := [])).(posted := [pdu])
    else Dropped(r)
  }

  function Dropped(r: Rcv): RcvStep {
    RcvStep(r.(dropPdus := r.dropPdus + 1), [], [])
  }

  function Accept(cfg: Config, r: Rcv, pdu: DataPdu, now: nat): RcvStep {
    var r1 := r.(rendezvousRcvr := false);
    if cfg.a == 0 then ReceiveAtOnce(cfg, r1, pdu) else ReceiveInSequence(cfg, r1, pdu, now)
  }

  function Receive(cfg: Config, r: Rcv, pdu: DataPdu, now: nat): RcvStep {
    if r.drfRequired then StartRun(cfg, r, pdu)
    else if pdu.sn <= r.lwe then Dropped(r)
    else if Overrun(cfg, r, pdu.sn) then Dropped(Counted(cfg, r, pdu))
    else Accept(cfg, Counted(cfg, r, pdu), pdu, now)
  }

  function ATimer(cfg: Config, r: Rcv, now: nat): RcvStep {
    var m := Expire(cfg, r.lwe, r.seqq, now);
    var r1 := r.(lwe := m.lwe, seqq := m.left);
    if m.posted == [] then RcvStep(r1, [], [])
    else SvUpdate(cfg, r1).(posted := m.posted)
  }

  /** A Rendezvous PDU sets the right edge from the sender's left edge, which may move it backwards. */
  function ReceiveRendezvous(cfg: Config, r: Rcv, c: CtrlPdu): RcvStep {
    if c.csn <= r.lastRcvCtlSeq then RcvStep(r, [], [])
    else
      var edge := if cfg.windowBased then c.myLwe + cfg.initialCredit else r.rcvrRtWindEdge;
      Emit(cfg, r.(lastRcvCtlSeq := c.csn, rcvrRtWindEdge := edge, rendezvousRcvr := true), FlowCtl)
  }

  /** While a rendezvous is pending, flow control is repeated. */
  function RendezvousTimer(cfg: Config, r: Rcv): RcvStep {
    if r.rendezvousRcvr then Emit(cfg, r, FlowCtl) else RcvStep(r, [], [])
  }
}
