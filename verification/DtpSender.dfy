/**
 The sending half of a connection: numbering, the window check, the closed-window queue, the
 retransmission timer and the processing of control PDUs. Every entry point is one atomic step,
 given as a function on the state vector; class `Sender` in DtpSenderObject runs the steps in place.
 */
module DtpSender {
  import opened EfcpTypes
  import opened RateControl
  import opened RtxQueue
  import opened Rtt

  datatype Snd = Snd(
    seqNrToSend: nat, maxSeqNrSent: nat, sndLftWin: nat, sndRtWindEdge: nat,
    windowClosed: bool, drfFlag: bool, rendezvousSndr: bool,
    cwq: seq<DataPdu>, rtxq: seq<RtxEntry>, rtxDrops: nat,
    lastRcvCtlSeq: nat, nextSndCtlSeq: nat,
    rate: Rate, rtt: RttVars,
    portDisabled: bool, inactivityArmed: bool)

  /** A step's new state and the data PDUs that it hands to the relaying task, in order. */
  datatype Step = Step(s: Snd, out: seq<DataPdu>)

  function InitialRate(cfg: Config): Rate {
    var r := if cfg.flowCtrl && cfg.rateBased then cfg.sendingRate else 0;
    Rate(0, 0, r, r, false, 0)
  }

  /** dtp_sv_init and dtcp_sv_init, after an initial sequence number was drawn. */
  function Init(cfg: Config, initialSn: nat, tr: nat): Snd {
    Snd(initialSn, initialSn, 0, cfg.initialCredit + initialSn,
        false, true, false, [], [], 0, 0, 0,
        InitialRate(cfg), RttVars(0, 0, 0, tr), false, false)
  }

  // ---------------------------------------------------------------- writing

  /** Assigns the next sequence number; a DRF is set while the run flag is up, or when all is acknowledged. */
  function NewPdu(cfg: Config, s: Snd, data: seq<Octet>): DataPdu {
    DataPdu(s.seqNrToSend + 1, s.drfFlag || (s.sndLftWin == s.seqNrToSend && cfg.rtxCtrl), data)
  }

  function Numbered(s: Snd): Snd {
    s.(inactivityArmed := false, seqNrToSend := s.seqNrToSend + 1)
  }

  /** Reads the clock and records which of the two flow-control mechanisms is closed. */
  function Checked(cfg: Config, s: Snd, sn: nat, tick: bool): Snd {
    var rate := if cfg.rateBased then Elapse(s.rate, tick) else s.rate;
    s.(windowClosed := s.windowClosed || (cfg.windowBased && sn > s.sndRtWindEdge),
       rate := if cfg.rateBased then rate.(fulfilled := Exceeded(rate, true)) else rate)
  }

  /** Closed when either mechanism is; the default policy for a conflict also answers "closed". */
  predicate WindowIsClosed(cfg: Config, s: Snd, sn: nat) {
    (cfg.windowBased && sn > s.sndRtWindEdge) || (cfg.rateBased && Exceeded(s.rate, true))
  }

  /** Parks the PDU, and stops the writer unless the queue is allowed to hold more. */
  function Park(cfg: Config, s: Snd, pdu: DataPdu): Snd {
    var max := cfg.MaxClosedWinqLength();
    s.(cwq := s.cwq + [pdu],
       portDisabled := s.portDisabled || !(max != 0 && |s.cwq| < max - 1),
       rendezvousSndr := s.rendezvousSndr || !(cfg.rtxCtrl && |s.rtxq| > 0))
  }

  function Transmit(cfg: Config, s: Snd, pdu: DataPdu, now: nat): Step {
    var pushed := if cfg.rtxCtrl then Push(s.rtxq, RtxEntry(pdu, now, 0)) else Some(s.rtxq);
    if pushed.None? then Step(s, [])
    else
      Step(s.(rtxq := pushed.value, maxSeqNrSent := pdu.sn, sndLftWin := pdu.sn,
              rate := FirstTransmission(s.rate, |pdu.data|), inactivityArmed := true), [pdu])
  }

  function Write(cfg: Config, s: Snd, data: seq<Octet>, now: nat, tick: bool): Step {
    var pdu := NewPdu(cfg, s, data);
    var s1 := Checked(cfg, Numbered(s), pdu.sn, tick);
    if WindowIsClosed(cfg, s1, pdu.sn) then Step(Park(cfg, s1, pdu), [])
    else
      var s2 := if cfg.rateBased then s1.(rate := Charge(s1.rate, |data|)) else s1;
      Transmit(cfg, s2, pdu, now)
  }

  // ---------------------------------------------------------------- delivering the closed-window queue

  /** With both mechanisms on, a conflict between them is reconciled in favour of delivering. */
  predicate CanDeliver(cfg: Config, s: Snd) {
    (cfg.windowBased && s.maxSeqNrSent < s.sndRtWindEdge) || (cfg.rateBased && !Exceeded(s.rate, false))
  }

  function ClockRead(cfg: Config, s: Snd, tick: bool): Snd {
    if cfg.rateBased then s.(rate := Elapse(s.rate, tick)) else s
  }

  /** Takes the head out of the queue and copies it to the retransmission queue. */
  function TakeHead(cfg: Config, s: Snd, now: nat): Snd
    requires s.cwq != []
  {
    var pushed := if cfg.rtxCtrl then Push(s.rtxq, RtxEntry(s.cwq[0], now, 0)) else Some(s.rtxq);
    s.(cwq := s.cwq[1..], rtxq := if pushed.Some? then pushed.value else s.rtxq)
  }

  /** The rate is used up by this PDU: the loop stops with the PDU taken and not transmitted. */
  predicate OutOfRate(cfg: Config, s: Snd, pdu: DataPdu) {
    cfg.flowCtrl && cfg.rateBased && |pdu.data| + s.rate.sent >= s.rate.sndrRate
  }

  function SendHead(cfg: Config, s: Snd, pdu: DataPdu): Snd {
    var rate := if cfg.flowCtrl && cfg.rateBased then Charge(s.rate, |pdu.data|) else s.rate;
    s.(maxSeqNrSent := pdu.sn, sndLftWin := pdu.sn, rate := FirstTransmission(rate, |pdu.data|))
  }

  /** What the delivery loop leaves behind: a closed mechanism, or a writer that may go on. */
  function Settle(cfg: Config, s: Snd): Snd {
    var s1 := s.(windowClosed := if cfg.windowBased then s.cwq != [] else s.windowClosed,
                 rate := if cfg.rateBased then s.rate.(fulfilled := true) else s.rate);
    if s.cwq == [] && 0 < cfg.MaxClosedWinqLength() then s1.(portDisabled := false) else s1
  }

  /** The delivery loop goes round once more. */
  predicate Continues(cfg: Config, s: Snd, now: nat, ticks: seq<bool>) {
    && s.cwq != []
    && var s1 := ClockRead(cfg, s, Tick(ticks));
       CanDeliver(cfg, s1) && !OutOfRate(cfg, TakeHead(cfg, s1, now), s.cwq[0])
  }

  /** The state after one round. */
  function Delivered1(cfg: Config, s: Snd, now: nat, ticks: seq<bool>): Snd
    requires s.cwq != []
  {
    SendHead(cfg, TakeHead(cfg, ClockRead(cfg, s, Tick(ticks)), now), s.cwq[0])
  }

  /** The state in which the loop stops, before it settles. */
  function Stopped(cfg: Config, s: Snd, now: nat, ticks: seq<bool>): Snd {
    if s.cwq == [] then s
    else
      var s1 := ClockRead(cfg, s, Tick(ticks));
      if !CanDeliver(cfg, s1) then s1
      else
        var s2 := TakeHead(cfg, s1, now);
        s2.(rate := Charge(s2.rate, |s.cwq[0].data|))
  }

  function Deliver(cfg: Config, s: Snd, now: nat, ticks: seq<bool>): Step
    decreases |s.cwq|
  {
    if Continues(cfg, s, now, ticks) then
      var rest := Deliver(cfg, Delivered1(cfg, s, now, ticks), now, Later(ticks));
      Step(rest.s, [s.cwq[0]] + rest.out)
    else Step(Settle(cfg, Stopped(cfg, s, now, ticks)), [])
  }

  /** What a delivery has sent so far, followed by what it still does. */
  ghost function After(out: seq<DataPdu>, rest: Step): Step { Step(rest.s, out + rest.out) }

  lemma DeliverOne(cfg: Config, s: Snd, now: nat, ticks: seq<bool>, out: seq<DataPdu>)
    requires Continues(cfg, s, now, ticks)
    ensures After(out, Deliver(cfg, s, now, ticks)) ==
            After(out + [s.cwq[0]], Deliver(cfg, Delivered1(cfg, s, now, ticks), now, Later(ticks)))
  {
    var rest := Deliver(cfg, Delivered1(cfg, s, now, ticks), now, Later(ticks));
    assert out + ([s.cwq[0]] + rest.out) == (out + [s.cwq[0]]) + rest.out;
  }

  // ---------------------------------------------------------------- control PDUs

  function SenderAck(cfg: Config, s: Snd, ack: nat): Snd {
    if cfg.rtxCtrl then s.(rtxq := AckUpTo(s.rtxq, ack), sndLftWin := ack + 1) else s
  }

  /** Feeds the estimator, unless the acknowledged PDU was retransmitted. */
  function Estimate(cfg: Config, s: Snd, stamp: Stamp, now: nat): Snd {
    if stamp.Stamp?
    then s.(rtt := Calculate(s.rtt, if now >= stamp.time then now - stamp.time else 0, cfg.a))
    else s
  }

  function Opened(cfg: Config, s: Snd, c: CtrlPdu): Snd {
    s.(sndRtWindEdge := if cfg.windowBased then c.newRwe else s.sndRtWindEdge,
       rate := if cfg.rateBased then SetRate(s.rate, c.sndrRate, c.timeFrame) else s.rate,
       rendezvousSndr := false)
  }

  predicate Acks(c: CtrlPdu) { c.kind.Ack? || c.kind.AckAndFlowCtl? }

  predicate Opens(c: CtrlPdu) { c.kind.FlowCtl? || c.kind.AckAndFlowCtl? }

  /** What the retransmission queue says about the acknowledged PDU; anything but `Absent` is processed. */
  function AckStamp(cfg: Config, s: Snd, c: CtrlPdu): Stamp {
    if Acks(c) && cfg.rtxCtrl then Lookup(s.rtxq, c.ackSn) else Retransmitted
  }

  function Acknowledged(cfg: Config, s: Snd, c: CtrlPdu, now: nat): Snd {
    if Acks(c) then SenderAck(cfg, Estimate(cfg, s, AckStamp(cfg, s, c), now), c.ackSn) else s
  }

  /** An acknowledgement touches the left edge, the estimator and a prefix of the retransmission queue. */
  lemma AcknowledgedShape(cfg: Config, s: Snd, c: CtrlPdu, now: nat) returns (k: nat)
    ensures k <= |s.rtxq|
    ensures var s' := Acknowledged(cfg, s, c, now);
            s' == s.(rtxq := s.rtxq[k..], sndLftWin := s'.sndLftWin, rtt := s'.rtt)
    ensures k > 0 ==> Acks(c) && cfg.rtxCtrl && AckUpTo(s.rtxq, c.ackSn) == s.rtxq[k..]
  {
    if Acks(c) && cfg.rtxCtrl {
      AckShrinks(s.rtxq, c.ackSn);
      k :| 0 <= k <= |s.rtxq| && AckUpTo(s.rtxq, c.ackSn) == s.rtxq[k..];
    } else {
      k := 0;
      assert s.rtxq[0..] == s.rtxq;
    }
  }

  /** The control PDU passes the order test, and acknowledges nothing unknown. */
  predicate Processed(cfg: Config, s: Snd, c: CtrlPdu) {
    c.csn > s.lastRcvCtlSeq && !AckStamp(cfg, s, c).Absent?
  }

  /** Out-of-order and repeated control PDUs are ignored, and so is an ack of a PDU that is not queued. */
  function ReceiveControl(cfg: Config, s: Snd, c: CtrlPdu, now: nat, ticks: seq<bool>): Step {
    if c.csn <= s.lastRcvCtlSeq then Step(s, [])
    else
      var s1 := s.(lastRcvCtlSeq := c.csn);
      if AckStamp(cfg, s1, c).Absent? then Step(s1, [])
      else
        var s2 := Acknowledged(cfg, s1, c, now);
        if Opens(c) then Deliver(cfg, Opened(cfg, s2, c), now, ticks) else Step(s2, [])
  }

  // ---------------------------------------------------------------- timers

  function MaxSn(pdus: seq<DataPdu>): nat {
    if pdus == [] then 0 else Max(pdus[0].sn, MaxSn(pdus[1..]))
  }

  /** After giving up on PDUs the left edge moves past them, and an idle sender asks for a rendezvous. */
  function GaveUp(cfg: Config, s: Snd, dropped: seq<DataPdu>): Snd {
    if dropped == [] then s
    else
      s.(sndLftWin := Max(s.sndLftWin, MaxSn(dropped)),
         rendezvousSndr := s.rendezvousSndr || (s.rtxq == [] && |s.cwq| == cfg.MaxClosedWinqLength()))
  }

  function RtxTimer(cfg: Config, s: Snd, now: nat, ticks: seq<bool>): Step {
    var p := Retransmit(cfg, s.rtxq, s.rtt.tr, now, s.rate, ticks);
    Step(GaveUp(cfg, s.(rtxq := p.queue, rate := p.rate, rtxDrops := s.rtxDrops + |p.dropped|), p.dropped), p.resent)
  }

  function RateTimer(cfg: Config, s: Snd, now: nat, ticks: seq<bool>): Step {
    Deliver(cfg, s.(rate := Elapse(s.rate, true).(fulfilled := false), portDisabled := false), now, ticks)
  }

  /** The Rendezvous PDU carries the sender's own window edges. */
  function RendezvousPdu(s: Snd): CtrlPdu {
    CtrlPdu(Rendezvous, s.nextSndCtlSeq + 1, 0, 0, 0, s.sndLftWin, s.sndRtWindEdge, 0, 0)
  }

  /** A new run starts from a fresh sequence number, with both queues flushed. */
  function SenderInactivity(cfg: Config, s: Snd, newSn: nat): Snd {
    s.(seqNrToSend := newSn, drfFlag := true, windowClosed := false,
       sndRtWindEdge := newSn + cfg.initialCredit, rendezvousSndr := false,
       rtxq := if cfg.rtxCtrl then [] else s.rtxq,
       cwq := if cfg.flowCtrl then [] else s.cwq,
       inactivityArmed := false)
  }
}
