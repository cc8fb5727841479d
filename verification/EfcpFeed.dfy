/**
 How the sender feeds its retransmission queue. The order of the queue, and with it every early exit of its
 loops, rests on numbers being pushed in increasing order. Here the queue of every reachable state is tied to
 the operations that the sender applied to it, the configurations whose pushes are always in order are found
 exactly, and on those the conservation and the retransmission limit of the queue hold over every run.
 */
module EfcpFeed {
  import opened EfcpTypes
  import opened RateControl
  import opened RtxQueue
  import opened DtpSender
  import opened EfcpWorld
  import opened EfcpGenuine
  import opened EfcpWindow
  import R = DtpReceiver

  // ---------------------------------------------------------------- what the sender does to the queue

  function DeliverOps(cfg: Config, s: Snd, now: nat, ticks: seq<bool>): seq<Op>
    decreases |s.cwq|
  {
    if Continues(cfg, s, now, ticks) then
      [OpPush(s.cwq[0], now)] + DeliverOps(cfg, Delivered1(cfg, s, now, ticks), now, Later(ticks))
    else if s.cwq != [] && CanDeliver(cfg, ClockRead(cfg, s, Tick(ticks))) then [OpPush(s.cwq[0], now)]
    else []
  }

  function WriteOps(cfg: Config, s: Snd, data: seq<Octet>, now: nat, tick: bool): seq<Op> {
    var pdu := NewPdu(cfg, s, data);
    if WindowIsClosed(cfg, Checked(cfg, Numbered(s), pdu.sn, tick), pdu.sn) then [] else [OpPush(pdu, now)]
  }

  function AckOps(c: CtrlPdu): seq<Op> { if Acks(c) then [OpAck(c.ackSn)] else [] }

  function ControlOps(cfg: Config, s: Snd, c: CtrlPdu, now: nat, ticks: seq<bool>): seq<Op> {
    if !Processed(cfg, s, c) then []
    else
      var s2 := Acknowledged(cfg, s.(lastRcvCtlSeq := c.csn), c, now);
      AckOps(c) + (if Opens(c) then DeliverOps(cfg, Opened(cfg, s2, c), now, ticks) else [])
  }

  /** The state from which the rate timer delivers. */
  function Reset(s: Snd): Snd { s.(rate := Elapse(s.rate, true).(fulfilled := false), portDisabled := false) }

  function OpsOf(cfg: Config, s: Snd, e: Event): seq<Op> {
    if !cfg.rtxCtrl then []
    else
      match e
      case EvWrite(data, now, tick) => WriteOps(cfg, s, data, now, tick)
      case EvCtrl(c, now, ticks) => ControlOps(cfg, s, c, now, ticks)
      case EvRtx(now, ticks) => [OpRtx(s.rtt.tr, now, s.rate, ticks)]
      case EvRate(now, ticks) => DeliverOps(cfg, Reset(s), now, ticks)
      case _ => []
  }

  function Ops(cfg: Config, w: World, es: seq<Event>): seq<Op> {
    if es == [] then []
    else
      var prefix := es[..|es| - 1];
      Ops(cfg, w, prefix) + OpsOf(cfg, Exec(cfg, w, prefix).snd, es[|es| - 1])
  }

  lemma {:induction false} RunConcat(cfg: Config, h: History, a: seq<Op>, b: seq<Op>)
    ensures Run(cfg, h, a + b) == Run(cfg, Run(cfg, h, a), b)
    ensures FedRun(cfg, h, a + b) <==> FedRun(cfg, h, a) && FedRun(cfg, Run(cfg, h, a), b)
    decreases |a|
  {
    if a == [] {
      assert a + b == b;
    } else {
      assert (a + b)[1..] == a[1..] + b;
      RunConcat(cfg, Apply(cfg, h, a[0]), a[1..], b);
    }
  }

  lemma OneOp(cfg: Config, h: History, op: Op)
    ensures Run(cfg, h, [op]) == Apply(cfg, h, op)
    ensures FedRun(cfg, h, [op]) <==> Fed(h, op)
  {
    assert [op][1..] == [];
    assert Run(cfg, Apply(cfg, h, op), [op][1..]) == Apply(cfg, h, op);
  }

  // ---------------------------------------------------------------- the queue is what the operations make of it

  lemma {:induction false} DeliverMirrors(cfg: Config, s: Snd, now: nat, ticks: seq<bool>, h: History)
    requires cfg.rtxCtrl && h.queue == s.rtxq
    ensures var h' := Run(cfg, h, DeliverOps(cfg, s, now, ticks));
            h'.queue == Deliver(cfg, s, now, ticks).s.rtxq && h'.resent == h.resent && h'.dropped == h.dropped && h'.acked == h.acked
    decreases |s.cwq|
  {
    var ops := DeliverOps(cfg, s, now, ticks);
    if Continues(cfg, s, now, ticks) {
      var s' := Delivered1(cfg, s, now, ticks);
      assert ops[1..] == DeliverOps(cfg, s', now, Later(ticks));
      DeliverMirrors(cfg, s', now, Later(ticks), Apply(cfg, h, ops[0]));
    } else if ops != [] {
      OneOp(cfg, h, ops[0]);
    }
  }

  /** What an event resends, and how many entries it removes as acknowledged. */
  function Resent(cfg: Config, s: Snd, e: Event): seq<DataPdu> {
    if e.EvRtx? then RtxTimer(cfg, s, e.now, e.ticks).out else []
  }

  function Removed(cfg: Config, s: Snd, e: Event): nat {
    if e.EvCtrl? && cfg.rtxCtrl && Acks(e.c) && Processed(cfg, s, e.c) then |s.rtxq| - |AckUpTo(s.rtxq, e.c.ackSn)| else 0
  }

  lemma AckMirrors(cfg: Config, s: Snd, c: CtrlPdu, now: nat, h: History)
    requires cfg.rtxCtrl && h.queue == s.rtxq
    ensures var h' := Run(cfg, h, AckOps(c));
            && h'.queue == Acknowledged(cfg, s, c, now).rtxq && h'.resent == h.resent && h'.dropped == h.dropped
            && h'.acked == h.acked + (if Acks(c) then |s.rtxq| - |AckUpTo(s.rtxq, c.ackSn)| else 0)
  {
    OneOp(cfg, h, OpAck(c.ackSn));
  }

  lemma ControlMirrors(cfg: Config, s: Snd, e: Event, h: History)
    requires cfg.rtxCtrl && h.queue == s.rtxq && e.EvCtrl? && Processed(cfg, s, e.c)
    ensures var h' := Run(cfg, h, ControlOps(cfg, s, e.c, e.now, e.ticks));
            && h'.queue == ReceiveControl(cfg, s, e.c, e.now, e.ticks).s.rtxq
            && h'.resent == h.resent && h'.dropped == h.dropped && h'.acked == h.acked + Removed(cfg, s, e)
  {
    var s2 := Acknowledged(cfg, s.(lastRcvCtlSeq := e.c.csn), e.c, e.now);
    AckMirrors(cfg, s.(lastRcvCtlSeq := e.c.csn), e.c, e.now, h);
    var h1 := Run(cfg, h, AckOps(e.c));
    if Opens(e.c) {
      var more := DeliverOps(cfg, Opened(cfg, s2, e.c), e.now, e.ticks);
      DeliverMirrors(cfg, Opened(cfg, s2, e.c), e.now, e.ticks, h1);
      RunConcat(cfg, h, AckOps(e.c), more);
      assert ControlOps(cfg, s, e.c, e.now, e.ticks) == AckOps(e.c) + more;
    } else {
      assert ControlOps(cfg, s, e.c, e.now, e.ticks) == AckOps(e.c);
    }
  }

  /** Events that apply at most one operation. */
  lemma SimpleMirrors(cfg: Config, w: World, e: Event, h: History)
    requires cfg.rtxCtrl && h.queue == w.snd.rtxq && (e.EvWrite? || e.EvRtx?)
    ensures var h' := Run(cfg, h, OpsOf(cfg, w.snd, e)); var w' := Next(cfg, w, e);
            && h'.queue == w'.snd.rtxq && h'.resent == h.resent + Resent(cfg, w.snd, e) && h'.acked == h.acked
            && h'.dropped - h.dropped == |w'.dropped| - |w.dropped|
  {
    if OpsOf(cfg, w.snd, e) != [] {
      OneOp(cfg, h, OpsOf(cfg, w.snd, e)[0]);
    }
  }

  lemma StepMirrors(cfg: Config, w: World, e: Event, h: History)
    requires cfg.rtxCtrl && h.queue == w.snd.rtxq
    ensures var h' := Run(cfg, h, OpsOf(cfg, w.snd, e)); var w' := Next(cfg, w, e);
            && h'.queue == w'.snd.rtxq && h'.resent == h.resent + Resent(cfg, w.snd, e)
            && h'.acked == h.acked + Removed(cfg, w.snd, e)
            && h'.dropped - h.dropped == |w'.dropped| - |w.dropped|
  {
    if e.EvWrite? || e.EvRtx? {
      SimpleMirrors(cfg, w, e, h);
    } else if e.EvRate? {
      DeliverMirrors(cfg, Reset(w.snd), e.now, e.ticks, h);
    } else if e.EvCtrl? && Processed(cfg, w.snd, e.c) {
      ControlMirrors(cfg, w.snd, e, h);
    }
  }

  function Resends(cfg: Config, w: World, es: seq<Event>): seq<DataPdu> {
    if es == [] then []
    else
      var prefix := es[..|es| - 1];
      Resends(cfg, w, prefix) + Resent(cfg, Exec(cfg, w, prefix).snd, es[|es| - 1])
  }

  function Acked(cfg: Config, w: World, es: seq<Event>): nat {
    if es == [] then 0
    else
      var prefix := es[..|es| - 1];
      Acked(cfg, w, prefix) + Removed(cfg, Exec(cfg, w, prefix).snd, es[|es| - 1])
  }

  /** In every run of every retransmitting flow the queue, and what happened to it, is what its operations make of it. */
  lemma {:induction false} QueueMirrors(cfg: Config, n0: nat, tr: nat, es: seq<Event>)
    requires cfg.rtxCtrl
    ensures var w0 := Start(cfg, n0, tr); var w := Exec(cfg, w0, es); var h := Run(cfg, EMPTY, Ops(cfg, w0, es));
            && h.queue == w.snd.rtxq && h.resent == Resends(cfg, w0, es)
            && h.acked == Acked(cfg, w0, es) && h.dropped == |w.dropped|
  {
    if es != [] {
      var w0, prefix, e := Start(cfg, n0, tr), es[..|es| - 1], es[|es| - 1];
      var w := Exec(cfg, w0, prefix);
      QueueMirrors(cfg, n0, tr, prefix);
      RunConcat(cfg, EMPTY, Ops(cfg, w0, prefix), OpsOf(cfg, w.snd, e));
      StepMirrors(cfg, w, e, Run(cfg, EMPTY, Ops(cfg, w0, prefix)));
    }
  }
}
