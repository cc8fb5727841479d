/**
 One direction of a connection: a sender, a receiver and a network that may lose, duplicate and
 reorder. The network is the set of PDUs ever sent; any of them may arrive at any time, any number
 of times, or never. Timers may expire at any time.
 */
module EfcpWorld {
  import opened EfcpTypes
  import opened RtxQueue
  import opened DtpSender
  import R = DtpReceiver

  /** A first transmission, with the right window edge of that moment. */
  datatype Sent = Sent(pdu: DataPdu, edge: nat)

  /**
   The state, and the history that the properties speak about: what the user wrote, what was
   transmitted for the first time, which numbers were given up on, what was posted to the peer's
   user, and how many PDUs were dropped for a flow-control overrun.
   */
  datatype World = World(
    n0: nat, snd: Snd, rcv: R.Rcv,
    data: set<DataPdu>, acks: set<CtrlPdu>, rvs: set<CtrlPdu>,
    written: seq<seq<Octet>>, first: seq<Sent>, dropped: seq<nat>,
    posted: seq<DataPdu>, overruns: nat)

  datatype Event =
    | EvWrite(data: seq<Octet>, now: nat, tick: bool)
    | EvCtrl(c: CtrlPdu, now: nat, ticks: seq<bool>)
    | EvRtx(now: nat, ticks: seq<bool>)
    | EvRate(now: nat, ticks: seq<bool>)
    | EvSendRendezvous
    | EvData(pdu: DataPdu, now: nat)
    | EvATimer(now: nat)
    | EvRendezvous(c: CtrlPdu)
    | EvRendezvousTimer

  function Start(cfg: Config, n0: nat, tr: nat): World {
    World(n0, Init(cfg, n0, tr), R.Init(cfg), {}, {}, {}, [], [], [], [], 0)
  }

  function Elements<T>(s: seq<T>): set<T> { set x | x in s }

  function Numbers(pdus: seq<DataPdu>): (ns: seq<nat>)
    ensures |ns| == |pdus| && forall i :: 0 <= i < |pdus| ==> ns[i] == pdus[i].sn
  {
    seq(|pdus|, i requires 0 <= i < |pdus| => pdus[i].sn)
  }

  function AsSent(pdus: seq<DataPdu>, edge: nat): (ss: seq<Sent>)
    ensures |ss| == |pdus| && forall i :: 0 <= i < |pdus| ==> ss[i] == Sent(pdus[i], edge)
  {
    seq(|pdus|, i requires 0 <= i < |pdus| => Sent(pdus[i], edge))
  }

  /** A step that transmits its output for the first time. */
  function FirstSends(w: World, step: Step): World {
    w.(snd := step.s, data := w.data + Elements(step.out), first := w.first + AsSent(step.out, step.s.sndRtWindEdge))
  }

  function Received(w: World, step: R.RcvStep): World {
    w.(rcv := step.r, posted := w.posted + step.posted, acks := w.acks + Elements(step.ctrl))
  }

  function GivenUp(cfg: Config, s: Snd, now: nat, ticks: seq<bool>): seq<DataPdu> {
    Retransmit(cfg, s.rtxq, s.rtt.tr, now, s.rate, ticks).dropped
  }

  function Next(cfg: Config, w: World, e: Event): World {
    match e
    case EvWrite(data, now, tick) =>
      FirstSends(w, Write(cfg, w.snd, data, now, tick)).(written := w.written + [data])
    case EvCtrl(c, now, ticks) =>
      FirstSends(w, ReceiveControl(cfg, w.snd, c, now, ticks))
    case EvRtx(now, ticks) =>
      var step := RtxTimer(cfg, w.snd, now, ticks);
      w.(snd := step.s, data := w.data + Elements(step.out), dropped := w.dropped + Numbers(GivenUp(cfg, w.snd, now, ticks)))
    case EvRate(now, ticks) =>
      FirstSends(w, RateTimer(cfg, w.snd, now, ticks))
    case EvSendRendezvous =>
      if w.snd.rendezvousSndr
      then w.(rvs := w.rvs + {RendezvousPdu(w.snd)}, snd := w.snd.(nextSndCtlSeq := w.snd.nextSndCtlSeq + 1))
      else w
    case EvData(pdu, now) =>
      var overrun := !w.rcv.drfRequired && pdu.sn > w.rcv.lwe && R.Overrun(cfg, w.rcv, pdu.sn);
      Received(w, R.Receive(cfg, w.rcv, pdu, now)).(overruns := w.overruns + if overrun then 1 else 0)
    case EvATimer(now) => Received(w, R.ATimer(cfg, w.rcv, now))
    case EvRendezvous(c) => Received(w, R.ReceiveRendezvous(cfg, w.rcv, c))
    case EvRendezvousTimer => Received(w, R.RendezvousTimer(cfg, w.rcv))
  }

  /** Only what was sent can arrive, and only a rate-based flow has a rate timer. */
  ghost predicate Enabled(cfg: Config, w: World, e: Event) {
    && (e.EvData? ==> e.pdu in w.data)
    && (e.EvCtrl? ==> e.c in w.acks)
    && (e.EvRendezvous? ==> e.c in w.rvs)
    && (e.EvRate? ==> cfg.rateBased)
  }

  function Exec(cfg: Config, w: World, es: seq<Event>): World {
    if es == [] then w else Next(cfg, Exec(cfg, w, es[..|es| - 1]), es[|es| - 1])
  }

  ghost predicate Runs(cfg: Config, w: World, es: seq<Event>) {
    es == [] || (Runs(cfg, w, es[..|es| - 1]) && Enabled(cfg, Exec(cfg, w, es[..|es| - 1]), es[|es| - 1]))
  }

  /** A run can go on with any enabled event. */
  lemma Onward(cfg: Config, w: World, es: seq<Event>, e: Event)
    requires Runs(cfg, w, es) && Enabled(cfg, Exec(cfg, w, es), e)
    ensures Runs(cfg, w, es + [e]) && Exec(cfg, w, es + [e]) == Next(cfg, Exec(cfg, w, es), e)
  {
    assert (es + [e])[..|es + [e]| - 1] == es;
  }

  /** The 32-bit sequence number did not roll over, with room for the largest gap. */
  ghost predicate NoRollover(cfg: Config, w: World) {
    w.snd.seqNrToSend - w.n0 + cfg.maxSduGap + 1 < TWO32
  }
}
