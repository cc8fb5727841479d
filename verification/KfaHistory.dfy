/**
 The state of a flow as its history: which of the calls that acted on it decides the state it is in, and that a flow
 once deallocated stays so until the last thread in it has left, and is then destroyed.
 */
module KfaHistory {
  import opened Kfa

  /** At this moment the port is mapped to this flow. */
  ghost predicate Mapped(k: Alloc, p: nat, uid: nat) { p in k.flows && k.flows[p].uid == uid }

  ghost predicate InGrave(k: Alloc, uid: nat) { exists i :: 0 <= i < |k.graves| && k.graves[i].flow.uid == uid }

  // ---------------------------------------------------------------- deallocated for good

  /** Flow `uid`, mapped at `p` before, was destroyed, or is still mapped there and deallocated. */
  ghost predicate DeadOrDying(k: Alloc, p: nat, uid: nat) {
    InGrave(k, uid) || (Mapped(k, p, uid) && k.flows[p].state.Deallocated?)
  }

  lemma GraveStays(k: Alloc, e: Event, uid: nat)
    requires InGrave(k, uid)
    ensures InGrave(Next(k, e), uid)
  {
    GravesStay(k, e);
    var i :| 0 <= i < |k.graves| && k.graves[i].flow.uid == uid;
    assert Next(k, e).graves[i] == k.graves[i];
  }

  lemma LastGrave(k: Alloc, uid: nat)
    requires k.graves != [] && k.graves[|k.graves| - 1].flow.uid == uid
    ensures InGrave(k, uid)
  {
  }

  /** No event brings a deallocated flow back. */
  lemma StaysDeallocated(k: Alloc, e: Event, p: nat)
    requires Inv(k) && Enabled(k, e) && p in k.flows && k.flows[p].state.Deallocated?
    ensures DeadOrDying(Next(k, e), p, k.flows[p].uid)
  {
    OnlyDestroyed(k, e, p);
    var k' := Next(k, e);
    if !Mapped(k', p, k.flows[p].uid) {
      LastGrave(k', k.flows[p].uid);
    } else {
      StateStep(k, e, p);
    }
  }

  lemma DyingStep(k: Alloc, e: Event, p: nat, uid: nat)
    requires Inv(k) && Enabled(k, e) && DeadOrDying(k, p, uid)
    ensures DeadOrDying(Next(k, e), p, uid)
  {
    if InGrave(k, uid) {
      GraveStays(k, e, uid);
    } else {
      StaysDeallocated(k, e, p);
    }
  }

  lemma DeallocateKills(k: Alloc, p: nat)
    requires p in k.flows
    ensures DeadOrDying(Deallocate(k, p).k, p, k.flows[p].uid)
  {
    var k' := Deallocate(k, p).k;
    if p !in k'.flows {
      LastGrave(k', k.flows[p].uid);
    }
  }

  /** The call number `i` of the run deallocated flow `uid` at port `p`. */
  ghost predicate DeallocatedAt(es: seq<Event>, i: nat, p: nat, uid: nat)
    requires i < |es|
  {
    es[i] == EvDeallocate(p) && Mapped(Exec(es[..i]), p, uid)
  }

  lemma {:induction false} DyingRun(es: seq<Event>, i: nat, p: nat, uid: nat)
    requires Runs(es) && i < |es| && DeallocatedAt(es, i, p, uid)
    ensures DeadOrDying(Exec(es), p, uid)
  {
    var prefix := es[..|es| - 1];
    RunKeeps(prefix);
    if i == |es| - 1 {
      DeallocateKills(Exec(prefix), p);
    } else {
      assert prefix[..i] == es[..i];
      DyingRun(prefix, i, p, uid);
      DyingStep(Exec(prefix), es[|es| - 1], p, uid);
    }
  }

  /** No thread holds the flow. */
  ghost predicate Abandoned(k: Alloc, uid: nat) { forall t :: t in k.ops ==> k.ops[t].uid != uid }

  /**
   Deallocation is final: from the call on, whatever happens, the flow is destroyed or mapped and deallocated; and it is
   destroyed as soon as no thread holds it.
   */
  lemma DeallocationIsFinal(es: seq<Event>, i: nat, p: nat, uid: nat)
    requires Runs(es) && i < |es| && DeallocatedAt(es, i, p, uid)
    ensures DeadOrDying(Exec(es), p, uid)
    ensures InGrave(Exec(es), uid) <==> Abandoned(Exec(es), uid)
  {
    DyingRun(es, i, p, uid);
    RunKeeps(es);
    var k := Exec(es);
    if InGrave(k, uid) {
      BuriedIsAbandoned(k, uid);
    } else {
      HeldByOne(k, p);
    }
  }

  lemma BuriedIsAbandoned(k: Alloc, uid: nat)
    requires Inv(k) && InGrave(k, uid)
    ensures Abandoned(k, uid)
  {
    forall t | t in k.ops ensures k.ops[t].uid != uid {
      assert OpOk(k, k.ops[t]) && FlowOk(k, k.ops[t].port);
    }
  }

  lemma HeldByOne(k: Alloc, p: nat)
    requires Inv(k) && p in k.flows && k.flows[p].state.Deallocated?
    ensures !Abandoned(k, k.flows[p].uid)
  {
    var f := k.flows[p];
    assert FlowOk(k, p);
    var role := if f.readers > 0 then Reader else Writer;
    assert Holders(k.ops, role, f.uid) != {};
    var t :| t in Holders(k.ops, role, f.uid);
    assert t in k.ops && k.ops[t].uid == f.uid;
  }

  // ---------------------------------------------------------------- which call decides

  /** The event is a call on the port that flow `uid` is mapped at. */
  ghost predicate ActsOn(k: Alloc, e: Event, uid: nat) {
    (e.EvBind? || e.EvDisable? || e.EvEnable? || e.EvDeallocate?) && Mapped(k, e.port, uid)
  }

  /** The last bind, enable or disable that acted on the flow. */
  ghost function LastSwitch(es: seq<Event>, uid: nat): Switch {
    if es == [] then NoSwitch
    else
      var prefix, e := es[..|es| - 1], es[|es| - 1];
      if !ActsOn(Exec(prefix), e, uid) || e.EvDeallocate? then LastSwitch(prefix, uid)
      else if e.EvBind? then WasBind else if e.EvEnable? then WasEnable else WasDisable
  }

  datatype Switch = NoSwitch | WasBind | WasEnable | WasDisable

  ghost predicate WasDeallocated(es: seq<Event>, uid: nat) {
    exists i, p :: 0 <= i < |es| && DeallocatedAt(es, i, p, uid)
  }

  /** A bind or a disable acted on the flow. */
  ghost predicate WasStarted(es: seq<Event>, uid: nat) {
    exists i :: 0 <= i < |es| && (es[i].EvBind? || es[i].EvDisable?) && ActsOn(Exec(es[..i]), es[i], uid)
  }

  /** What the history of a flow says about its state. */
  ghost predicate StateIs(es: seq<Event>, state: FlowState, uid: nat) {
    && (state.Deallocated? <==> WasDeallocated(es, uid))
    && (!state.Deallocated? ==>
          && (state.Disabled? <==> LastSwitch(es, uid).WasDisable?)
          && (state.Pending? <==> !WasStarted(es, uid)))
  }

  lemma DeallocatedMore(es: seq<Event>, uid: nat)
    requires es != []
    ensures WasDeallocated(es, uid) <==>
            WasDeallocated(es[..|es| - 1], uid) || (es[|es| - 1].EvDeallocate? && ActsOn(Exec(es[..|es| - 1]), es[|es| - 1], uid))
  {
    var prefix, e := es[..|es| - 1], es[|es| - 1];
    if WasDeallocated(prefix, uid) {
      var i, p :| 0 <= i < |prefix| && DeallocatedAt(prefix, i, p, uid);
      assert prefix[..i] == es[..i] && DeallocatedAt(es, i, p, uid);
    }
    if e.EvDeallocate? && ActsOn(Exec(prefix), e, uid) {
      assert DeallocatedAt(es, |es| - 1, e.port, uid);
    }
    if WasDeallocated(es, uid) {
      var i, p :| 0 <= i < |es| && DeallocatedAt(es, i, p, uid);
      if i < |prefix| {
        assert prefix[..i] == es[..i] && DeallocatedAt(prefix, i, p, uid);
      }
    }
  }

  lemma StartedMore(es: seq<Event>, uid: nat)
    requires es != []
    ensures var e := es[|es| - 1];
            WasStarted(es, uid) <==> WasStarted(es[..|es| - 1], uid) || ((e.EvBind? || e.EvDisable?) && ActsOn(Exec(es[..|es| - 1]), e, uid))
  {
    var prefix, e := es[..|es| - 1], es[|es| - 1];
    if WasStarted(prefix, uid) {
      var i :| 0 <= i < |prefix| && (prefix[i].EvBind? || prefix[i].EvDisable?) && ActsOn(Exec(prefix[..i]), prefix[i], uid);
      assert prefix[..i] == es[..i] && ActsOn(Exec(es[..i]), es[i], uid);
    }
    if (e.EvBind? || e.EvDisable?) && ActsOn(Exec(prefix), e, uid) {
      assert ActsOn(Exec(es[..|es| - 1]), es[|es| - 1], uid);
    }
    if WasStarted(es, uid) {
      var i :| 0 <= i < |es| && (es[i].EvBind? || es[i].EvDisable?) && ActsOn(Exec(es[..i]), es[i], uid);
      if i < |prefix| {
        assert prefix[..i] == es[..i] && ActsOn(Exec(prefix[..i]), prefix[i], uid);
      }
    }
  }

  /** A flow that was not there yet: nothing has acted on it. */
  lemma {:induction false} Untouched(es: seq<Event>, uid: nat)
    requires Runs(es) && uid >= Exec(es).nextUid
    ensures !WasDeallocated(es, uid) && !WasStarted(es, uid) && LastSwitch(es, uid).NoSwitch?
  {
    if es != [] {
      var prefix, e := es[..|es| - 1], es[|es| - 1];
      RunKeeps(prefix);
      UidsGrow(Exec(prefix), e);
      Untouched(prefix, uid);
      DeallocatedMore(es, uid);
      StartedMore(es, uid);
      UidsKnown(Exec(prefix));
    }
  }

  lemma UidsKnown(k: Alloc)
    requires Inv(k)
    ensures forall p :: p in k.flows ==> k.flows[p].uid < k.nextUid
  {
    forall p | p in k.flows ensures k.flows[p].uid < k.nextUid {
      assert FlowOk(k, p);
    }
  }

  lemma UidsGrow(k: Alloc, e: Event)
    ensures k.nextUid <= Next(k, e).nextUid
  {
  }

  /** What one event makes of the state of a flow that stays mapped. */
  lemma StateStep(k: Alloc, e: Event, p: nat)
    requires Inv(k) && Enabled(k, e) && p in k.flows && Mapped(Next(k, e), p, k.flows[p].uid)
    ensures Moved(k, e, p, Next(k, e).flows[p].state)
  {
    if e.EvBind? || e.EvDisable? || e.EvEnable? || e.EvDeallocate? {
      CallStep(k, e, p);
    } else if e.EvWork? || e.EvPost? {
      DestroysNothing(k, e);
    } else if e.EvEnd? {
      AlwaysHeld(k, e.t);
    }
  }

  /** What the state of the flow at `p` is to become. */
  ghost predicate Moved(k: Alloc, e: Event, p: nat, s': FlowState)
    requires p in k.flows
  {
    var s := k.flows[p].state;
    if !ActsOn(k, e, k.flows[p].uid) then s' == s
    else match e
         case EvBind(_) => s' == Allocated && s == Pending
         case EvDisable(_) => s' == if s == Deallocated then Deallocated else Disabled
         case EvEnable(_) => s' == if s == Disabled then Allocated else s
         case _ => s' == Deallocated
  }

  lemma CallStep(k: Alloc, e: Event, p: nat)
    requires Inv(k) && Enabled(k, e) && p in k.flows && Mapped(Next(k, e), p, k.flows[p].uid)
    requires e.EvBind? || e.EvDisable? || e.EvEnable? || e.EvDeallocate?
    ensures Moved(k, e, p, Next(k, e).flows[p].state)
  {
    if ActsOn(k, e, k.flows[p].uid) {
      assert Apart(k, p, e.port);
    }
  }

  lemma {:induction false} NewFlow(k: Alloc, e: Event, p: nat)
    requires Inv(k) && Enabled(k, e) && p in Next(k, e).flows && (p in k.flows ==> k.flows[p].uid != Next(k, e).flows[p].uid)
    ensures e == EvCreate(p) && Next(k, e).flows[p].uid == k.nextUid && Next(k, e).flows[p].state.Pending?
  {
    if e.EvWork? || e.EvPost? {
      DestroysNothing(k, e);
    } else if e.EvEnd? {
      AlwaysHeld(k, e.t);
    }
  }

  /**
   In every state of every run the state of a mapped flow is decided by the calls that acted on it: it is deallocated
   exactly if a deallocation did; otherwise it is disabled exactly if the last of bind, enable and disable was a disable,
   and pending exactly if neither a bind nor a disable acted on it.
   */
  lemma {:induction false} StateIsHistory(es: seq<Event>, p: nat)
    requires Runs(es) && p in Exec(es).flows
    ensures StateIs(es, Exec(es).flows[p].state, Exec(es).flows[p].uid)
  {
    var prefix, e := es[..|es| - 1], es[|es| - 1];
    var k, uid := Exec(prefix), Exec(es).flows[p].uid;
    RunKeeps(prefix);
    DeallocatedMore(es, uid);
    StartedMore(es, uid);
    if Mapped(k, p, uid) {
      StateIsHistory(prefix, p);
      StateStep(k, e, p);
    } else {
      NewFlow(k, e, p);
      Untouched(prefix, uid);
    }
  }

  // ---------------------------------------------------------------- answers

  /** Who may enter: a thread gets in exactly if the flow is there, not deallocated, and the write not too long. */
  lemma EntryExactly(k: Alloc, t: nat, role: Role, p: nat, tooLong: bool)
    requires t !in k.ops
    ensures var r := Begin(k, t, role, p, tooLong);
            && (r.code.Ok? <==> p in k.flows && !k.flows[p].state.Deallocated? && !(role.Writer? && tooLong))
            && (r.code.BadFd? <==> p !in k.flows)
            && (r.code.Shutdown? <==> p in k.flows && k.flows[p].state.Deallocated?)
            && (!r.code.Ok? ==> r.k == k)
            && (r.code.Ok? ==> t in r.k.ops && r.k.ops[t] == Op(role, p, k.flows[p].uid) && r.k.ops - {t} == k.ops)
  {
    if Begin(k, t, role, p, tooLong).code.Ok? {
      assert k.ops[t := Op(role, p, k.flows[p].uid)] - {t} == k.ops;
    }
  }

  /** A deallocation leaves work behind exactly if it finds threads in the flow, and then for that port once more. */
  lemma WorkQueued(k: Alloc, p: nat)
    requires Inv(k)
    ensures var r := Deallocate(k, p);
            && (r.code.Ok? <==> p in k.flows)
            && r.k.work == k.work + if p in k.flows && !Abandoned(k, k.flows[p].uid) then multiset{p} else multiset{}
  {
    if p in k.flows {
      assert FlowOk(k, p);
      var f := k.flows[p];
      if Idle(f) {
        assert Holders(k.ops, Reader, f.uid) == {} == Holders(k.ops, Writer, f.uid);
        forall t | t in k.ops ensures k.ops[t].uid != f.uid {
          assert t !in Holders(k.ops, Reader, f.uid) && t !in Holders(k.ops, Writer, f.uid);
        }
      } else {
        var role := if f.readers > 0 then Reader else Writer;
        assert Holders(k.ops, role, f.uid) != {};
        var t :| t in Holders(k.ops, role, f.uid);
        assert k.ops[t].uid == f.uid;
      }
    }
  }

  /** A post is accepted exactly by a flow that is there and not deallocated, and changes nothing. */
  lemma PostExactly(k: Alloc, p: nat)
    requires Inv(k)
    ensures Post(k, p) == Result(k, if p in k.flows && !k.flows[p].state.Deallocated? then Ok else Failed)
  {
    if p in k.flows {
      NothingDone(k, p);
    }
  }

  /** A port-id is given back exactly if it is reserved and no flow uses it. */
  lemma ReleaseExactly(k: Alloc, p: nat, q: nat)
    requires Inv(k)
    ensures var r := Release(k, p);
            && (r.code.Failed? <==> p !in k.ports)
            && (q in r.k.ports <==> q in k.ports && !(q == p && p !in k.flows))
  {
    if p in k.flows {
      assert FlowOk(k, p);
    }
  }
}
