/**
 The kernel flow allocator: a map from port-ids to reference-counted flows. Every critical section
 under the instance lock is one step; readers and writers are threads that may sleep between their
 steps, so their first and last critical sections are separate events.
 */
module Kfa {

  datatype FlowState = Pending | Allocated | Deallocated | Disabled

  /** `uid` is the identity of the flow object, which outlives neither its port mapping nor its destruction. */
  datatype Flow = Flow(uid: nat, state: FlowState, readers: nat, writers: nat, posters: nat)

  datatype Role = Reader | Writer

  /** A thread between its first and its last critical section, holding a reference to a flow object. */
  datatype Op = Op(role: Role, port: nat, uid: nat)

  /** A flow as it was when it was destroyed, and how many threads still held it. */
  datatype Grave = Grave(flow: Flow, holders: nat)

  /**
   `work` holds the ports queued for the deallocation worker. `ops`, `graves` and `nextUid` are history;
   `broken` records that a thread would have used a flow that is gone.
   */
  datatype Alloc = Alloc(
    flows: map<nat, Flow>, ports: set<nat>, work: multiset<nat>,
    ops: map<nat, Op>, graves: seq<Grave>, nextUid: nat, broken: bool)

  const START := Alloc(map[], {}, multiset{}, map[], [], 0, false)

  datatype Code = Ok | Failed | BadFd | Shutdown | TooLong

  datatype Result = Result(k: Alloc, code: Code)

  function Holders(ops: map<nat, Op>, role: Role, uid: nat): set<nat> {
    set t | t in ops && ops[t].role == role && ops[t].uid == uid
  }

  // ---------------------------------------------------------------- steps

  predicate Idle(f: Flow) { f.readers == 0 && f.writers == 0 && f.posters == 0 }

  function Destroy(k: Alloc, port: nat): Alloc
    requires port in k.flows
  {
    var f := k.flows[port];
    k.(flows := k.flows - {port}, ports := k.ports - {port},
       graves := k.graves + [Grave(f, |Holders(k.ops, Reader, f.uid)| + |Holders(k.ops, Writer, f.uid)|)])
  }

  function DestroyIfDone(k: Alloc, port: nat): Alloc
    requires port in k.flows
  {
    if Idle(k.flows[port]) && k.flows[port].state.Deallocated? then Destroy(k, port) else k
  }

  function Reserve(k: Alloc, port: nat): Alloc { k.(ports := k.ports + {port}) }

  /** Releasing a port-id that a flow uses does nothing: the flow releases it when it is destroyed. */
  function Release(k: Alloc, port: nat): Result {
    if port in k.flows then Result(k, Ok)
    else if port !in k.ports then Result(k, Failed)
    else Result(k.(ports := k.ports - {port}), Ok)
  }

  function Create(k: Alloc, port: nat): Alloc {
    k.(flows := k.flows[port := Flow(k.nextUid, Pending, 0, 0, 0)], nextUid := k.nextUid + 1)
  }

  function SetState(k: Alloc, port: nat, state: FlowState): Alloc
    requires port in k.flows
  {
    k.(flows := k.flows[port := k.flows[port].(state := state)])
  }

  function Bind(k: Alloc, port: nat): Result {
    if port !in k.flows then Result(k, Failed) else Result(SetState(k, port, Allocated), Ok)
  }

  function DisableWrite(k: Alloc, port: nat): Result {
    if port !in k.flows then Result(k, Failed)
    else if k.flows[port].state.Deallocated? then Result(k, Ok)
    else Result(SetState(k, port, Disabled), Ok)
  }

  function EnableWrite(k: Alloc, port: nat): Result {
    if port !in k.flows then Result(k, Failed)
    else if k.flows[port].state.Disabled? then Result(SetState(k, port, Allocated), Ok)
    else Result(k, Ok)
  }

  /** Marks the flow, and destroys it at once if nobody uses it; otherwise a work item is queued. */
  function Deallocate(k: Alloc, port: nat): Result {
    if port !in k.flows then Result(k, Failed)
    else
      var k1 := SetState(k, port, Deallocated);
      if Idle(k1.flows[port]) then Result(Destroy(k1, port), Ok)
      else Result(k1.(work := k1.work + multiset{port}), Ok)
  }

  /** The work item finds its flow gone, replaced by another one, still in use, or ready to be destroyed. */
  function Work(k: Alloc, port: nat): Alloc {
    var k1 := k.(work := k.work - multiset{port});
    if port in k1.flows then DestroyIfDone(k1, port) else k1
  }

  function Count(f: Flow, role: Role, d: int): Flow
    requires if role.Reader? then f.readers + d >= 0 else f.writers + d >= 0
  {
    if role.Reader? then f.(readers := f.readers + d) else f.(writers := f.writers + d)
  }

  /** The first critical section of a read or a write. */
  function Begin(k: Alloc, t: nat, role: Role, port: nat, tooLong: bool): Result {
    if port !in k.flows then Result(k, BadFd)
    else if k.flows[port].state.Deallocated? then Result(k, Shutdown)
    else if role.Writer? && tooLong then Result(k, TooLong)
    else
      Result(k.(flows := k.flows[port := Count(k.flows[port], role, 1)],
                ops := k.ops[t := Op(role, port, k.flows[port].uid)]), Ok)
  }

  /** The flow that a thread holds is still the one mapped at its port, and counts the thread. */
  predicate Held(k: Alloc, op: Op) {
    && op.port in k.flows && k.flows[op.port].uid == op.uid
    && (if op.role.Reader? then k.flows[op.port].readers > 0 else k.flows[op.port].writers > 0)
  }

  /** The critical section after a sleep: the port is looked up again. */
  function Wake(k: Alloc, t: nat): Alloc
    requires t in k.ops
  {
    if Held(k, k.ops[t]) then k else k.(broken := true)
  }

  /** The last critical section of a read or a write. */
  function End(k: Alloc, t: nat): Alloc
    requires t in k.ops
  {
    var op := k.ops[t];
    var k1 := k.(ops := k.ops - {t});
    if !Held(k, op) then k1.(broken := true)
    else DestroyIfDone(k1.(flows := k1.flows[op.port := Count(k1.flows[op.port], op.role, -1)]), op.port)
  }

  /** A post counts itself in and out in one critical section, so it ends with the same destruction test. */
  function Post(k: Alloc, port: nat): Result {
    if port !in k.flows || k.flows[port].state.Deallocated? then Result(k, Failed)
    else Result(DestroyIfDone(k, port), Ok)
  }

  // ---------------------------------------------------------------- runs

  datatype Event =
    | EvReserve(port: nat) | EvRelease(port: nat) | EvCreate(port: nat) | EvBind(port: nat)
    | EvDisable(port: nat) | EvEnable(port: nat) | EvDeallocate(port: nat) | EvWork(port: nat) | EvPost(port: nat)
    | EvBegin(t: nat, role: Role, port: nat, tooLong: bool) | EvWake(t: nat) | EvEnd(t: nat)

  function Next(k: Alloc, e: Event): Alloc {
    match e
    case EvReserve(port) => Reserve(k, port)
    case EvRelease(port) => Release(k, port).k
    case EvCreate(port) => Create(k, port)
    case EvBind(port) => Bind(k, port).k
    case EvDisable(port) => DisableWrite(k, port).k
    case EvEnable(port) => EnableWrite(k, port).k
    case EvDeallocate(port) => Deallocate(k, port).k
    case EvWork(port) => Work(k, port)
    case EvPost(port) => Post(k, port).k
    case EvBegin(t, role, port, tooLong) => Begin(k, t, role, port, tooLong).k
    case EvWake(t) => if t in k.ops then Wake(k, t) else k
    case EvEnd(t) => if t in k.ops then End(k, t) else k
  }

  /**
   What the callers observe: port-ids are drawn fresh, flows are created on reserved ports without one,
   only a pending flow is bound, and a thread does one thing at a time.
   */
  ghost predicate Enabled(k: Alloc, e: Event) {
    match e
    case EvReserve(port) => port !in k.ports
    case EvCreate(port) => port in k.ports && port !in k.flows
    case EvBind(port) => port in k.flows ==> k.flows[port].state.Pending?
    case EvWork(port) => port in k.work
    case EvBegin(t, role, port, tooLong) => t !in k.ops
    case EvWake(t) => t in k.ops
    case EvEnd(t) => t in k.ops
    case _ => true
  }

  function Exec(es: seq<Event>): Alloc {
    if es == [] then START else Next(Exec(es[..|es| - 1]), es[|es| - 1])
  }

  ghost predicate Runs(es: seq<Event>) {
    es == [] || (Runs(es[..|es| - 1]) && Enabled(Exec(es[..|es| - 1]), es[|es| - 1]))
  }

  // ---------------------------------------------------------------- the invariant

  /** The counters of a flow count the threads that hold it, and a deallocated flow is held by some thread. */
  ghost predicate Counted(f: Flow, ops: map<nat, Op>) {
    && f.readers == |Holders(ops, Reader, f.uid)| && f.writers == |Holders(ops, Writer, f.uid)| && f.posters == 0
    && (f.state.Deallocated? ==> f.readers + f.writers > 0)
  }

  ghost predicate Buried(g: Grave) { g.flow.state.Deallocated? && Idle(g.flow) && g.holders == 0 }

  ghost predicate Apart(k: Alloc, p: nat, q: nat)
    requires p in k.flows && q in k.flows
  {
    p != q ==> k.flows[p].uid != k.flows[q].uid
  }

  ghost predicate FlowOk(k: Alloc, p: nat)
    requires p in k.flows
  {
    && p in k.ports && k.flows[p].uid < k.nextUid && Counted(k.flows[p], k.ops)
    && (forall i :: 0 <= i < |k.graves| ==> k.graves[i].flow.uid != k.flows[p].uid)
  }

  ghost predicate OpOk(k: Alloc, op: Op) { op.port in k.flows && k.flows[op.port].uid == op.uid }

  ghost predicate Inv(k: Alloc) {
    && !k.broken
    && (forall p :: p in k.flows ==> FlowOk(k, p))
    && (forall p, q :: p in k.flows && q in k.flows ==> Apart(k, p, q))
    && (forall t :: t in k.ops ==> OpOk(k, k.ops[t]))
    && (forall i :: 0 <= i < |k.graves| ==> Buried(k.graves[i]) && k.graves[i].flow.uid < k.nextUid)
    && (forall i, j :: 0 <= i < j < |k.graves| ==> k.graves[i].flow.uid != k.graves[j].flow.uid)
  }

  /** A flow with nobody in it can be destroyed. */
  lemma DestroyKeeps(k: Alloc, port: nat)
    requires port in k.flows && Idle(k.flows[port]) && k.flows[port].state.Deallocated?
    requires Inv(k.(flows := k.flows[port := k.flows[port].(state := Allocated)]))
    ensures Inv(Destroy(k, port))
  {
    var k0 := k.(flows := k.flows[port := k.flows[port].(state := Allocated)]);
    var k' := Destroy(k, port);
    assert FlowOk(k0, port);
    forall p | p in k'.flows ensures FlowOk(k', p) {
      assert FlowOk(k0, p) && Apart(k0, p, port);
    }
    forall p, q | p in k'.flows && q in k'.flows ensures Apart(k', p, q) {
      assert Apart(k0, p, q);
    }
    var uid := k.flows[port].uid;
    assert Holders(k.ops, Reader, uid) == {} == Holders(k.ops, Writer, uid);
    forall t | t in k'.ops ensures OpOk(k', k'.ops[t]) {
      assert OpOk(k0, k0.ops[t]);
      assert t !in Holders(k.ops, Reader, uid) && t !in Holders(k.ops, Writer, uid);
    }
  }

  /** Changing the state of a flow, not to Deallocated unless somebody is in it. */
  lemma SetStateKeeps(k: Alloc, port: nat, state: FlowState)
    requires Inv(k) && port in k.flows && (state.Deallocated? ==> !Idle(k.flows[port]))
    ensures Inv(SetState(k, port, state))
  {
    var k' := SetState(k, port, state);
    forall p | p in k'.flows ensures FlowOk(k', p) {
      assert FlowOk(k, p);
    }
    forall p, q | p in k'.flows && q in k'.flows ensures Apart(k', p, q) {
      assert Apart(k, p, q);
    }
    forall t | t in k'.ops ensures OpOk(k', k'.ops[t]) {
      assert OpOk(k, k.ops[t]);
    }
  }

  lemma DeallocateKeeps(k: Alloc, port: nat)
    requires Inv(k)
    ensures Inv(Deallocate(k, port).k)
  {
    if port in k.flows {
      var k1 := SetState(k, port, Deallocated);
      if Idle(k.flows[port]) {
        SetStateKeeps(k, port, Allocated);
        assert SetState(k, port, Allocated) == k1.(flows := k1.flows[port := k1.flows[port].(state := Allocated)]);
        DestroyKeeps(k1, port);
      } else {
        SetStateKeeps(k, port, Deallocated);
        WorkIsFree(k1, k1.work + multiset{port});
      }
    }
  }

  lemma WorkIsFree(k: Alloc, work: multiset<nat>)
    requires Inv(k)
    ensures Inv(k.(work := work))
  {
    var k' := k.(work := work);
    forall p | p in k'.flows ensures FlowOk(k', p) {
      assert FlowOk(k, p);
    }
    forall p, q | p in k'.flows && q in k'.flows ensures Apart(k', p, q) {
      assert Apart(k, p, q);
    }
    forall t | t in k'.ops ensures OpOk(k', k'.ops[t]) {
      assert OpOk(k, k.ops[t]);
    }
  }

  /** Neither the worker nor a post ever finds a flow to destroy. */
  lemma NothingDone(k: Alloc, port: nat)
    requires Inv(k) && port in k.flows
    ensures DestroyIfDone(k, port) == k
  {
    assert FlowOk(k, port);
  }

  lemma CreateKeeps(k: Alloc, port: nat)
    requires Inv(k) && port in k.ports && port !in k.flows
    ensures Inv(Create(k, port))
  {
    var k' := Create(k, port);
    forall role | true ensures Holders(k.ops, role, k.nextUid) == {} {
      forall t | t in k.ops ensures k.ops[t].uid != k.nextUid {
        assert OpOk(k, k.ops[t]) && FlowOk(k, k.ops[t].port);
      }
    }
    forall p | p in k'.flows ensures FlowOk(k', p) {
      assert p != port ==> FlowOk(k, p);
      assert Holders(k.ops, Reader, k.nextUid) == {} == Holders(k.ops, Writer, k.nextUid);
    }
    forall p, q | p in k'.flows && q in k'.flows ensures Apart(k', p, q) {
      assert p != port ==> FlowOk(k, p);
      assert q != port ==> FlowOk(k, q);
      assert p != port && q != port ==> Apart(k, p, q);
    }
    forall t | t in k'.ops ensures OpOk(k', k'.ops[t]) {
      assert OpOk(k, k.ops[t]);
    }
  }

  lemma PortsKeep(k: Alloc, ports: set<nat>)
    requires Inv(k) && forall p :: p in k.flows ==> p in ports
    ensures Inv(k.(ports := ports))
  {
    var k' := k.(ports := ports);
    forall p | p in k'.flows ensures FlowOk(k', p) {
      assert FlowOk(k, p);
    }
    forall p, q | p in k'.flows && q in k'.flows ensures Apart(k', p, q) {
      assert Apart(k, p, q);
    }
    forall t | t in k'.ops ensures OpOk(k', k'.ops[t]) {
      assert OpOk(k, k.ops[t]);
    }
  }

  lemma HoldersAdd(ops: map<nat, Op>, t: nat, op: Op, role: Role, uid: nat)
    requires t !in ops
    ensures |Holders(ops[t := op], role, uid)| == |Holders(ops, role, uid)| + if op.role == role && op.uid == uid then 1 else 0
  {
    assert Holders(ops[t := op], role, uid)
        == Holders(ops, role, uid) + if op.role == role && op.uid == uid then {t} else {};
  }

  lemma HoldersRemove(ops: map<nat, Op>, t: nat, role: Role, uid: nat)
    requires t in ops
    ensures |Holders(ops, role, uid)| == |Holders(ops - {t}, role, uid)| + if ops[t].role == role && ops[t].uid == uid then 1 else 0
  {
    assert Holders(ops, role, uid)
        == Holders(ops - {t}, role, uid) + if ops[t].role == role && ops[t].uid == uid then {t} else {};
  }

  lemma BeginKeeps(k: Alloc, t: nat, role: Role, port: nat, tooLong: bool)
    requires Inv(k) && t !in k.ops
    ensures Inv(Begin(k, t, role, port, tooLong).k)
  {
    var r := Begin(k, t, role, port, tooLong);
    if r.code.Ok? {
      var k' := r.k;
      forall p | p in k'.flows ensures FlowOk(k', p) {
        assert FlowOk(k, p) && Apart(k, p, port);
        HoldersAdd(k.ops, t, k'.ops[t], Reader, k.flows[p].uid);
        HoldersAdd(k.ops, t, k'.ops[t], Writer, k.flows[p].uid);
      }
      forall p, q | p in k'.flows && q in k'.flows ensures Apart(k', p, q) {
        assert Apart(k, p, q);
      }
      forall u | u in k'.ops ensures OpOk(k', k'.ops[u]) {
        assert u != t ==> OpOk(k, k.ops[u]);
      }
    }
  }

  /** Every thread in flight finds its own flow again, and is counted in it. */
  lemma AlwaysHeld(k: Alloc, t: nat)
    requires Inv(k) && t in k.ops
    ensures Held(k, k.ops[t])
  {
    var op := k.ops[t];
    assert OpOk(k, op) && FlowOk(k, op.port);
    assert t in Holders(k.ops, op.role, op.uid);
  }

  /** What is left when a thread has counted itself out, unless the flow is to be destroyed. */
  lemma EndWith(k: Alloc, t: nat, f: Flow)
    requires Inv(k) && t in k.ops && Held(k, k.ops[t])
    requires f == Count(k.flows[k.ops[t].port], k.ops[t].role, -1).(state := f.state)
    requires !(Idle(f) && f.state.Deallocated?)
    ensures Inv(k.(ops := k.ops - {t}, flows := k.flows[k.ops[t].port := f]))
  {
    var port := k.ops[t].port;
    var k' := k.(ops := k.ops - {t}, flows := k.flows[port := f]);
    forall p | p in k'.flows ensures FlowOk(k', p) {
      assert FlowOk(k, p) && FlowOk(k, port) && Apart(k, p, port);
      HoldersRemove(k.ops, t, Reader, k.flows[p].uid);
      HoldersRemove(k.ops, t, Writer, k.flows[p].uid);
    }
    forall p, q | p in k'.flows && q in k'.flows ensures Apart(k', p, q) {
      assert Apart(k, p, q);
    }
    forall u | u in k'.ops ensures OpOk(k', k'.ops[u]) {
      assert OpOk(k, k.ops[u]);
    }
  }

  lemma EndKeeps(k: Alloc, t: nat)
    requires Inv(k) && t in k.ops
    ensures Inv(End(k, t))
  {
    AlwaysHeld(k, t);
    var port := k.ops[t].port;
    var f := Count(k.flows[port], k.ops[t].role, -1);
    if Idle(f) && f.state.Deallocated? {
      var k1 := k.(ops := k.ops - {t}, flows := k.flows[port := f]);
      EndWith(k, t, f.(state := Allocated));
      assert k1.flows[port := f.(state := Allocated)] == k.flows[port := f.(state := Allocated)];
      DestroyKeeps(k1, port);
    } else {
      EndWith(k, t, f);
    }
  }

  lemma StepKeeps(k: Alloc, e: Event)
    requires Inv(k) && Enabled(k, e)
    ensures Inv(Next(k, e))
  {
    match e
    case EvReserve(port) =>
      forall p | p in k.flows ensures p in k.ports { assert FlowOk(k, p); }
      PortsKeep(k, k.ports + {port});
    case EvRelease(port) =>
      forall p | p in k.flows ensures p in k.ports { assert FlowOk(k, p); }
      if port !in k.flows && port in k.ports { PortsKeep(k, k.ports - {port}); }
    case EvCreate(port) => CreateKeeps(k, port);
    case EvBind(port) => if port in k.flows { SetStateKeeps(k, port, Allocated); }
    case EvDisable(port) => if port in k.flows { SetStateKeeps(k, port, Disabled); }
    case EvEnable(port) => if port in k.flows { SetStateKeeps(k, port, Allocated); }
    case EvDeallocate(port) => DeallocateKeeps(k, port);
    case EvWork(port) =>
      WorkIsFree(k, k.work - multiset{port});
      if port in k.flows { NothingDone(k.(work := k.work - multiset{port}), port); }
    case EvPost(port) => if port in k.flows { NothingDone(k, port); }
    case EvBegin(t, role, port, tooLong) => BeginKeeps(k, t, role, port, tooLong);
    case EvWake(t) => AlwaysHeld(k, t);
    case EvEnd(t) => EndKeeps(k, t);
  }

  lemma {:induction false} RunKeeps(es: seq<Event>)
    requires Runs(es)
    ensures Inv(Exec(es))
  {
    if es != [] {
      RunKeeps(es[..|es| - 1]);
      StepKeeps(Exec(es[..|es| - 1]), es[|es| - 1]);
    }
  }

  // ---------------------------------------------------------------- the properties

  ghost predicate DestroyedOnce(k: Alloc) {
    && (forall i, j :: 0 <= i < j < |k.graves| ==> k.graves[i].flow.uid != k.graves[j].flow.uid)
    && (forall i :: 0 <= i < |k.graves| ==> Buried(k.graves[i]))
  }

  ghost predicate InUse(k: Alloc, p: nat) { exists t :: t in k.ops && k.ops[t].port == p }

  ghost predicate PortsInOrder(k: Alloc) {
    forall p :: p in k.flows ==> p in k.ports && (k.flows[p].state.Deallocated? ==> InUse(k, p))
  }

  ghost predicate ThreadsSafe(k: Alloc) { !k.broken && forall t :: t in k.ops ==> Held(k, k.ops[t]) }

  /**
   For every interleaving: a flow is destroyed at most once, and only when it is deallocated and no
   thread is in it; a deallocated flow that is still mapped has a thread in it; a mapped port-id is
   reserved; and every thread that wakes up finds the very flow that it went to sleep on.
   */
  lemma FlowLifecycle(es: seq<Event>)
    requires Runs(es)
    ensures DestroyedOnce(Exec(es)) && PortsInOrder(Exec(es)) && ThreadsSafe(Exec(es))
  {
    RunKeeps(es);
    var k := Exec(es);
    forall p | p in k.flows ensures p in k.ports && (k.flows[p].state.Deallocated? ==> InUse(k, p)) {
      assert FlowOk(k, p);
      if k.flows[p].state.Deallocated? {
        HeldBySomeone(k, p);
      }
    }
    forall t | t in k.ops ensures Held(k, k.ops[t]) { AlwaysHeld(k, t); }
  }

  lemma HeldBySomeone(k: Alloc, p: nat)
    requires Inv(k) && p in k.flows && k.flows[p].state.Deallocated?
    ensures InUse(k, p)
  {
    var f := k.flows[p];
    assert FlowOk(k, p);
    var role := if f.readers > 0 then Reader else Writer;
    assert Holders(k.ops, role, f.uid) != {};
    var t :| t in Holders(k.ops, role, f.uid);
    assert OpOk(k, k.ops[t]) && Apart(k, p, k.ops[t].port);
  }

  /** Created flows: all of them are mapped or buried. */
  ghost predicate Accounted(k: Alloc, uid: nat) {
    (exists p :: p in k.flows && k.flows[p].uid == uid) || (exists i :: 0 <= i < |k.graves| && k.graves[i].flow.uid == uid)
  }

  /** No flow leaks: whatever the interleaving, a flow that was created is mapped or was destroyed. */
  lemma {:induction false} NoFlowLeaks(es: seq<Event>, uid: nat)
    requires Runs(es) && uid < Exec(es).nextUid
    ensures Accounted(Exec(es), uid)
  {
    var k0, e := Exec(es[..|es| - 1]), es[|es| - 1];
    RunKeeps(es[..|es| - 1]);
    if uid < k0.nextUid {
      NoFlowLeaks(es[..|es| - 1], uid);
      StaysAccounted(k0, e, uid);
    } else {
      assert Exec(es).flows[e.port].uid == uid;
    }
  }

  /** Flow `uid`, mapped at `p`, is still mapped there or has been destroyed. */
  ghost predicate StillThere(k: Alloc, p: nat, uid: nat) {
    || (p in k.flows && k.flows[p].uid == uid)
    || (k.graves != [] && k.graves[|k.graves| - 1].flow.uid == uid)
  }

  lemma OnlyDestroyed(k: Alloc, e: Event, p: nat)
    requires Inv(k) && Enabled(k, e) && p in k.flows
    ensures StillThere(Next(k, e), p, k.flows[p].uid)
  {
    if e.EvWork? || e.EvPost? {
      DestroysNothing(k, e);
    } else if e.EvEnd? {
      OnlyDestroyedAtEnd(k, e.t, p);
    } else if e.EvDeallocate? {
      OnlyDestroyedByDeallocate(k, e.port, p);
    } else {
      OthersKeepFlows(k, e, p);
    }
  }

  lemma OthersKeepFlows(k: Alloc, e: Event, p: nat)
    requires Enabled(k, e) && p in k.flows && !(e.EvWork? || e.EvPost? || e.EvEnd? || e.EvDeallocate?)
    ensures StillThere(Next(k, e), p, k.flows[p].uid)
  {
  }

  lemma DestroysNothing(k: Alloc, e: Event)
    requires Inv(k) && (e.EvWork? || e.EvPost?)
    ensures Next(k, e).flows == k.flows
  {
    if e.port in k.flows {
      WorkIsFree(k, k.work - multiset{e.port});
      NothingDone(k.(work := k.work - multiset{e.port}), e.port);
      NothingDone(k, e.port);
    }
  }

  lemma OnlyDestroyedByDeallocate(k: Alloc, port: nat, p: nat)
    requires p in k.flows
    ensures StillThere(Deallocate(k, port).k, p, k.flows[p].uid)
  {
  }

  lemma OnlyDestroyedAtEnd(k: Alloc, t: nat, p: nat)
    requires Inv(k) && t in k.ops && p in k.flows
    ensures StillThere(End(k, t), p, k.flows[p].uid)
  {
    AlwaysHeld(k, t);
  }

  lemma StaysAccounted(k: Alloc, e: Event, uid: nat)
    requires Inv(k) && Enabled(k, e) && Accounted(k, uid)
    ensures Accounted(Next(k, e), uid)
  {
    if p :| p in k.flows && k.flows[p].uid == uid {
      OnlyDestroyed(k, e, p);
      assert p !in Next(k, e).flows ==> Next(k, e).graves[|Next(k, e).graves| - 1].flow.uid == uid;
    } else {
      var i :| 0 <= i < |k.graves| && k.graves[i].flow.uid == uid;
      GravesStay(k, e);
      assert Next(k, e).graves[i].flow.uid == uid;
    }
  }

  lemma GravesStay(k: Alloc, e: Event)
    ensures k.graves <= Next(k, e).graves
  {
  }

  /** The last thread to leave a deallocated flow destroys it and gives its port-id back. */
  lemma LastOneDestroys(es: seq<Event>, t: nat)
    requires Runs(es) && t in Exec(es).ops
    requires var k := Exec(es); var p := k.ops[t].port;
             p in k.flows && k.flows[p].state.Deallocated? && (forall u :: u in k.ops && k.ops[u].port == p ==> u == t)
    ensures var k' := End(Exec(es), t); var p := Exec(es).ops[t].port;
            p !in k'.flows && p !in k'.ports && |k'.graves| == |Exec(es).graves| + 1
  {
    RunKeeps(es);
    var k := Exec(es);
    AlwaysHeld(k, t);
    EndKeeps(k, t);
    var p := k.ops[t].port;
    if p in End(k, t).flows {
      assert FlowOk(End(k, t), p);
      HeldBySomeone(End(k, t), p);
    }
  }
}
