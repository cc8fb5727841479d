/**
 The flow allocator as an object that is updated in place, one method per critical section; each is
 proved to take the step of module Kfa and to keep its invariant. What the threads hold and the graves
 are ghost state.
 */
module KfaObject {
  import opened Kfa

  class Allocator {
    var flows: map<nat, Flow>
    var ports: set<nat>
    var work: multiset<nat>
    var nextUid: nat
    ghost var ops: map<nat, Op>
    ghost var graves: seq<Grave>
    ghost var broken: bool

    ghost function State(): Alloc
      reads this
    {
      Alloc(flows, ports, work, ops, graves, nextUid, broken)
    }

    constructor ()
      ensures State() == START && Inv(State())
    {
      flows, ports, work, nextUid := map[], {}, multiset{}, 0;
      ops, graves, broken := map[], [], false;
    }

    method PortIdReserve(port: nat)
      requires Inv(State()) && port !in ports
      modifies this
      ensures State() == Reserve(old(State()), port) && Inv(State())
    {
      StepKeeps(State(), EvReserve(port));
      ports := ports + {port};
    }

    method PortIdRelease(port: nat) returns (code: Code)
      requires Inv(State())
      modifies this
      ensures Result(State(), code) == Release(old(State()), port) && Inv(State())
    {
      StepKeeps(State(), EvRelease(port));
      if port in flows {
        return Ok;
      }
      if port !in ports {
        return Failed;
      }
      ports := ports - {port};
      code := Ok;
    }

    method FlowCreate(port: nat)
      requires Inv(State()) && port in ports && port !in flows
      modifies this
      ensures State() == Create(old(State()), port) && Inv(State())
    {
      StepKeeps(State(), EvCreate(port));
      flows := flows[port := Flow(nextUid, Pending, 0, 0, 0)];
      nextUid := nextUid + 1;
    }

    method FlowBind(port: nat) returns (code: Code)
      requires Inv(State()) && (port in flows ==> flows[port].state.Pending?)
      modifies this
      ensures Result(State(), code) == Bind(old(State()), port) && Inv(State())
    {
      StepKeeps(State(), EvBind(port));
      if port !in flows {
        return Failed;
      }
      flows := flows[port := flows[port].(state := Allocated)];
      code := Ok;
    }

    method WriteDisable(port: nat) returns (code: Code)
      requires Inv(State())
      modifies this
      ensures Result(State(), code) == DisableWrite(old(State()), port) && Inv(State())
    {
      StepKeeps(State(), EvDisable(port));
      if port !in flows {
        return Failed;
      }
      if !flows[port].state.Deallocated? {
        flows := flows[port := flows[port].(state := Disabled)];
      }
      code := Ok;
    }

    method WriteEnable(port: nat) returns (code: Code)
      requires Inv(State())
      modifies this
      ensures Result(State(), code) == EnableWrite(old(State()), port) && Inv(State())
    {
      StepKeeps(State(), EvEnable(port));
      if port !in flows {
        return Failed;
      }
      if flows[port].state.Disabled? {
        flows := flows[port := flows[port].(state := Allocated)];
      }
      code := Ok;
    }

    method FlowDestroy(port: nat)
      requires port in flows
      modifies this
      ensures State() == Destroy(old(State()), port)
    {
      ghost var f := flows[port];
      graves := graves + [Grave(f, |Holders(ops, Reader, f.uid)| + |Holders(ops, Writer, f.uid)|)];
      flows, ports := flows - {port}, ports - {port};
    }

    method FlowDeallocate(port: nat) returns (code: Code)
      requires Inv(State())
      modifies this
      ensures Result(State(), code) == Deallocate(old(State()), port) && Inv(State())
    {
      StepKeeps(State(), EvDeallocate(port));
      if port !in flows {
        return Failed;
      }
      flows := flows[port := flows[port].(state := Deallocated)];
      if Idle(flows[port]) {
        FlowDestroy(port);
      } else {
        work := work + multiset{port};
      }
      code := Ok;
    }

    /** The worker finds nothing to destroy either: a deallocated flow that is still mapped has a thread in it. */
    method DeallocateWorker(port: nat)
      requires Inv(State()) && port in work
      modifies this
      ensures State() == Work(old(State()), port) && Inv(State())
    {
      StepKeeps(State(), EvWork(port));
      assert port in flows ==> FlowOk(State(), port);
      work := work - multiset{port};
      if port in flows && flows[port].state.Deallocated? && Idle(flows[port]) {
        assert false;
      }
    }

    /** Looks the port up, refuses a deallocated flow and counts the thread in. */
    method Enter(ghost t: nat, role: Role, port: nat, tooLong: bool) returns (code: Code)
      requires Inv(State()) && t !in ops
      modifies this
      ensures Result(State(), code) == Begin(old(State()), t, role, port, tooLong) && Inv(State())
    {
      StepKeeps(State(), EvBegin(t, role, port, tooLong));
      if port !in flows {
        return BadFd;
      }
      if flows[port].state.Deallocated? {
        return Shutdown;
      }
      if role.Writer? && tooLong {
        return TooLong;
      }
      ops := ops[t := Op(role, port, flows[port].uid)];
      flows := flows[port := Count(flows[port], role, 1)];
      code := Ok;
    }

    /** The look-up after a sleep, which finds the flow of thread `t`. */
    method LookUpAgain(ghost t: nat, port: nat) returns (flow: Flow)
      requires Inv(State()) && t in ops && ops[t].port == port
      ensures port in flows && flow == flows[port] && flow.uid == ops[t].uid && Held(State(), ops[t])
    {
      AlwaysHeld(State(), t);
      flow := flows[port];
    }

    /** Counts the thread out, and destroys a deallocated flow that nobody is left in. */
    method Leave(ghost t: nat, role: Role, port: nat)
      requires Inv(State()) && t in ops && ops[t].role == role && ops[t].port == port
      modifies this
      ensures State() == End(old(State()), t) && Inv(State())
    {
      EndKeeps(State(), t);
      AlwaysHeld(State(), t);
      ops := ops - {t};
      flows := flows[port := Count(flows[port], role, -1)];
      if Idle(flows[port]) && flows[port].state.Deallocated? {
        FlowDestroy(port);
      }
    }

    /** The destruction at the end of a post is dead code: the same critical section has seen the flow alive. */
    method DuPost(port: nat) returns (code: Code)
      requires Inv(State())
      modifies this
      ensures Result(State(), code) == Post(old(State()), port) && Inv(State())
      ensures State() == old(State())
    {
      if port !in flows {
        return Failed;
      }
      if flows[port].state.Deallocated? {
        return Failed;
      }
      ghost var before := flows;
      flows := flows[port := flows[port].(posters := flows[port].posters + 1)];
      flows := flows[port := flows[port].(posters := flows[port].posters - 1)];
      assert flows == before;
      if Idle(flows[port]) && flows[port].state.Deallocated? {
        assert false;
      }
      code := Ok;
    }
  }
}
