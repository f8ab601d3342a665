/** The objects of atpbar/machine.py: the Started state, whose fields change in place,
    and the StateMachine, whose `state` field every operation replaces. Each method is
    proved to do what the matching function of module Lifecycle says. */
module Machine {
  import opened Protocol
  import opened Lifecycle

  /** The foreign objects the states create and drive: queues, reporters and pickups
      are identities from one counter; which pickups are alive, and how many were
      started and ended, is ghost bookkeeping. */
  class Runtime {
    var nextId: nat
    ghost var live: set<Id>
    ghost var started: nat
    ghost var ended: nat

    ghost function View(): (r: World)
      reads this
    {
      World(nextId, live, started, ended)
    }

    constructor ()
      ensures View() == Empty
    {
      nextId, live, started, ended := 0, {}, 0, 0;
    }

    /** `multiprocessing.Queue()` or `ProgressReporter(queue=...)`. */
    method NewObject() returns (id: Id)
      modifies this
      ensures (id, View()) == Allocate(old(View()))
    {
      id := nextId;
      nextId := nextId + 1;
    }

    /** `ProgressReportPickup(queue, presentation, detach)` and its `start()`. */
    method LaunchPickup() returns (pickup: Id)
      modifies this
      ensures (pickup, View()) == Launch(old(View()))
    {
      pickup := nextId;
      nextId := nextId + 1;
      live := live + {pickup};
      started := started + 1;
    }

    /** `queue.put(None)` and `pickup.join()`. */
    method StopPickup(pickup: Id)
      modifies this
      ensures View() == Stop(old(View()), pickup)
    {
      live := live - {pickup};
      ended := ended + 1;
    }
  }

  /** The Started state: the pickup is running, typically in the main process. */
  class Started {
    const reporter: Id
    const queue: Option<Id>
    var pickup: Option<Id>
    var reporterYielded: bool
    var toRestartPickup: bool

    ghost function View(): (r: StartedView)
      reads this
    {
      StartedView(reporter, queue, pickup, Flags(reporterYielded, toRestartPickup))
    }

    /** `Started.__init__`. */
    constructor (reporter: Option<Id>, queue: Option<Id>, rt: Runtime)
      modifies rt
      ensures (View(), rt.View()) == Construct(reporter, queue, old(rt.View()))
    {
      var q := queue;
      var r: Id;
      if reporter.Some? {
        r := reporter.value;
      } else {
        if q.None? {
          var id := rt.NewObject();
          q := Some(id);
        }
        r := rt.NewObject();
      }
      this.reporter := r;
      this.queue := q;
      pickup := None;
      reporterYielded := false;
      toRestartPickup := true;
      new;
      StartPickup(rt);
    }

    /** `_start_pickup`. */
    method StartPickup(rt: Runtime)
      modifies this, rt
      ensures (View(), rt.View()) == Lifecycle.StartPickup(old(View()), old(rt.View()))
    {
      var p := rt.LaunchPickup();
      pickup := Some(p);
    }

    /** `_end_pickup`; `ok` is false where it raises (`None.put` or `None.join`), and
        then nothing has changed. */
    method EndPickup(rt: Runtime) returns (ok: bool)
      modifies this, rt
      ensures ok == Lifecycle.EndPickup(old(View()), old(rt.View())).Some?
      ensures ok ==> (View(), rt.View()) == Lifecycle.EndPickup(old(View()), old(rt.View())).value
      ensures !ok ==> View() == old(View()) && rt.View() == old(rt.View())
    {
      if queue.None? || pickup.None? {
        return false;
      }
      rt.StopPickup(pickup.value);
      pickup := None;
      ok := true;
    }

    /** `_restart_pickup`: end, then start; `ok` is false where ending raised. */
    method RestartPickup(rt: Runtime) returns (ok: bool)
      modifies this, rt
      ensures ok == Lifecycle.RestartPickup(old(View()), old(rt.View())).Some?
      ensures ok ==> (View(), rt.View()) == Lifecycle.RestartPickup(old(View()), old(rt.View())).value
      ensures !ok ==> View() == old(View()) && rt.View() == old(rt.View())
    {
      ok := EndPickup(rt);
      if ok {
        StartPickup(rt);
      }
    }

    /** `fetch_reporter` up to its `yield`: the reporter it yields, and which branch it
        took. */
    method BeginFetch(mainThread: bool) returns (yielded: Id, lease: Lease)
      modifies this
      ensures yielded == reporter
      ensures (View().flags, lease) == Acquire(old(View()).flags, mainThread)
      ensures View() == old(View()).(flags := View().flags)
    {
      yielded := reporter;
      if !mainThread {
        return yielded, Passive;
      }
      if reporterYielded {
        // called from an inner loop
        return yielded, Passive;
      }
      reporterYielded := true;
      toRestartPickup := true;
      lease := Outermost;
    }

    /** `fetch_reporter` after its `yield`, run however the use ended. Only the
        outermost branch has a `finally` block. */
    method EndFetch(lease: Lease, rt: Runtime) returns (ending: Ending)
      modifies this, rt
      ensures Closed(View(), rt.View(), ending) == CloseUse(old(View()), old(rt.View()), lease)
    {
      if lease == Passive {
        return Kept;
      }
      reporterYielded := false;
      if !toRestartPickup {
        return Kept;
      }
      var ok := RestartPickup(rt);
      ending := if ok then Restarted else Raised;
    }

    /** `detach`, the callback handed to the pickup. */
    method Detach()
      modifies this
      ensures View() == old(View()).(flags := Protocol.Detach(old(View()).flags))
    {
      toRestartPickup := false;
    }

    /** `Started.flush`: restarts the pickup and stays this state; `ok` is false where
        the restart raised. */
    method Flush(rt: Runtime) returns (ok: bool)
      modifies this, rt
      ensures ok == Lifecycle.RestartPickup(old(View()), old(rt.View())).Some?
      ensures ok ==> (View(), rt.View()) == Lifecycle.RestartPickup(old(View()), old(rt.View())).value
      ensures !ok ==> View() == old(View()) && rt.View() == old(rt.View())
    {
      ok := RestartPickup(rt);
    }

    /** `Started.shutdown`: ends the pickup and returns Initial with this reporter and
        queue; `None` where ending raised. */
    method Shutdown(rt: Runtime) returns (next: Option<State>)
      modifies this, rt
      ensures next.Some? == Lifecycle.EndPickup(old(View()), old(rt.View())).Some?
      ensures next.Some? ==> (View(), rt.View()) == Lifecycle.EndPickup(old(View()), old(rt.View())).value
      ensures next.Some? ==> next.value == InitialState(Some(reporter), queue)
      ensures next.None? ==> View() == old(View()) && rt.View() == old(rt.View())
    {
      var ok := EndPickup(rt);
      next := if ok then Some(InitialState(Some(reporter), queue)) else None;
    }
  }

  /** The state the StateMachine holds. Initial, Registered and Disabled are values; a
      Started state is an object. */
  datatype State =
    | InitialState(reporter: Option<Id>, queue: Option<Id>)
    | StartedState(obj: Started)
    | RegisteredState(reporter: Option<Id>)
    | DisabledState

  /** The `reporter` attribute of a state. */
  function ReporterOf(s: State): (r: Option<Id>)
    reads if s.StartedState? then {s.obj} else {}
    ensures s.StartedState? ==> r == Some(s.obj.reporter)
    ensures !s.StartedState? ==> r == HeldReporter(Plainly(s))
  {
    match s
    case InitialState(reporter, _) => reporter
    case StartedState(obj) => Some(obj.reporter)
    case RegisteredState(reporter) => reporter
    case DisabledState => None
  }

  /** A state that is not Started, as a value. */
  function Plainly(s: State): (r: Phase)
    requires !s.StartedState?
  {
    match s
    case InitialState(reporter, queue) => Initial(reporter, queue)
    case RegisteredState(reporter) => Registered(reporter)
    case DisabledState => Disabled
  }

  /** A use handed out by `fetch_reporter`: a plain one (Initial, Registered, Disabled
      just yield) or one of a Started object, with the branch it took. */
  datatype Ticket = Plain | Use(owner: Started, lease: Lease)

  /** The single coordination point of a process. */
  class StateMachine {
    var state: State
    const rt: Runtime
    /** Every Started object this machine ever created, and the one whose pickup is
        alive, if any. A Started object that is no longer the state may still have an
        outermost use open. */
    ghost var made: set<Started>
    ghost var holder: Option<Started>

    ghost function Footprint(): set<object>
      reads this
    {
      if state.StartedState? then {state.obj} else {}
    }

    /** The state as a value. */
    ghost function PhaseView(): (r: Phase)
      reads this, Footprint()
    {
      match state
      case InitialState(reporter, queue) => Initial(reporter, queue)
      case StartedState(obj) => Started(obj.View())
      case RegisteredState(reporter) => Registered(reporter)
      case DisabledState => Disabled
    }

    /** Only the holder has a pickup, every Started object has a queue, the alive
        pickups are the holder's, and the state is Good. */
    ghost predicate Valid()
      reads this, rt, made
    {
      && (state.StartedState? ==> state.obj in made && holder == Some(state.obj))
      && (forall s :: s in made ==> s.queue.Some? && (s.pickup.Some? <==> holder == Some(s)))
      && (holder.Some? ==> holder.value in made && holder.value.pickup.Some?
                           && rt.live == {holder.value.pickup.value})
      && (holder.None? ==> rt.live == {})
      && Good(PhaseView(), rt.View())
    }

    /** `StateMachine.__init__`: the Initial state with neither reporter nor queue. */
    constructor ()
      ensures Valid() && fresh(rt) && made == {}
      ensures PhaseView() == Initial(None, None) && rt.View() == Empty
    {
      rt := new Runtime();
      state := InitialState(None, None);
      made := {};
      holder := None;
    }

    /** `self.state = self.state.prepare_reporter()`. */
    method PrepareReporter()
      requires Valid()
      modifies this, rt
      ensures Valid() && old(made) <= made && fresh(made - old(made))
      ensures Step(old(PhaseView()), old(rt.View()), Prepare) == Some((PhaseView(), rt.View()))
      ensures old(state).StartedState? ==> state == old(state)
      ensures old(state).InitialState? ==> state.StartedState? && fresh(state.obj)
    {
      ghost var p0, w0 := PhaseView(), rt.View();
      PrepareKeepsGood(p0, w0);
      match state
      case InitialState(reporter, queue) =>
        var s := new Started(reporter, queue, rt);
        state := StartedState(s);
        made := made + {s};
        holder := Some(s);
      case _ =>
    }

    /** `find_reporter`: prepares, then returns the reporter of the new state. */
    method FindReporter() returns (reporter: Option<Id>)
      requires Valid()
      modifies this, rt
      ensures Valid() && old(made) <= made && fresh(made - old(made))
      ensures Step(old(PhaseView()), old(rt.View()), Prepare) == Some((PhaseView(), rt.View()))
      ensures reporter == HeldReporter(PhaseView())
    {
      PrepareReporter();
      reporter := ReporterOf(state);
    }

    /** `register_reporter`: Registered, from any state. */
    method RegisterReporter(reporter: Option<Id>)
      requires Valid()
      modifies this
      ensures Valid() && made == old(made)
      ensures Step(old(PhaseView()), old(rt.View()), Lifecycle.RegisterReporter(reporter)) == Some((PhaseView(), rt.View()))
    {
      state := RegisteredState(reporter);
    }

    /** `flush`. */
    method Flush()
      requires Valid()
      modifies this, rt, Footprint()
      ensures Valid() && old(made) <= made && fresh(made - old(made))
      ensures Step(old(PhaseView()), old(rt.View()), FlushOp) == Some((PhaseView(), rt.View()))
      ensures old(state).StartedState? ==> state == old(state)
    {
      ghost var p0, w0 := PhaseView(), rt.View();
      StepKeepsGood(p0, w0, FlushOp);
      match state
      case InitialState(_, _) =>
        PrepareReporter();
      case StartedState(s) =>
        var ok := s.Flush(rt);
      case _ =>
    }

    /** `disable`: Disabled, from any state. */
    method Disable()
      requires Valid()
      modifies this
      ensures Valid() && made == old(made)
      ensures Step(old(PhaseView()), old(rt.View()), DisableOp) == Some((PhaseView(), rt.View()))
    {
      state := DisabledState;
    }

    /** `shutdown`. */
    method Shutdown()
      requires Valid()
      modifies this, rt, Footprint()
      ensures Valid() && made == old(made)
      ensures Step(old(PhaseView()), old(rt.View()), ShutdownOp) == Some((PhaseView(), rt.View()))
      ensures old(state).StartedState? ==>
        old(state).obj.View() == old(state.obj.View()).(pickup := None)
    {
      ghost var p0, w0 := PhaseView(), rt.View();
      StepKeepsGood(p0, w0, ShutdownOp);
      match state
      case StartedState(s) =>
        var next := s.Shutdown(rt);
        if next.Some? {
          state := next.value;
          holder := None;
        }
      case _ =>
    }

    /** `fetch_reporter` up to its `yield`: prepares, then opens a use of the new
        state. The ticket is what the release needs. */
    method BeginFetch(mainThread: bool) returns (reporter: Option<Id>, ticket: Ticket)
      requires Valid()
      modifies this, rt, Footprint()
      ensures Valid() && old(made) <= made && fresh(made - old(made))
      ensures old(state).StartedState? ==> state == old(state)
      ensures var (p, w) := Lifecycle.PrepareReporter(old(PhaseView()), old(rt.View()));
        && rt.View() == w
        && reporter == HeldReporter(p)
        && (!p.Started? ==> PhaseView() == p && ticket == Plain)
        && (p.Started? ==>
              && ticket.Use? && state == StartedState(ticket.owner) && ticket.owner in made
              && (PhaseView().view.flags, ticket.lease) == Acquire(p.view.flags, mainThread)
              && PhaseView() == Started(p.view.(flags := PhaseView().view.flags)))
    {
      PrepareReporter();
      match state
      case StartedState(s) =>
        var r, lease := s.BeginFetch(mainThread);
        reporter, ticket := Some(r), Use(s, lease);
      case _ =>
        reporter, ticket := ReporterOf(state), Plain;
    }

    /** `fetch_reporter` after its `yield`, however the use ended. The Started object
        may no longer be the state. */
    method EndFetch(ticket: Ticket) returns (ending: Ending)
      requires Valid()
      requires ticket.Use? ==> ticket.owner in made
      modifies rt, if ticket.Use? then {ticket.owner} else {}
      ensures Valid()
      ensures ticket.Plain? ==> ending == Kept && rt.View() == old(rt.View())
      ensures ticket.Use? ==>
        Closed(ticket.owner.View(), rt.View(), ending)
          == CloseUse(old(ticket.owner.View()), old(rt.View()), ticket.lease)
      ensures ticket.Use? && state == StartedState(ticket.owner) ==> ending != Raised
    {
      if ticket.Plain? {
        return Kept;
      }
      var s := ticket.owner;
      ghost var v0, w0 := s.View(), rt.View();
      if state == StartedState(s) {
        CloseUseKeepsGood(v0, w0, ticket.lease);
      }
      ending := s.EndFetch(ticket.lease, rt);
    }

    /** The `detach` callback, as called by the pickup of a Started object. */
    method Detach(owner: Started)
      requires Valid() && owner in made
      modifies owner
      ensures Valid()
      ensures owner.View() == old(owner.View()).(flags := Protocol.Detach(old(owner.View()).flags))
    {
      owner.Detach();
    }
  }
}
