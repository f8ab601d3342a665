/** The states of atpbar/machine.py and their transitions, as values.

    Foreign objects (the multiprocessing queue, the ProgressReporter, the
    ProgressReportPickup) are opaque identities drawn from one counter in a `World`,
    which also records which pickups are alive and how many were started and ended.
    The classes of module Machine are proved to behave as these functions say. */
module Lifecycle {
  import opened Protocol

  type Id = nat

  datatype Option<T> = None | Some(value: T)

  /** The foreign side: the next fresh identity, the pickups alive, and how many pickups
      were started and ended so far. */
  datatype World = World(nextId: nat, live: set<Id>, started: nat, ended: nat)

  /** No foreign object exists yet. */
  const Empty := World(0, {}, 0, 0)

  /** A new foreign object (`multiprocessing.Queue()`, `ProgressReporter(queue=...)`). */
  function Allocate(w: World): (r: (Id, World))
  {
    (w.nextId, w.(nextId := w.nextId + 1))
  }

  /** `ProgressReportPickup(...)` followed by `start()`: a new pickup, alive. */
  function Launch(w: World): (r: (Id, World))
  {
    (w.nextId, World(w.nextId + 1, w.live + {w.nextId}, w.started + 1, w.ended))
  }

  /** `queue.put(None)` followed by `pickup.join()`: the pickup has ended. */
  function Stop(w: World, pickup: Id): (r: World)
  {
    w.(live := w.live - {pickup}, ended := w.ended + 1)
  }

  /** The fields of one Started object. */
  datatype StartedView = StartedView(reporter: Id, queue: Option<Id>, pickup: Option<Id>, flags: Flags)

  /** The state held by the StateMachine. A Started state is given by its fields. */
  datatype Phase =
    | Initial(reporter: Option<Id>, queue: Option<Id>)
    | Started(view: StartedView)
    | Registered(reporter: Option<Id>)
    | Disabled

  /** How the release of a use ended: no restart asked for, the pickup restarted, or
      the restart raised (`_end_pickup` on a missing queue or pickup). */
  datatype Ending = Kept | Restarted | Raised

  /** Every identity in use was handed out by the counter. */
  ghost predicate Issued(w: World)
  {
    forall x :: x in w.live ==> x < w.nextId
  }

  /** `Started._start_pickup`: a brand-new pickup becomes the object's pickup and is
      alive; nothing else of the object changes. */
  function StartPickup(v: StartedView, w: World): (r: (StartedView, World))
    ensures r.0 == v.(pickup := r.0.pickup) && r.0.pickup.Some?
    ensures Issued(w) ==> r.0.pickup.value !in w.live && Issued(r.1)
    ensures r.1.live == w.live + {r.0.pickup.value}
    ensures r.1.started == w.started + 1 && r.1.ended == w.ended && r.1.nextId > w.nextId
  {
    var (p, w') := Launch(w);
    (v.(pickup := Some(p)), w')
  }

  /** `Started._end_pickup`: puts the sentinel and joins the pickup, which is then no
      longer alive. It raises (`None`) when the queue or the pickup is missing. */
  function EndPickup(v: StartedView, w: World): (r: Option<(StartedView, World)>)
    ensures r.Some? <==> v.queue.Some? && v.pickup.Some?
    ensures r.Some? ==> r.value.0 == v.(pickup := None)
    ensures r.Some? ==> r.value.1.live == w.live - {v.pickup.value} && r.value.1.nextId == w.nextId
    ensures r.Some? ==> r.value.1.started == w.started && r.value.1.ended == w.ended + 1
  {
    if v.queue.None? || v.pickup.None? then None
    else Some((v.(pickup := None), Stop(w, v.pickup.value)))
  }

  /** `Started._restart_pickup`: the old pickup ends before a new one starts. */
  function RestartPickup(v: StartedView, w: World): (r: Option<(StartedView, World)>)
    ensures r.Some? <==> v.queue.Some? && v.pickup.Some?
    ensures r.Some? ==> r.value.0 == v.(pickup := r.value.0.pickup) && r.value.0.pickup.Some?
    ensures r.Some? ==> r.value.1.live == (w.live - {v.pickup.value}) + {r.value.0.pickup.value}
    ensures r.Some? && Issued(w) ==> r.value.0.pickup.value !in w.live && Issued(r.value.1)
    ensures r.Some? ==> r.value.1.started == w.started + 1 && r.value.1.ended == w.ended + 1
  {
    match EndPickup(v, w)
    case None => None
    case Some((v', w')) => Some(StartPickup(v', w'))
  }

  /** `Started.__init__`: a queue is created only when neither a reporter nor a queue is
      given, a reporter only when none is given, then exactly one pickup is started. */
  function Construct(reporter: Option<Id>, queue: Option<Id>, w: World): (r: (StartedView, World))
    ensures reporter.Some? ==> r.0.reporter == reporter.value && r.0.queue == queue
    ensures reporter.None? && queue.Some? ==> r.0.queue == queue && r.0.reporter >= w.nextId
    ensures reporter.None? && queue.None? ==>
      r.0.queue.Some? && r.0.queue.value >= w.nextId && r.0.reporter >= w.nextId
      && r.0.queue.value != r.0.reporter
    ensures r.0.pickup.Some? && r.0.flags == Fresh
    ensures Issued(w) ==> r.0.pickup.value !in w.live && Issued(r.1)
    ensures r.1.live == w.live + {r.0.pickup.value}
    ensures r.1.started == w.started + 1 && r.1.ended == w.ended
  {
    if reporter.Some? then
      StartPickup(StartedView(reporter.value, queue, None, Fresh), w)
    else if queue.Some? then
      var (rep, w1) := Allocate(w);
      StartPickup(StartedView(rep, queue, None, Fresh), w1)
    else
      var (q, w1) := Allocate(w);
      var (rep, w2) := Allocate(w1);
      StartPickup(StartedView(rep, Some(q), None, Fresh), w2)
  }

  /** What the release of a use leaves behind. */
  datatype Closed = Closed(view: StartedView, world: World, ending: Ending)

  /** The `finally` block of `Started.fetch_reporter`: `reporter_yielded` is reset and,
      for an outermost use still marked for restart, the pickup is restarted. */
  function CloseUse(v: StartedView, w: World, lease: Lease): (r: Closed)
    ensures r.view.flags == Release(v.flags, lease).0
    ensures r.view.reporter == v.reporter && r.view.queue == v.queue
    ensures r.ending == Kept <==> !(lease == Outermost && v.flags.toRestart)
    ensures r.ending == Raised <==>
      lease == Outermost && v.flags.toRestart && (v.queue.None? || v.pickup.None?)
    ensures r.ending != Restarted ==> r.view.pickup == v.pickup && r.world == w
    ensures r.ending == Restarted ==>
      r.view.pickup.Some? && r.world.live == (w.live - {v.pickup.value}) + {r.view.pickup.value}
      && r.world.started == w.started + 1 && r.world.ended == w.ended + 1
    ensures r.ending == Restarted && Issued(w) ==> r.view.pickup.value !in w.live && Issued(r.world)
  {
    var (f, due) := Release(v.flags, lease);
    var v' := v.(flags := f);
    if !due then Closed(v', w, Kept)
    else
      match RestartPickup(v', w)
      case None => Closed(v', w, Raised)
      case Some((v'', w')) => Closed(v'', w', Restarted)
  }

  /** `prepare_reporter`: Initial becomes Started carrying its reporter and queue; every
      other state keeps itself (the State base default). */
  function PrepareReporter(p: Phase, w: World): (r: (Phase, World))
    ensures !p.Initial? ==> r == (p, w)
    ensures p.Initial? ==> r.0.Started? && r.0.view.pickup.Some? && r.0.view.flags == Fresh
    ensures p.Initial? && p.reporter.Some? ==>
      r.0.view.reporter == p.reporter.value && r.0.view.queue == p.queue
    ensures p.Initial? && p.reporter.None? ==> r.0.view.queue.Some?
    ensures p.Initial? ==>
      r.1.live == w.live + {r.0.view.pickup.value} && r.1.started == w.started + 1 && r.1.ended == w.ended
  {
    match p
    case Initial(reporter, queue) =>
      var (v, w') := Construct(reporter, queue, w);
      (Started(v), w')
    case _ => (p, w)
  }

  /** `flush`: Initial starts like `prepare_reporter`, Started restarts its pickup and
      stays itself, Registered and Disabled keep themselves. */
  function Flush(p: Phase, w: World): (r: Option<(Phase, World)>)
    ensures r.None? <==> p.Started? && (p.view.queue.None? || p.view.pickup.None?)
    ensures p.Registered? || p.Disabled? ==> r == Some((p, w))
    ensures p.Initial? ==>
      r.Some? && r.value.0.Started? && r.value.0.view.pickup.Some?
      && r.value.1.live == w.live + {r.value.0.view.pickup.value}
      && r.value.1.started == w.started + 1 && r.value.1.ended == w.ended
    ensures p.Started? && r.Some? ==>
      r.value.0.Started? && r.value.0.view == p.view.(pickup := r.value.0.view.pickup)
      && r.value.0.view.pickup.Some?
      && r.value.1.live == (w.live - {p.view.pickup.value}) + {r.value.0.view.pickup.value}
      && r.value.1.started == w.started + 1 && r.value.1.ended == w.ended + 1
  {
    match p
    case Initial(reporter, queue) =>
      var (v, w') := Construct(reporter, queue, w);
      Some((Started(v), w'))
    case Started(v) =>
      (match RestartPickup(v, w)
       case None => None
       case Some((v', w')) => Some((Started(v'), w')))
    case _ => Some((p, w))
  }

  /** `shutdown`: Started ends its pickup and hands its reporter and queue to a new
      Initial; every other state keeps itself. */
  function Shutdown(p: Phase, w: World): (r: Option<(Phase, World)>)
    ensures r.None? <==> p.Started? && (p.view.queue.None? || p.view.pickup.None?)
    ensures !p.Started? ==> r == Some((p, w))
    ensures p.Started? && r.Some? ==>
      r.value.0 == Initial(Some(p.view.reporter), p.view.queue)
      && r.value.1.live == w.live - {p.view.pickup.value}
      && r.value.1.started == w.started && r.value.1.ended == w.ended + 1
  {
    match p
    case Started(v) =>
      (match EndPickup(v, w)
       case None => None
       case Some((v', w')) => Some((Initial(Some(v'.reporter), v'.queue), w')))
    case _ => Some((p, w))
  }

  /** The `reporter` attribute of each state. */
  function HeldReporter(p: Phase): (r: Option<Id>)
    ensures p.Started? ==> r == Some(p.view.reporter)
    ensures p.Disabled? ==> r.None?
    ensures p.Initial? || p.Registered? ==> r == p.reporter
  {
    match p
    case Initial(reporter, _) => reporter
    case Started(v) => Some(v.reporter)
    case Registered(reporter) => reporter
    case Disabled => None
  }

  /** The operations of StateMachine other than `fetch_reporter`'s use protocol. */
  datatype Op =
    | Prepare                          // find_reporter, and the first step of fetch_reporter
    | RegisterReporter(reporter: Option<Id>)
    | FlushOp
    | DisableOp
    | ShutdownOp

  /** One StateMachine operation; `None` when the transition raised. */
  function Step(p: Phase, w: World, op: Op): (r: Option<(Phase, World)>)
    ensures op.RegisterReporter? ==> r == Some((Registered(op.reporter), w))
    ensures op.DisableOp? ==> r == Some((Disabled, w))
    ensures r.None? ==>
      p.Started? && (op.FlushOp? || op.ShutdownOp?) && (p.view.queue.None? || p.view.pickup.None?)
    ensures (p.Registered? || p.Disabled?) && (op.Prepare? || op.FlushOp? || op.ShutdownOp?) ==>
      r == Some((p, w))
  {
    match op
    case Prepare => Some(PrepareReporter(p, w))
    case RegisterReporter(r) => Some((Registered(r), w))
    case FlushOp => Flush(p, w)
    case DisableOp => Some((Disabled, w))
    case ShutdownOp => Shutdown(p, w)
  }

  /** A sequence of StateMachine operations; `None` when one of them raised. */
  function Steps(p: Phase, w: World, ops: seq<Op>): (r: Option<(Phase, World)>)
    decreases |ops|
  {
    if ops == [] then Some((p, w))
    else
      match Step(p, w, ops[0])
      case None => None
      case Some((p', w')) => Steps(p', w', ops[1..])
  }

  /** What holds between the current state and the pickups: at most one pickup is alive;
      in Initial none is and the reporter and queue exist together; in Started exactly
      its own pickup is, on an existing queue. */
  ghost predicate Good(p: Phase, w: World)
  {
    && Issued(w)
    && |w.live| <= 1
    && w.started == w.ended + |w.live|
    && match p
       case Initial(reporter, queue) => (reporter.Some? <==> queue.Some?) && w.live == {}
       case Started(v) => v.queue.Some? && v.pickup.Some? && w.live == {v.pickup.value}
       case Registered(_) => true
       case Disabled => true
  }

  /** The StateMachine starts Good. */
  lemma InitialGood()
    ensures Good(Initial(None, None), Empty)
  {
  }

  /** Every operation from a Good state succeeds and leaves a Good state. */
  lemma StepKeepsGood(p: Phase, w: World, op: Op)
    requires Good(p, w)
    ensures Step(p, w, op).Some?
    ensures Good(Step(p, w, op).value.0, Step(p, w, op).value.1)
  {
  }

  /** `prepare_reporter` from a Good state leaves a Good state. */
  lemma PrepareKeepsGood(p: Phase, w: World)
    requires Good(p, w)
    ensures Good(PrepareReporter(p, w).0, PrepareReporter(p, w).1)
  {
  }

  /** Along any sequence of operations from a Good state nothing raises and at most one
      pickup is ever alive. */
  lemma {:induction false} StepsKeepGood(p: Phase, w: World, ops: seq<Op>)
    requires Good(p, w)
    ensures Steps(p, w, ops).Some?
    ensures Good(Steps(p, w, ops).value.0, Steps(p, w, ops).value.1)
    ensures |Steps(p, w, ops).value.1.live| <= 1
    decreases |ops|
  {
    if ops != [] {
      StepKeepsGood(p, w, ops[0]);
      var (p', w') := Step(p, w, ops[0]).value;
      StepsKeepGood(p', w', ops[1..]);
    }
  }

  /** From Initial, `prepare_reporter` and `flush` give the same Started state. */
  lemma InitialFlushIsPrepare(reporter: Option<Id>, queue: Option<Id>, w: World)
    ensures Flush(Initial(reporter, queue), w) == Some(PrepareReporter(Initial(reporter, queue), w))
    ensures PrepareReporter(Initial(reporter, queue), w).0.Started?
  {
  }

  /** From a Good Initial state, `prepare_reporter` yields Started with the reporter and
      queue carried over when they exist, fresh ones otherwise, and exactly one pickup
      alive, started by this step. */
  lemma PrepareFromInitial(reporter: Option<Id>, queue: Option<Id>, w: World)
    requires Good(Initial(reporter, queue), w)
    ensures var (p, w') := PrepareReporter(Initial(reporter, queue), w);
      && p.Started?
      && (reporter.Some? ==> p.view.reporter == reporter.value && p.view.queue == queue)
      && (reporter.None? ==> p.view.queue.Some? && p.view.reporter >= w.nextId && p.view.queue.value >= w.nextId)
      && w'.live == {p.view.pickup.value}
      && w'.started == w.started + 1 && w'.ended == w.ended
  {
  }

  /** `shutdown` of a Good Started state ends its pickup and gives Initial holding the
      very same reporter and queue; a later `prepare_reporter` reuses both and starts
      exactly one new pickup. */
  lemma ShutdownThenPrepare(v: StartedView, w: World)
    requires Good(Started(v), w)
    ensures Shutdown(Started(v), w).Some?
    ensures var (p1, w1) := Shutdown(Started(v), w).value;
      && p1 == Initial(Some(v.reporter), v.queue)
      && w1.live == {} && w1.ended == w.ended + 1
      && var (p2, w2) := PrepareReporter(p1, w1);
      && p2.Started? && p2.view.reporter == v.reporter && p2.view.queue == v.queue
      && w2.live == {p2.view.pickup.value} && p2.view.pickup != v.pickup
      && w2.started == w1.started + 1 && w2.ended == w1.ended
  {
  }

  /** `flush` of a Good Started state ends the old pickup, starts one new pickup and
      stays the same Started state otherwise. */
  lemma FlushOfStarted(v: StartedView, w: World)
    requires Good(Started(v), w)
    ensures Flush(Started(v), w).Some?
    ensures var (p, w') := Flush(Started(v), w).value;
      && p.Started? && p.view == v.(pickup := p.view.pickup)
      && w'.live == {p.view.pickup.value} && p.view.pickup != v.pickup
      && w'.started == w.started + 1 && w'.ended == w.ended + 1
  {
  }

  /** Registered and Disabled never start, stop or restart a pickup, whatever sequence
      of operations follows, and never leave the pair {Registered, Disabled}. */
  lemma {:induction false} InertStates(p: Phase, w: World, ops: seq<Op>)
    requires p.Registered? || p.Disabled?
    ensures Steps(p, w, ops).Some?
    ensures Steps(p, w, ops).value.1 == w
    ensures Steps(p, w, ops).value.0.Registered? || Steps(p, w, ops).value.0.Disabled?
    decreases |ops|
  {
    if ops != [] {
      var (p', w') := Step(p, w, ops[0]).value;
      InertStates(p', w', ops[1..]);
    }
  }

  /** No operation except `register_reporter` and `disable`. */
  ghost predicate Quiet(ops: seq<Op>)
  {
    forall i :: 0 <= i < |ops| ==> !ops[i].RegisterReporter? && !ops[i].DisableOp?
  }

  /** Registered and Disabled return themselves from `prepare_reporter`, `flush` and
      `shutdown` (the State base defaults): along operations that neither register nor
      disable, the state and the pickups stay exactly as they were. */
  lemma {:induction false} QuietKeepsInert(p: Phase, w: World, ops: seq<Op>)
    requires p.Registered? || p.Disabled?
    requires Quiet(ops)
    ensures Steps(p, w, ops) == Some((p, w))
    decreases |ops|
  {
    if ops != [] {
      assert !ops[0].RegisterReporter? && !ops[0].DisableOp?;
      assert Quiet(ops[1..]) by {
        forall i | 0 <= i < |ops[1..]|
          ensures !ops[1..][i].RegisterReporter? && !ops[1..][i].DisableOp?
        {
          assert ops[1..][i] == ops[i + 1];
        }
      }
      QuietKeepsInert(p, w, ops[1..]);
    }
  }

  /** `find_reporter` from a Good state: Initial and Started hand out a reporter,
      Registered its own, Disabled none. */
  lemma FindReporterResult(p: Phase, w: World)
    requires Good(p, w)
    ensures var q := PrepareReporter(p, w).0;
      && (p.Initial? || p.Started? ==> HeldReporter(q).Some?)
      && (p.Started? ==> HeldReporter(q) == Some(p.view.reporter))
      && (p.Initial? && p.reporter.Some? ==> HeldReporter(q) == p.reporter)
      && (p.Registered? ==> HeldReporter(q) == p.reporter)
      && (p.Disabled? ==> HeldReporter(q).None?)
  {
  }

  /** The release of a use of the current Started state never raises, keeps the state
      Good, and restarts the pickup exactly when an outermost use ends undetached. */
  lemma CloseUseKeepsGood(v: StartedView, w: World, lease: Lease)
    requires Good(Started(v), w)
    ensures CloseUse(v, w, lease).ending != Raised
    ensures Good(Started(CloseUse(v, w, lease).view), CloseUse(v, w, lease).world)
    ensures CloseUse(v, w, lease).ending == Restarted <==> lease == Outermost && v.flags.toRestart
  {
  }

  /** As written, a `shutdown` during an outermost main-thread use makes that use's
      release raise, unless the pickup called `detach` before the `shutdown`: the old
      Started object's pickup is already gone when the `finally` block restarts it. */
  lemma ShutdownDuringUseRaises(v: StartedView, w: World)
    requires Good(Started(v), w) && !v.flags.yielded
    ensures var (f, lease) := Acquire(v.flags, true);
      && lease == Outermost
      && EndPickup(v.(flags := f), w).Some?
      && var (v', w') := EndPickup(v.(flags := f), w).value;
      && Shutdown(Started(v.(flags := f)), w) == Some((Initial(Some(v.reporter), v.queue), w'))
      && CloseUse(v', w', lease).ending == Raised
  {
  }

  /** A `detach` during the outermost use, before the `shutdown`, spares its release:
      the `finally` block returns before `_end_pickup`, nothing raises and no pickup is
      started or ended. */
  lemma ShutdownAfterDetachKept(v: StartedView, w: World)
    requires Good(Started(v), w) && !v.flags.yielded
    ensures var (f, lease) := Acquire(v.flags, true);
      && lease == Outermost
      && var v1 := v.(flags := Protocol.Detach(f));
      && EndPickup(v1, w).Some?
      && var (v', w') := EndPickup(v1, w).value;
      && Shutdown(Started(v1), w) == Some((Initial(Some(v.reporter), v.queue), w'))
      && CloseUse(v', w', lease) == Closed(v'.(flags := Flags(false, false)), w', Kept)
  {
  }
}
