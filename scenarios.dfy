/** Uses of a StateMachine from its first state, each checked against what the
    machine promises its callers. */
module Scenarios {
  import opened Protocol
  import opened Lifecycle
  import opened Machine

  /** The first `find_reporter` hands out a reporter and leaves one pickup alive. */
  method FirstFind() returns (reporter: Option<Id>)
    ensures reporter.Some?
  {
    var m := new StateMachine();
    reporter := m.FindReporter();
    assert m.rt.started == 1 && m.rt.ended == 0 && |m.rt.live| == 1;
  }

  /** Two nested main-thread loops: the inner one ends without a restart, the outer
      one restarts the pickup once. */
  method NestedLoops() returns (inner: Ending, outer: Ending)
    ensures inner == Kept && outer == Restarted
  {
    var m := new StateMachine();
    var r1, t1 := m.BeginFetch(true);
    var r2, t2 := m.BeginFetch(true);
    assert r1 == r2 && t1.owner == t2.owner;
    assert t1.lease == Outermost && t2.lease == Passive;
    inner := m.EndFetch(t2);
    outer := m.EndFetch(t1);
    assert m.rt.started == 2 && m.rt.ended == 1 && |m.rt.live| == 1;
  }

  /** A loop off the main thread never restarts the pickup. */
  method WorkerLoop() returns (ending: Ending)
    ensures ending == Kept
  {
    var m := new StateMachine();
    var r, t := m.BeginFetch(false);
    assert t.lease == Passive;
    ending := m.EndFetch(t);
  }

  /** The pickup reports a message from a worker during the outermost loop: at the end
      of the loop the pickup is not restarted. */
  method DetachedLoop() returns (outer: Ending)
    ensures outer == Kept
  {
    var m := new StateMachine();
    var r, t := m.BeginFetch(true);
    m.Detach(t.owner);
    outer := m.EndFetch(t);
    assert m.rt.started == 1 && m.rt.ended == 0;
  }

  /** `shutdown` and a later `find_reporter` give back the very same reporter, with a
      new pickup started on the same queue. */
  method ShutdownThenFind() returns (before: Option<Id>, after: Option<Id>)
    ensures before.Some? && after == before
  {
    var m := new StateMachine();
    before := m.FindReporter();
    m.Shutdown();
    assert m.rt.live == {};
    after := m.FindReporter();
    assert m.rt.started == 2 && m.rt.ended == 1 && |m.rt.live| == 1;
  }

  /** A registered reporter is handed out as it is, and no pickup is ever started. */
  method RegisteredUse() returns (reporter: Option<Id>, ending: Ending)
    ensures reporter == Some(7) && ending == Kept
  {
    var m := new StateMachine();
    m.RegisterReporter(Some(7));
    m.Flush();
    m.Shutdown();
    var t;
    reporter, t := m.BeginFetch(true);
    ending := m.EndFetch(t);
    assert m.rt.started == 0 && m.rt.ended == 0;
  }

  /** A disabled machine hands out no reporter. */
  method DisabledUse() returns (reporter: Option<Id>)
    ensures reporter.None?
  {
    var m := new StateMachine();
    var found := m.FindReporter();
    m.Disable();
    var t;
    reporter, t := m.BeginFetch(true);
  }

  /** As written, a `shutdown` inside the outermost main-thread loop, with no `detach`
      before it, makes the end of that loop raise: the old Started object restarts a
      pickup it no longer has. */
  method ShutdownInsideLoop() returns (ending: Ending)
    ensures ending == Raised
  {
    var m := new StateMachine();
    var r, t := m.BeginFetch(true);
    m.Shutdown();
    ending := m.EndFetch(t);
  }

  /** A `detach` inside the outermost loop before a `shutdown` spares the end of that
      loop: it restarts nothing and does not raise. */
  method DetachedShutdownInsideLoop() returns (ending: Ending)
    ensures ending == Kept
  {
    var m := new StateMachine();
    var r, t := m.BeginFetch(true);
    m.Detach(t.owner);
    m.Shutdown();
    ending := m.EndFetch(t);
    assert m.rt.started == 1 && m.rt.ended == 1;
  }
}
