/** The nested-use protocol of a Started state (atpbar/machine.py, Started.fetch_reporter
    and Started.detach), reduced to the two flags it keeps.

    A use of the reporter is an acquisition (the code before the `yield`) and a release
    (the `finally` block). Only the outermost use on the main thread touches the flags;
    its release asks for a pickup restart unless `detach` ran in between. */
module Protocol {

  /** `reporter_yielded` and `to_restart_pickup` of one Started object. */
  datatype Flags = Flags(yielded: bool, toRestart: bool)

  /** Which branch an acquisition took. `Passive` is a use off the main thread or a use
      nested in an enclosing main-thread use: its release does nothing. */
  datatype Lease = Passive | Outermost

  /** Flags of a freshly constructed Started object. */
  const Fresh := Flags(false, true)

  /** The acquisition of `fetch_reporter`: the outermost main-thread use sets both flags;
      every other use leaves them alone. */
  function Acquire(f: Flags, mainThread: bool): (r: (Flags, Lease))
    ensures r.1 == Outermost <==> mainThread && !f.yielded
    ensures r.1 == Passive ==> r.0 == f
    ensures r.1 == Outermost ==> r.0.yielded && r.0.toRestart
  {
    if !mainThread then (f, Passive)
    else if f.yielded then (f, Passive)
    else (Flags(true, true), Outermost)
  }

  /** The `finally` block of `fetch_reporter`: the new flags, and whether the pickup is
      to be restarted. */
  function Release(f: Flags, lease: Lease): (r: (Flags, bool))
    ensures lease == Passive ==> r.0 == f && !r.1
    ensures lease == Outermost ==> !r.0.yielded && r.0.toRestart == f.toRestart
    ensures r.1 <==> lease == Outermost && f.toRestart
  {
    match lease
    case Passive => (f, false)
    case Outermost => (f.(yielded := false), f.toRestart)
  }

  /** `Started.detach`, called by the pickup when it sees a report from a sub-thread or
      a sub-process: suppresses the restart, touches nothing else. */
  function Detach(f: Flags): (r: Flags)
    ensures r.yielded == f.yielded && !r.toRestart
  {
    f.(toRestart := false)
  }

  /** What can happen to one Started object's flags: a use begins (on the main thread
      or not), the most recent open use ends, or the pickup calls `detach`. */
  datatype Event = Open(mainThread: bool) | Close | DetachCall

  /** The flags after a trace, the leases still open (oldest first) and the number of
      releases that asked for a restart. */
  datatype Outcome = Outcome(flags: Flags, pending: seq<Lease>, restarts: nat)

  /** Runs a trace of events. A `Close` with no open use has nothing to release. */
  function Run(f: Flags, pending: seq<Lease>, evs: seq<Event>): (r: Outcome)
    decreases |evs|
  {
    if evs == [] then Outcome(f, pending, 0)
    else
      match evs[0]
      case Open(m) =>
        var (g, lease) := Acquire(f, m);
        Run(g, pending + [lease], evs[1..])
      case Close =>
        if pending == [] then Run(f, pending, evs[1..])
        else
          var (g, due) := Release(f, pending[|pending| - 1]);
          var o := Run(g, pending[..|pending| - 1], evs[1..]);
          o.(restarts := o.restarts + if due then 1 else 0)
      case DetachCall => Run(Detach(f), pending, evs[1..])
  }

  /** Running `a + b` is running `a`, then `b` from where `a` left off. */
  lemma {:induction false} RunAppend(f: Flags, pending: seq<Lease>, a: seq<Event>, b: seq<Event>)
    ensures var o := Run(f, pending, a);
            var o2 := Run(o.flags, o.pending, b);
            Run(f, pending, a + b) == o2.(restarts := o.restarts + o2.restarts)
    decreases |a|
  {
    if a == [] {
      assert a + b == b;
    } else {
      assert (a + b)[0] == a[0];
      assert (a + b)[1..] == a[1..] + b;
      match a[0]
      case Open(m) =>
        RunAppend(Acquire(f, m).0, pending + [Acquire(f, m).1], a[1..], b);
      case Close =>
        if pending == [] {
          RunAppend(f, pending, a[1..], b);
        } else {
          var (g, due) := Release(f, pending[|pending| - 1]);
          RunAppend(g, pending[..|pending| - 1], a[1..], b);
        }
      case DetachCall =>
        RunAppend(Detach(f), pending, a[1..], b);
    }
  }

  /** `reporter_yielded` is true exactly while an outermost use is open, and at most one
      outermost use is open at a time. */
  ghost predicate Consistent(f: Flags, pending: seq<Lease>)
  {
    (f.yielded <==> Outermost in pending) && multiset(pending)[Outermost] <= 1
  }

  /** Every trace keeps `Consistent`, whatever the interleaving of uses and detaches. */
  lemma {:induction false} RunKeepsConsistent(f: Flags, pending: seq<Lease>, evs: seq<Event>)
    requires Consistent(f, pending)
    ensures Consistent(Run(f, pending, evs).flags, Run(f, pending, evs).pending)
    decreases |evs|
  {
    if evs != [] {
      match evs[0]
      case Open(m) =>
        var (g, lease) := Acquire(f, m);
        assert multiset(pending + [lease]) == multiset(pending) + multiset{lease};
        RunKeepsConsistent(g, pending + [lease], evs[1..]);
      case Close =>
        if pending == [] {
          RunKeepsConsistent(f, pending, evs[1..]);
        } else {
          var rest := pending[..|pending| - 1];
          var last := pending[|pending| - 1];
          assert pending == rest + [last];
          assert multiset(pending) == multiset(rest) + multiset{last};
          var (g, due) := Release(f, last);
          RunKeepsConsistent(g, rest, evs[1..]);
        }
      case DetachCall =>
        RunKeepsConsistent(Detach(f), pending, evs[1..]);
    }
  }

  /** Properly nested uses: every `Close` ends a use opened before it, and `depth` uses
      opened earlier are still open. */
  ghost predicate BalancedFrom(depth: nat, evs: seq<Event>)
    decreases |evs|
  {
    if evs == [] then depth == 0
    else
      match evs[0]
      case Open(_) => BalancedFrom(depth + 1, evs[1..])
      case Close => depth > 0 && BalancedFrom(depth - 1, evs[1..])
      case DetachCall => BalancedFrom(depth, evs[1..])
  }

  /** `k` passive leases. */
  function Passives(k: nat): (r: seq<Lease>)
  {
    if k == 0 then [] else Passives(k - 1) + [Passive]
  }

  /** Inside an outermost use, nested uses never restart and never clear
      `reporter_yielded`; `to_restart_pickup` survives unless a detach comes. */
  lemma {:induction false} InnerUses(f: Flags, base: seq<Lease>, k: nat, body: seq<Event>)
    requires f.yielded
    requires BalancedFrom(k, body)
    ensures Run(f, base + [Outermost] + Passives(k), body)
         == Outcome(Flags(true, f.toRestart && DetachCall !in body), base + [Outermost], 0)
    decreases |body|
  {
    var pending := base + [Outermost] + Passives(k);
    if body == [] {
      assert pending == base + [Outermost];
    } else {
      assert body == [body[0]] + body[1..];
      match body[0]
      case Open(m) =>
        assert pending + [Passive] == base + [Outermost] + Passives(k + 1);
        InnerUses(f, base, k + 1, body[1..]);
      case Close =>
        assert pending == (base + [Outermost] + Passives(k - 1)) + [Passive];
        assert pending[..|pending| - 1] == base + [Outermost] + Passives(k - 1);
        InnerUses(f, base, k - 1, body[1..]);
      case DetachCall =>
        InnerUses(Detach(f), base, k, body[1..]);
    }
  }

  /** One outermost main-thread use around a properly nested body. */
  function Use(body: seq<Event>): (r: seq<Event>)
  {
    [Open(true)] + body + [Close]
  }

  /** An outermost use restarts the pickup exactly once at its end, unless `detach` was
      called during it, and then not at all; afterwards no use is open. */
  lemma OutermostUse(f: Flags, base: seq<Lease>, body: seq<Event>)
    requires !f.yielded
    requires BalancedFrom(0, body)
    ensures Run(f, base, Use(body))
         == Outcome(Flags(false, DetachCall !in body), base, if DetachCall in body then 0 else 1)
  {
    var begun := Run(f, base, [Open(true)]);
    assert begun == Outcome(Flags(true, true), base + [Outermost], 0);
    RunAppend(f, base, [Open(true)], body);
    assert base + [Outermost] + Passives(0) == base + [Outermost];
    InnerUses(Flags(true, true), base, 0, body);
    var inner := Run(f, base, [Open(true)] + body);
    assert inner == Outcome(Flags(true, DetachCall !in body), base + [Outermost], 0);
    RunAppend(f, base, [Open(true)] + body, [Close]);
    assert (base + [Outermost])[..|base|] == base;
  }

  /** Back-to-back outermost uses. */
  function Uses(bodies: seq<seq<Event>>): (r: seq<Event>)
  {
    if bodies == [] then [] else Use(bodies[0]) + Uses(bodies[1..])
  }

  /** How many of the bodies saw no `detach`. */
  function CleanCount(bodies: seq<seq<Event>>): (r: nat)
  {
    if bodies == [] then 0
    else (if DetachCall in bodies[0] then 0 else 1) + CleanCount(bodies[1..])
  }

  /** Over a run of outermost uses the pickup restarts once per use that saw no
      `detach` and never otherwise. */
  lemma {:induction false} SequentialUses(f: Flags, base: seq<Lease>, bodies: seq<seq<Event>>)
    requires !f.yielded
    requires forall i :: 0 <= i < |bodies| ==> BalancedFrom(0, bodies[i])
    ensures Run(f, base, Uses(bodies)).restarts == CleanCount(bodies)
    ensures Run(f, base, Uses(bodies)).pending == base
    ensures !Run(f, base, Uses(bodies)).flags.yielded
    decreases |bodies|
  {
    if bodies != [] {
      OutermostUse(f, base, bodies[0]);
      RunAppend(f, base, Use(bodies[0]), Uses(bodies[1..]));
      var after := Run(f, base, Use(bodies[0]));
      SequentialUses(after.flags, base, bodies[1..]);
    }
  }
}
