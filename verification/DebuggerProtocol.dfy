/**
 Attach, Detach, CloseProfile and Close of the debugger manager as a state machine whose
 steps interleave freely.

 Each step is one critical section (a function of DebuggerTables) or one action between two
 of them. A ticket names an attach and the session it publishes; a closer is one running
 Detach, CloseProfile or Close.
 */
module DebuggerProtocol {
  import opened Common
  import opened DebuggerTables

  type CloserId = nat

  /** What an attach saw when it read the endpoint: the browser instance and its URL. */
  datatype Reading = Reading(incarnation: nat, url: string)

  datatype Child = NoChild | Open | Shut

  datatype Phase =
    | Working              // registered, on its way to publishing
    | Verified             // the endpoint was read a second time and had not changed
    | Unwinding            // the deferred cleanup runs
    | Failed
    | Indexed              // published
    | Taken(closer: CloserId)  // removed from the index, to be stopped by that closer
    | Detached

  datatype Attach = Attach(profile: ProfileId, phase: Phase, child: Child, first: Option<Reading>)

  datatype Scope = OneSession | OneProfile(profile: ProfileId) | Everything

  datatype Closer = Closer(scope: Scope, waits: set<Ticket>, returned: bool)

  datatype Debugger = Debugger(
    t: Tables,
    attaches: map<Ticket, Attach>,
    closers: map<CloserId, Closer>,
    detached: multiset<Ticket>)      // "detached" events emitted

  const Init := Debugger(EmptyTables, map[], map[], multiset{})

  datatype Step =
    | Enter(a: Ticket, p: ProfileId)
    | Cancel(a: Ticket)                      // timeout, or the caller gives up
    | FirstRead(a: Ticket, r: Reading)
    | StartChild(a: Ticket)
    | SecondRead(a: Ticket, url: string)
    | Fail(a: Ticket)                        // any error return before publishing
    | TryPublish(a: Ticket)
    | ShutChild(a: Ticket)                   // child.Close() of the deferred cleanup
    | Abandon(a: Ticket)
    | BeginDetach(c: CloserId, id: Ticket)
    | BeginProfile(c: CloserId, p: ProfileId)
    | BeginAll(c: CloserId)
    | StopChild(id: Ticket)                  // stopSession: client.Close()
    | EmitDetached(id: Ticket)               // stopSession: the event
    | Finish(c: CloserId)                    // the drain is over

  predicate IsPending(f: Phase) {
    f.Working? || f.Verified? || f.Unwinding?
  }

  predicate InPhase(d: Debugger, a: Ticket, f: Phase) {
    a in d.attaches && d.attaches[a].phase == f
  }

  predicate Active(d: Debugger, c: CloserId) {
    c in d.closers && !d.closers[c].returned
  }

  predicate Drained(d: Debugger, c: CloserId)
    requires c in d.closers
  {
    && (forall a :: a in d.closers[c].waits ==> d.t.done[a] > 0)
    && (forall a :: a in d.attaches ==> d.attaches[a].phase != Taken(c))
  }

  predicate Enabled(d: Debugger, s: Step) {
    match s
    case Enter(a, p) => a !in d.attaches && p != "" && !Barred(d.t, p)
    case Cancel(a) => a in d.attaches && IsPending(d.attaches[a].phase) && a !in d.t.cancelled
    case FirstRead(a, r) => InPhase(d, a, Working) && d.attaches[a].first.None?
    case StartChild(a) => InPhase(d, a, Working) && d.attaches[a].first.Some? && d.attaches[a].child.NoChild?
    case SecondRead(a, url) => InPhase(d, a, Working) && d.attaches[a].first.Some? && d.attaches[a].child.Open?
    case Fail(a) => InPhase(d, a, Working) || InPhase(d, a, Verified)
    case TryPublish(a) => InPhase(d, a, Verified)
    case ShutChild(a) => InPhase(d, a, Unwinding) && d.attaches[a].child.Open?
    case Abandon(a) => InPhase(d, a, Unwinding) && !d.attaches[a].child.Open?
    case BeginDetach(c, _) => c !in d.closers
    case BeginProfile(c, _) => c !in d.closers
    case BeginAll(c) => c !in d.closers
    case StopChild(id) => id in d.attaches && d.attaches[id].phase.Taken? && d.attaches[id].child.Open?
    case EmitDetached(id) => id in d.attaches && d.attaches[id].phase.Taken? && d.attaches[id].child.Shut?
    case Finish(c) => Active(d, c) && Drained(d, c)
  }

  function Put(d: Debugger, a: Ticket, x: Attach): Debugger {
    d.(attaches := d.attaches[a := x])
  }

  /** Hands the sessions `ids` to closer c. */
  function TakenBy(attaches: map<Ticket, Attach>, ids: set<Ticket>, c: CloserId): map<Ticket, Attach> {
    map a | a in attaches :: if a in ids then attaches[a].(phase := Taken(c)) else attaches[a]
  }

  function Apply(d: Debugger, s: Step): Debugger
    requires Enabled(d, s)
  {
    match s
    case Enter(a, p) => Put(d, a, Attach(p, Working, NoChild, None)).(t := Registered(d.t, p, a))
    case Cancel(a) => d.(t := d.t.(cancelled := d.t.cancelled + {a}))
    case FirstRead(a, r) => Put(d, a, d.attaches[a].(first := Some(r)))
    case StartChild(a) => Put(d, a, d.attaches[a].(child := Open))
    case SecondRead(a, url) =>
      Put(d, a, d.attaches[a].(phase := if url == d.attaches[a].first.value.url then Verified else Unwinding))
    case Fail(a) => Put(d, a, d.attaches[a].(phase := Unwinding))
    case TryPublish(a) =>
      var x := d.attaches[a];
      if a in d.t.cancelled then Put(d, a, x.(phase := Unwinding))
      else Put(d, a, x.(phase := Indexed)).(t := Published(d.t, x.profile, a))
    case ShutChild(a) => Put(d, a, d.attaches[a].(child := Shut))
    case Abandon(a) =>
      Put(d, a, d.attaches[a].(phase := Failed)).(t := Abandoned(d.t, d.attaches[a].profile, a))
    case BeginDetach(c, id) =>
      d.(t := Removed(d.t, id),
         attaches := TakenBy(d.attaches, if id in d.t.sessions then {id} else {}, c),
         closers := d.closers[c := Closer(OneSession, {}, id !in d.t.sessions)])
    case BeginProfile(c, p) =>
      d.(t := ProfileTaken(d.t, p),
         attaches := TakenBy(d.attaches, Lookup(d.t.profiles, p), c),
         closers := d.closers[c := Closer(OneProfile(p), Lookup(d.t.pending, p), false)])
    case BeginAll(c) =>
      d.(t := AllTaken(d.t),
         attaches := TakenBy(d.attaches, d.t.sessions.Keys, c),
         closers := d.closers[c := Closer(Everything, AllPending(d.t), false)])
    case StopChild(id) => Put(d, id, d.attaches[id].(child := Shut))
    case EmitDetached(id) => Put(d, id, d.attaches[id].(phase := Detached)).(detached := d.detached + multiset{id})
    case Finish(c) =>
      var x := d.closers[c];
      d.(closers := d.closers[c := x.(returned := true)],
         t := if x.scope.OneProfile? then ProfileReleased(d.t, x.scope.profile) else d.t)
  }

  // ----- the invariant -----

  /** Past the second reading of the endpoint. */
  predicate Matched(f: Phase) {
    f.Verified? || f.Indexed? || f.Taken? || f.Detached?
  }

  predicate ChildFits(x: Attach) {
    && (x.child.Open? || Matched(x.phase) ==> x.first.Some?)
    && (x.phase.Working? ==> !x.child.Shut?)
    && (x.phase.Verified? || x.phase.Indexed? ==> x.child.Open?)
    && (x.phase.Failed? ==> !x.child.Open?)
    && (x.phase.Taken? ==> !x.child.NoChild?)
    && (x.phase.Detached? ==> x.child.Shut?)
  }

  /**
   What the tables and counters say of ticket `a` is what its phase says. In particular
   `done` is closed once, by the step that ends the attach, "detached" is emitted once, and
   a taken session has a closer that still runs.
   */
  ghost predicate Fits(d: Debugger, p: ProfileId, a: Ticket) {
    if a !in d.attaches then
      a !in Lookup(d.t.pending, p) && a !in d.t.sessions && d.t.done[a] == 0 && d.detached[a] == 0
    else
      var x := d.attaches[a];
      && ChildFits(x)
      && (a in Lookup(d.t.pending, p) <==> x.profile == p && IsPending(x.phase))
      && (a in d.t.sessions <==> x.phase == Indexed)
      && (a in d.t.sessions ==> d.t.sessions[a] == x.profile)
      && d.t.done[a] == (if IsPending(x.phase) then 0 else 1)
      && d.detached[a] == (if x.phase == Detached then 1 else 0)
      && (x.phase.Taken? ==> Active(d, x.phase.closer))
  }

  ghost predicate AllFit(d: Debugger) {
    forall p, a :: Fits(d, p, a)
  }

  predicate ClosesProfile(x: Closer, p: ProfileId) {
    !x.returned && x.scope == OneProfile(p)
  }

  /** The CloseProfile calls of p still running. */
  ghost function ClosersOf(closers: map<CloserId, Closer>, p: ProfileId): set<CloserId> {
    set c | c in closers && ClosesProfile(closers[c], p)
  }

  ghost predicate Covers(d: Debugger, x: Closer) {
    && (forall a :: a in x.waits ==> a in d.attaches)
    && (x.scope.Everything? ==> d.t.closed)
    && (x.scope.OneProfile? && !x.returned ==> Lookup(d.t.pending, x.scope.profile) <= x.waits)
    && (x.scope.Everything? && !x.returned ==> forall p :: Lookup(d.t.pending, p) <= x.waits)
    && (x.scope.Everything? && x.returned ==> forall p :: Lookup(d.t.pending, p) == {})
  }

  ghost predicate Counted(d: Debugger) {
    && (forall p :: ClosingCount(d.t, p) == |ClosersOf(d.closers, p)|)
    && (forall c :: c in d.closers ==> Covers(d, d.closers[c]))
  }

  ghost predicate Inv(d: Debugger) {
    Sound(d.t) && AllFit(d) && Counted(d)
  }

  lemma InitInv()
    ensures Inv(Init)
  {}

  lemma StepInv(d: Debugger, s: Step)
    requires Inv(d) && Enabled(d, s)
    ensures Inv(Apply(d, s))
  {
    StepSound(d, s);
    forall p, a
      ensures Fits(Apply(d, s), p, a)
    {
      StepFits(d, s, p, a);
    }
    StepCounted(d, s);
  }

  lemma StepSound(d: Debugger, s: Step)
    requires Inv(d) && Enabled(d, s)
    ensures Sound(Apply(d, s).t)
  {
    match s
    case Enter(a, p) => RegisteredSound(d.t, p, a);
    case TryPublish(a) =>
      assert Fits(d, d.attaches[a].profile, a);
      if a !in d.t.cancelled {
        PublishedSound(d.t, d.attaches[a].profile, a);
      }
    case Abandon(a) => AbandonedSound(d.t, d.attaches[a].profile, a);
    case BeginDetach(_, id) => RemovedSound(d.t, id);
    case BeginProfile(_, p) => ProfileTakenSound(d.t, p);
    case BeginAll(_) => AllTakenSound(d.t);
    case Finish(c) =>
      if d.closers[c].scope.OneProfile? {
        var p := d.closers[c].scope.profile;
        assert c in ClosersOf(d.closers, p);
        ProfileReleasedSound(d.t, p);
      }
    case _ =>
  }

  lemma StepFits(d: Debugger, s: Step, p: ProfileId, a: Ticket)
    requires Fits(d, p, a) && Inverse(d.t) && Enabled(d, s)
    ensures Fits(Apply(d, s), p, a)
  {
    if TouchesClosers(s) {
      CloserFits(d, s, p, a);
    } else {
      AttachFits(d, s, p, a);
    }
  }

  lemma CloserFits(d: Debugger, s: Step, p: ProfileId, a: Ticket)
    requires Fits(d, p, a) && Inverse(d.t) && Enabled(d, s) && TouchesClosers(s)
    ensures Fits(Apply(d, s), p, a)
  {
    if s.BeginProfile? {
      assert a in Lookup(d.t.profiles, s.p) <==> a in d.t.sessions && d.t.sessions[a] == s.p;
    }
  }

  lemma AttachFits(d: Debugger, s: Step, p: ProfileId, a: Ticket)
    requires Fits(d, p, a) && Enabled(d, s) && !TouchesClosers(s)
    ensures Fits(Apply(d, s), p, a)
  {}

  lemma StepCounted(d: Debugger, s: Step)
    requires Inv(d) && Enabled(d, s)
    ensures Counted(Apply(d, s))
  {
    var e := Apply(d, s);
    forall p
      ensures ClosingCount(e.t, p) == |ClosersOf(e.closers, p)|
    {
      StepCount(d, s, p);
    }
    forall c | c in e.closers
      ensures Covers(e, e.closers[c])
    {
      StepCovers(d, s, c);
    }
  }

  predicate TouchesClosers(s: Step) {
    s.BeginDetach? || s.BeginProfile? || s.BeginAll? || s.Finish?
  }

  /** Nothing but Enter adds to the pending attaches; nothing reopens a closed manager. */
  lemma StepShape(d: Debugger, s: Step)
    requires Enabled(d, s)
    ensures d.attaches.Keys <= Apply(d, s).attaches.Keys && (d.t.closed ==> Apply(d, s).t.closed)
    ensures !s.Enter? ==> forall p :: Lookup(Apply(d, s).t.pending, p) <= Lookup(d.t.pending, p)
    ensures !TouchesClosers(s) ==>
              Apply(d, s).closers == d.closers && Apply(d, s).t.closingProfiles == d.t.closingProfiles
  {}

  lemma StepCount(d: Debugger, s: Step, p: ProfileId)
    requires ClosingCount(d.t, p) == |ClosersOf(d.closers, p)| && Enabled(d, s)
    ensures ClosingCount(Apply(d, s).t, p) == |ClosersOf(Apply(d, s).closers, p)|
  {
    StepShape(d, s);
    if TouchesClosers(s) {
      PutCloser(d.closers, s.c, Apply(d, s).closers[s.c], p);
    }
  }

  lemma PutCloser(closers: map<CloserId, Closer>, c: CloserId, x: Closer, p: ProfileId)
    ensures |ClosersOf(closers[c := x], p)| + (if c in closers && ClosesProfile(closers[c], p) then 1 else 0)
         == |ClosersOf(closers, p)| + (if ClosesProfile(x, p) then 1 else 0)
  {
    OneApart(ClosersOf(closers, p), ClosersOf(closers[c := x], p), c);
  }

  /** Two sets that differ in c at most. */
  lemma OneApart(before: set<CloserId>, after: set<CloserId>, c: CloserId)
    requires forall k :: k != c ==> (k in before <==> k in after)
    ensures |after| + (if c in before then 1 else 0) == |before| + (if c in after then 1 else 0)
  {
    var rest := before - {c};
    assert before == rest + (if c in before then {c} else {});
    assert after == rest + (if c in after then {c} else {});
  }

  lemma StepCovers(d: Debugger, s: Step, c: CloserId)
    requires AllFit(d) && Counted(d) && Enabled(d, s) && c in Apply(d, s).closers
    ensures Covers(Apply(d, s), Apply(d, s).closers[c])
  {
    StepShape(d, s);
    if c !in d.closers {
      forall a | a in Apply(d, s).closers[c].waits
        ensures a in d.attaches
      {
        assert a in AllPending(d.t);
        var p :| p in d.t.pending && a in d.t.pending[p];
        assert Fits(d, p, a);
      }
    } else {
      assert Covers(d, d.closers[c]);
      if s.Enter? {
        assert c !in ClosersOf(d.closers, s.p);
        assert Lookup(Apply(d, s).t.pending, s.p) == Lookup(d.t.pending, s.p) + {s.a};
      } else if s == Finish(c) {
        FinishEmpties(d, c);
      }
    }
  }

  /** What a drained closer waited for is gone, and nothing came after it. */
  lemma FinishEmpties(d: Debugger, c: CloserId)
    requires AllFit(d) && Counted(d) && Enabled(d, Finish(c))
    ensures d.closers[c].scope.OneProfile? ==> Lookup(d.t.pending, d.closers[c].scope.profile) == {}
    ensures d.closers[c].scope.Everything? ==> forall p :: Lookup(d.t.pending, p) == {}
  {
    forall p, a | a in d.closers[c].waits
      ensures a !in Lookup(d.t.pending, p)
    {
      assert Fits(d, p, a);
    }
    assert Covers(d, d.closers[c]);
  }

  // ----- what holds in every run -----

  /** The state after `steps`, or None when one of them was not enabled. */
  function Execute(steps: seq<Step>): Option<Debugger> {
    if steps == [] then Some(Init)
    else
      var s := steps[|steps| - 1];
      match Execute(steps[..|steps| - 1])
      case None => None
      case Some(d) => if Enabled(d, s) then Some(Apply(d, s)) else None
  }

  lemma {:induction false} RunInv(steps: seq<Step>)
    requires Execute(steps).Some?
    ensures Inv(Execute(steps).value)
  {
    if steps == [] {
      InitInv();
    } else {
      RunInv(steps[..|steps| - 1]);
      StepInv(Execute(steps[..|steps| - 1]).value, steps[|steps| - 1]);
    }
  }

  /** While a profile is barred nothing of it is indexed, and an attach that tries to publish unwinds. */
  lemma BarredProfile(steps: seq<Step>, p: ProfileId, a: Ticket)
    requires Execute(steps).Some? && Barred(Execute(steps).value.t, p)
    requires a in Execute(steps).value.attaches && Execute(steps).value.attaches[a].profile == p
    ensures var d := Execute(steps).value;
            && !d.attaches[a].phase.Indexed?
            && (IsPending(d.attaches[a].phase) ==> a in d.t.cancelled)
            && (Enabled(d, TryPublish(a)) ==> InPhase(Apply(d, TryPublish(a)), a, Unwinding))
  {
    RunInv(steps);
    var d := Execute(steps).value;
    assert Fits(d, p, a);
    BarredIsEmpty(d.t, p, a);
  }

  /** When CloseProfile takes the lock again after its drain, nothing of the profile is left. */
  lemma RelockFindsNothing(steps: seq<Step>, c: CloserId)
    requires Execute(steps).Some? && Enabled(Execute(steps).value, Finish(c))
    requires Execute(steps).value.closers[c].scope.OneProfile?
    ensures var d := Execute(steps).value; var p := d.closers[c].scope.profile;
            p !in d.t.pending && p !in d.t.profiles
  {
    RunInv(steps);
    var d := Execute(steps).value;
    FinishEmpties(d, c);
    assert c in ClosersOf(d.closers, d.closers[c].scope.profile);
  }

  /**
   From the return of a Close on, in every later state: nothing is indexed or pending, and each
   child that was ever started has been closed or is in the hands of a closer still running.
   */
  lemma AfterClose(steps: seq<Step>, c: CloserId, a: Ticket)
    requires Execute(steps).Some? && c in Execute(steps).value.closers
    requires Execute(steps).value.closers[c].scope == Everything && Execute(steps).value.closers[c].returned
    ensures var d := Execute(steps).value;
            && d.t.sessions == map[] && d.t.profiles == map[] && d.t.pending == map[]
            && (a in d.attaches && d.attaches[a].child.Open? ==>
                  d.attaches[a].phase.Taken? && Active(d, d.attaches[a].phase.closer))
  {
    RunInv(steps);
    var d := Execute(steps).value;
    assert Covers(d, d.closers[c]);
    assert forall p :: Barred(d.t, p);
    SameSets(d.t.pending, map[]);
    SameSets(d.t.profiles, map[]);
    forall id
      ensures id !in d.t.sessions
    {
      BarredIsEmpty(d.t, if id in d.t.sessions then d.t.sessions[id] else "", id);
    }
    if a in d.attaches {
      assert Fits(d, d.attaches[a].profile, a);
    }
  }

  /** Only the attach's own second read, and only of the URL it read first, takes it past that reading. */
  lemma StepMatches(d: Debugger, s: Step, a: Ticket)
    requires Enabled(d, s) && Inverse(d.t) && (a in d.t.sessions ==> InPhase(d, a, Indexed))
    requires a in d.attaches ==> ChildFits(d.attaches[a])
    requires a in Apply(d, s).attaches && Matched(Apply(d, s).attaches[a].phase)
    ensures a in d.attaches && d.attaches[a].first.Some? && Apply(d, s).attaches[a].first == d.attaches[a].first
    ensures Matched(d.attaches[a].phase) || s == SecondRead(a, d.attaches[a].first.value.url)
  {
    if s.BeginProfile? {
      assert a in Lookup(d.t.profiles, s.p) <==> a in d.t.sessions && d.t.sessions[a] == s.p;
    }
  }

  /**
   An attach that got past its second reading, whatever became of it since, has read the URL of
   its first reading there: it is published for the browser it was started for.
   */
  lemma {:induction false} SecondReadMatches(steps: seq<Step>, a: Ticket) returns (n: nat)
    requires Execute(steps).Some? && a in Execute(steps).value.attaches && Matched(Execute(steps).value.attaches[a].phase)
    ensures var x := Execute(steps).value.attaches[a];
            n < |steps| && x.first.Some? && steps[n] == SecondRead(a, x.first.value.url)
  {
    var prefix, s := steps[..|steps| - 1], steps[|steps| - 1];
    RunInv(prefix);
    var d := Execute(prefix).value;
    assert Fits(d, if a in d.attaches then d.attaches[a].profile else "", a);
    StepMatches(d, s, a);
    if Matched(d.attaches[a].phase) {
      n := SecondReadMatches(prefix, a);
    } else {
      n := |prefix|;
    }
  }

  lemma StepReads(d: Debugger, s: Step, a: Ticket)
    requires Enabled(d, s) && a in Apply(d, s).attaches && Apply(d, s).attaches[a].first.Some?
    ensures s == FirstRead(a, Apply(d, s).attaches[a].first.value)
            || (a in d.attaches && d.attaches[a].first == Apply(d, s).attaches[a].first)
  {}

  /** What an attach remembers of its first reading is what it read. */
  lemma {:induction false} FirstReadIsRemembered(steps: seq<Step>, a: Ticket) returns (n: nat)
    requires Execute(steps).Some? && a in Execute(steps).value.attaches && Execute(steps).value.attaches[a].first.Some?
    ensures n < |steps| && steps[n] == FirstRead(a, Execute(steps).value.attaches[a].first.value)
  {
    var prefix, s := steps[..|steps| - 1], steps[|steps| - 1];
    var d := Execute(prefix).value;
    StepReads(d, s, a);
    if a in d.attaches && d.attaches[a].first == Execute(steps).value.attaches[a].first {
      n := FirstReadIsRemembered(prefix, a);
    } else {
      n := |prefix|;
    }
  }

  // ----- no child is lost -----

  predicate ChildIs(c: Child, started: bool, shut: bool) {
    (c.NoChild? <==> !started) && (c.Shut? <==> shut)
  }

  lemma StepChild(d: Debugger, s: Step, a: Ticket)
    requires Enabled(d, s) && a in d.attaches
    ensures a in Apply(d, s).attaches
    ensures s in {ShutChild(a), StopChild(a)} ==> d.attaches[a].child.Open?
    ensures s == StartChild(a) ==> d.attaches[a].child.NoChild?
    ensures Apply(d, s).attaches[a].child ==
              if s == StartChild(a) then Open else if s in {ShutChild(a), StopChild(a)} then Shut else d.attaches[a].child
  {}

  lemma NewChild(d: Debugger, s: Step, a: Ticket)
    requires Enabled(d, s) && a !in d.attaches
    ensures s !in {StartChild(a), ShutChild(a), StopChild(a)}
    ensures a in Apply(d, s).attaches ==> Apply(d, s).attaches[a].child.NoChild?
  {}

  /** An attach has a child exactly from the step that started it, and that is closed exactly from the step that shut it. */
  lemma {:induction false} ChildIsTracked(steps: seq<Step>, a: Ticket)
    requires Execute(steps).Some?
    ensures var d := Execute(steps).value;
            var started, shut := StartChild(a) in steps, ShutChild(a) in steps || StopChild(a) in steps;
            if a in d.attaches then ChildIs(d.attaches[a].child, started, shut) else !started && !shut
  {
    if steps != [] {
      var prefix, s := steps[..|steps| - 1], steps[|steps| - 1];
      assert steps == prefix + [s];
      ChildIsTracked(prefix, a);
      var d := Execute(prefix).value;
      if a in d.attaches {
        StepChild(d, s, a);
      } else {
        NewChild(d, s, a);
      }
    }
  }

  /** An attach that failed, or a session that was detached, has closed whatever child it had started. */
  lemma NoChildIsLeft(steps: seq<Step>, a: Ticket)
    requires Execute(steps).Some? && a in Execute(steps).value.attaches && StartChild(a) in steps
    requires Execute(steps).value.attaches[a].phase.Failed? || Execute(steps).value.attaches[a].phase.Detached?
    ensures ShutChild(a) in steps || StopChild(a) in steps
  {
    ChildIsTracked(steps, a);
    RunInv(steps);
    var d := Execute(steps).value;
    assert Fits(d, d.attaches[a].profile, a);
  }

  // ----- who cancels, publishes and un-indexes -----

  /** The step ends the context of attach a, or closes its profile or everything. */
  predicate Cancels(d: Debugger, s: Step, a: Ticket) {
    && a in d.attaches
    && (s == Cancel(a) || s.BeginAll? || (s.BeginProfile? && s.p == d.attaches[a].profile))
  }

  /** Step j of the run cancels the attach a, which has begun. */
  predicate CancelsAt(steps: seq<Step>, j: nat, a: Ticket) {
    j < |steps| && Execute(steps[..j]).Some? && Cancels(Execute(steps[..j]).value, steps[j], a)
  }

  ghost predicate CancelledIn(steps: seq<Step>, a: Ticket) {
    exists j: nat :: CancelsAt(steps, j, a)
  }

  lemma CancelledMore(steps: seq<Step>, s: Step, a: Ticket)
    ensures CancelledIn(steps + [s], a) <==> CancelledIn(steps, a) || CancelsAt(steps + [s], |steps|, a)
  {
    forall j: nat | j < |steps|
      ensures CancelsAt(steps + [s], j, a) <==> CancelsAt(steps, j, a)
    {
      assert (steps + [s])[..j] == steps[..j];
    }
    if j: nat :| CancelsAt(steps, j, a) {
      assert CancelsAt(steps + [s], j, a);
    }
    if j: nat :| CancelsAt(steps + [s], j, a) {
      assert j == |steps| || CancelsAt(steps, j, a);
    }
  }

  /** `past`: whether a step so far has cancelled a. */
  predicate CancelFits(d: Debugger, a: Ticket, past: bool) {
    && (a !in d.attaches ==> a !in d.t.cancelled && !past)
    && (a in d.attaches && IsPending(d.attaches[a].phase) ==> (a in d.t.cancelled <==> past))
  }

  lemma StepCancels(d: Debugger, s: Step, a: Ticket, past: bool)
    requires Enabled(d, s) && CancelFits(d, a, past) && forall p :: Fits(d, p, a)
    ensures CancelFits(Apply(d, s), a, past || Cancels(d, s, a))
  {
    if s.BeginAll? {
      AllPendingAre(d, a);
    } else if s.BeginProfile? {
      assert Fits(d, s.p, a);
    } else {
      assert Fits(d, if a in d.attaches then d.attaches[a].profile else "", a);
    }
  }

  lemma AllPendingAre(d: Debugger, a: Ticket)
    requires forall p :: Fits(d, p, a)
    ensures a in AllPending(d.t) <==> a in d.attaches && IsPending(d.attaches[a].phase)
  {
    if a in d.attaches {
      assert Fits(d, d.attaches[a].profile, a);
      assert a in Lookup(d.t.pending, d.attaches[a].profile) ==> d.attaches[a].profile in d.t.pending;
    }
    forall p | p in d.t.pending && a in d.t.pending[p]
      ensures a in d.attaches && IsPending(d.attaches[a].phase)
    {
      assert Fits(d, p, a);
    }
  }

  /** A pending attach is cancelled exactly if it was since it began: by its own context, or by a close that covers it. */
  lemma {:induction false} CancelledByStep(steps: seq<Step>, a: Ticket)
    requires Execute(steps).Some?
    ensures CancelFits(Execute(steps).value, a, CancelledIn(steps, a))
  {
    if steps == [] {
      assert forall j: nat :: !CancelsAt(steps, j, a);
    } else {
      var prefix, s := steps[..|steps| - 1], steps[|steps| - 1];
      assert steps == prefix + [s] && steps[..|prefix|] == prefix;
      CancelledByStep(prefix, a);
      RunInv(prefix);
      CancelledMore(prefix, s, a);
      var d := Execute(prefix).value;
      assert forall p :: Fits(d, p, a);
      StepCancels(d, s, a, CancelledIn(prefix, a));
      assert CancelsAt(steps, |prefix|, a) <==> Cancels(d, s, a);
    }
  }

  /**
   The second read lets an attach go on exactly on the same URL; and the attempt to publish indexes
   it under its profile exactly if nothing has cancelled it since it began.
   */
  lemma PublishedExactly(steps: seq<Step>, a: Ticket, url: string)
    requires Execute(steps).Some?
    ensures
      var d := Execute(steps).value;
      && (Enabled(d, SecondRead(a, url)) ==>
            d.attaches[a].first.Some?
            && (InPhase(Apply(d, SecondRead(a, url)), a, Verified) <==> d.attaches[a].first.value.url == url))
      && (Enabled(d, TryPublish(a)) ==>
            var e := Apply(d, TryPublish(a));
            if CancelledIn(steps, a) then InPhase(e, a, Unwinding) && e.t.sessions == d.t.sessions
            else InPhase(e, a, Indexed) && e.t.sessions == d.t.sessions[a := d.attaches[a].profile])
  {
    CancelledByStep(steps, a);
  }

  /**
   A session leaves the index exactly by its own Detach, by CloseProfile of its profile or by Close;
   whoever takes it out has it to stop.
   */
  lemma LeavesExactly(steps: seq<Step>, s: Step, a: Ticket)
    requires Execute(steps).Some? && Enabled(Execute(steps).value, s) && a in Execute(steps).value.t.sessions
    ensures
      var d, e := Execute(steps).value, Apply(Execute(steps).value, s);
      && a in d.attaches && a in e.attaches
      && (a !in e.t.sessions <==>
            (s.BeginDetach? && s.id == a) || (s.BeginProfile? && s.p == d.attaches[a].profile) || s.BeginAll?)
      && (a !in e.t.sessions ==> e.attaches[a].phase == Taken(s.c) && e.attaches[a].child == d.attaches[a].child)
  {
    RunInv(steps);
    var d := Execute(steps).value;
    assert Fits(d, if a in d.attaches then d.attaches[a].profile else "", a);
    LeavesByStep(d, s, a);
  }

  lemma LeavesByStep(d: Debugger, s: Step, a: Ticket)
    requires Enabled(d, s) && Inverse(d.t) && a in d.t.sessions
    requires InPhase(d, a, Indexed) && d.t.sessions[a] == d.attaches[a].profile
    ensures
      var e := Apply(d, s);
      && a in e.attaches
      && (a !in e.t.sessions <==>
            (s.BeginDetach? && s.id == a) || (s.BeginProfile? && s.p == d.attaches[a].profile) || s.BeginAll?)
      && (a !in e.t.sessions ==> e.attaches[a].phase == Taken(s.c) && e.attaches[a].child == d.attaches[a].child)
  {
    if s.BeginProfile? {
      assert a in Lookup(d.t.profiles, s.p) <==> a in d.t.sessions && d.t.sessions[a] == s.p;
    }
  }

  /** An attach on its way out, or gone without a session. */
  predicate Doomed(d: Debugger, a: Ticket) {
    InPhase(d, a, Unwinding) || InPhase(d, a, Failed)
  }

  lemma StepDoomed(d: Debugger, s: Step, a: Ticket)
    requires Enabled(d, s) && Doomed(d, a) && a !in d.t.sessions && Inverse(d.t)
    ensures Doomed(Apply(d, s), a)
  {
    if s.BeginProfile? {
      assert a !in Lookup(d.t.profiles, s.p);
    }
  }

  lemma {:induction false} DoomedForGood(steps: seq<Step>, k: nat, a: Ticket)
    requires k <= |steps| && Execute(steps).Some? && Execute(steps[..k]).Some? && Doomed(Execute(steps[..k]).value, a)
    ensures Doomed(Execute(steps).value, a)
    decreases |steps|
  {
    var n := |steps| - 1;
    if k <= n {
      assert steps[..n][..k] == steps[..k];
      DoomedForGood(steps[..n], k, a);
      RunInv(steps[..n]);
      var d := Execute(steps[..n]).value;
      assert Fits(d, d.attaches[a].profile, a);
      StepDoomed(d, steps[n], a);
    } else {
      assert steps[..k] == steps;
    }
  }

  lemma {:induction false} PrefixRuns(steps: seq<Step>, k: nat)
    requires k <= |steps| && Execute(steps).Some?
    ensures Execute(steps[..k]).Some?
    ensures k < |steps| ==> Enabled(Execute(steps[..k]).value, steps[k])
    ensures k < |steps| ==> Execute(steps[..k + 1]) == Some(Apply(Execute(steps[..k]).value, steps[k]))
    decreases |steps|
  {
    if k < |steps| {
      var n := |steps| - 1;
      if k < n {
        PrefixRuns(steps[..n], k);
        assert steps[..n][..k] == steps[..k] && steps[..n][..k + 1] == steps[..k + 1];
      } else {
        assert steps[..k + 1] == steps;
      }
    } else {
      assert steps[..k] == steps;
    }
  }

  /** An attach that reads another URL the second time is never indexed, then or in any later state. */
  lemma MismatchNeverIndexed(steps: seq<Step>, k: nat, a: Ticket, url: string)
    requires Execute(steps).Some? && k < |steps| && steps[k] == SecondRead(a, url)
    ensures Execute(steps[..k]).Some? && a in Execute(steps[..k]).value.attaches
    ensures var x := Execute(steps[..k]).value.attaches[a];
            x.first.Some? && (x.first.value.url != url ==> a !in Execute(steps).value.t.sessions)
  {
    PrefixRuns(steps, k);
    var d := Execute(steps[..k]).value;
    if d.attaches[a].first.value.url != url {
      assert Doomed(Apply(d, steps[k]), a);
      DoomedForGood(steps, k + 1, a);
      RunInv(steps);
      var e := Execute(steps).value;
      assert Fits(e, e.attaches[a].profile, a);
    }
  }

  /** The done channel of an attach is closed once: when it publishes or is abandoned, and never again. */
  lemma DoneOnce(steps: seq<Step>, a: Ticket)
    requires Execute(steps).Some?
    ensures var d := Execute(steps).value;
            d.t.done[a] == if a in d.attaches && !IsPending(d.attaches[a].phase) then 1 else 0
  {
    RunInv(steps);
    var d := Execute(steps).value;
    assert Fits(d, if a in d.attaches then d.attaches[a].profile else "", a);
  }

  /** How often a run stopped a session's child and announced it, and who did: one closer, once. */
  lemma {:induction false} StoppedOnce(steps: seq<Step>, a: Ticket)
    requires Execute(steps).Some?
    ensures var d := Execute(steps).value; var n := multiset(steps);
            && n[EmitDetached(a)] == (if InPhase(d, a, Detached) then 1 else 0)
            && n[StopChild(a)] == (if a in d.attaches && d.attaches[a].child.Shut?
                                      && (d.attaches[a].phase.Taken? || d.attaches[a].phase.Detached?) then 1 else 0)
  {
    if steps != [] {
      var prefix, s := steps[..|steps| - 1], steps[|steps| - 1];
      assert steps == prefix + [s];
      StoppedOnce(prefix, a);
      RunInv(prefix);
      var d := Execute(prefix).value;
      assert Fits(d, if a in d.attaches then d.attaches[a].profile else "", a);
      assert multiset(steps) == multiset(prefix) + multiset{s};
      StepStops(d, s, a);
    }
  }

  predicate Stopped(d: Debugger, a: Ticket) {
    a in d.attaches && d.attaches[a].child.Shut? && (d.attaches[a].phase.Taken? || d.attaches[a].phase.Detached?)
  }

  lemma StepStops(d: Debugger, s: Step, a: Ticket)
    requires Enabled(d, s)
    requires a in d.attaches ==> ChildFits(d.attaches[a]) && (a in d.t.sessions <==> d.attaches[a].phase == Indexed)
    requires a !in d.attaches ==> a !in d.t.sessions
    requires Inverse(d.t)
    ensures Stopped(Apply(d, s), a) <==> Stopped(d, a) || s == StopChild(a)
    ensures s == StopChild(a) ==> !Stopped(d, a)
    ensures InPhase(Apply(d, s), a, Detached) <==> InPhase(d, a, Detached) || s == EmitDetached(a)
    ensures s == EmitDetached(a) ==> !InPhase(d, a, Detached)
    ensures a in d.attaches && d.attaches[a].phase.Taken? && s != EmitDetached(a) ==>
              Apply(d, s).attaches[a].phase == d.attaches[a].phase
  {
    if s.BeginProfile? {
      assert a in Lookup(d.t.profiles, s.p) <==> a in d.t.sessions && d.t.sessions[a] == s.p;
    }
  }
}
