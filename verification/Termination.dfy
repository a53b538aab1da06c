/**
 Every run without new arrivals is finite: a rank on the attaches, closers, instances,
 browser operations, requests and calls that every step other than an arrival lowers. With
 NoDeadlock of Progress this makes every close return.
 */
module Termination {
  import opened Common
  import opened Sums
  import D = DebuggerProtocol
  import B = BrowserLifecycle
  import T = DebuggerTables
  import L = Lifecycle
  import opened Progress

  // ----- the rank -----

  function AttachCost(x: D.Attach, cancelled: bool): nat {
    match x.phase
    case Working =>
      (if x.first.None? then 7 else if x.child.Open? then 5 else 6) + if cancelled then 0 else 1
    case Verified => 4 + if cancelled then 0 else 1
    case Unwinding => (if x.child.Open? then 2 else 1) + if cancelled then 0 else 1
    case Indexed => 3
    case Taken(_) => if x.child.Open? then 2 else 1
    case _ => 0
  }

  function AttachCosts(d: D.Debugger): map<nat, nat> {
    map a | a in d.attaches :: AttachCost(d.attaches[a], a in d.t.cancelled)
  }

  function CloserCosts(d: D.Debugger): map<nat, nat> {
    map c | c in d.closers :: if d.closers[c].returned then 0 else 1
  }

  function InstanceCost(x: B.Instance, handled: bool): nat {
    (if x.exited then 0 else 1)
    + (if x.stopOnce.Idle? then 2 else if x.stopOnce.Running? then 1 else 0)
    + match x.watch
      case NotStarted => 7
      case Waiting => 6
      case Unindexed(_) => 5
      case Handling(_) => if handled then 2 else 4
      case Handled(_) => 1
      case Finished => 0
  }

  function InstanceCosts(r: B.Registry, handled: set<B.InstanceId>): map<nat, nat> {
    map i | i in r.instances :: InstanceCost(r.instances[i], i in handled)
  }

  function TurnCost(r: B.Registry, t: B.Turn): nat {
    if t.Free? then 0
    else
      match t.pc
      case Entered => (match t.kind case Launch(_) => 30 case CloseProfile(_) => 6 case Shutdown => 2 + 4 * |r.profiles|)
      case Checked => 29
      case Judging(_) => 28
      case JudgedAlive(_) => 27
      case AwaitOld(_) => 26
      case Prepared => 25
      case Starting(_, up) => if up then 4 else 5
      case Failing(_) => 3
      case Announcing(_) => 3
      case Announced(_) => 2
      case Closing(todo) => 1 + 4 * |todo|
      case Marked(_, todo) => 4 + 4 * |todo|
      case Stopping(_, todo) => 3 + 4 * |todo|
      case Awaiting(_, todo) => 2 + 4 * |todo|
  }

  function RequestCost(x: Request): nat {
    if x.over then 0
    else 1 + (if x.locks && !x.holds then 1 else 0) + (if x.wait.Nothing? then 0 else 1)
  }

  function RequestCosts(requests: map<nat, Request>): map<nat, nat> {
    map v | v in requests :: RequestCost(requests[v])
  }

  function CallCost(pc: CallPc): nat {
    match pc
    case WantGate => 5
    case InGate => 4
    case Closing(_) => 1
    case Requesting => 1
    case Over => 0
  }

  function CallCosts(calls: map<nat, Call>): map<nat, nat> {
    map k | k in calls :: CallCost(calls[k].pc)
  }

  function Scripts(requests: map<nat, Request>): map<nat, nat> {
    map v | v in requests :: 2 * |requests[v].script|
  }

  /** Work not yet handed to a manager: the requests' remaining tasks and the queued operations. */
  ghost function Planned(s: System): nat {
    |s.j.b.queued| + Sum(Scripts(s.requests))
  }

  ghost function BrowserRank(r: B.Registry, t: B.Turn, handled: set<B.InstanceId>): nat {
    Sum(InstanceCosts(r, handled)) + TurnCost(r, t)
  }

  /** Work in the two managers. */
  ghost function InnerRank(j: L.Joint): nat {
    Sum(AttachCosts(j.d)) + Sum(CloserCosts(j.d)) + BrowserRank(j.b.r, j.b.turn, j.handlers.Keys)
  }

  ghost function Rank(s: System): nat {
    InnerRank(s.j) + Sum(RequestCosts(s.requests)) + Sum(CallCosts(s.calls)) + if s.cancelled then 0 else 1
  }

  /** The steps by which something new begins. */
  predicate Arrival(step: Step) {
    match step
    case Inner(l) => (
      match l
      case Debug(d) => d.Enter? || d.BeginDetach? || d.BeginProfile? || d.BeginAll?
      case Browse(b) => b.Request?
      case _ => false)
    case Arrive(_, _, _, _) => true
    case CallArrives(_, _) => true
    case _ => false
  }

  // ----- the debugger -----

  predicate Begins(d: D.Step) {
    d.Enter? || d.BeginDetach? || d.BeginProfile? || d.BeginAll?
  }

  /** The ticket or closer whose cost a step of the debugger lowers. */
  function Lowered(s: D.Step): nat
    requires !Begins(s)
  {
    if s.Finish? then s.c else if s.StopChild? || s.EmitDetached? then s.id else s.a
  }

  lemma AttachStep(d: D.Debugger, s: D.Step, a: T.Ticket)
    requires D.Enabled(d, s) && !s.Enter? && a in d.attaches && D.ChildFits(d.attaches[a])
    requires a in d.t.sessions <==> d.attaches[a].phase == D.Indexed
    requires T.Inverse(d.t)
    ensures var e := D.Apply(d, s);
            && a in e.attaches
            && AttachCost(e.attaches[a], a in e.t.cancelled) <= AttachCost(d.attaches[a], a in d.t.cancelled)
            && (!Begins(s) && !s.Finish? && Lowered(s) == a ==>
                  AttachCost(e.attaches[a], a in e.t.cancelled) < AttachCost(d.attaches[a], a in d.t.cancelled))
  {
    if s.BeginProfile? {
      assert a in Lookup(d.t.profiles, s.p) <==> a in d.t.sessions && d.t.sessions[a] == s.p;
    }
  }

  lemma AttachesStep(d: D.Debugger, s: D.Step)
    requires D.Inv(d) && D.Enabled(d, s) && !s.Enter?
    ensures Sum(AttachCosts(D.Apply(d, s))) <= Sum(AttachCosts(d))
    ensures !Begins(s) && !s.Finish? ==> Sum(AttachCosts(D.Apply(d, s))) < Sum(AttachCosts(d))
  {
    var m, n := AttachCosts(d), AttachCosts(D.Apply(d, s));
    SameTickets(d, s);
    forall a | a in m
      ensures n[a] <= m[a] && (!Begins(s) && !s.Finish? && Lowered(s) == a ==> n[a] < m[a])
    {
      assert D.Fits(d, d.attaches[a].profile, a);
      AttachStep(d, s, a);
    }
    if !Begins(s) && !s.Finish? {
      SumLess(m, n, Lowered(s));
    } else {
      SumLe(m, n);
    }
  }

  lemma SameTickets(d: D.Debugger, s: D.Step)
    requires D.Enabled(d, s) && !s.Enter?
    ensures D.Apply(d, s).attaches.Keys == d.attaches.Keys
  {}

  lemma ClosersStep(d: D.Debugger, s: D.Step)
    requires D.Enabled(d, s)
    ensures Sum(CloserCosts(D.Apply(d, s))) <= Sum(CloserCosts(d)) + if D.TouchesClosers(s) && !s.Finish? then 1 else 0
    ensures s.Finish? ==> Sum(CloserCosts(D.Apply(d, s))) < Sum(CloserCosts(d))
  {
    D.StepShape(d, s);
    if D.TouchesClosers(s) {
      var v := if D.Apply(d, s).closers[s.c].returned then 0 else 1;
      assert CloserCosts(D.Apply(d, s)) == CloserCosts(d)[s.c := v];
      SumPut(CloserCosts(d), s.c, v);
    }
  }

  lemma DebuggerStep(d: D.Debugger, s: D.Step)
    requires D.Inv(d) && D.Enabled(d, s) && !s.Enter?
    ensures var e := D.Apply(d, s);
            && Sum(AttachCosts(e)) + Sum(CloserCosts(e)) <= Sum(AttachCosts(d)) + Sum(CloserCosts(d)) + 1
            && (!Begins(s) ==> Sum(AttachCosts(e)) + Sum(CloserCosts(e)) < Sum(AttachCosts(d)) + Sum(CloserCosts(d)))
  {
    AttachesStep(d, s);
    ClosersStep(d, s);
  }

  // ----- the browser manager -----

  lemma LaunchTurnCost(r: B.Registry, t: B.Turn, l: B.LaunchStep)
    requires t.Held? && B.LaunchEnabled(r, t, l) && B.TurnFits(r, t)
    ensures var (q, next) := B.LaunchNext(r, t, l);
            TurnCost(q, B.TurnAfter(t, next, t.met)) + (if l.Start? then 11 else 1) <= TurnCost(r, t)
  {}

  lemma LaunchInstanceCost(r: B.Registry, t: B.Turn, l: B.LaunchStep, i: B.InstanceId, handled: bool)
    requires t.Held? && B.LaunchEnabled(r, t, l) && i in r.instances
    requires t.pc.Announced? && t.pc.own == i ==> r.instances[i].watch.NotStarted?
    ensures i in B.LaunchNext(r, t, l).0.instances
    ensures InstanceCost(B.LaunchNext(r, t, l).0.instances[i], handled) <= InstanceCost(r.instances[i], handled)
  {}

  lemma LaunchTickets(r: B.Registry, t: B.Turn, l: B.LaunchStep)
    requires t.Held? && B.LaunchEnabled(r, t, l)
    ensures B.LaunchNext(r, t, l).0.instances.Keys == r.instances.Keys + if l.Start? then {l.i} else {}
    ensures l.Start? ==> InstanceCost(B.LaunchNext(r, t, l).0.instances[l.i], false) == 10
  {}

  lemma LaunchRank(r: B.Registry, t: B.Turn, l: B.LaunchStep, handled: set<B.InstanceId>)
    requires t.Held? && B.LaunchEnabled(r, t, l) && B.TurnFits(r, t)
    requires t.pc.Announced? ==> r.instances[t.pc.own].watch.NotStarted?
    requires handled <= r.instances.Keys
    ensures BrowserRank(B.LaunchNext(r, t, l).0, B.TurnAfter(t, B.LaunchNext(r, t, l).1, t.met), handled)
          < BrowserRank(r, t, handled)
  {
    LaunchTurnCost(r, t, l);
    LaunchSum(r, t, l, handled);
  }

  lemma LaunchSum(r: B.Registry, t: B.Turn, l: B.LaunchStep, handled: set<B.InstanceId>)
    requires t.Held? && B.LaunchEnabled(r, t, l)
    requires t.pc.Announced? ==> r.instances[t.pc.own].watch.NotStarted?
    requires handled <= r.instances.Keys
    ensures Sum(InstanceCosts(B.LaunchNext(r, t, l).0, handled))
         <= Sum(InstanceCosts(r, handled)) + if l.Start? then 10 else 0
  {
    LaunchTickets(r, t, l);
    var m, n := InstanceCosts(r, handled), InstanceCosts(B.LaunchNext(r, t, l).0, handled);
    forall i | i in m
      ensures i in n && n[i] <= m[i]
    {
      LaunchInstanceCost(r, t, l, i, i in handled);
    }
    if l.Start? {
      SumAdd(m, n, l.i);
    } else {
      SumLe(m, n);
    }
  }

  lemma CloseTurnCost(r: B.Registry, t: B.Turn, c: B.CloseStep, met: set<B.InstanceId>)
    requires t.Held? && B.CloseEnabled(r, t, c)
    ensures TurnCost(B.CloseNext(r, t, c).0, B.TurnAfter(t, B.CloseNext(r, t, c).1, met)) < TurnCost(r, t)
  {
    if c.BeginClose? {
      BeginTurnCost(r, t, met);
    } else if c.NextClose? {
      NextTurnCost(r, t, c.p, met);
    }
  }

  lemma BeginTurnCost(r: B.Registry, t: B.Turn, met: set<B.InstanceId>)
    requires t.Held? && !t.kind.Launch? && t.pc.Entered?
    ensures TurnCost(r, t.(pc := B.CloseNext(r, t, B.BeginClose).1.pc, met := met)) < TurnCost(r, t)
  {
    assert |r.profiles.Keys| == |r.profiles|;
  }

  lemma NextTurnCost(r: B.Registry, t: B.Turn, p: ProfileId, met: set<B.InstanceId>)
    requires t.Held? && !t.kind.Launch? && t.pc.Closing? && p in t.pc.todo
    ensures TurnCost(B.MarkedForClose(r, p), t.(pc := B.CloseNext(r, t, B.NextClose(p)).1.pc, met := met)) < TurnCost(r, t)
  {
    assert |t.pc.todo - {p}| == |t.pc.todo| - 1;
  }

  lemma CloseInstanceCost(r: B.Registry, t: B.Turn, c: B.CloseStep, i: B.InstanceId, handled: bool)
    requires t.Held? && B.CloseEnabled(r, t, c) && i in r.instances
    ensures B.CloseNext(r, t, c).0.instances.Keys == r.instances.Keys
    ensures InstanceCost(B.CloseNext(r, t, c).0.instances[i], handled) <= InstanceCost(r.instances[i], handled)
  {}

  lemma CloseRank(r: B.Registry, t: B.Turn, c: B.CloseStep, met: set<B.InstanceId>, handled: set<B.InstanceId>)
    requires t.Held? && B.CloseEnabled(r, t, c)
    ensures BrowserRank(B.CloseNext(r, t, c).0, B.TurnAfter(t, B.CloseNext(r, t, c).1, met), handled)
          < BrowserRank(r, t, handled)
  {
    CloseTurnCost(r, t, c, met);
    var m, n := InstanceCosts(r, handled), InstanceCosts(B.CloseNext(r, t, c).0, handled);
    forall i | i in r.instances
      ensures i in n && n[i] <= m[i]
    {
      CloseInstanceCost(r, t, c, i, i in handled);
    }
    assert n.Keys == m.Keys by {
      if i :| i in r.instances {
        CloseInstanceCost(r, t, c, i, false);
      } else {
        assert r.instances == map[];
        EmptyStays(r, t, c);
      }
    }
    SumLe(m, n);
  }

  lemma EmptyStays(r: B.Registry, t: B.Turn, c: B.CloseStep)
    requires t.Held? && B.CloseEnabled(r, t, c) && r.instances == map[]
    ensures B.CloseNext(r, t, c).0.instances == map[]
  {}

  lemma OneInstanceCost(r: B.Registry, i: B.InstanceId, w: B.InstanceStep, handled: bool)
    requires i in r.instances && B.InstanceEnabled(r.instances[i], w)
    requires (w.HandlerReturns? ==> handled) && (w.EmitClosed? ==> !handled)
    requires r.instances[i].stopOnce.Idle? <==> !r.instances[i].stopping
    ensures var q := B.InstanceNext(r, i, w);
            && q.instances.Keys == r.instances.Keys
            && InstanceCost(q.instances[i], handled) < InstanceCost(r.instances[i], handled)
            && (forall k :: k in r.instances && k != i ==> q.instances[k] == r.instances[k])
  {}

  lemma InstanceTurnCost(r: B.Registry, t: B.Turn, i: B.InstanceId, w: B.InstanceStep)
    requires i in r.instances && B.InstanceEnabled(r.instances[i], w)
    ensures TurnCost(B.InstanceNext(r, i, w), t) <= TurnCost(r, t)
  {
    var p := r.instances[i].profile;
    assert p in r.profiles ==> |r.profiles - {p}| == |r.profiles| - 1;
    assert B.InstanceNext(r, i, w).profiles in {r.profiles, r.profiles - {p}};
  }

  lemma InstanceRank(r: B.Registry, t: B.Turn, i: B.InstanceId, w: B.InstanceStep, handled: set<B.InstanceId>)
    requires i in r.instances && B.InstanceEnabled(r.instances[i], w)
    requires (w.HandlerReturns? ==> i in handled) && (w.EmitClosed? ==> i !in handled)
    requires r.instances[i].stopOnce.Idle? <==> !r.instances[i].stopping
    ensures BrowserRank(B.InstanceNext(r, i, w), t, handled) < BrowserRank(r, t, handled)
  {
    OneInstanceCost(r, i, w, i in handled);
    InstanceTurnCost(r, t, i, w);
    SumLess(InstanceCosts(r, handled), InstanceCosts(B.InstanceNext(r, i, w), handled), i);
  }

  lemma HandlerRank(r: B.Registry, t: B.Turn, i: B.InstanceId, handled: set<B.InstanceId>)
    requires i in r.instances && r.instances[i].watch.Handling? && i !in handled
    ensures BrowserRank(r, t, handled + {i}) == BrowserRank(r, t, handled) - 2
  {
    var m := InstanceCosts(r, handled);
    assert InstanceCosts(r, handled + {i}) == m[i := m[i] - 2];
    SumPut(m, i, m[i] - 2);
  }

  predicate Acquires(l: L.Step) {
    l.Browse? && l.bs.Acquire?
  }

  /** Every step of the managers but an arrival or the taking of `operations` lowers their rank. */
  lemma InnerStep(j: L.Joint, l: L.Step)
    requires L.Inv(j) && L.Enabled(j, l) && !Arrival(Inner(l)) && !Acquires(l)
    ensures InnerRank(L.Apply(j, l)) < InnerRank(j)
  {
    match l
    case Debug(s) => DebuggerStep(j.d, s);
    case Browse(s) => BrowseStep(j, s);
    case HandlerCloses(i, c) => HandlerStep(j, i, c);
    case HandlerReturns(i) => OwnStep(j, i, B.InstanceStep.HandlerReturns);
  }

  lemma HandlerStep(j: L.Joint, i: B.InstanceId, c: D.CloserId)
    requires D.Inv(j.d) && L.Enabled(j, L.HandlerCloses(i, c))
    ensures InnerRank(L.Apply(j, L.HandlerCloses(i, c))) < InnerRank(j)
  {
    DebuggerStep(j.d, D.BeginProfile(c, j.b.r.instances[i].profile));
    HandlerRank(j.b.r, j.b.turn, i, j.handlers.Keys);
    assert L.Apply(j, L.HandlerCloses(i, c)).handlers.Keys == j.handlers.Keys + {i};
  }

  lemma OwnStep(j: L.Joint, i: B.InstanceId, w: B.InstanceStep)
    requires L.Inv(j) && B.Enabled(j.b, B.OnInstance(i, w)) && (w.HandlerReturns? ==> i in j.handlers)
    ensures var c := B.Apply(j.b, B.OnInstance(i, w));
            BrowserRank(c.r, c.turn, j.handlers.Keys) < BrowserRank(j.b.r, j.b.turn, j.handlers.Keys)
  {
    assert B.Fits(j.b.r, j.b.turn, i) && L.HandlerFits(j, i);
    InstanceRank(j.b.r, j.b.turn, i, w, j.handlers.Keys);
  }

  lemma BrowseStep(j: L.Joint, s: B.Step)
    requires L.Inv(j) && L.Enabled(j, L.Browse(s)) && !s.Request? && !s.Acquire?
    ensures var c := B.Apply(j.b, s);
            BrowserRank(c.r, c.turn, j.handlers.Keys) < BrowserRank(j.b.r, j.b.turn, j.handlers.Keys)
  {
    var t := j.b.turn;
    match s
    case InLaunch(x) =>
      assert t.pc.Announced? ==> B.Fits(j.b.r, t, t.pc.own);
      LaunchRank(j.b.r, t, x, j.handlers.Keys);
    case InClose(x) => CloseRank(j.b.r, t, x, if x.SeeFinished? then t.met + {t.pc.h} else t.met, j.handlers.Keys);
    case OnInstance(i, w) => OwnStep(j, i, w);
  }

  // ----- the whole system -----

  /** The step lowers (Planned, Rank) lexicographically. */
  ghost predicate Lower(n: System, s: System) {
    Planned(n) < Planned(s) || (Planned(n) == Planned(s) && Rank(n) < Rank(s))
  }

  lemma InnerShape(s: System, l: L.Step)
    requires L.Enabled(s.j, l)
    ensures Apply(s, Inner(l)) == s.(j := L.Apply(s.j, l))
    ensures Acquires(l) ==> l.bs.o in s.j.b.queued && L.Apply(s.j, l).b.queued == s.j.b.queued - {l.bs.o}
    ensures !Arrival(Inner(l)) && !Acquires(l) ==> L.Apply(s.j, l).b.queued == s.j.b.queued
  {}

  lemma InnerLowers(s: System, l: L.Step)
    requires L.Inv(s.j) && L.Enabled(s.j, l) && !Arrival(Inner(l))
    ensures Lower(s.(j := L.Apply(s.j, l)), s)
  {
    InnerShape(s, l);
    if Acquires(l) {
      assert |s.j.b.queued - {l.bs.o}| == |s.j.b.queued| - 1;
    } else {
      InnerStep(s.j, l);
    }
  }

  /** Issuing a task shortens a script by more than the queue grows. */
  lemma IssueLowers(s: System, step: Step)
    requires Enabled(s, step) && (step.IssueCloser? || step.IssueOp?)
    ensures Lower(Apply(s, step), s)
  {
    var n, v := Apply(s, step), step.v;
    InnerEnabled(s, step);
    var rest := 2 * (|s.requests[v].script| - 1);
    assert Scripts(n.requests) == Scripts(s.requests)[v := rest];
    SumPut(Scripts(s.requests), v, rest);
    QueueGrows(s.j, InnerOf(s, step).value);
  }

  lemma QueueGrows(j: L.Joint, l: L.Step)
    requires L.Enabled(j, l)
    ensures |L.Apply(j, l).b.queued| <= |j.b.queued| + 1
  {
    if l.Browse? && l.bs.Request? {
      assert L.Apply(j, l).b.queued == j.b.queued[l.bs.o := l.bs.kind];
    } else if Acquires(l) {
      assert L.Apply(j, l).b.queued == j.b.queued - {l.bs.o};
    }
  }

  /** Opening a dialog shortens a script. */
  lemma AskLowers(s: System, v: nat)
    requires Enabled(s, Ask(v))
    ensures Lower(Apply(s, Ask(v)), s)
  {
    var n := Apply(s, Ask(v));
    var rest := 2 * (|s.requests[v].script| - 1);
    assert Scripts(n.requests) == Scripts(s.requests)[v := rest];
    SumPut(Scripts(s.requests), v, rest);
  }

  lemma RequestShape(s: System, step: Step)
    requires Enabled(s, step) && (step.Lock? || step.Resume? || step.Answer? || step.End?) && RequestFits(s, step.v)
    ensures var n := Apply(s, step);
            && n.j == s.j && n.calls == s.calls && n.cancelled == s.cancelled && step.v in n.requests
            && n.requests == s.requests[step.v := n.requests[step.v]]
            && n.requests[step.v].script == s.requests[step.v].script
            && RequestCost(n.requests[step.v]) < RequestCost(s.requests[step.v])
  {}

  lemma RequestLowers(s: System, step: Step)
    requires Enabled(s, step) && (step.Lock? || step.Resume? || step.Answer? || step.End?) && RequestFits(s, step.v)
    ensures Lower(Apply(s, step), s)
  {
    var n, v := Apply(s, step), step.v;
    RequestShape(s, step);
    assert Scripts(n.requests) == Scripts(s.requests);
    SumLess(RequestCosts(s.requests), RequestCosts(n.requests), v);
  }

  predicate OfCall(step: Step) {
    step.TakeGate? || step.GiveUp? || step.JudgeFresh? || step.JudgeStale? || step.ClosedInGate? || step.Reply?
  }

  lemma CallShape(s: System, step: Step)
    requires Enabled(s, step) && OfCall(step)
    ensures var n := Apply(s, step);
            && n.requests == s.requests && n.cancelled == s.cancelled && step.k in s.calls && step.k in n.calls
            && n.calls == s.calls[step.k := n.calls[step.k]]
            && CallCost(n.calls[step.k].pc) + (if step.JudgeStale? then 2 else 1) <= CallCost(s.calls[step.k].pc)
            && (!step.JudgeStale? ==> n.j == s.j)
  {}

  lemma CallLowers(s: System, step: Step)
    requires D.Inv(s.j.d) && Enabled(s, step) && OfCall(step)
    ensures Lower(Apply(s, step), s)
  {
    var n, k := Apply(s, step), step.k;
    CallShape(s, step);
    var v := CallCost(n.calls[k].pc);
    assert CallCosts(n.calls) == CallCosts(s.calls)[k := v];
    SumPut(CallCosts(s.calls), k, v);
    if step.JudgeStale? {
      StaleShape(s, step);
    }
  }

  lemma StaleShape(s: System, step: Step)
    requires D.Inv(s.j.d) && Enabled(s, step) && step.JudgeStale?
    ensures Apply(s, step).j.b == s.j.b && InnerRank(Apply(s, step).j) <= InnerRank(s.j) + 1
  {
    DebuggerStep(s.j.d, D.BeginProfile(step.c, s.j.d.attaches[s.calls[step.k].session].profile));
  }

  lemma StepLowers(s: System, step: Step)
    requires Inv(s) && Enabled(s, step) && !Arrival(step)
    ensures Lower(Apply(s, step), s)
  {
    if step.Inner? {
      InnerShape(s, step.l);
      InnerLowers(s, step.l);
    } else if step.IssueCloser? || step.IssueOp? {
      IssueLowers(s, step);
    } else if step.Ask? {
      AskLowers(s, step.v);
    } else if step.Lock? || step.Resume? || step.Answer? || step.End? {
      RequestLowers(s, step);
    } else if step.CancelContext? {
      assert Apply(s, step).requests == s.requests;
    } else {
      CallLowers(s, step);
    }
  }

  /** One step of a run in which nothing new begins. */
  ghost predicate Quietly(s: System, step: Step, n: System) {
    Enabled(s, step) && !Arrival(step) && n == Apply(s, step)
  }

  /** There is no infinite run from any state of the invariant in which nothing new begins. */
  lemma {:induction false} NoInfiniteRun(states: nat -> System, steps: nat -> Step, n: nat)
    requires Inv(states(n))
    requires forall k: nat :: Quietly(states(k), steps(k), states(k + 1))
    ensures false
    decreases Planned(states(n)), Rank(states(n))
  {
    assert Quietly(states(n), steps(n), states(n + 1));
    StepInv(states(n), steps(n));
    StepLowers(states(n), steps(n));
    NoInfiniteRun(states, steps, n + 1);
  }

  /** The state reached from s by enabled steps, or None. */
  function Run(s: System, steps: seq<Step>): Option<System>
    decreases |steps|
  {
    if steps == [] then Some(s)
    else if Enabled(s, steps[0]) then Run(Apply(s, steps[0]), steps[1..])
    else None
  }

  lemma {:induction false} RunInv(s: System, steps: seq<Step>)
    requires Inv(s) && Run(s, steps).Some?
    ensures Inv(Run(s, steps).value)
    decreases |steps|
  {
    if steps != [] {
      StepInv(s, steps[0]);
      RunInv(Apply(s, steps[0]), steps[1..]);
    }
  }

  /** A state reached from the start stands still exactly when only dialogs and what is queued behind them are left. */
  lemma StuckIsDone(steps: seq<Step>)
    requires Run(Init, steps).Some?
    ensures var s := Run(Init, steps).value;
            && (!CanMove(s) <==> Resting(s))
            && (s.cancelled ==> (!CanMove(s) <==> Quiescent(s)))
  {
    InitInv();
    RunInv(Init, steps);
    StuckExactlyAtDialogs(Run(Init, steps).value);
  }

  /** An export of p at its dialog, under the lock, and a close of p. */
  function ExportAndClose(p: ProfileId): System {
    Init.(requests := map[0 := Request(p, true, true, [], OnUser, false),
                          1 := Request(p, true, false, [CloseDebugger, CloseBrowser], Nothing, false)],
          locks := map[p := 0])
  }

  lemma ExportRun(p: ProfileId)
    ensures Run(Init, [Arrive(0, p, true, [AskUser]), Lock(0), Ask(0), Arrive(1, p, true, [CloseDebugger, CloseBrowser])])
            == Some(ExportAndClose(p))
  {
    var a, b, c, e := Arrive(0, p, true, [AskUser]), Lock(0), Ask(0), Arrive(1, p, true, [CloseDebugger, CloseBrowser]);
    var s1 := Init.(requests := map[0 := Request(p, true, false, [AskUser], Nothing, false)]);
    var s2 := Init.(requests := map[0 := Request(p, true, true, [AskUser], Nothing, false)], locks := map[p := 0]);
    var s3 := Init.(requests := map[0 := Request(p, true, true, [], OnUser, false)], locks := map[p := 0]);
    assert [AskUser][1..] == [];
    assert Apply(Init, a) == s1 && Apply(s1, b) == s2;
    assert Apply(s2, c).requests == s3.requests && Apply(s2, c) == s3;
    assert Apply(s3, e).requests == ExportAndClose(p).requests && Apply(s3, e) == ExportAndClose(p);
    assert [a, b, c, e][1..] == [b, c, e] && [b, c, e][1..] == [c, e] && [c, e][1..] == [e] && [e][1..] == [];
    assert Run(s3, [e]) == Run(ExportAndClose(p), []) == Some(ExportAndClose(p));
    assert Run(s2, [c, e]) == Run(s3, [e]);
    assert Run(s1, [b, c, e]) == Run(s2, [c, e]);
  }

  /**
   The export of a profile with its save dialog left open, and then a close of that profile: the
   close has not returned, and nothing makes it return but the user or the end of the context.
   */
  lemma DialogBlocksClose(p: ProfileId) returns (steps: seq<Step>)
    ensures Run(Init, steps) == Some(ExportAndClose(p))
    ensures var s := ExportAndClose(p);
            !CanMove(s) && AtDialog(s, 0) && BehindDialog(s, 1) && !s.requests[1].over
  {
    steps := [Arrive(0, p, true, [AskUser]), Lock(0), Ask(0), Arrive(1, p, true, [CloseDebugger, CloseBrowser])];
    ExportRun(p);
    StuckIsDone(steps);
  }

  lemma RunCons(s: System, step: Step, rest: seq<Step>)
    requires Enabled(s, step)
    ensures Run(s, [step] + rest) == Run(Apply(s, step), rest)
  {
    assert ([step] + rest)[1..] == rest;
  }

  lemma GuaranteedAdvances(s: System, step: Step)
    requires Inv(s) && Guaranteed(s, step)
    ensures Enabled(s, step) && Inv(Apply(s, step)) && Lower(Apply(s, step), s)
    ensures Apply(s, step).cancelled == s.cancelled
  {
    assert !Arrival(step);
    StepInv(s, step);
    StepLowers(s, step);
  }

  /** Every step of the run must come where it is taken. */
  ghost predicate AllGuaranteed(s: System, steps: seq<Step>)
    decreases |steps|
  {
    steps == [] || (Guaranteed(s, steps[0]) && AllGuaranteed(Apply(s, steps[0]), steps[1..]))
  }

  /**
   From every state of the invariant a run of steps that must come leads to rest; once the
   service's context is over, to a state with nothing unfinished at all.
   */
  lemma {:induction false} EveryCloseCanReturn(s: System) returns (steps: seq<Step>)
    requires Inv(s)
    ensures AllGuaranteed(s, steps) && Run(s, steps).Some? && Resting(Run(s, steps).value)
    ensures s.cancelled ==> Quiescent(Run(s, steps).value)
    decreases Planned(s), Rank(s)
  {
    StuckExactlyAtDialogs(s);
    if Resting(s) {
      steps := [];
    } else {
      var step :| Guaranteed(s, step);
      GuaranteedAdvances(s, step);
      var rest := EveryCloseCanReturn(Apply(s, step));
      RunCons(s, step, rest);
      steps := [step] + rest;
      assert steps[1..] == rest;
    }
  }
}
