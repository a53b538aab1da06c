/**
 What closing waits for: the joint machine of Lifecycle together with the service requests
 that hold profile locks and the debugger calls that hold session gates.

 `Guaranteed` names the steps that must come once they are enabled: the code's own, the exit
 of a process that is being killed, and the return of timed-out I/O. A user need not answer a
 native dialog; only the end of the service's context makes it return.
 */
module Progress {
  import opened Common
  import opened Sums
  import D = DebuggerProtocol
  import B = BrowserLifecycle
  import T = DebuggerTables
  import L = Lifecycle

  datatype Task = CloseDebugger | CloseBrowser | LaunchBrowser | CloseAllDebuggers | ShutdownBrowsers | AskUser

  datatype Wait = Nothing | OnCloser(c: D.CloserId) | OnOp(o: B.OpId) | OnUser   // OnUser: in pick

  /** An Invoke, a companion relaunch or Service.Close: tasks done in order, maybe under the profile lock. */
  datatype Request = Request(profile: ProfileId, locks: bool, holds: bool, script: seq<Task>, wait: Wait, over: bool)

  datatype CallPc = WantGate | InGate | Closing(c: D.CloserId) | Requesting | Over

  datatype Call = Call(session: T.Ticket, pc: CallPc)

  datatype System = System(
    j: L.Joint,
    requests: map<nat, Request>,
    locks: map<ProfileId, nat>,
    calls: map<nat, Call>,
    gates: map<T.Ticket, nat>,
    cancelled: bool)                       // the service's context is over

  const Init := System(L.Init, map[], map[], map[], map[], false)

  datatype Step =
    | Inner(l: L.Step)
    | Arrive(v: nat, p: ProfileId, locks: bool, script: seq<Task>)
    | Lock(v: nat)
    | IssueCloser(v: nat, c: D.CloserId)
    | IssueOp(v: nat, o: B.OpId)
    | Ask(v: nat)                          // pick opens a dialog
    | Answer(v: nat)                       // the user answers, or the context is over
    | CancelContext
    | Resume(v: nat)
    | End(v: nat)
    | CallArrives(k: nat, a: T.Ticket)
    | TakeGate(k: nat)
    | GiveUp(k: nat)                       // the context ends, or the client is done
    | JudgeFresh(k: nat)                   // the endpoint is still the session's
    | JudgeStale(k: nat, c: D.CloserId)    // it is not: CloseProfile from inside the gate
    | ClosedInGate(k: nat)
    | Reply(k: nat)

  predicate ForDebugger(t: Task) { t.CloseDebugger? || t.CloseAllDebuggers? }

  predicate ForBrowser(t: Task) { t.LaunchBrowser? || t.CloseBrowser? || t.ShutdownBrowsers? }

  function CloserStep(t: Task, p: ProfileId, c: D.CloserId): D.Step {
    if t.CloseDebugger? then D.BeginProfile(c, p) else D.BeginAll(c)
  }

  function OpKind(t: Task, p: ProfileId): B.Kind {
    if t.LaunchBrowser? then B.Launch(p) else if t.CloseBrowser? then B.CloseProfile(p) else B.Shutdown
  }

  predicate Ready(s: System, v: nat) {
    v in s.requests && !s.requests[v].over && s.requests[v].wait.Nothing? && (s.requests[v].locks ==> s.requests[v].holds)
  }

  predicate CallAt(s: System, k: nat) {
    k in s.calls && s.calls[k].session in s.j.d.attaches && s.j.d.attaches[s.calls[k].session].first.Some?
  }

  /** Call's comparison of the manager's endpoint with the session's. */
  predicate StillRuns(s: System, k: nat)
    requires CallAt(s, k)
  {
    var x := s.j.d.attaches[s.calls[k].session];
    var h := B.Get(s.j.b.r, x.profile);
    h.Some? && s.j.b.r.instances[h.value].url == x.first.value.url
  }

  predicate Waited(s: System, w: Wait) {
    match w
    case Nothing => false
    case OnCloser(c) => c in s.j.d.closers && s.j.d.closers[c].returned
    case OnOp(o) => o in s.j.b.returned
    case OnUser => false
  }

  predicate Enabled(s: System, step: Step) {
    match step
    case Inner(l) => L.Enabled(s.j, l)
    case Arrive(v, _, _, _) => v !in s.requests
    case Lock(v) => v in s.requests && !s.requests[v].over && s.requests[v].locks && !s.requests[v].holds
                    && s.requests[v].profile !in s.locks
    case IssueCloser(v, c) => Ready(s, v) && s.requests[v].script != [] && ForDebugger(s.requests[v].script[0])
                              && c !in s.j.d.closers
    case IssueOp(v, o) => Ready(s, v) && s.requests[v].script != [] && ForBrowser(s.requests[v].script[0])
                          && B.Enabled(s.j.b, B.Request(o, OpKind(s.requests[v].script[0], s.requests[v].profile)))
    case Ask(v) => Ready(s, v) && s.requests[v].script != [] && s.requests[v].script[0].AskUser?
    case Answer(v) => v in s.requests && !s.requests[v].over && s.requests[v].wait.OnUser?
    case CancelContext => !s.cancelled
    case Resume(v) => v in s.requests && !s.requests[v].over && Waited(s, s.requests[v].wait)
    case End(v) => Ready(s, v) && s.requests[v].script == []
    case CallArrives(k, a) => k !in s.calls && a in s.j.d.t.sessions
    case TakeGate(k) => k in s.calls && s.calls[k].pc.WantGate? && s.calls[k].session !in s.gates
    case GiveUp(k) => k in s.calls && s.calls[k].pc.WantGate?
    case JudgeFresh(k) => CallAt(s, k) && s.calls[k].pc.InGate? && StillRuns(s, k)
    case JudgeStale(k, c) => CallAt(s, k) && s.calls[k].pc.InGate? && !StillRuns(s, k) && c !in s.j.d.closers
    case ClosedInGate(k) => k in s.calls && s.calls[k].pc.Closing? && Waited(s, OnCloser(s.calls[k].pc.c))
    case Reply(k) => k in s.calls && s.calls[k].pc.Requesting?
  }

  function SetRequest(s: System, v: nat, x: Request): System {
    s.(requests := s.requests[v := x])
  }

  function SetCall(s: System, k: nat, pc: CallPc): System
    requires k in s.calls
  {
    s.(calls := s.calls[k := s.calls[k].(pc := pc)])
  }

  function LeaveGate(s: System, k: nat): System
    requires k in s.calls
  {
    SetCall(s, k, Over).(gates := s.gates - {s.calls[k].session})
  }

  /** The step of the two managers that a step of the system performs, if any. */
  function InnerOf(s: System, step: Step): Option<L.Step>
    requires Enabled(s, step)
  {
    match step
    case Inner(l) => Some(l)
    case IssueCloser(v, c) => Some(L.Debug(CloserStep(s.requests[v].script[0], s.requests[v].profile, c)))
    case IssueOp(v, o) => Some(L.Browse(B.Request(o, OpKind(s.requests[v].script[0], s.requests[v].profile))))
    case JudgeStale(k, c) => Some(L.Debug(D.BeginProfile(c, s.j.d.attaches[s.calls[k].session].profile)))
    case _ => None
  }

  function Apply(s: System, step: Step): System
    requires Enabled(s, step)
  {
    var moved := if InnerOf(s, step).Some? then s.(j := L.Apply(s.j, InnerOf(s, step).value)) else s;
    Outer(moved, s, step)
  }

  /** The part of a step that touches requests, locks, calls and gates. */
  function Outer(t: System, s: System, step: Step): System
    requires Enabled(s, step) && t.requests == s.requests && t.calls == s.calls
  {
    match step
    case Inner(l) => t
    case Arrive(v, p, locks, script) => SetRequest(t, v, Request(p, locks, false, script, Nothing, false))
    case Lock(v) =>
      SetRequest(t, v, s.requests[v].(holds := true)).(locks := t.locks[s.requests[v].profile := v])
    case IssueCloser(v, c) =>
      SetRequest(t, v, s.requests[v].(script := s.requests[v].script[1..], wait := OnCloser(c)))
    case IssueOp(v, o) =>
      SetRequest(t, v, s.requests[v].(script := s.requests[v].script[1..], wait := OnOp(o)))
    case Ask(v) => SetRequest(t, v, s.requests[v].(script := s.requests[v].script[1..], wait := OnUser))
    case Answer(v) => SetRequest(t, v, s.requests[v].(wait := Nothing))
    case CancelContext => t.(cancelled := true)
    case Resume(v) => SetRequest(t, v, s.requests[v].(wait := Nothing))
    case End(v) =>
      var x := s.requests[v];
      SetRequest(t, v, x.(over := true, holds := false)).(locks := if x.holds then t.locks - {x.profile} else t.locks)
    case CallArrives(k, a) => t.(calls := t.calls[k := Call(a, WantGate)])
    case TakeGate(k) => SetCall(t, k, InGate).(gates := t.gates[t.calls[k].session := k])
    case GiveUp(k) => SetCall(t, k, Over)
    case JudgeFresh(k) => SetCall(t, k, Requesting)
    case JudgeStale(k, c) => SetCall(t, k, Closing(c))
    case ClosedInGate(k) => LeaveGate(t, k)
    case Reply(k) => LeaveGate(t, k)
  }

  // ----- the invariant -----

  ghost predicate RequestFits(s: System, v: nat)
    requires v in s.requests
  {
    var x := s.requests[v];
    && (x.holds ==> !x.over && x.profile in s.locks && s.locks[x.profile] == v)
    && (x.over ==> x.wait.Nothing?)
    && (!x.wait.Nothing? && x.locks ==> x.holds)
    && (x.wait.OnCloser? ==> x.wait.c in s.j.d.closers)
    && (x.wait.OnOp? ==> Known(s.j.b, x.wait.o))
  }

  ghost predicate Known(b: B.Browser, o: B.OpId) {
    o in b.queued || o in b.returned || (b.turn.Held? && b.turn.op == o)
  }

  ghost predicate CallFits(s: System, k: nat)
    requires k in s.calls
  {
    && CallAt(s, k)
    && (s.calls[k].pc.Closing? ==> s.calls[k].pc.c in s.j.d.closers)
    && (InsideGate(s.calls[k].pc) ==> s.calls[k].session in s.gates && s.gates[s.calls[k].session] == k)
  }

  predicate InsideGate(pc: CallPc) {
    pc.InGate? || pc.Closing? || pc.Requesting?
  }

  ghost predicate Inv(s: System) {
    && L.Inv(s.j)
    && (forall v :: v in s.requests ==> RequestFits(s, v))
    && LocksFit(s)
    && (forall k :: k in s.calls ==> CallFits(s, k))
  }

  lemma InitInv()
    ensures Inv(Init)
  {
    L.InitInv();
  }

  /** What the managers never take back. */
  ghost predicate Keeps(j: L.Joint, k: L.Joint) {
    && (forall c :: c in j.d.closers ==> c in k.d.closers)
    && (forall a :: a in j.d.attaches && j.d.attaches[a].first.Some? ==> a in k.d.attaches && k.d.attaches[a].first.Some?)
    && (forall o :: Known(j.b, o) ==> Known(k.b, o))
  }

  lemma DebugKeeps(d: D.Debugger, s: D.Step)
    requires D.Enabled(d, s)
    ensures forall c :: c in d.closers ==> c in D.Apply(d, s).closers
    ensures forall a :: a in d.attaches && d.attaches[a].first.Some? ==>
              a in D.Apply(d, s).attaches && D.Apply(d, s).attaches[a].first.Some?
  {}

  lemma BrowseKeeps(b: B.Browser, s: B.Step)
    requires B.Enabled(b, s)
    ensures forall o :: Known(b, o) ==> Known(B.Apply(b, s), o)
    ensures s.Request? ==> Known(B.Apply(b, s), s.o)
  {}

  lemma InnerKeeps(j: L.Joint, l: L.Step)
    requires L.Enabled(j, l)
    ensures Keeps(j, L.Apply(j, l))
  {
    match l
    case Debug(s) => DebugKeeps(j.d, s);
    case Browse(s) => BrowseKeeps(j.b, s);
    case HandlerCloses(i, c) => DebugKeeps(j.d, D.BeginProfile(c, j.b.r.instances[i].profile));
    case HandlerReturns(i) => BrowseKeeps(j.b, B.OnInstance(i, B.InstanceStep.HandlerReturns));
  }

  lemma InnerEnabled(s: System, step: Step)
    requires Enabled(s, step) && InnerOf(s, step).Some?
    ensures L.Enabled(s.j, InnerOf(s, step).value)
    ensures Apply(s, step).j == L.Apply(s.j, InnerOf(s, step).value)
  {}

  lemma OuterOnly(s: System, step: Step)
    requires Enabled(s, step) && InnerOf(s, step).None?
    ensures Apply(s, step).j == s.j
  {}

  /** The ids a step hands out are known afterwards, and the sessions it names have been read. */
  ghost predicate Introduced(t: System, s: System, step: Step) {
    && (step.IssueCloser? || step.JudgeStale? ==> step.c in t.j.d.closers)
    && (step.IssueOp? ==> Known(t.j.b, step.o))
    && (step.CallArrives? ==> step.a in t.j.d.attaches && t.j.d.attaches[step.a].first.Some?)
  }

  lemma StepIntroduces(s: System, step: Step)
    requires D.AllFit(s.j.d) && Enabled(s, step)
    ensures Introduced(Apply(s, step), s, step)
  {
    if step.CallArrives? {
      assert D.Fits(s.j.d, "", step.a);
    } else if step.IssueOp? {
      InnerEnabled(s, step);
      BrowseKeeps(s.j.b, InnerOf(s, step).value.bs);
    }
  }

  /** Steps of one request. */
  predicate OfRequest(step: Step) {
    step.Lock? || step.IssueCloser? || step.IssueOp? || step.Ask? || step.Answer? || step.Resume? || step.End?
  }

  lemma OuterRequest(t: System, s: System, step: Step, v: nat)
    requires Enabled(s, step) && t == s.(j := t.j) && Keeps(s.j, t.j) && Introduced(t, s, step)
    requires v in Outer(t, s, step).requests && (v in s.requests ==> RequestFits(s, v))
    requires (step.Lock? || step.End?) ==> RequestFits(s, step.v)
    ensures RequestFits(Outer(t, s, step), v)
  {
    if OfRequest(step) || step.Arrive? {
      OwnRequest(t, s, step, v);
    }
  }

  lemma OwnRequest(t: System, s: System, step: Step, v: nat)
    requires OfRequest(step) || step.Arrive?
    requires Enabled(s, step) && t == s.(j := t.j) && Keeps(s.j, t.j) && Introduced(t, s, step)
    requires v in Outer(t, s, step).requests && (v in s.requests ==> RequestFits(s, v))
    requires (step.Lock? || step.End?) ==> RequestFits(s, step.v)
    ensures RequestFits(Outer(t, s, step), v)
  {}

  lemma OuterCall(t: System, s: System, step: Step, k: nat)
    requires Enabled(s, step) && t == s.(j := t.j) && Keeps(s.j, t.j) && Introduced(t, s, step)
    requires k in Outer(t, s, step).calls && (k in s.calls ==> CallFits(s, k))
    requires step.ClosedInGate? || step.Reply? ==> CallFits(s, step.k)
    ensures CallFits(Outer(t, s, step), k)
  {
    if OfRequest(step) || step.Arrive? || step.CancelContext? || step.Inner? {
      assert Outer(t, s, step).calls == s.calls && Outer(t, s, step).gates == s.gates;
    } else {
      OwnCall(t, s, step, k);
    }
  }

  lemma OwnCall(t: System, s: System, step: Step, k: nat)
    requires !OfRequest(step) && !step.Arrive? && !step.CancelContext? && !step.Inner?
    requires Enabled(s, step) && t == s.(j := t.j) && Keeps(s.j, t.j) && Introduced(t, s, step)
    requires k in Outer(t, s, step).calls && (k in s.calls ==> CallFits(s, k))
    requires step.ClosedInGate? || step.Reply? ==> CallFits(s, step.k)
    ensures CallFits(Outer(t, s, step), k)
  {}

  ghost predicate LocksFit(s: System) {
    forall p :: p in s.locks ==> s.locks[p] in s.requests && s.requests[s.locks[p]].holds
                                 && s.requests[s.locks[p]].profile == p
  }

  lemma OuterLocks(t: System, s: System, step: Step)
    requires Enabled(s, step) && t == s.(j := t.j) && LocksFit(s)
    requires step.End? ==> RequestFits(s, step.v)
    ensures LocksFit(Outer(t, s, step))
  {}

  lemma StepInv(s: System, step: Step)
    requires Inv(s) && Enabled(s, step)
    ensures Inv(Apply(s, step))
  {
    var n := Apply(s, step);
    var t := s.(j := n.j);
    if InnerOf(s, step).Some? {
      InnerEnabled(s, step);
      InnerKeeps(s.j, InnerOf(s, step).value);
      L.StepInv(s.j, InnerOf(s, step).value);
    } else {
      OuterOnly(s, step);
    }
    StepIntroduces(s, step);
    OuterInv(t, s, step);
    assert n == Outer(t, s, step);
  }

  lemma OuterInv(t: System, s: System, step: Step)
    requires Inv(s) && Enabled(s, step) && t == s.(j := t.j) && L.Inv(t.j) && Keeps(s.j, t.j)
    requires Introduced(Outer(t, s, step), s, step)
    ensures Inv(Outer(t, s, step))
  {
    var n := Outer(t, s, step);
    forall v | v in n.requests
      ensures RequestFits(n, v)
    {
      OuterRequest(t, s, step, v);
    }
    forall k | k in n.calls
      ensures CallFits(n, k)
    {
      OuterCall(t, s, step, k);
    }
    OuterLocks(t, s, step);
  }

  // ----- what a step of the outer machine does to the managers -----

  /** Instance i is the one indexed for p, alive, neither stopping nor being closed, and reachable at `url`. */
  predicate Serves(r: B.Registry, p: ProfileId, i: B.InstanceId, url: string) {
    && p in r.profiles && r.profiles[p] == i && i in r.instances && r.instances[i].url == url
    && !r.instances[i].exited && !r.instances[i].stopping && !r.instances[i].userClose
  }

  lemma ServedIff(r: B.Registry, p: ProfileId, url: string)
    ensures (B.Get(r, p).Some? && r.instances[B.Get(r, p).value].url == url) <==> exists i :: Serves(r, p, i, url)
  {
    if B.Get(r, p).Some? && r.instances[B.Get(r, p).value].url == url {
      assert Serves(r, p, B.Get(r, p).value, url);
    }
  }

  /**
   Inside the gate a call goes on to the client exactly if its profile is still served at the URL
   the session was attached to; otherwise it closes the profile's sessions.
   */
  lemma GateJudges(s: System, k: nat, c: D.CloserId)
    requires CallAt(s, k) && s.calls[k].pc.InGate? && c !in s.j.d.closers
    ensures
      var x := s.j.d.attaches[s.calls[k].session];
      var served := exists i :: Serves(s.j.b.r, x.profile, i, x.first.value.url);
      (Enabled(s, JudgeFresh(k)) <==> served) && (Enabled(s, JudgeStale(k, c)) <==> !served)
  {
    var x := s.j.d.attaches[s.calls[k].session];
    ServedIff(s.j.b.r, x.profile, x.first.value.url);
  }

  /** And with them its own session: it is not indexed, and cannot publish. */
  lemma StaleCloses(s: System, k: nat, c: D.CloserId)
    requires Inv(s) && Enabled(s, JudgeStale(k, c))
    ensures
      var a, t := s.calls[k].session, Apply(s, JudgeStale(k, c)).j.d;
      c in t.closers && t.closers[c].scope == D.OneProfile(s.j.d.attaches[a].profile) && L.Dead(t, a)
  {
    var a := s.calls[k].session;
    InnerEnabled(s, JudgeStale(k, c));
    L.CloseKills(s.j.d, c, s.j.d.attaches[a].profile, a);
  }

  /** Each task of a script starts the operation it names, for the request's profile. */
  lemma TaskStarts(s: System, v: nat, c: D.CloserId, o: B.OpId)
    requires v in s.requests && s.requests[v].script != []
    ensures
      var task, p := s.requests[v].script[0], s.requests[v].profile;
      && (Enabled(s, IssueCloser(v, c)) ==>
            (task.CloseDebugger? || task.CloseAllDebuggers?)
            && Apply(s, IssueCloser(v, c)).j.d == D.Apply(s.j.d, if task.CloseDebugger? then D.BeginProfile(c, p) else D.BeginAll(c)))
      && (Enabled(s, IssueOp(v, o)) ==>
            (task.LaunchBrowser? || task.CloseBrowser? || task.ShutdownBrowsers?)
            && o in Apply(s, IssueOp(v, o)).j.b.queued
            && Apply(s, IssueOp(v, o)).j.b.queued[o] ==
                 if task.LaunchBrowser? then B.Launch(p) else if task.CloseBrowser? then B.CloseProfile(p) else B.Shutdown)
  {}

  // ----- no deadlock -----

  /**
   Steps that must come once enabled, as an outcome of the code's own next action: an attach in
   progress ends by its timeout at the latest and then publishes, a launch gets as far as its
   process and then fails to come up by its timeout at the latest, a killed process exits.
   */
  predicate Guaranteed(s: System, step: Step) {
    && Enabled(s, step)
    && match step
       case Inner(l) => (
         match l
         case Debug(d) =>
           || (d.Fail? && D.InPhase(s.j.d, d.a, D.Working))
           || d.TryPublish? || d.ShutChild? || d.Abandon? || d.StopChild? || d.EmitDetached? || d.Finish?
         case Browse(b) => (
           match b
           case Request(_, _) => false
           case OnInstance(i, w) => !w.BridgeStop? && (w.Exit? ==> s.j.b.r.instances[i].stopOnce.Running?)
           case InLaunch(x) => !x.PrepareFails? && !x.ComeUp? && (x.StartupFails? ==> !s.j.b.turn.pc.up)
           case _ => true)
         case _ => true)
       case Arrive(_, _, _, _) => false
       case CallArrives(_, _) => false
       case Answer(_) => s.cancelled
       case CancelContext => false
       case _ => true
  }

  ghost predicate CanMove(s: System) {
    exists step :: Guaranteed(s, step)
  }

  predicate AttachSettled(x: D.Attach) {
    x.phase.Failed? || x.phase.Indexed? || x.phase.Detached?
  }

  /** An instance with nothing left to do: it still runs untouched, or its end has been carried through. */
  predicate InstanceSettled(x: B.Instance) {
    && !x.stopOnce.Running?
    && (x.exited ==> x.watch.NotStarted? || x.watch.Finished?)
  }

  /** Every attach, closer, browser operation, watcher and call has come to its end. */
  ghost predicate ManagersSettled(s: System) {
    && (forall a :: a in s.j.d.attaches ==> AttachSettled(s.j.d.attaches[a]))
    && (forall c :: c in s.j.d.closers ==> s.j.d.closers[c].returned)
    && (forall i :: i in s.j.b.r.instances ==> InstanceSettled(s.j.b.r.instances[i]))
    && s.j.b.turn.Free? && s.j.b.queued == map[]
    && (forall k :: k in s.calls ==> s.calls[k].pc.Over?)
  }

  /** So has every request. */
  ghost predicate Quiescent(s: System) {
    ManagersSettled(s) && forall v :: v in s.requests ==> s.requests[v].over
  }

  /** Request v is inside pick, and nothing but the user can make it return. */
  predicate AtDialog(s: System, v: nat) {
    v in s.requests && !s.requests[v].over && s.requests[v].wait.OnUser? && !s.cancelled
  }

  /** Request v waits for the lock of a profile whose holder is at a dialog. */
  predicate BehindDialog(s: System, v: nat) {
    && v in s.requests && !s.requests[v].over && s.requests[v].locks && !s.requests[v].holds
    && s.requests[v].profile in s.locks && AtDialog(s, s.locks[s.requests[v].profile])
  }

  /** Nothing is unfinished but requests at an open dialog and those queued for a lock held there. */
  ghost predicate Resting(s: System) {
    ManagersSettled(s) && forall v :: v in s.requests ==> s.requests[v].over || AtDialog(s, v) || BehindDialog(s, v)
  }

  lemma Moves(s: System, step: Step)
    requires Guaranteed(s, step)
    ensures CanMove(s)
  {}

  /** An attach never waits for anybody. */
  lemma AttachMoves(s: System, a: T.Ticket)
    requires Inv(s) && a in s.j.d.attaches && !AttachSettled(s.j.d.attaches[a])
    ensures CanMove(s)
  {
    assert D.Fits(s.j.d, s.j.d.attaches[a].profile, a);
    FittingAttachMoves(s, a);
  }

  lemma FittingAttachMoves(s: System, a: T.Ticket)
    requires a in s.j.d.attaches && !AttachSettled(s.j.d.attaches[a]) && D.Fits(s.j.d, s.j.d.attaches[a].profile, a)
    ensures CanMove(s)
  {
    var x := s.j.d.attaches[a];
    if x.phase.Working? {
      Moves(s, Inner(L.Debug(D.Fail(a))));
    } else if x.phase.Verified? {
      Moves(s, Inner(L.Debug(D.TryPublish(a))));
    } else if x.phase.Unwinding? {
      Moves(s, Inner(L.Debug(if x.child.Open? then D.ShutChild(a) else D.Abandon(a))));
    } else {
      Moves(s, Inner(L.Debug(if x.child.Open? then D.StopChild(a) else D.EmitDetached(a))));
    }
  }

  /** A closer waits only for attaches and for the sessions it took. */
  lemma CloserMoves(s: System, c: D.CloserId)
    requires Inv(s) && c in s.j.d.closers && !s.j.d.closers[c].returned
    ensures CanMove(s)
  {
    if a :| a in s.j.d.attaches && !AttachSettled(s.j.d.attaches[a]) {
      AttachMoves(s, a);
    } else {
      assert D.Covers(s.j.d, s.j.d.closers[c]);
      forall a | a in s.j.d.closers[c].waits
        ensures s.j.d.t.done[a] > 0
      {
        assert D.Fits(s.j.d, "", a);
      }
      Moves(s, Inner(L.Debug(D.Finish(c))));
    }
  }

  /** A watcher whose process has exited waits only for the closer of its handler. */
  lemma WatcherMoves(s: System, i: B.InstanceId)
    requires Inv(s) && i in s.j.b.r.instances && s.j.b.r.instances[i].exited
    requires !s.j.b.r.instances[i].watch.NotStarted? && !s.j.b.r.instances[i].watch.Finished?
    ensures CanMove(s)
  {
    var w := s.j.b.r.instances[i].watch;
    assert L.HandlerFits(s.j, i);
    if w.Handling? {
      if i !in s.j.handlers {
        Moves(s, Inner(L.HandlerCloses(i, Fresh(s.j.d.closers.Keys))));
      } else if s.j.d.closers[s.j.handlers[i]].returned {
        Moves(s, Inner(L.HandlerReturns(i)));
      } else {
        CloserMoves(s, s.j.handlers[i]);
      }
    } else {
      Moves(s, Inner(L.Browse(B.OnInstance(i,
        if w.Waiting? then B.Unindex else if w.Unindexed? then B.EmitClosed else B.CloseFinished))));
    }
  }

  /** h.stop() waits only for a process that it kills. */
  lemma StopMoves(s: System, i: B.InstanceId)
    requires i in s.j.b.r.instances && s.j.b.r.instances[i].stopOnce.Running?
    ensures CanMove(s)
  {
    Moves(s, Inner(L.Browse(B.OnInstance(i, if s.j.b.r.instances[i].exited then B.OnceOver else B.Exit))));
  }

  /** The owner of `operations` waits only for h.stop() and for watchers. */
  lemma TurnMoves(s: System)
    requires Inv(s) && s.j.b.turn.Held?
    ensures CanMove(s)
  {
    if s.j.b.turn.kind.Launch? {
      LaunchMoves(s);
    } else {
      CloseMoves(s);
    }
  }

  lemma LaunchStepMoves(s: System, l: B.LaunchStep)
    requires s.j.b.turn.Held? && B.LaunchEnabled(s.j.b.r, s.j.b.turn, l)
    requires !l.PrepareFails? && !l.ComeUp? && (l.StartupFails? ==> !s.j.b.turn.pc.up)
    ensures CanMove(s)
  {
    Moves(s, Inner(L.Browse(B.InLaunch(l))));
  }

  lemma CloseStepMoves(s: System, c: B.CloseStep)
    requires s.j.b.turn.Held? && B.CloseEnabled(s.j.b.r, s.j.b.turn, c)
    ensures CanMove(s)
  {
    Moves(s, Inner(L.Browse(B.InClose(c))));
  }

  lemma LaunchMoves(s: System)
    requires Inv(s) && s.j.b.turn.Held? && s.j.b.turn.kind.Launch?
    ensures CanMove(s)
  {
    var r, t := s.j.b.r, s.j.b.turn;
    match t.pc
    case Entered => LaunchStepMoves(s, B.CheckContext);
    case Checked => LaunchStepMoves(s, B.ReadIndex);
    case Judging(_) => LaunchStepMoves(s, B.JudgeAlive);
    case JudgedAlive(_) => LaunchStepMoves(s, B.JudgeStopping);
    case AwaitOld(prev) =>
      assert B.Fits(r, t, prev);
      if r.instances[prev].watch.Finished? {
        LaunchStepMoves(s, B.OldFinished);
      } else if r.instances[prev].exited {
        WatcherMoves(s, prev);
      } else {
        StopMoves(s, prev);
      }
    case Prepared => LaunchStepMoves(s, B.Start(Fresh(r.instances.Keys), ""));
    case Starting(own, up) =>
      assert B.Fits(r, t, own);
      LaunchStepMoves(s, if up then B.Publish else B.StartupFails);
    case Failing(own) =>
      assert B.Fits(r, t, own);
      if r.instances[own].stopOnce.Over? {
        LaunchStepMoves(s, B.StartupFailed);
      } else {
        StopMoves(s, own);
      }
    case Announcing(_) => LaunchStepMoves(s, B.Announce);
    case Announced(_) => LaunchStepMoves(s, B.StartWatch);
    case _ =>
  }

  lemma CloseMoves(s: System)
    requires Inv(s) && s.j.b.turn.Held? && !s.j.b.turn.kind.Launch?
    ensures CanMove(s)
  {
    var r, t := s.j.b.r, s.j.b.turn;
    match t.pc
    case Entered => CloseStepMoves(s, B.BeginClose);
    case Closing(todo) =>
      if p :| p in todo {
        CloseStepMoves(s, B.NextClose(p));
      } else {
        CloseStepMoves(s, B.EndClose);
      }
    case Marked(_, _) => CloseStepMoves(s, B.EnterStop);
    case Stopping(h, _) =>
      assert B.Fits(r, t, h);
      if r.instances[h].stopOnce.Over? {
        CloseStepMoves(s, B.StopReturns);
      } else {
        StopMoves(s, h);
      }
    case Awaiting(h, _) =>
      assert B.Fits(r, t, h);
      if r.instances[h].watch.Finished? {
        CloseStepMoves(s, B.SeeFinished);
      } else {
        WatcherMoves(s, h);
      }
    case _ =>
  }

  /**
   A request waits for a closer, for a browser operation, for the user while its dialog is open,
   or for the holder of its profile lock.
   */
  lemma RequestMoves(s: System, v: nat)
    requires Inv(s) && v in s.requests && !s.requests[v].over && !AtDialog(s, v) && !BehindDialog(s, v)
    ensures CanMove(s)
  {
    var x := s.requests[v];
    assert RequestFits(s, v);
    if x.locks && !x.holds && x.profile in s.locks {
      assert RequestFits(s, s.locks[x.profile]);
      HolderMoves(s, s.locks[x.profile]);
    } else if x.locks && !x.holds {
      Moves(s, Lock(v));
    } else {
      HolderMoves(s, v);
    }
  }

  lemma HolderMoves(s: System, v: nat)
    requires Inv(s) && v in s.requests && !s.requests[v].over && !AtDialog(s, v)
    requires s.requests[v].locks ==> s.requests[v].holds
    ensures CanMove(s)
  {
    var x := s.requests[v];
    assert RequestFits(s, v);
    match x.wait
    case Nothing =>
      if x.script == [] {
        Moves(s, End(v));
      } else if ForDebugger(x.script[0]) {
        Moves(s, IssueCloser(v, Fresh(s.j.d.closers.Keys)));
      } else if ForBrowser(x.script[0]) {
        IssueOpMoves(s, v);
      } else {
        Moves(s, Ask(v));
      }
    case OnUser => Moves(s, Answer(v));
    case OnCloser(c) =>
      if s.j.d.closers[c].returned {
        Moves(s, Resume(v));
      } else {
        CloserMoves(s, c);
      }
    case OnOp(o) =>
      if o in s.j.b.returned {
        Moves(s, Resume(v));
      } else if s.j.b.turn.Held? {
        TurnMoves(s);
      } else {
        Moves(s, Inner(L.Browse(B.Acquire(o))));
      }
  }

  lemma IssueOpMoves(s: System, v: nat)
    requires Ready(s, v) && s.requests[v].script != [] && ForBrowser(s.requests[v].script[0])
    ensures CanMove(s)
  {
    var used := s.j.b.queued.Keys + s.j.b.returned.Keys + if s.j.b.turn.Held? then {s.j.b.turn.op} else {};
    var o := Fresh(used);
    assert o !in used;
    Moves(s, IssueOp(v, o));
  }

  lemma CallMoves(s: System, k: nat)
    requires Inv(s) && k in s.calls && !s.calls[k].pc.Over?
    ensures CanMove(s)
  {
    assert CallFits(s, k);
    match s.calls[k].pc
    case WantGate => Moves(s, GiveUp(k));
    case InGate =>
      if StillRuns(s, k) {
        Moves(s, JudgeFresh(k));
      } else {
        Moves(s, JudgeStale(k, Fresh(s.j.d.closers.Keys)));
      }
    case Closing(c) =>
      if s.j.d.closers[c].returned {
        Moves(s, ClosedInGate(k));
      } else {
        CloserMoves(s, c);
      }
    case Requesting => Moves(s, Reply(k));
  }

  /** In every state that keeps the invariant and does not rest, some guaranteed step is enabled. */
  lemma NoDeadlock(s: System)
    requires Inv(s) && !Resting(s)
    ensures CanMove(s)
  {
    if a :| a in s.j.d.attaches && !AttachSettled(s.j.d.attaches[a]) {
      AttachMoves(s, a);
    } else if c :| c in s.j.d.closers && !s.j.d.closers[c].returned {
      CloserMoves(s, c);
    } else if i :| i in s.j.b.r.instances && !InstanceSettled(s.j.b.r.instances[i]) {
      if s.j.b.r.instances[i].stopOnce.Running? {
        StopMoves(s, i);
      } else {
        WatcherMoves(s, i);
      }
    } else if s.j.b.turn.Held? {
      TurnMoves(s);
    } else if o :| o in s.j.b.queued {
      Moves(s, Inner(L.Browse(B.Acquire(o))));
    } else if k :| k in s.calls && !s.calls[k].pc.Over? {
      CallMoves(s, k);
    } else {
      var v :| v in s.requests && !(s.requests[v].over || AtDialog(s, v) || BehindDialog(s, v));
      RequestMoves(s, v);
    }
  }

  lemma SettledDebugger(s: System, d: D.Step)
    requires Inv(s) && ManagersSettled(s)
    ensures !Guaranteed(s, Inner(L.Debug(d)))
  {
    if d.StopChild? || d.EmitDetached? {
      assert d.id in s.j.d.attaches ==> AttachSettled(s.j.d.attaches[d.id]);
    } else if d.Fail? || d.TryPublish? || d.ShutChild? || d.Abandon? {
      assert d.a in s.j.d.attaches ==> AttachSettled(s.j.d.attaches[d.a]);
    }
  }

  /** The watcher of a settled instance has nothing to do: it goes on only after the process's exit. */
  lemma SettledWatcher(s: System, i: B.InstanceId)
    requires Inv(s) && ManagersSettled(s) && i in s.j.b.r.instances
    ensures
      var x := s.j.b.r.instances[i];
      && !x.stopOnce.Running? && !x.watch.Unindexed? && !x.watch.Handling? && !x.watch.Handled?
      && (x.exited ==> !x.watch.Waiting?)
  {
    assert B.Fits(s.j.b.r, s.j.b.turn, i);
  }

  lemma SettledManagers(s: System, l: L.Step)
    requires Inv(s) && ManagersSettled(s)
    ensures !Guaranteed(s, Inner(l))
  {
    match l
    case Debug(d) => SettledDebugger(s, d);
    case Browse(b) =>
      if b.OnInstance? && b.i in s.j.b.r.instances {
        SettledWatcher(s, b.i);
      }
    case HandlerCloses(i, _) =>
      if i in s.j.b.r.instances {
        SettledWatcher(s, i);
      }
    case HandlerReturns(i) =>
      if i in s.j.b.r.instances {
        SettledWatcher(s, i);
      }
  }

  lemma RestingRequest(s: System, step: Step)
    requires Inv(s) && Resting(s) && OfRequest(step)
    ensures !Guaranteed(s, step)
  {
    if step.v in s.requests {
      assert RequestFits(s, step.v);
      assert s.requests[step.v].over || AtDialog(s, step.v) || BehindDialog(s, step.v);
    }
  }

  lemma RestingStays(s: System, step: Step)
    requires Inv(s) && Resting(s)
    ensures !Guaranteed(s, step)
  {
    if step.Inner? {
      SettledManagers(s, step.l);
    } else if OfRequest(step) {
      RestingRequest(s, step);
    }
  }

  /**
   Exactly when closing stands still: no step that must come is enabled if and only if everything
   is finished but requests at an open dialog and the requests queued for a lock held there.
   */
  lemma StuckExactlyAtDialogs(s: System)
    requires Inv(s)
    ensures !CanMove(s) <==> Resting(s)
    ensures s.cancelled ==> (!CanMove(s) <==> Quiescent(s))
  {
    if Resting(s) {
      forall step
        ensures !Guaranteed(s, step)
      {
        RestingStays(s, step);
      }
    } else {
      NoDeadlock(s);
    }
    assert s.cancelled ==> (Resting(s) <==> Quiescent(s));
  }
}
