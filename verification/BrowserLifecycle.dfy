/**
 Launch, CloseProfile, Shutdown, the bridge supervisor and the watcher of the browser manager
 as a state machine whose steps interleave freely.

 `Registry` is what the manager and its instances store; `Turn` is the owner of the
 `operations` mutex together with its place in Launch, CloseProfile or Shutdown. Processes
 exit by a step of their own, at any time.
 */
module BrowserLifecycle {
  import opened Common

  type InstanceId = nat
  type OpId = nat

  datatype Reason = UserClose | ExternalExit

  datatype Event = LaunchedEvent | ClosedEvent(reason: Reason)

  datatype Once = Idle | Running | Over

  datatype Watch =
    | NotStarted
    | Waiting                     // <-h.processDone
    | Unindexed(reason: Reason)
    | Handling(reason: Reason)    // inside the handler of the "closed" event
    | Handled(reason: Reason)
    | Finished                    // close(h.finished)

  datatype Instance = Instance(
    profile: ProfileId, url: string,
    published: bool, exited: bool,
    stopping: bool, stopOnce: Once, userClose: bool,
    watch: Watch, log: seq<Event>)

  datatype Registry = Registry(
    profiles: map<ProfileId, InstanceId>,
    instances: map<InstanceId, Instance>,
    cancelled: bool)

  datatype Kind = Launch(profile: ProfileId) | CloseProfile(profile: ProfileId) | Shutdown

  datatype Pc =
    | Entered
    | Checked                                          // m.ctx was not cancelled
    | Judging(prev: InstanceId)                         // an old instance is indexed
    | JudgedAlive(prev: InstanceId)
    | AwaitOld(prev: InstanceId)                        // <-old.finished
    | Prepared
    | Starting(own: InstanceId, up: bool)              // up: CDP connected while alive
    | Failing(own: InstanceId)                         // the deferred h.stop()
    | Announcing(own: InstanceId)
    | Announced(own: InstanceId)
    | Closing(todo: set<ProfileId>)
    | Marked(h: InstanceId, todo: set<ProfileId>)
    | Stopping(h: InstanceId, todo: set<ProfileId>)    // h.stop()
    | Awaiting(h: InstanceId, todo: set<ProfileId>)    // <-h.finished

  datatype Outcome =
    | Started(i: InstanceId)
    | AlreadyRunning(i: InstanceId)
    | LaunchError(own: Option<InstanceId>)
    | Closed(kind: Kind, met: set<InstanceId>)

  datatype Turn = Free | Held(op: OpId, kind: Kind, pc: Pc, met: set<InstanceId>)

  datatype Browser = Browser(r: Registry, queued: map<OpId, Kind>, turn: Turn, returned: map<OpId, Outcome>)

  const Init := Browser(Registry(map[], map[], false), map[], Free, map[])

  datatype LaunchStep =
    | CheckContext
    | ReadIndex
    | JudgeAlive
    | JudgeStopping
    | OldFinished
    | PrepareFails
    | Start(i: InstanceId, url: string)
    | ComeUp
    | StartupFails
    | StartupFailed
    | Publish
    | Announce
    | StartWatch

  datatype CloseStep =
    | BeginClose
    | NextClose(p: ProfileId)
    | EnterStop
    | StopReturns
    | SeeFinished
    | EndClose

  /** What happens to an instance by itself: its process, its bridge, h.stop(), watch. */
  datatype InstanceStep =
    | Exit
    | BridgeStop
    | OnceOver
    | Unindex
    | EmitClosed
    | HandlerReturns
    | CloseFinished

  datatype Step =
    | Request(o: OpId, kind: Kind)
    | Acquire(o: OpId)
    | InLaunch(l: LaunchStep)
    | InClose(c: CloseStep)
    | OnInstance(i: InstanceId, w: InstanceStep)

  // ----- what the manager's mutex protects -----

  /** get and IsRunning: the instance a caller may use. */
  function Get(r: Registry, p: ProfileId): Option<InstanceId> {
    if p in r.profiles && r.profiles[p] in r.instances
       && var h := r.instances[r.profiles[p]]; !h.exited && !h.stopping && !h.userClose
    then Some(r.profiles[p]) else None
  }

  function Put(r: Registry, i: InstanceId, x: Instance): Registry {
    r.(instances := r.instances[i := x])
  }

  function Indexed(r: Registry, i: InstanceId): Registry
    requires i in r.instances
  {
    Put(r, i, r.instances[i].(published := true)).(profiles := r.profiles[r.instances[i].profile := i])
  }

  function MarkedForClose(r: Registry, p: ProfileId): Registry {
    if p in r.profiles && r.profiles[p] in r.instances
    then Put(r, r.profiles[p], r.instances[r.profiles[p]].(userClose := true)) else r
  }

  function StopEntered(r: Registry, i: InstanceId): Registry
    requires i in r.instances
  {
    var x := r.instances[i];
    Put(r, i, x.(stopping := true, stopOnce := if x.stopOnce.Idle? then Running else x.stopOnce))
  }

  function UnindexedBy(r: Registry, i: InstanceId): Registry
    requires i in r.instances
  {
    var x := r.instances[i];
    Put(r, i, x.(watch := Unindexed(if x.userClose then UserClose else ExternalExit)))
      .(profiles := if x.profile in r.profiles && r.profiles[x.profile] == i then r.profiles - {x.profile} else r.profiles)
  }

  // ----- the machine -----

  predicate Has(b: Browser, i: InstanceId) {
    i in b.r.instances
  }

  predicate LaunchEnabled(r: Registry, t: Turn, l: LaunchStep)
    requires t.Held?
  {
    && t.kind.Launch?
    && match l
       case CheckContext => t.pc.Entered?
       case ReadIndex => t.pc.Checked?
       case JudgeAlive => t.pc.Judging? && t.pc.prev in r.instances
       case JudgeStopping => t.pc.JudgedAlive? && t.pc.prev in r.instances
       case OldFinished => t.pc.AwaitOld? && t.pc.prev in r.instances && r.instances[t.pc.prev].watch.Finished?
       case PrepareFails => t.pc.Prepared?
       case Start(i, _) => t.pc.Prepared? && i !in r.instances
       case ComeUp => t.pc.Starting? && !t.pc.up && t.pc.own in r.instances && !r.instances[t.pc.own].exited
       case StartupFails => t.pc.Starting? && t.pc.own in r.instances
       case StartupFailed => t.pc.Failing? && t.pc.own in r.instances && r.instances[t.pc.own].stopOnce.Over?
       case Publish => t.pc.Starting? && t.pc.up && t.pc.own in r.instances
       case Announce => t.pc.Announcing? && t.pc.own in r.instances
       case StartWatch => t.pc.Announced? && t.pc.own in r.instances
  }

  predicate CloseEnabled(r: Registry, t: Turn, c: CloseStep)
    requires t.Held?
  {
    && !t.kind.Launch?
    && match c
       case BeginClose => t.pc.Entered?
       case NextClose(p) => t.pc.Closing? && p in t.pc.todo
       case EnterStop => t.pc.Marked? && t.pc.h in r.instances
       case StopReturns => t.pc.Stopping? && t.pc.h in r.instances && r.instances[t.pc.h].stopOnce.Over?
       case SeeFinished => t.pc.Awaiting? && t.pc.h in r.instances && r.instances[t.pc.h].watch.Finished?
       case EndClose => t.pc.Closing? && t.pc.todo == {}
  }

  predicate InstanceEnabled(x: Instance, w: InstanceStep) {
    match w
    case Exit => !x.exited
    case BridgeStop => !x.stopping
    case OnceOver => x.stopOnce.Running? && x.exited
    case Unindex => x.watch.Waiting? && x.exited
    case EmitClosed => x.watch.Unindexed?
    case HandlerReturns => x.watch.Handling?
    case CloseFinished => x.watch.Handled?
  }

  predicate Enabled(b: Browser, s: Step) {
    match s
    case Request(o, _) => o !in b.queued && o !in b.returned && (b.turn.Held? ==> o != b.turn.op)
    case Acquire(o) => b.turn.Free? && o in b.queued
    case InLaunch(l) => b.turn.Held? && LaunchEnabled(b.r, b.turn, l)
    case InClose(c) => b.turn.Held? && CloseEnabled(b.r, b.turn, c)
    case OnInstance(i, w) => i in b.r.instances && InstanceEnabled(b.r.instances[i], w)
  }

  /** Where the owner of `operations` stands after a step: at a new place, or done. */
  datatype Next = Goto(pc: Pc) | Return(outcome: Outcome)

  function LaunchNext(r: Registry, t: Turn, l: LaunchStep): (Registry, Next)
    requires t.Held? && LaunchEnabled(r, t, l)
  {
    match l
    case CheckContext => (r, if r.cancelled then Return(LaunchError(None)) else Goto(Checked))
    case ReadIndex =>
      (r, Goto(if t.kind.profile in r.profiles then Judging(r.profiles[t.kind.profile]) else Prepared))
    case JudgeAlive =>
      (r, Goto(if r.instances[t.pc.prev].exited then AwaitOld(t.pc.prev) else JudgedAlive(t.pc.prev)))
    case JudgeStopping =>
      (r, if r.instances[t.pc.prev].stopping then Goto(AwaitOld(t.pc.prev)) else Return(AlreadyRunning(t.pc.prev)))
    case OldFinished => (r, Goto(Prepared))
    case PrepareFails => (r, Return(LaunchError(None)))
    case Start(i, url) =>
      (Put(r, i, Instance(t.kind.profile, url, false, false, false, Idle, false, NotStarted, [])), Goto(Starting(i, false)))
    case ComeUp => (r, Goto(Starting(t.pc.own, true)))
    case StartupFails => (StopEntered(r, t.pc.own), Goto(Failing(t.pc.own)))
    case StartupFailed => (r, Return(LaunchError(Some(t.pc.own))))
    case Publish => (Indexed(r, t.pc.own), Goto(Announcing(t.pc.own)))
    case Announce =>
      var x := r.instances[t.pc.own];
      (Put(r, t.pc.own, x.(log := x.log + [LaunchedEvent])), Goto(Announced(t.pc.own)))
    case StartWatch =>
      (Put(r, t.pc.own, r.instances[t.pc.own].(watch := Waiting)), Return(Started(t.pc.own)))
  }

  function CloseNext(r: Registry, t: Turn, c: CloseStep): (Registry, Next)
    requires t.Held? && CloseEnabled(r, t, c)
  {
    match c
    case BeginClose => (r, Goto(Closing(if t.kind.Shutdown? then r.profiles.Keys else {t.kind.profile})))
    case NextClose(p) =>
      var todo := t.pc.todo - {p};
      (MarkedForClose(r, p), Goto(if p in r.profiles then Marked(r.profiles[p], todo) else Closing(todo)))
    case EnterStop => (StopEntered(r, t.pc.h), Goto(Stopping(t.pc.h, t.pc.todo)))
    case StopReturns => (r, Goto(Awaiting(t.pc.h, t.pc.todo)))
    case SeeFinished => (r, Goto(Closing(t.pc.todo)))
    case EndClose => (r, Return(Closed(t.kind, t.met)))
  }

  function InstanceNext(r: Registry, i: InstanceId, w: InstanceStep): Registry
    requires i in r.instances && InstanceEnabled(r.instances[i], w)
  {
    var x := r.instances[i];
    match w
    case Exit => Put(r, i, x.(exited := true))
    case BridgeStop => StopEntered(r, i)
    case OnceOver => Put(r, i, x.(stopOnce := Over))
    case Unindex => UnindexedBy(r, i)
    case EmitClosed => Put(r, i, x.(watch := Handling(x.watch.reason)))
    case HandlerReturns => Put(r, i, x.(watch := Handled(x.watch.reason), log := x.log + [ClosedEvent(x.watch.reason)]))
    case CloseFinished => Put(r, i, x.(watch := Finished))
  }

  function Continue(b: Browser, r: Registry, next: Next, met: set<InstanceId>): Browser
    requires b.turn.Held?
  {
    match next
    case Goto(pc) => b.(r := r, turn := b.turn.(pc := pc, met := met))
    case Return(outcome) => b.(r := r, turn := Free, returned := b.returned[b.turn.op := outcome])
  }

  function Apply(b: Browser, s: Step): Browser
    requires Enabled(b, s)
  {
    match s
    case Request(o, kind) =>
      b.(queued := b.queued[o := kind], r := if kind.Shutdown? then b.r.(cancelled := true) else b.r)
    case Acquire(o) => b.(queued := b.queued - {o}, turn := Held(o, b.queued[o], Entered, {}))
    case InLaunch(l) => Continue(b, LaunchNext(b.r, b.turn, l).0, LaunchNext(b.r, b.turn, l).1, b.turn.met)
    case InClose(c) =>
      Continue(b, CloseNext(b.r, b.turn, c).0, CloseNext(b.r, b.turn, c).1,
               if c.SeeFinished? then b.turn.met + {b.turn.pc.h} else b.turn.met)
    case OnInstance(i, w) => b.(r := InstanceNext(b.r, i, w))
  }

  // ----- the invariant -----

  predicate Owns(t: Turn, i: InstanceId) {
    t.Held? && (t.pc.Starting? || t.pc.Failing? || t.pc.Announcing? || t.pc.Announced?) && t.pc.own == i
  }

  /** The events of an instance so far are those its life has reached, in order, once each. */
  ghost predicate Logged(x: Instance, announced: bool) {
    match x.watch
    case NotStarted => x.log == if announced then [LaunchedEvent] else []
    case Waiting => x.log == [LaunchedEvent]
    case Unindexed(_) => x.log == [LaunchedEvent]
    case Handling(_) => x.log == [LaunchedEvent]
    case Handled(why) => x.log == [LaunchedEvent, ClosedEvent(why)]
    case Finished => |x.log| == 2 && x.log[0] == LaunchedEvent && x.log[1].ClosedEvent?
  }

  ghost predicate Fits(r: Registry, t: Turn, i: InstanceId)
    requires i in r.instances
  {
    var x := r.instances[i];
    var owned := Owns(t, i);
    && Logged(x, owned && t.pc.Announced?)
    && (owned ==> x.watch.NotStarted? && t.kind == Launch(x.profile)
                  && (x.published <==> t.pc.Announcing? || t.pc.Announced?)
                  && (t.pc.Failing? ==> x.stopping))
    && (!owned && !x.published ==> x.exited && x.watch.NotStarted?)
    && (!owned && x.published ==> !x.watch.NotStarted?)
    && (x.watch.NotStarted? || x.watch.Waiting? || x.exited)
    && (x.stopOnce.Over? ==> x.exited)
    && (x.stopOnce.Idle? <==> !x.stopping)
    && ((x.profile in r.profiles && r.profiles[x.profile] == i)
        <==> x.published && (x.watch.NotStarted? || x.watch.Waiting?))
  }

  /** The profiles a close still has to deal with. */
  ghost predicate Remaining(r: Registry, kind: Kind, todo: set<ProfileId>) {
    match kind
    case Launch(_) => false
    case CloseProfile(p) => p in r.profiles ==> p in todo
    case Shutdown => r.profiles.Keys <= todo
  }

  ghost predicate OldFits(r: Registry, p: ProfileId, prev: InstanceId) {
    prev in r.instances && r.instances[prev].published && r.instances[prev].profile == p
    && (p in r.profiles ==> r.profiles[p] == prev)
  }

  ghost predicate CloseFits(r: Registry, kind: Kind, h: InstanceId, todo: set<ProfileId>, stopped: bool) {
    && h in r.instances && r.instances[h].published
    && (r.instances[h].profile in r.profiles ==> r.profiles[r.instances[h].profile] == h)
    && Remaining(r, kind, todo + {r.instances[h].profile})
    && (stopped ==> r.instances[h].stopping)
  }

  ghost predicate LaunchOwns(r: Registry, t: Turn, i: InstanceId)
    requires t.Held?
  {
    t.kind.Launch? && i in r.instances && r.instances[i].profile == t.kind.profile
  }

  ghost predicate TurnFits(r: Registry, t: Turn) {
    t.Held? ==>
      && (t.kind.Shutdown? ==> r.cancelled)
      && (forall i :: i in t.met ==> i in r.instances && r.instances[i].watch.Finished?)
      && match t.pc
         case Entered => true
         case Checked => t.kind.Launch?
         case Judging(prev) => t.kind.Launch? && OldFits(r, t.kind.profile, prev)
         case JudgedAlive(prev) => t.kind.Launch? && OldFits(r, t.kind.profile, prev)
         case AwaitOld(prev) => t.kind.Launch? && OldFits(r, t.kind.profile, prev)
                               && (r.instances[prev].exited || r.instances[prev].stopping)
         case Prepared => t.kind.Launch? && t.kind.profile !in r.profiles
         case Starting(i, _) => LaunchOwns(r, t, i) && t.kind.profile !in r.profiles
         case Failing(i) => LaunchOwns(r, t, i) && t.kind.profile !in r.profiles
         case Announcing(i) => LaunchOwns(r, t, i)
         case Announced(i) => LaunchOwns(r, t, i)
         case Closing(todo) => Remaining(r, t.kind, todo)
         case Marked(h, todo) => CloseFits(r, t.kind, h, todo, false)
         case Stopping(h, todo) => CloseFits(r, t.kind, h, todo, true)
         case Awaiting(h, todo) => CloseFits(r, t.kind, h, todo, true) && r.instances[h].exited
  }

  ghost predicate OutcomeFits(b: Browser, outcome: Outcome) {
    match outcome
    case Started(i) => Has(b, i) && b.r.instances[i].published
    case AlreadyRunning(i) => Has(b, i) && b.r.instances[i].published
    case LaunchError(own) => own.Some? ==> Has(b, own.value) && b.r.instances[own.value].exited
                                           && !b.r.instances[own.value].published && !Owns(b.turn, own.value)
    case Closed(kind, met) =>
      && (forall i :: i in met ==> Has(b, i) && b.r.instances[i].watch.Finished?)
      && (kind.Shutdown? ==> b.r.cancelled && b.r.profiles == map[]
                             && (b.turn.Held? && b.turn.kind.Launch? ==> b.turn.pc.Entered?))
  }

  ghost predicate IndexFits(r: Registry) {
    forall p :: p in r.profiles ==> r.profiles[p] in r.instances && r.instances[r.profiles[p]].profile == p
  }

  ghost predicate Inv(b: Browser) {
    && (forall i :: i in b.r.instances ==> Fits(b.r, b.turn, i))
    && IndexFits(b.r)
    && TurnFits(b.r, b.turn)
    && (forall o :: o in b.queued && b.queued[o].Shutdown? ==> b.r.cancelled)
    && (forall o :: o in b.returned ==> OutcomeFits(b, b.returned[o]))
  }

  lemma InitInv()
    ensures Inv(Init)
  {}

  function TurnAfter(t: Turn, next: Next, met: set<InstanceId>): Turn
    requires t.Held?
  {
    if next.Goto? then t.(pc := next.pc, met := met) else Free
  }

  lemma LaunchFits(r: Registry, t: Turn, l: LaunchStep, i: InstanceId)
    requires t.Held? && LaunchEnabled(r, t, l) && TurnFits(r, t) && i in LaunchNext(r, t, l).0.instances
    requires i in r.instances ==> Fits(r, t, i)
    ensures Fits(LaunchNext(r, t, l).0, TurnAfter(t, LaunchNext(r, t, l).1, t.met), i)
  {}

  lemma CloseFitsAll(r: Registry, t: Turn, c: CloseStep, i: InstanceId, met: set<InstanceId>)
    requires t.Held? && CloseEnabled(r, t, c) && TurnFits(r, t) && i in r.instances && Fits(r, t, i)
    ensures i in CloseNext(r, t, c).0.instances
    ensures Fits(CloseNext(r, t, c).0, TurnAfter(t, CloseNext(r, t, c).1, met), i)
  {}

  lemma InstanceFits(r: Registry, t: Turn, j: InstanceId, w: InstanceStep, i: InstanceId)
    requires j in r.instances && InstanceEnabled(r.instances[j], w)
    requires i in r.instances && Fits(r, t, i) && Fits(r, t, j)
    ensures Fits(InstanceNext(r, j, w), t, i)
  {}

  predicate Grown(x: Instance, y: Instance) {
    && y.profile == x.profile && y.url == x.url
    && (x.published ==> y.published)
    && (x.exited ==> y.exited)
    && (x.stopping ==> y.stopping)
    && (x.watch.Finished? ==> y.watch.Finished?)
  }

  /** What every step preserves of the instances that exist. */
  ghost predicate Grows(r: Registry, q: Registry) {
    && (r.cancelled ==> q.cancelled)
    && forall i :: i in r.instances ==> i in q.instances && Grown(r.instances[i], q.instances[i])
  }

  lemma LaunchGrows(r: Registry, t: Turn, l: LaunchStep)
    requires t.Held? && LaunchEnabled(r, t, l) && TurnFits(r, t)
    requires t.pc.Announced? && t.pc.own in r.instances ==> Fits(r, t, t.pc.own)
    ensures Grows(r, LaunchNext(r, t, l).0)
    ensures IndexFits(r) ==> IndexFits(LaunchNext(r, t, l).0)
    ensures var q := LaunchNext(r, t, l).0;
            forall i :: i in r.instances ==>
              (q.instances[i].watch == r.instances[i].watch
               || (r.instances[i].watch.NotStarted? && q.instances[i].watch.Waiting?))
  {}

  lemma CloseGrows(r: Registry, t: Turn, c: CloseStep)
    requires t.Held? && CloseEnabled(r, t, c)
    ensures Grows(r, CloseNext(r, t, c).0) && CloseNext(r, t, c).0.profiles == r.profiles
    ensures forall i :: i in r.instances ==> CloseNext(r, t, c).0.instances[i].watch == r.instances[i].watch
  {}

  lemma InstanceGrows(r: Registry, i: InstanceId, w: InstanceStep)
    requires i in r.instances && InstanceEnabled(r.instances[i], w)
    ensures Grows(r, InstanceNext(r, i, w))
    ensures forall p :: p in InstanceNext(r, i, w).profiles ==>
              p in r.profiles && InstanceNext(r, i, w).profiles[p] == r.profiles[p]
    ensures forall j :: j in r.instances && j != i ==> InstanceNext(r, i, w).instances[j] == r.instances[j]
  {}

  /** Others may only grow instances and drop index entries under the owner of `operations`. */
  lemma TurnKept(r: Registry, q: Registry, t: Turn)
    requires TurnFits(r, t) && Grows(r, q)
    requires forall p :: p in q.profiles ==> p in r.profiles && q.profiles[p] == r.profiles[p]
    ensures TurnFits(q, t)
  {}

  lemma LaunchTurn(r: Registry, t: Turn, l: LaunchStep)
    requires t.Held? && LaunchEnabled(r, t, l) && TurnFits(r, t)
    requires forall i :: i in r.instances ==> Fits(r, t, i)
    requires IndexFits(r)
    ensures TurnFits(LaunchNext(r, t, l).0, TurnAfter(t, LaunchNext(r, t, l).1, t.met))
  {}

  lemma CloseTurn(r: Registry, t: Turn, c: CloseStep)
    requires t.Held? && CloseEnabled(r, t, c) && TurnFits(r, t)
    requires forall i :: i in r.instances ==> Fits(r, t, i)
    requires IndexFits(r)
    ensures TurnFits(CloseNext(r, t, c).0, TurnAfter(t, CloseNext(r, t, c).1, 
                     if c.SeeFinished? then t.met + {t.pc.h} else t.met))
  {}

  lemma OutcomeKept(b: Browser, c: Browser, outcome: Outcome)
    requires OutcomeFits(b, outcome) && Grows(b.r, c.r)
    requires outcome.LaunchError? && outcome.own.Some? ==>
               !c.r.instances[outcome.own.value].published && !Owns(c.turn, outcome.own.value)
    requires outcome.Closed? && outcome.kind.Shutdown? ==>
               c.r.profiles == map[] && (c.turn.Held? && c.turn.kind.Launch? ==> c.turn.pc.Entered?)
    ensures OutcomeFits(c, outcome)
  {}

  /** An instance whose launch failed is never published. */
  lemma FailedStays(b: Browser, s: Step, i: InstanceId)
    requires Enabled(b, s) && i in b.r.instances && !b.r.instances[i].published && !Owns(b.turn, i)
    ensures i in Apply(b, s).r.instances && !Apply(b, s).r.instances[i].published
    ensures !Owns(Apply(b, s).turn, i)
  {
    if s.InLaunch? {
      LaunchLeaves(b.r, b.turn, s.l, i);
    }
  }

  lemma LaunchLeaves(r: Registry, t: Turn, l: LaunchStep, i: InstanceId)
    requires t.Held? && LaunchEnabled(r, t, l) && i in r.instances && !Owns(t, i)
    ensures i in LaunchNext(r, t, l).0.instances && LaunchNext(r, t, l).0.instances[i] == r.instances[i]
    ensures !Owns(TurnAfter(t, LaunchNext(r, t, l).1, t.met), i)
  {}

  /** After a Shutdown nothing is indexed and no Launch gets past its context check. */
  ghost predicate ShutDown(b: Browser) {
    b.r.cancelled && b.r.profiles == map[] && (b.turn.Held? && b.turn.kind.Launch? ==> b.turn.pc.Entered?)
  }

  lemma ShutDownStays(b: Browser, s: Step)
    requires Enabled(b, s) && ShutDown(b)
    ensures ShutDown(Apply(b, s))
  {}

  lemma StepOutcome(b: Browser, s: Step, o: OpId)
    requires Inv(b) && Enabled(b, s) && o in b.returned && Grows(b.r, Apply(b, s).r)
    ensures OutcomeFits(Apply(b, s), b.returned[o])
  {
    var outcome := b.returned[o];
    assert OutcomeFits(b, outcome);
    if outcome.LaunchError? && outcome.own.Some? {
      FailedStays(b, s, outcome.own.value);
    }
    if outcome.Closed? && outcome.kind.Shutdown? {
      ShutDownStays(b, s);
    }
    OutcomeKept(b, Apply(b, s), outcome);
  }

  lemma NewOutcome(b: Browser, s: Step, o: OpId)
    requires Inv(b) && Enabled(b, s) && o in Apply(b, s).returned && (s.InLaunch? || s.InClose?) && Apply(b, s).turn.Free?
    requires o == b.turn.op
    ensures OutcomeFits(Apply(b, s), Apply(b, s).returned[o])
  {
    if s.InLaunch? {
      if b.turn.pc.Failing? {
        assert Fits(b.r, b.turn, b.turn.pc.own);
      }
    }
  }

  lemma OutcomeAfter(b: Browser, s: Step, o: OpId)
    requires Inv(b) && Enabled(b, s) && Grows(b.r, Apply(b, s).r) && o in Apply(b, s).returned
    ensures OutcomeFits(Apply(b, s), Apply(b, s).returned[o])
  {
    if Apply(b, s).returned == b.returned {
      StepOutcome(b, s, o);
    } else if o == b.turn.op {
      NewOutcome(b, s, o);
    } else {
      StepOutcome(b, s, o);
    }
  }

  lemma StepTurn(b: Browser, s: Step)
    requires Inv(b) && Enabled(b, s)
    ensures TurnFits(Apply(b, s).r, Apply(b, s).turn) && Grows(b.r, Apply(b, s).r)
  {
    match s
    case InLaunch(l) =>
      LaunchGrows(b.r, b.turn, l);
      LaunchTurn(b.r, b.turn, l);
    case InClose(c) =>
      CloseGrows(b.r, b.turn, c);
      CloseTurn(b.r, b.turn, c);
    case OnInstance(i, w) =>
      InstanceGrows(b.r, i, w);
      TurnKept(b.r, InstanceNext(b.r, i, w), b.turn);
    case Request(o, kind) => TurnKept(b.r, Apply(b, s).r, b.turn);
    case Acquire(o) =>
  }

  lemma StepFits(b: Browser, s: Step, i: InstanceId)
    requires Inv(b) && Enabled(b, s) && i in Apply(b, s).r.instances
    ensures Fits(Apply(b, s).r, Apply(b, s).turn, i)
  {
    match s
    case InLaunch(l) => LaunchFits(b.r, b.turn, l, i);
    case InClose(c) =>
      CloseFitsAll(b.r, b.turn, c, i, if c.SeeFinished? then b.turn.met + {b.turn.pc.h} else b.turn.met);
    case OnInstance(j, w) => InstanceFits(b.r, b.turn, j, w, i);
    case _ =>
      assert Fits(b.r, b.turn, i);
  }

  lemma StepIndex(b: Browser, s: Step)
    requires Inv(b) && Enabled(b, s) && Grows(b.r, Apply(b, s).r)
    ensures IndexFits(Apply(b, s).r)
    ensures forall o :: o in Apply(b, s).queued && Apply(b, s).queued[o].Shutdown? ==> Apply(b, s).r.cancelled
  {
    match s
    case InLaunch(l) => LaunchGrows(b.r, b.turn, l);
    case InClose(c) => CloseGrows(b.r, b.turn, c);
    case OnInstance(i, w) => InstanceGrows(b.r, i, w);
    case _ =>
  }

  lemma StepInv(b: Browser, s: Step)
    requires Inv(b) && Enabled(b, s)
    ensures Inv(Apply(b, s)) && Grows(b.r, Apply(b, s).r)
  {
    StepTurn(b, s);
    StepIndex(b, s);
    var c := Apply(b, s);
    forall i | i in c.r.instances
      ensures Fits(c.r, c.turn, i)
    {
      StepFits(b, s, i);
    }
    forall o | o in c.returned
      ensures OutcomeFits(c, c.returned[o])
    {
      OutcomeAfter(b, s, o);
    }
  }

  // ----- what holds in every run -----

  function Execute(steps: seq<Step>): Option<Browser> {
    if steps == [] then Some(Init)
    else
      var s := steps[|steps| - 1];
      match Execute(steps[..|steps| - 1])
      case None => None
      case Some(b) => if Enabled(b, s) then Some(Apply(b, s)) else None
  }

  lemma {:induction false} RunInv(steps: seq<Step>)
    requires Execute(steps).Some?
    ensures Inv(Execute(steps).value)
  {
    if steps == [] {
      InitInv();
    } else {
      RunInv(steps[..|steps| - 1]);
      StepInv(Execute(steps[..|steps| - 1]).value, steps[|steps| - 1]);
    }
  }

  lemma {:induction false} PrefixRuns(steps: seq<Step>, k: nat)
    requires k <= |steps| && Execute(steps).Some?
    ensures Execute(steps[..k]).Some?
    ensures k < |steps| ==> Enabled(Execute(steps[..k]).value, steps[k])
    ensures k < |steps| ==> Execute(steps[..k + 1]) == Some(Apply(Execute(steps[..k]).value, steps[k]))
    decreases |steps|
  {
    if k < |steps| {
      var n := |steps| - 1;
      if k < n {
        PrefixRuns(steps[..n], k);
        assert steps[..n][..k] == steps[..k] && steps[..n][..k + 1] == steps[..k + 1];
      } else {
        assert steps[..k + 1] == steps;
      }
    } else {
      assert steps[..k] == steps;
    }
  }

  /** No two processes that Launch started for one profile are alive together. */
  lemma OneLiveProcess(steps: seq<Step>, i: InstanceId, j: InstanceId)
    requires Execute(steps).Some?
    requires var r := Execute(steps).value.r;
             i in r.instances && j in r.instances && r.instances[i].profile == r.instances[j].profile
             && !r.instances[i].exited && !r.instances[j].exited
    ensures i == j
  {
    RunInv(steps);
    var b := Execute(steps).value;
    assert Fits(b.r, b.turn, i) && Fits(b.r, b.turn, j);
  }

  /** A Launch that returned an error left its own process dead, unpublished and silent. */
  lemma FailedLaunchIsDead(steps: seq<Step>, o: OpId, i: InstanceId)
    requires Execute(steps).Some? && o in Execute(steps).value.returned
    requires Execute(steps).value.returned[o] == LaunchError(Some(i))
    ensures var r := Execute(steps).value.r;
            && i in r.instances && r.instances[i].exited && !r.instances[i].published && r.instances[i].log == []
            && (forall p :: p in r.profiles ==> r.profiles[p] != i)
  {
    RunInv(steps);
    var b := Execute(steps).value;
    assert OutcomeFits(b, b.returned[o]);
    assert Fits(b.r, b.turn, i);
  }

  /**
   The events of any instance: at most "launched" and then "closed"; "closed" only once it is out
   of the index, and `finished` only after "closed".
   */
  lemma EventsInOrder(steps: seq<Step>, i: InstanceId)
    requires Execute(steps).Some? && i in Execute(steps).value.r.instances
    ensures var r := Execute(steps).value.r; var x := r.instances[i];
            && |x.log| <= 2
            && (|x.log| > 0 ==> x.published && x.log[0] == LaunchedEvent)
            && (|x.log| > 1 ==> x.log[1].ClosedEvent? && x.exited
                                && !(x.profile in r.profiles && r.profiles[x.profile] == i))
            && (x.watch.Finished? ==> |x.log| == 2)
            && (x.published && !Owns(Execute(steps).value.turn, i) ==> |x.log| > 0)
  {
    RunInv(steps);
    var b := Execute(steps).value;
    assert Fits(b.r, b.turn, i);
  }

  /** When CloseProfile or Shutdown returns, its profiles are out of the index and what it met is finished. */
  lemma CloseIsComplete(steps: seq<Step>)
    requires Execute(steps).Some? && Enabled(Execute(steps).value, InClose(EndClose))
    ensures var b := Execute(steps).value;
            && (forall i :: i in b.turn.met ==>
                  i in b.r.instances && b.r.instances[i].watch.Finished? && |b.r.instances[i].log| == 2)
            && (match b.turn.kind
                case CloseProfile(p) => p !in b.r.profiles
                case _ => b.r.profiles == map[])
  {
    RunInv(steps);
    var b := Execute(steps).value;
    forall i | i in b.turn.met
      ensures i in b.r.instances && b.r.instances[i].watch.Finished? && |b.r.instances[i].log| == 2
    {
      assert Fits(b.r, b.turn, i);
    }
  }

  /** An operation waits, runs or has returned, but only one of these. */
  predicate OnePlace(b: Browser, o: OpId) {
    && !(o in b.queued && o in b.returned)
    && (b.turn.Held? && b.turn.op == o ==> o !in b.queued && o !in b.returned)
  }

  lemma {:induction false} OnePlaceRun(steps: seq<Step>, o: OpId)
    requires Execute(steps).Some?
    ensures OnePlace(Execute(steps).value, o)
  {
    if steps != [] {
      OnePlaceRun(steps[..|steps| - 1], o);
    }
  }

  /** The close o is on its way to seeing instance h finished, or has seen it. */
  predicate Pursues(b: Browser, o: OpId, h: InstanceId) {
    || (b.turn.Held? && b.turn.op == o && !b.turn.kind.Launch?
        && (h in b.turn.met || ((b.turn.pc.Marked? || b.turn.pc.Stopping? || b.turn.pc.Awaiting?) && b.turn.pc.h == h)))
    || (o in b.returned && b.returned[o].Closed? && h in b.returned[o].met)
  }

  lemma StepPursues(b: Browser, s: Step, o: OpId, h: InstanceId)
    requires Enabled(b, s) && OnePlace(b, o) && Pursues(b, o, h)
    ensures Pursues(Apply(b, s), o, h)
  {}

  /** The close o finds instance h of profile p in step k of the run. */
  predicate Finds(steps: seq<Step>, k: nat, o: OpId, p: ProfileId, h: InstanceId)
    requires k < |steps|
  {
    && Execute(steps[..k]).Some? && steps[k] == InClose(NextClose(p)) && Enabled(Execute(steps[..k]).value, steps[k])
    && Execute(steps[..k]).value.turn.op == o
    && p in Execute(steps[..k]).value.r.profiles && Execute(steps[..k]).value.r.profiles[p] == h
  }

  lemma {:induction false} FoundIsPursued(steps: seq<Step>, k: nat, o: OpId, p: ProfileId, h: InstanceId)
    requires Execute(steps).Some? && k < |steps| && Finds(steps, k, o, p, h)
    ensures Pursues(Execute(steps).value, o, h)
    decreases |steps|
  {
    var n := |steps| - 1;
    if k < n {
      assert steps[..n][..k] == steps[..k];
      FoundIsPursued(steps[..n], k, o, p, h);
      OnePlaceRun(steps[..n], o);
      StepPursues(Execute(steps[..n]).value, steps[n], o, h);
    }
  }

  /** A CloseProfile or Shutdown that found an instance has not returned before that instance's "closed" was handled and it finished. */
  lemma FoundIsFinished(steps: seq<Step>, k: nat, o: OpId, p: ProfileId, h: InstanceId)
    requires Execute(steps).Some? && k < |steps| && Finds(steps, k, o, p, h)
    requires o in Execute(steps).value.returned
    ensures var r := Execute(steps).value.r;
            h in r.instances && r.instances[h].watch.Finished? && |r.instances[h].log| == 2
  {
    FoundIsPursued(steps, k, o, p, h);
    OnePlaceRun(steps, o);
    RunInv(steps);
    var b := Execute(steps).value;
    assert OutcomeFits(b, b.returned[o]);
    assert Fits(b.r, b.turn, h);
  }

  /** After a Shutdown has returned, in every later state: nothing is indexed, nothing can be published. */
  lemma AfterShutdown(steps: seq<Step>, o: OpId, met: set<InstanceId>)
    requires Execute(steps).Some? && o in Execute(steps).value.returned
    requires Execute(steps).value.returned[o] == Closed(Shutdown, met)
    ensures var b := Execute(steps).value;
            && b.r.profiles == map[]
            && !Enabled(b, InLaunch(Publish))
            && (Enabled(b, InLaunch(CheckContext)) ==>
                  Apply(b, InLaunch(CheckContext)) == b.(turn := Free, returned := b.returned[b.turn.op := LaunchError(None)]))
            && (forall i :: i in met ==> i in b.r.instances && b.r.instances[i].watch.Finished?)
  {
    RunInv(steps);
    var b := Execute(steps).value;
    assert OutcomeFits(b, b.returned[o]);
  }

  // ----- what a Launch that succeeds answers -----

  /** What no step changes of an instance, and what it only adds to. */
  predicate Lasting(x: Instance, y: Instance) {
    y.profile == x.profile && y.url == x.url && (x.exited ==> y.exited)
  }

  lemma LaunchOn(r: Registry, t: Turn, l: LaunchStep, i: InstanceId)
    requires t.Held? && LaunchEnabled(r, t, l) && i in r.instances
    ensures i in LaunchNext(r, t, l).0.instances
    ensures var x, y := r.instances[i], LaunchNext(r, t, l).0.instances[i];
            && Lasting(x, y) && y.userClose == x.userClose
            && (y.watch == x.watch || y.watch.Waiting?)
            && (y.log == x.log || (t.pc == Announcing(i) && y.log == x.log + [LaunchedEvent]))
  {}

  lemma CloseOn(r: Registry, t: Turn, c: CloseStep, i: InstanceId)
    requires t.Held? && CloseEnabled(r, t, c)
    ensures i in CloseNext(r, t, c).0.instances <==> i in r.instances
    ensures i in r.instances ==>
      var x, y := r.instances[i], CloseNext(r, t, c).0.instances[i];
      && Lasting(x, y) && y.watch == x.watch && y.log == x.log
      && (y.userClose <==> x.userClose || (c.NextClose? && c.p in r.profiles && r.profiles[c.p] == i))
  {}

  lemma InstanceOn(r: Registry, k: InstanceId, w: InstanceStep, i: InstanceId)
    requires k in r.instances && InstanceEnabled(r.instances[k], w)
    ensures i in InstanceNext(r, k, w).instances <==> i in r.instances
    ensures i in r.instances ==>
      var x, y := r.instances[i], InstanceNext(r, k, w).instances[i];
      Lasting(x, y) && y.userClose == x.userClose && (k != i ==> y == x)
  {}

  lemma StepExits(b: Browser, s: Step, i: InstanceId)
    requires Enabled(b, s) && i in b.r.instances
    ensures i in Apply(b, s).r.instances && Lasting(b.r.instances[i], Apply(b, s).r.instances[i])
  {
    if s.InLaunch? {
      LaunchOn(b.r, b.turn, s.l, i);
    } else if s.InClose? {
      CloseOn(b.r, b.turn, s.c, i);
    } else if s.OnInstance? {
      InstanceOn(b.r, s.i, s.w, i);
    }
  }

  /** A process that has exited stays exited. */
  lemma {:induction false} ExitedStays(steps: seq<Step>, k: nat, i: InstanceId)
    requires k <= |steps| && Execute(steps).Some? && Execute(steps[..k]).Some? && i in Execute(steps[..k]).value.r.instances
    ensures i in Execute(steps).value.r.instances
    ensures Execute(steps[..k]).value.r.instances[i].exited ==> Execute(steps).value.r.instances[i].exited
    decreases |steps|
  {
    var n := |steps| - 1;
    if k <= n {
      assert steps[..n][..k] == steps[..k];
      ExitedStays(steps[..n], k, i);
      StepExits(Execute(steps[..n]).value, steps[n], i);
    } else {
      assert steps[..k] == steps;
    }
  }

  predicate IsLaunching(t: Turn, o: OpId, p: ProfileId) {
    t.Held? && t.op == o && t.kind == Launch(p)
  }

  predicate Judges(t: Turn, i: InstanceId) {
    t.Held? && t.kind.Launch? && (t.pc == Judging(i) || t.pc == JudgedAlive(i))
  }

  lemma StepJudges(b: Browser, s: Step, i: InstanceId)
    requires Enabled(b, s) && Judges(Apply(b, s).turn, i)
    ensures b.turn.Held? && b.turn.op == Apply(b, s).turn.op && b.turn.kind == Apply(b, s).turn.kind
    ensures
      || (Judges(b.turn, i) && (b.turn.pc.JudgedAlive? || Apply(b, s).turn.pc.JudgedAlive? ==>
                                  b.turn.pc.JudgedAlive? || (i in b.r.instances && !b.r.instances[i].exited)))
      || (s == InLaunch(ReadIndex) && Apply(b, s).turn.pc.Judging?
          && b.turn.kind.profile in b.r.profiles && b.r.profiles[b.turn.kind.profile] == i)
  {}

  /** In step m of the run, Launch o of p reads instance i from the index. */
  predicate ReadsIndex(steps: seq<Step>, m: nat, o: OpId, p: ProfileId, i: InstanceId) {
    && m < |steps| && steps[m] == InLaunch(ReadIndex) && Execute(steps[..m]).Some?
    && IsLaunching(Execute(steps[..m]).value.turn, o, p)
    && p in Execute(steps[..m]).value.r.profiles && Execute(steps[..m]).value.r.profiles[p] == i
  }

  predicate AliveAt(steps: seq<Step>, m: nat, i: InstanceId)
    requires m <= |steps|
  {
    Execute(steps[..m]).Some? && i in Execute(steps[..m]).value.r.instances && !Execute(steps[..m]).value.r.instances[i].exited
  }

  /** The instance a Launch judges was read from the index in the same turn, alive if it was judged so. */
  lemma {:induction false} JudgedSince(steps: seq<Step>, i: InstanceId) returns (m: nat)
    requires Execute(steps).Some? && Judges(Execute(steps).value.turn, i)
    ensures var t := Execute(steps).value.turn;
            ReadsIndex(steps, m, t.op, t.kind.profile, i) && (t.pc.JudgedAlive? ==> AliveAt(steps, m, i))
  {
    var prefix, s := steps[..|steps| - 1], steps[|steps| - 1];
    var b := Execute(prefix).value;
    StepJudges(b, s, i);
    if Judges(b.turn, i) {
      m := JudgedSince(prefix, i);
      assert prefix[..m] == steps[..m];
      RunInv(steps[..m]);
      ExitedStays(prefix, m, i);
    } else {
      m := |prefix|;
    }
  }

  lemma StepAnswers(b: Browser, s: Step, o: OpId, i: InstanceId)
    requires Enabled(b, s) && o !in b.returned && o in Apply(b, s).returned && Apply(b, s).returned[o] == AlreadyRunning(i)
    ensures s == InLaunch(JudgeStopping) && b.turn.Held? && b.turn.op == o && b.turn.kind.Launch? && b.turn.pc == JudgedAlive(i)
    ensures i in b.r.instances && !b.r.instances[i].stopping
  {}

  /**
   A Launch that answers with a running instance answers with one that is not being stopped, and
   that was indexed for its profile, and alive, when this same call read the index.
   */
  lemma AlreadyRunningLives(steps: seq<Step>, k: nat, o: OpId, i: InstanceId) returns (m: nat)
    requires Execute(steps).Some? && k < |steps| && Execute(steps[..k]).Some? && o !in Execute(steps[..k]).value.returned
    requires Execute(steps[..k + 1]).Some? && o in Execute(steps[..k + 1]).value.returned
    requires Execute(steps[..k + 1]).value.returned[o] == AlreadyRunning(i)
    ensures var b := Execute(steps[..k]).value;
            && i in b.r.instances && !b.r.instances[i].stopping && b.turn.Held? && b.turn.kind.Launch?
            && m < k && ReadsIndex(steps, m, o, b.turn.kind.profile, i) && AliveAt(steps, m, i)
  {
    PrefixRuns(steps, k);
    StepAnswers(Execute(steps[..k]).value, steps[k], o, i);
    m := JudgedSince(steps[..k], i);
    assert steps[..k][..m] == steps[..m];
  }

  predicate IsUp(t: Turn, i: InstanceId) {
    t.Held? && t.kind.Launch? && (t.pc == Starting(i, true) || t.pc == Announcing(i) || t.pc == Announced(i))
  }

  lemma StepComesUp(b: Browser, s: Step, i: InstanceId)
    requires Enabled(b, s) && IsUp(Apply(b, s).turn, i)
    ensures b.turn.Held? && b.turn.op == Apply(b, s).turn.op && b.turn.kind == Apply(b, s).turn.kind
    ensures IsUp(b.turn, i)
            || (s == InLaunch(ComeUp) && b.turn.pc == Starting(i, false) && i in b.r.instances && !b.r.instances[i].exited)
  {}

  lemma {:induction false} UpSince(steps: seq<Step>, i: InstanceId) returns (m: nat)
    requires Execute(steps).Some? && IsUp(Execute(steps).value.turn, i)
    ensures m < |steps| && steps[m] == InLaunch(ComeUp) && AliveAt(steps, m, i)
    ensures var t := Execute(steps).value.turn; IsLaunching(Execute(steps[..m]).value.turn, t.op, t.kind.profile)
  {
    var prefix, s := steps[..|steps| - 1], steps[|steps| - 1];
    var b := Execute(prefix).value;
    StepComesUp(b, s, i);
    if IsUp(b.turn, i) {
      m := UpSince(prefix, i);
      assert prefix[..m] == steps[..m];
    } else {
      m := |prefix|;
    }
  }

  lemma StepStarted(b: Browser, s: Step, o: OpId, i: InstanceId)
    requires Enabled(b, s) && o !in b.returned && o in Apply(b, s).returned && Apply(b, s).returned[o] == Started(i)
    ensures b.turn.Held? && b.turn.op == o && b.turn.kind.Launch? && b.turn.pc == Announced(i)
  {}

  /** In step n of the run, Launch o of p starts process i. */
  predicate Starts(steps: seq<Step>, n: nat, p: ProfileId, i: InstanceId, url: string) {
    && n < |steps| && steps[n] == InLaunch(Start(i, url)) && Execute(steps[..n]).Some?
    && Execute(steps[..n]).value.turn.Held? && Execute(steps[..n]).value.turn.kind == Launch(p)
  }

  lemma StepStarts(b: Browser, s: Step, i: InstanceId)
    requires Enabled(b, s) && i in Apply(b, s).r.instances && i !in b.r.instances
    ensures
      var x := Apply(b, s).r.instances[i];
      s == InLaunch(Start(i, x.url)) && b.turn.Held? && b.turn.kind == Launch(x.profile)
  {}

  /** Every instance was started by a Launch of its profile, with the endpoint it has. */
  lemma {:induction false} StartedBy(steps: seq<Step>, i: InstanceId) returns (n: nat)
    requires Execute(steps).Some? && i in Execute(steps).value.r.instances
    ensures var x := Execute(steps).value.r.instances[i]; Starts(steps, n, x.profile, i, x.url)
  {
    var prefix, s := steps[..|steps| - 1], steps[|steps| - 1];
    var b := Execute(prefix).value;
    if i in b.r.instances {
      StepExits(b, s, i);
      n := StartedBy(prefix, i);
      assert prefix[..n] == steps[..n];
    } else {
      StepStarts(b, s, i);
      n := |prefix|;
    }
  }

  /** A Launch that answers with a new instance has seen that process come up, alive, in the same call. */
  lemma StartedCameUp(steps: seq<Step>, k: nat, o: OpId, i: InstanceId) returns (m: nat)
    requires Execute(steps).Some? && k < |steps| && Execute(steps[..k]).Some? && o !in Execute(steps[..k]).value.returned
    requires Execute(steps[..k + 1]).Some? && o in Execute(steps[..k + 1]).value.returned
    requires Execute(steps[..k + 1]).value.returned[o] == Started(i)
    ensures m < k && steps[m] == InLaunch(ComeUp) && AliveAt(steps, m, i)
    ensures Execute(steps[..k]).value.turn.Held? && Execute(steps[..k]).value.turn.kind.Launch?
    ensures IsLaunching(Execute(steps[..m]).value.turn, o, Execute(steps[..k]).value.turn.kind.profile)
  {
    PrefixRuns(steps, k);
    StepStarted(Execute(steps[..k]).value, steps[k], o, i);
    m := UpSince(steps[..k], i);
    assert steps[..k][..m] == steps[..m];
  }

  // ----- why an instance was closed -----

  predicate FindsInstance(b: Browser, s: Step, i: InstanceId) {
    s.InClose? && s.c.NextClose? && s.c.p in b.r.profiles && b.r.profiles[s.c.p] == i
  }

  /** In step k of the run a close finds instance i in the index. */
  predicate Marks(steps: seq<Step>, k: nat, i: InstanceId) {
    k < |steps| && Execute(steps[..k]).Some? && FindsInstance(Execute(steps[..k]).value, steps[k], i)
  }

  ghost predicate ClosedByUser(steps: seq<Step>, i: InstanceId) {
    exists k: nat :: Marks(steps, k, i)
  }

  lemma StepMarks(b: Browser, s: Step, i: InstanceId)
    requires Enabled(b, s) && i in Apply(b, s).r.instances
    ensures i in b.r.instances ==>
              (Apply(b, s).r.instances[i].userClose <==> b.r.instances[i].userClose || FindsInstance(b, s, i))
    ensures i !in b.r.instances ==> s.InLaunch? && !Apply(b, s).r.instances[i].userClose
  {
    if i !in b.r.instances {
      StepStarts(b, s, i);
    } else if s.InLaunch? {
      LaunchOn(b.r, b.turn, s.l, i);
    } else if s.InClose? {
      CloseOn(b.r, b.turn, s.c, i);
    } else if s.OnInstance? {
      InstanceOn(b.r, s.i, s.w, i);
    }
  }

  lemma MarkedMore(prefix: seq<Step>, s: Step, i: InstanceId)
    requires Execute(prefix).Some?
    ensures ClosedByUser(prefix + [s], i) <==> ClosedByUser(prefix, i) || Marks(prefix + [s], |prefix|, i)
  {
    var steps := prefix + [s];
    forall k: nat | k < |prefix|
      ensures Marks(steps, k, i) <==> Marks(prefix, k, i)
    {
      assert steps[..k] == prefix[..k];
    }
    if ClosedByUser(steps, i) {
      var k: nat :| Marks(steps, k, i);
      assert k < |prefix| ==> Marks(prefix, k, i);
    }
    if k: nat :| Marks(prefix, k, i) {
      assert Marks(steps, k, i);
    }
  }

  /** An instance carries the mark of a user's close exactly if a close has found it. */
  lemma {:induction false} MarkedByClose(steps: seq<Step>, i: InstanceId)
    requires Execute(steps).Some?
    ensures i in Execute(steps).value.r.instances ==> (Execute(steps).value.r.instances[i].userClose <==> ClosedByUser(steps, i))
    ensures i !in Execute(steps).value.r.instances ==> !ClosedByUser(steps, i)
  {
    if steps == [] {
      assert forall k: nat :: !Marks(steps, k, i);
    } else {
      var prefix, s := steps[..|steps| - 1], steps[|steps| - 1];
      assert steps == prefix + [s] && steps[..|prefix|] == prefix;
      MarkedByClose(prefix, i);
      MarkedMore(prefix, s, i);
      RunInv(prefix);
      var b := Execute(prefix).value;
      if i in Apply(b, s).r.instances {
        StepMarks(b, s, i);
      }
    }
  }

  /** The reason instance x gives, or has given, for its end. */
  predicate Gives(x: Instance, reason: Reason) {
    || x.watch == Unindexed(reason) || x.watch == Handling(reason) || x.watch == Handled(reason)
    || (x.watch.Finished? && |x.log| == 2 && x.log[1] == ClosedEvent(reason))
  }

  lemma WatchGives(r: Registry, i: InstanceId, w: InstanceStep, reason: Reason)
    requires i in r.instances && InstanceEnabled(r.instances[i], w) && Gives(InstanceNext(r, i, w).instances[i], reason)
    requires r.instances[i].watch.Handling? ==> |r.instances[i].log| == 1
    requires r.instances[i].watch.Handled? ==>
               |r.instances[i].log| == 2 && r.instances[i].log[1] == ClosedEvent(r.instances[i].watch.reason)
    ensures Gives(r.instances[i], reason) || (w.Unindex? && (reason == UserClose <==> r.instances[i].userClose))
  {}

  lemma StepGives(b: Browser, s: Step, i: InstanceId, reason: Reason)
    requires Enabled(b, s) && i in Apply(b, s).r.instances && Gives(Apply(b, s).r.instances[i], reason)
    requires i in b.r.instances ==> Fits(b.r, b.turn, i)
    ensures i in b.r.instances
    ensures Gives(b.r.instances[i], reason)
            || (s == OnInstance(i, Unindex) && (reason == UserClose <==> b.r.instances[i].userClose))
  {
    if i !in b.r.instances {
      StepStarts(b, s, i);
    } else if s.InLaunch? {
      LaunchOn(b.r, b.turn, s.l, i);
    } else if s.InClose? {
      CloseOn(b.r, b.turn, s.c, i);
    } else if s.OnInstance? {
      InstanceOn(b.r, s.i, s.w, i);
      if s.i == i {
        WatchGives(b.r, i, s.w, reason);
      }
    }
  }

  /** The "closed" event says user-close exactly if a close had found the instance before watch un-indexed it. */
  lemma {:induction false} ClosedReason(steps: seq<Step>, i: InstanceId, reason: Reason) returns (n: nat)
    requires Execute(steps).Some? && i in Execute(steps).value.r.instances && Gives(Execute(steps).value.r.instances[i], reason)
    ensures n < |steps| && steps[n] == OnInstance(i, Unindex)
    ensures reason == UserClose <==> ClosedByUser(steps[..n], i)
  {
    var prefix, s := steps[..|steps| - 1], steps[|steps| - 1];
    RunInv(prefix);
    var b := Execute(prefix).value;
    StepGives(b, s, i, reason);
    if Gives(b.r.instances[i], reason) {
      n := ClosedReason(prefix, i, reason);
      assert prefix[..n] == steps[..n];
    } else {
      n := |prefix|;
      MarkedByClose(prefix, i);
    }
  }

  // ----- who stops a process, and who refuses a Launch -----

  /** The step begins h.stop() of i: its bridge is down, its own Launch gives up, or a close has come to it. */
  predicate Stops(b: Browser, s: Step, i: InstanceId) {
    || s == OnInstance(i, BridgeStop)
    || (s == InLaunch(StartupFails) && b.turn.Held? && b.turn.pc.Starting? && b.turn.pc.own == i)
    || (s == InClose(EnterStop) && b.turn.Held? && b.turn.pc.Marked? && b.turn.pc.h == i)
  }

  predicate StopsAt(steps: seq<Step>, k: nat, i: InstanceId) {
    k < |steps| && Execute(steps[..k]).Some? && Stops(Execute(steps[..k]).value, steps[k], i)
  }

  ghost predicate StoppedIn(steps: seq<Step>, i: InstanceId) {
    exists k: nat :: StopsAt(steps, k, i)
  }

  lemma StoppedMore(prefix: seq<Step>, s: Step, i: InstanceId)
    ensures StoppedIn(prefix + [s], i) <==> StoppedIn(prefix, i) || StopsAt(prefix + [s], |prefix|, i)
  {
    var steps := prefix + [s];
    forall k: nat | k < |prefix|
      ensures StopsAt(steps, k, i) <==> StopsAt(prefix, k, i)
    {
      assert steps[..k] == prefix[..k];
    }
    if k: nat :| StopsAt(steps, k, i) {
      assert k < |prefix| ==> StopsAt(prefix, k, i);
    }
    if k: nat :| StopsAt(prefix, k, i) {
      assert StopsAt(steps, k, i);
    }
  }

  predicate Ends(x: Instance, stopping: bool, exited: bool) {
    x.stopping == stopping && x.exited == exited
  }

  lemma LaunchEnds(r: Registry, t: Turn, l: LaunchStep, i: InstanceId)
    requires t.Held? && LaunchEnabled(r, t, l) && i in LaunchNext(r, t, l).0.instances
    ensures if i in r.instances
            then Ends(LaunchNext(r, t, l).0.instances[i], r.instances[i].stopping || (l.StartupFails? && t.pc.own == i), r.instances[i].exited)
            else Ends(LaunchNext(r, t, l).0.instances[i], false, false)
  {}

  lemma CloseEnds(r: Registry, t: Turn, c: CloseStep, i: InstanceId)
    requires t.Held? && CloseEnabled(r, t, c) && i in r.instances
    ensures i in CloseNext(r, t, c).0.instances
    ensures Ends(CloseNext(r, t, c).0.instances[i], r.instances[i].stopping || (c.EnterStop? && t.pc.h == i), r.instances[i].exited)
  {}

  lemma InstanceEnds(r: Registry, k: InstanceId, w: InstanceStep, i: InstanceId)
    requires k in r.instances && InstanceEnabled(r.instances[k], w) && i in r.instances
    ensures i in InstanceNext(r, k, w).instances
    ensures Ends(InstanceNext(r, k, w).instances[i], r.instances[i].stopping || (w.BridgeStop? && k == i), r.instances[i].exited || (w.Exit? && k == i))
  {}

  lemma StepEnds(b: Browser, s: Step, i: InstanceId)
    requires Enabled(b, s) && i in Apply(b, s).r.instances
    ensures
      var x := Apply(b, s).r.instances[i];
      if i in b.r.instances
      then Ends(x, b.r.instances[i].stopping || Stops(b, s, i), b.r.instances[i].exited || s == OnInstance(i, Exit))
      else Ends(x, false, false) && !Stops(b, s, i) && s != OnInstance(i, Exit)
  {
    if i !in b.r.instances {
      StepStarts(b, s, i);
    }
    if s.InLaunch? {
      LaunchEnds(b.r, b.turn, s.l, i);
    } else if s.InClose? {
      CloseOn(b.r, b.turn, s.c, i);
      CloseEnds(b.r, b.turn, s.c, i);
    } else if s.OnInstance? {
      InstanceOn(b.r, s.i, s.w, i);
      InstanceEnds(b.r, s.i, s.w, i);
    }
  }

  lemma StopsWhatIs(b: Browser, s: Step, i: InstanceId)
    requires Enabled(b, s) && (Stops(b, s, i) || s == OnInstance(i, Exit))
    ensures i in b.r.instances
  {}

  /** A process is being stopped exactly if something has stopped it, and gone exactly if it has exited. */
  lemma {:induction false} StoppedExactly(steps: seq<Step>, i: InstanceId)
    requires Execute(steps).Some?
    ensures var r := Execute(steps).value.r;
            if i in r.instances then Ends(r.instances[i], StoppedIn(steps, i), OnInstance(i, Exit) in steps)
            else !StoppedIn(steps, i) && OnInstance(i, Exit) !in steps
  {
    if steps == [] {
      assert forall k: nat :: !StopsAt(steps, k, i);
    } else {
      var prefix, s := steps[..|steps| - 1], steps[|steps| - 1];
      assert steps == prefix + [s] && steps[..|prefix|] == prefix;
      StoppedExactly(prefix, i);
      StoppedMore(prefix, s, i);
      var b := Execute(prefix).value;
      if Stops(b, s, i) || s == OnInstance(i, Exit) {
        StopsWhatIs(b, s, i);
      }
      if i in b.r.instances {
        StepExits(b, s, i);
      }
      if i in Apply(b, s).r.instances {
        StepEnds(b, s, i);
      }
    }
  }

  /** A CloseProfile has only its own profile to deal with, and only an instance of it in hand. */
  predicate OwnOnly(r: Registry, t: Turn) {
    t.Held? && t.kind.CloseProfile? ==>
      match t.pc
      case Closing(todo) => todo <= {t.kind.profile}
      case Marked(h, todo) => todo <= {t.kind.profile} && h in r.instances && r.instances[h].profile == t.kind.profile
      case Stopping(h, todo) => todo <= {t.kind.profile} && h in r.instances && r.instances[h].profile == t.kind.profile
      case Awaiting(h, todo) => todo <= {t.kind.profile} && h in r.instances && r.instances[h].profile == t.kind.profile
      case _ => true
  }

  lemma CloseOwnOnly(r: Registry, t: Turn, c: CloseStep, met: set<InstanceId>)
    requires t.Held? && CloseEnabled(r, t, c) && OwnOnly(r, t) && IndexFits(r)
    ensures OwnOnly(CloseNext(r, t, c).0, TurnAfter(t, CloseNext(r, t, c).1, met))
  {}

  lemma LaunchOwnOnly(r: Registry, t: Turn, l: LaunchStep)
    requires t.Held? && LaunchEnabled(r, t, l)
    ensures OwnOnly(LaunchNext(r, t, l).0, TurnAfter(t, LaunchNext(r, t, l).1, t.met))
  {}

  lemma InstanceOwnOnly(r: Registry, t: Turn, i: InstanceId, w: InstanceStep)
    requires i in r.instances && InstanceEnabled(r.instances[i], w) && OwnOnly(r, t)
    ensures OwnOnly(InstanceNext(r, i, w), t)
  {}

  lemma {:induction false} RunOwnOnly(steps: seq<Step>)
    requires Execute(steps).Some?
    ensures OwnOnly(Execute(steps).value.r, Execute(steps).value.turn)
  {
    if steps != [] {
      var prefix, s := steps[..|steps| - 1], steps[|steps| - 1];
      RunOwnOnly(prefix);
      RunInv(prefix);
      var b := Execute(prefix).value;
      match s
      case InLaunch(l) => LaunchOwnOnly(b.r, b.turn, l);
      case InClose(c) => CloseOwnOnly(b.r, b.turn, c, if c.SeeFinished? then b.turn.met + {b.turn.pc.h} else b.turn.met);
      case OnInstance(i, w) => InstanceOwnOnly(b.r, b.turn, i, w);
      case _ =>
    }
  }

  /** CloseProfile of p marks and stops no instance of another profile. */
  lemma ClosesItsOwn(steps: seq<Step>, s: Step, i: InstanceId)
    requires Execute(steps).Some? && Enabled(Execute(steps).value, s) && s.InClose?
    requires Execute(steps).value.turn.kind.CloseProfile?
    requires FindsInstance(Execute(steps).value, s, i) || Stops(Execute(steps).value, s, i)
    ensures i in Execute(steps).value.r.instances
    ensures Execute(steps).value.r.instances[i].profile == Execute(steps).value.turn.kind.profile
  {
    RunInv(steps);
    RunOwnOnly(steps);
  }

  predicate ShutsDown(s: Step) {
    s.Request? && s.kind.Shutdown?
  }

  /** The manager's context is over exactly once a Shutdown has begun. */
  lemma {:induction false} CancelledByShutdown(steps: seq<Step>)
    requires Execute(steps).Some?
    ensures Execute(steps).value.r.cancelled <==> exists k :: 0 <= k < |steps| && ShutsDown(steps[k])
  {
    if steps != [] {
      var prefix, s := steps[..|steps| - 1], steps[|steps| - 1];
      CancelledByShutdown(prefix);
      StepCancelled(Execute(prefix).value, s);
      assert forall k :: 0 <= k < |prefix| ==> prefix[k] == steps[k];
      assert ShutsDown(s) ==> ShutsDown(steps[|prefix|]);
    }
  }

  lemma StepCancelled(b: Browser, s: Step)
    requires Enabled(b, s)
    ensures Apply(b, s).r.cancelled <==> b.r.cancelled || ShutsDown(s)
  {}

  lemma StepRefuses(b: Browser, s: Step, o: OpId)
    requires Enabled(b, s) && o !in b.returned && o in Apply(b, s).returned && Apply(b, s).returned[o] == LaunchError(None)
    ensures s == InLaunch(PrepareFails) || (s == InLaunch(CheckContext) && b.r.cancelled)
    ensures s == InLaunch(CheckContext) ==> b.turn.Held? && b.turn.op == o
  {}

  /** A Launch that fails before it has a process failed to prepare, or came after a Shutdown had begun. */
  lemma RefusedForACause(steps: seq<Step>, s: Step, o: OpId)
    requires Execute(steps).Some? && Enabled(Execute(steps).value, s)
    requires var b := Execute(steps).value;
             o !in b.returned && o in Apply(b, s).returned && Apply(b, s).returned[o] == LaunchError(None)
    ensures s == InLaunch(PrepareFails) || exists k :: 0 <= k < |steps| && ShutsDown(steps[k])
  {
    CancelledByShutdown(steps);
    StepRefuses(Execute(steps).value, s, o);
  }

  // ----- every operation is the one that was asked for -----

  /** The outcome is one of an operation of this kind, and its instance one of the profile. */
  predicate AnswersTo(b: Browser, outcome: Outcome, kind: Kind) {
    match outcome
    case Started(i) => Has(b, i) && kind == Launch(b.r.instances[i].profile)
    case AlreadyRunning(i) => Has(b, i) && kind == Launch(b.r.instances[i].profile)
    case LaunchError(own) => kind.Launch? && (own.Some? ==> Has(b, own.value) && kind == Launch(b.r.instances[own.value].profile))
    case Closed(k, _) => k == kind && !kind.Launch?
  }

  lemma AnswersStay(b: Browser, s: Step, outcome: Outcome, kind: Kind)
    requires Enabled(b, s) && AnswersTo(b, outcome, kind)
    ensures AnswersTo(Apply(b, s), outcome, kind)
  {
    if outcome.Started? || outcome.AlreadyRunning? {
      StepExits(b, s, outcome.i);
    } else if outcome.LaunchError? && outcome.own.Some? {
      StepExits(b, s, outcome.own.value);
    }
  }

  lemma StepReturns(b: Browser, s: Step, o: OpId)
    requires Enabled(b, s) && TurnFits(b.r, b.turn) && (forall i :: i in b.r.instances ==> Fits(b.r, b.turn, i))
    requires o !in b.returned && o in Apply(b, s).returned
    ensures b.turn.Held? && b.turn.op == o && AnswersTo(Apply(b, s), Apply(b, s).returned[o], b.turn.kind)
  {}

  /** Where an operation is, it is as it was requested. */
  ghost predicate AsRequested(steps: seq<Step>, b: Browser, o: OpId) {
    && (o in b.queued ==> Request(o, b.queued[o]) in steps)
    && (b.turn.Held? && b.turn.op == o ==> Request(o, b.turn.kind) in steps)
    && (o in b.returned ==> exists kind :: Request(o, kind) in steps && AnswersTo(b, b.returned[o], kind))
  }

  /** What an operation returns answers the request that was made under its id, for the same profile. */
  lemma {:induction false} AnswersItsRequest(steps: seq<Step>, o: OpId)
    requires Execute(steps).Some?
    ensures AsRequested(steps, Execute(steps).value, o)
  {
    if steps != [] {
      var prefix, s := steps[..|steps| - 1], steps[|steps| - 1];
      assert steps == prefix + [s];
      AnswersItsRequest(prefix, o);
      RunInv(prefix);
      var b := Execute(prefix).value;
      StepQueues(b, s, o);
      if o in b.returned {
        var kind :| Request(o, kind) in prefix && AnswersTo(b, b.returned[o], kind);
        AnswersStay(b, s, b.returned[o], kind);
        ReturnedStays(b, s, o, prefix);
        assert Request(o, kind) in steps;
      } else if o in Apply(b, s).returned {
        StepReturns(b, s, o);
        assert Request(o, b.turn.kind) in steps;
      }
    }
  }

  lemma ReturnedStays(b: Browser, s: Step, o: OpId, prefix: seq<Step>)
    requires Enabled(b, s) && o in b.returned && Execute(prefix) == Some(b)
    ensures o in Apply(b, s).returned && Apply(b, s).returned[o] == b.returned[o]
  {
    OnePlaceRun(prefix, o);
  }

  lemma StepQueues(b: Browser, s: Step, o: OpId)
    requires Enabled(b, s)
    ensures o in Apply(b, s).queued ==> s == Request(o, Apply(b, s).queued[o]) || (o in b.queued && b.queued[o] == Apply(b, s).queued[o])
    ensures Apply(b, s).turn.Held? && Apply(b, s).turn.op == o ==>
              || (b.turn.Held? && b.turn.op == o && b.turn.kind == Apply(b, s).turn.kind)
              || (o in b.queued && b.queued[o] == Apply(b, s).turn.kind)
  {}

  // ----- the manager's fields -----

  class Manager {
    var profiles: map<ProfileId, InstanceId>
    var instances: map<InstanceId, Instance>
    var cancelled: bool

    ghost function View(): Registry
      reads this
    {
      Registry(profiles, instances, cancelled)
    }

    constructor ()
      ensures View() == Init.r
    {
      profiles, instances, cancelled := map[], map[], false;
    }

    /** get: an instance that lives, is not being stopped and is not being closed. */
    method Find(p: ProfileId) returns (h: Option<InstanceId>)
      ensures h == Get(View(), p)
      ensures h.Some? ==> p in profiles && profiles[p] == h.value && h.value in instances
                          && !instances[h.value].exited && !instances[h.value].stopping && !instances[h.value].userClose
      ensures h.None? && p in profiles && profiles[p] in instances ==>
                var x := instances[profiles[p]]; x.exited || x.stopping || x.userClose
    {
      h := None;
      if p in profiles && profiles[p] in instances {
        var x := instances[profiles[p]];
        if !x.exited && !x.stopping && !x.userClose {
          h := Some(profiles[p]);
        }
      }
    }

    method PublishInstance(i: InstanceId)
      requires i in instances
      modifies this
      ensures View() == Indexed(old(View()), i)
    {
      instances := instances[i := instances[i].(published := true)];
      profiles := profiles[instances[i].profile := i];
    }

    /** h.stop() up to the body of its once: whether this caller runs that body. */
    method EnterStop(i: InstanceId) returns (first: bool)
      requires i in instances
      modifies this
      ensures View() == StopEntered(old(View()), i)
      ensures first <==> old(instances[i].stopOnce).Idle?
    {
      instances := instances[i := instances[i].(stopping := true)];
      first := instances[i].stopOnce.Idle?;
      if first {
        instances := instances[i := instances[i].(stopOnce := Running)];
      }
    }

    /** The locked section of watch. */
    method UnindexInstance(i: InstanceId) returns (reason: Reason)
      requires i in instances
      modifies this
      ensures View() == UnindexedBy(old(View()), i)
      ensures reason == if old(instances[i].userClose) then UserClose else ExternalExit
    {
      var x := instances[i];
      reason := if x.userClose then UserClose else ExternalExit;
      if x.profile in profiles && profiles[x.profile] == i {
        profiles := profiles - {x.profile};
      }
      instances := instances[i := x.(watch := Unindexed(reason))];
    }

    /** The locked section of closeProfile. */
    method MarkForClose(p: ProfileId) returns (h: Option<InstanceId>)
      requires IndexFits(View())
      modifies this
      ensures View() == MarkedForClose(old(View()), p)
      ensures h == if p in old(profiles) then Some(old(profiles)[p]) else None
    {
      h := None;
      if p in profiles {
        h := Some(profiles[p]);
        instances := instances[h.value := instances[h.value].(userClose := true)];
      }
    }

    /** The snapshot Shutdown takes of the running profiles: each exactly once. */
    method RunningIds() returns (ids: seq<ProfileId>)
      ensures forall p :: p in ids <==> p in profiles
      ensures forall j, k :: 0 <= j < k < |ids| ==> ids[j] != ids[k]
    {
      ids := [];
      var todo := profiles.Keys;
      while todo != {}
        invariant todo <= profiles.Keys
        invariant forall p :: p in ids <==> p in profiles.Keys - todo
        invariant forall j, k :: 0 <= j < k < |ids| ==> ids[j] != ids[k]
        decreases todo
      {
        var p :| p in todo;
        assert p !in ids;
        ids, todo := ids + [p], todo - {p};
      }
    }
  }
}
