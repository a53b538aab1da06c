/**
 The service around the managers: admission of requests, profile locks, the companion pollers
 that relaunch a profile, and the ordered shutdown.

 Every step is one critical section or one blocking point of desktop/service.go. `barred`
 records the pollers that existed when a close of their profile released its lock.
 */
module ServiceLifecycle {
  import opened Common

  type InvokeId = nat
  type PollerId = nat

  /** The commands that differ in what they do to locks and companions. */
  datatype Command = CloseOrDelete(p: ProfileId) | Launch(p: ProfileId) | Export(p: ProfileId) | Other

  datatype InvokePc =
    | Admitted
    | WantLock
    | HasLock
    | Working                         // store, browser and debugger calls
    | Launched                        // Launch succeeded: startCompanion begins
    | CompanionStopped
    | ContextMade(c: PollerId)        // made, not yet in the companions map
    | Registered(c: PollerId)         // in the map, not yet running
    | Ending
    | Returned

  datatype Invoke = Invoke(command: Command, pc: InvokePc)

  datatype PollerPc =
    | Unborn
    | Polling
    | WantsLock
    | Locked                          // took the profile lock
    | Relaunching                     // saw its context alive after taking the lock
    | Unlocked
    | Gone

  datatype Poller = Poller(p: ProfileId, cancelled: bool, pc: PollerPc)

  datatype Holder = ByInvoke(i: InvokeId) | ByPoller(c: PollerId)

  datatype ClosePc = NotClosing | FlagSet | ContextCancelled | ManagersClosed | ActiveDrained | BackgroundDrained | StoreClosed

  datatype Service = Service(
    closing: bool,
    cancelled: bool,                              // s.ctx
    closePc: ClosePc,
    active: int, background: int,                 // the wait groups' counters
    invokes: map<InvokeId, Invoke>,
    pollers: map<PollerId, Poller>,
    startup: set<nat>,                            // tasks newService started and that still run
    locks: map<ProfileId, Holder>,
    companions: map<ProfileId, PollerId>,
    barred: set<PollerId>)

  /** What newService leaves behind: the backfill task, and the update check when it is automatic. */
  function Opened(autoUpdate: bool): Service {
    var tasks := if autoUpdate then {0, 1} else {0};
    Service(false, false, NotClosing, 0, |tasks|, map[], map[], tasks, map[], map[], {})
  }

  datatype InvokeStep =
    | Refuse                  // s.ctx is already done
    | StopEarly               // stopCompanion before the lock
    | SkipStop
    | TakeLock
    | StopLocked              // stopCompanion under the lock
    | SkipLockedStop
    | LaunchSucceeds
    | SkipCompanion           // startCompanion found s.ctx done
    | StopOld
    | MakeContext(c: PollerId)
    | Register
    | RunPoller
    | UseStore
    | Return

  datatype PollerStep =
    | Signalled               // PollCompanion returned a signal
    | Leave                   // any return of the loop outside the lock
    | CancelSelf
    | TakePollerLock
    | CheckContext
    | RelaunchNow             // browser.Launch
    | PollerStore
    | ReleaseLock
    | NextRound

  datatype Step =
    | Admit(i: InvokeId, command: Command)
    | InInvoke(i: InvokeId, x: InvokeStep)
    | InPoller(c: PollerId, y: PollerStep)
    | TaskStore(n: nat)
    | TaskEnds(n: nat)
    | SetFlag
    | CancelContext
    | CloseManagers
    | WaitActive
    | WaitBackground
    | CloseStore

  // ----- steps -----

  function LockOf(command: Command): Option<ProfileId> {
    match command
    case CloseOrDelete(p) => Some(p)
    case Launch(p) => Some(p)
    case Export(p) => Some(p)
    case Other => None
  }

  predicate Dead(s: Service, c: PollerId)
    requires c in s.pollers
  {
    s.cancelled || s.pollers[c].cancelled
  }

  predicate InvokeEnabled(s: Service, i: InvokeId, x: InvokeStep)
    requires i in s.invokes
  {
    var v := s.invokes[i];
    match x
    case Refuse => v.pc.Admitted? && s.cancelled
    case StopEarly => v.pc.Admitted? && v.command.CloseOrDelete?
    case SkipStop => v.pc.Admitted? && !v.command.CloseOrDelete?
    case TakeLock => v.pc.WantLock? && LockOf(v.command).Some? && LockOf(v.command).value !in s.locks
    case StopLocked => v.pc.HasLock? && v.command.CloseOrDelete?
    case SkipLockedStop => v.pc.HasLock? && !v.command.CloseOrDelete?
    case LaunchSucceeds => v.pc.Working? && v.command.Launch?
    case SkipCompanion => v.pc.Launched? && s.cancelled
    case StopOld => v.pc.Launched? && v.command.Launch? && !s.cancelled
    case MakeContext(c) => v.pc.CompanionStopped? && v.command.Launch? && c !in s.pollers
    case Register => v.pc.ContextMade? && v.command.Launch?
    case RunPoller => v.pc.Registered? && v.pc.c in s.pollers
    case UseStore => !v.pc.Returned?
    case Return => v.pc.Working? || v.pc.Ending?
  }

  predicate PollerEnabled(s: Service, c: PollerId, y: PollerStep)
    requires c in s.pollers
  {
    var v := s.pollers[c];
    match y
    case Signalled => v.pc.Polling?
    case Leave => v.pc.Polling? || v.pc.Unlocked?
    case CancelSelf => v.pc.Polling? && !v.cancelled
    case TakePollerLock => v.pc.WantsLock? && v.p !in s.locks
    case CheckContext => v.pc.Locked?
    case RelaunchNow => v.pc.Relaunching?
    case PollerStore => !v.pc.Unborn? && !v.pc.Gone?
    case ReleaseLock => v.pc.Relaunching?
    case NextRound => v.pc.Unlocked? && !Dead(s, c)
  }

  predicate Enabled(s: Service, step: Step) {
    match step
    case Admit(i, _) => !s.closing && i !in s.invokes
    case InInvoke(i, x) => i in s.invokes && InvokeEnabled(s, i, x)
    case InPoller(c, y) => c in s.pollers && PollerEnabled(s, c, y)
    case TaskStore(n) => n in s.startup
    case TaskEnds(n) => n in s.startup
    case SetFlag => s.closePc.NotClosing?
    case CancelContext => s.closePc.FlagSet?
    case CloseManagers => s.closePc.ContextCancelled?
    case WaitActive => s.closePc.ManagersClosed? && s.active == 0
    case WaitBackground => s.closePc.ActiveDrained? && s.background == 0
    case CloseStore => s.closePc.BackgroundDrained?
  }

  /** stopCompanion: cancel the registered poller of p, if any, and forget it. */
  function Stopped(s: Service, p: ProfileId): Service {
    if p !in s.companions then s
    else
      var c := s.companions[p];
      s.(companions := s.companions - {p},
         pollers := if c in s.pollers then s.pollers[c := s.pollers[c].(cancelled := true)] else s.pollers)
  }

  function Released(s: Service, p: ProfileId): Service {
    s.(locks := s.locks - {p})
  }

  function Go(s: Service, i: InvokeId, pc: InvokePc): Service
    requires i in s.invokes
  {
    s.(invokes := s.invokes[i := s.invokes[i].(pc := pc)])
  }

  function Finish(s: Service, i: InvokeId): Service
    requires i in s.invokes
  {
    Go(s, i, Returned).(active := s.active - 1)
  }

  /** The pollers of p that exist now. */
  function PollersOf(s: Service, p: ProfileId): set<PollerId> {
    set c | c in s.pollers && s.pollers[c].p == p
  }

  function InvokeNext(s: Service, i: InvokeId, x: InvokeStep): Service
    requires i in s.invokes && InvokeEnabled(s, i, x)
  {
    var v := s.invokes[i];
    match x
    case Refuse => Finish(s, i)
    case StopEarly => Go(Stopped(s, v.command.p), i, WantLock)
    case SkipStop => Go(s, i, if LockOf(v.command).Some? then WantLock else Working)
    case TakeLock => Go(s, i, HasLock).(locks := s.locks[LockOf(v.command).value := ByInvoke(i)])
    case StopLocked => Go(Stopped(s, v.command.p), i, Working)
    case SkipLockedStop => Go(s, i, Working)
    case LaunchSucceeds => Go(s, i, Launched)
    case SkipCompanion => Go(s, i, Ending)
    case StopOld => Go(Stopped(s, v.command.p), i, CompanionStopped)
    case MakeContext(c) => Go(s, i, ContextMade(c)).(pollers := s.pollers[c := Poller(v.command.p, false, Unborn)])
    case Register => Go(s, i, Registered(v.pc.c)).(companions := s.companions[v.command.p := v.pc.c])
    case RunPoller =>
      Go(s, i, Ending).(pollers := s.pollers[v.pc.c := s.pollers[v.pc.c].(pc := Polling)], background := s.background + 1)
    case UseStore => s
    case Return =>
      match LockOf(v.command)
      case None => Finish(s, i)
      case Some(p) =>
        Finish(Released(s, p), i).(barred := if v.command.CloseOrDelete? then s.barred + PollersOf(s, p) else s.barred)
  }

  function Move(s: Service, c: PollerId, pc: PollerPc): Service
    requires c in s.pollers
  {
    s.(pollers := s.pollers[c := s.pollers[c].(pc := pc)])
  }

  function PollerNext(s: Service, c: PollerId, y: PollerStep): Service
    requires c in s.pollers && PollerEnabled(s, c, y)
  {
    var v := s.pollers[c];
    match y
    case Signalled => Move(s, c, WantsLock)
    case Leave => s.(pollers := s.pollers[c := Poller(v.p, true, Gone)], background := s.background - 1)
    case CancelSelf => s.(pollers := s.pollers[c := v.(cancelled := true)])
    case TakePollerLock => Move(s, c, Locked).(locks := s.locks[v.p := ByPoller(c)])
    case CheckContext => if Dead(s, c) then Move(Released(s, v.p), c, Unlocked) else Move(s, c, Relaunching)
    case RelaunchNow => s
    case PollerStore => s
    case ReleaseLock => Move(Released(s, v.p), c, Unlocked)
    case NextRound => Move(s, c, Polling)
  }

  function Apply(s: Service, step: Step): Service
    requires Enabled(s, step)
  {
    match step
    case Admit(i, command) => s.(invokes := s.invokes[i := Invoke(command, Admitted)], active := s.active + 1)
    case InInvoke(i, x) => InvokeNext(s, i, x)
    case InPoller(c, y) => PollerNext(s, c, y)
    case TaskStore(_) => s
    case TaskEnds(n) => s.(startup := s.startup - {n}, background := s.background - 1)
    case SetFlag => s.(closing := true, closePc := FlagSet)
    case CancelContext => s.(cancelled := true, closePc := ContextCancelled)
    case CloseManagers => s.(closePc := ManagersClosed)
    case WaitActive => s.(closePc := ActiveDrained)
    case WaitBackground => s.(closePc := BackgroundDrained)
    case CloseStore => s.(closePc := StoreClosed)
  }

  predicate UsesStore(step: Step) {
    (step.InInvoke? && step.x.UseStore?) || (step.InPoller? && step.y.PollerStore?) || step.TaskStore?
  }

  predicate StartsTask(step: Step) {
    step.InInvoke? && step.x.RunPoller?
  }

  // ----- the invariant -----

  predicate Locking(pc: InvokePc) {
    !pc.Admitted? && !pc.WantLock? && !pc.Returned?
  }

  /** Invoke i holds the lock of p. */
  predicate HeldBy(s: Service, p: ProfileId, i: InvokeId) {
    p in s.locks && s.locks[p] == ByInvoke(i)
  }

  ghost predicate InvokeFits(s: Service, i: InvokeId)
    requires i in s.invokes
  {
    var v := s.invokes[i];
    && (LockOf(v.command).Some? && Locking(v.pc) ==> HeldBy(s, LockOf(v.command).value, i))
    && (v.pc.CompanionStopped? || v.pc.ContextMade? || v.pc.Registered? || v.pc.Launched? || v.pc.Ending? ==> v.command.Launch?)
    && (v.pc.WantLock? || v.pc.HasLock? ==> LockOf(v.command).Some?)
    && (v.pc.CompanionStopped? || v.pc.ContextMade? ==> v.command.p !in s.companions)
    && (v.pc.Working? && v.command.CloseOrDelete? ==> v.command.p !in s.companions)
    && (v.pc.ContextMade? || v.pc.Registered? ==>
          v.pc.c in s.pollers && s.pollers[v.pc.c].p == v.command.p && s.pollers[v.pc.c].pc.Unborn?)
  }

  /** A poller that was made but does not run yet belongs to the launch that holds its profile's lock. */
  predicate InMaking(s: Service, c: PollerId)
    requires c in s.pollers
  {
    var p := s.pollers[c].p;
    p in s.locks && s.locks[p].ByInvoke? && s.locks[p].i in s.invokes
    && s.invokes[s.locks[p].i].pc in {ContextMade(c), Registered(c)}
  }

  ghost predicate PollerFits(s: Service, c: PollerId)
    requires c in s.pollers
  {
    var v := s.pollers[c];
    && (v.pc.Unborn? ==> InMaking(s, c))
    && (v.pc.Locked? || v.pc.Relaunching? ==> v.p in s.locks && s.locks[v.p] == ByPoller(c))
    && (!v.cancelled ==> (v.p in s.companions && s.companions[v.p] == c)
                         || (v.p in s.locks && s.locks[v.p].ByInvoke? && s.locks[v.p].i in s.invokes
                             && s.invokes[s.locks[v.p].i].pc == ContextMade(c)))
    && (c in s.barred ==> v.cancelled && !v.pc.Unborn? && !v.pc.Relaunching?)
  }

  /** The entries of p in the lock table and in the companions map name those who put them there. */
  predicate TableFits(s: Service, p: ProfileId) {
    && (p in s.locks ==>
          match s.locks[p]
          case ByInvoke(i) => i in s.invokes && LockOf(s.invokes[i].command) == Some(p) && Locking(s.invokes[i].pc)
          case ByPoller(c) => c in s.pollers && s.pollers[c].p == p && (s.pollers[c].pc.Locked? || s.pollers[c].pc.Relaunching?))
    && (p in s.companions ==> s.companions[p] in s.pollers && s.pollers[s.companions[p]].p == p)
  }

  function RunningIn(invokes: map<InvokeId, Invoke>): set<InvokeId> {
    set i | i in invokes && !invokes[i].pc.Returned?
  }

  predicate Counted(pc: PollerPc) {
    !pc.Unborn? && !pc.Gone?
  }

  function AliveIn(pollers: map<PollerId, Poller>): set<PollerId> {
    set c | c in pollers && Counted(pollers[c].pc)
  }

  ghost predicate CountsFit(s: Service) {
    s.active == |RunningIn(s.invokes)| && s.background == |s.startup| + |AliveIn(s.pollers)|
  }

  function Stage(pc: ClosePc): nat {
    match pc
    case NotClosing => 0
    case FlagSet => 1
    case ContextCancelled => 2
    case ManagersClosed => 3
    case ActiveDrained => 4
    case BackgroundDrained => 5
    case StoreClosed => 6
  }

  ghost predicate CloseFits(s: Service) {
    && (s.closing <==> Stage(s.closePc) >= 1)
    && (Stage(s.closePc) >= 2 ==> s.cancelled)
    && (Stage(s.closePc) >= 4 ==> s.active == 0)
    && (Stage(s.closePc) >= 5 ==> s.background == 0)
  }

  ghost predicate Inv(s: Service) {
    && (forall i :: i in s.invokes ==> InvokeFits(s, i))
    && (forall c :: c in s.pollers ==> PollerFits(s, c))
    && (forall p :: TableFits(s, p))
    && s.barred <= s.pollers.Keys
    && CountsFit(s) && CloseFits(s)
  }

  /** A new service runs the backfill, and the update check if that is automatic; nothing else. */
  lemma OpenedInv(autoUpdate: bool)
    ensures Inv(Opened(autoUpdate))
    ensures Opened(autoUpdate).background == |Opened(autoUpdate).startup| == if autoUpdate then 2 else 1
  {}

  // ----- preservation, one family of steps at a time -----

  function Profile(command: Command): ProfileId {
    if LockOf(command).Some? then LockOf(command).value else ""
  }

  predicate OfCompanion(x: InvokeStep) {
    x.SkipCompanion? || x.StopOld? || x.MakeContext? || x.Register? || x.RunPoller?
  }

  lemma InvokeOnItself(s: Service, i: InvokeId, x: InvokeStep)
    requires i in s.invokes && InvokeEnabled(s, i, x) && InvokeFits(s, i)
    ensures i in InvokeNext(s, i, x).invokes && InvokeFits(InvokeNext(s, i, x), i)
  {
    if OfCompanion(x) {
      CompanionOnItself(s, i, x);
    }
  }

  lemma CompanionOnItself(s: Service, i: InvokeId, x: InvokeStep)
    requires i in s.invokes && InvokeEnabled(s, i, x) && InvokeFits(s, i) && OfCompanion(x)
    ensures i in InvokeNext(s, i, x).invokes && InvokeFits(InvokeNext(s, i, x), i)
  {}

  lemma InvokeOnOther(s: Service, i: InvokeId, x: InvokeStep, k: InvokeId)
    requires i in s.invokes && InvokeEnabled(s, i, x) && InvokeFits(s, i)
    requires k != i && k in s.invokes && InvokeFits(s, k)
    ensures k in InvokeNext(s, i, x).invokes && InvokeFits(InvokeNext(s, i, x), k)
  {
    if OfCompanion(x) {
      CompanionOnOther(s, i, x, k);
    }
  }

  lemma CompanionOnOther(s: Service, i: InvokeId, x: InvokeStep, k: InvokeId)
    requires i in s.invokes && InvokeEnabled(s, i, x) && InvokeFits(s, i) && OfCompanion(x)
    requires k != i && k in s.invokes && InvokeFits(s, k)
    ensures k in InvokeNext(s, i, x).invokes && InvokeFits(InvokeNext(s, i, x), k)
  {}

  lemma InvokeOnPoller(s: Service, i: InvokeId, x: InvokeStep, c: PollerId)
    requires i in s.invokes && InvokeEnabled(s, i, x) && InvokeFits(s, i) && c in InvokeNext(s, i, x).pollers
    requires c in s.pollers ==> PollerFits(s, c)
    requires c !in s.pollers ==> c !in s.barred
    requires TableFits(s, Profile(s.invokes[i].command))
    ensures PollerFits(InvokeNext(s, i, x), c)
  {
    if x.Return? {
      ReturnOnPoller(s, i, c);
    } else if OfCompanion(x) {
      CompanionOnPoller(s, i, x, c);
    } else if x.StopEarly? || x.StopLocked? {
      StopOnPoller(s, i, x, c);
    }
  }

  lemma StopOnPoller(s: Service, i: InvokeId, x: InvokeStep, c: PollerId)
    requires i in s.invokes && InvokeEnabled(s, i, x) && InvokeFits(s, i) && (x.StopEarly? || x.StopLocked?)
    requires c in s.pollers && PollerFits(s, c)
    ensures c in InvokeNext(s, i, x).pollers && PollerFits(InvokeNext(s, i, x), c)
  {}

  lemma ReturnOnPoller(s: Service, i: InvokeId, c: PollerId)
    requires i in s.invokes && InvokeEnabled(s, i, Return) && InvokeFits(s, i)
    requires c in s.pollers && PollerFits(s, c)
    ensures PollerFits(InvokeNext(s, i, Return), c)
  {}

  lemma CompanionOnPoller(s: Service, i: InvokeId, x: InvokeStep, c: PollerId)
    requires i in s.invokes && InvokeEnabled(s, i, x) && InvokeFits(s, i) && c in InvokeNext(s, i, x).pollers
    requires OfCompanion(x) && TableFits(s, Profile(s.invokes[i].command))
    requires c in s.pollers ==> PollerFits(s, c)
    requires c !in s.pollers ==> c !in s.barred
    ensures PollerFits(InvokeNext(s, i, x), c)
  {}

  lemma InvokeOnTable(s: Service, i: InvokeId, x: InvokeStep, p: ProfileId)
    requires i in s.invokes && InvokeEnabled(s, i, x) && InvokeFits(s, i)
    requires TableFits(s, p) && TableFits(s, Profile(s.invokes[i].command))
    ensures TableFits(InvokeNext(s, i, x), p)
  {
    if OfCompanion(x) {
      CompanionOnTable(s, i, x, p);
    }
  }

  lemma CompanionOnTable(s: Service, i: InvokeId, x: InvokeStep, p: ProfileId)
    requires i in s.invokes && InvokeEnabled(s, i, x) && InvokeFits(s, i) && OfCompanion(x)
    requires TableFits(s, p) && TableFits(s, Profile(s.invokes[i].command))
    ensures TableFits(InvokeNext(s, i, x), p)
  {}

  lemma BarredExist(s: Service, i: InvokeId, x: InvokeStep)
    requires i in s.invokes && InvokeEnabled(s, i, x) && s.barred <= s.pollers.Keys
    ensures InvokeNext(s, i, x).barred <= InvokeNext(s, i, x).pollers.Keys
  {}

  lemma PollerOnInvoke(s: Service, c: PollerId, y: PollerStep, k: InvokeId)
    requires c in s.pollers && PollerEnabled(s, c, y) && PollerFits(s, c)
    requires k in s.invokes && InvokeFits(s, k)
    ensures k in PollerNext(s, c, y).invokes && InvokeFits(PollerNext(s, c, y), k)
  {}

  lemma PollerOnPoller(s: Service, c: PollerId, y: PollerStep, d: PollerId)
    requires c in s.pollers && PollerEnabled(s, c, y) && PollerFits(s, c)
    requires d in s.pollers && PollerFits(s, d)
    ensures d in PollerNext(s, c, y).pollers && PollerFits(PollerNext(s, c, y), d)
  {}

  lemma PollerOnTable(s: Service, c: PollerId, y: PollerStep, p: ProfileId)
    requires c in s.pollers && PollerEnabled(s, c, y) && TableFits(s, p) && PollerFits(s, c)
    ensures TableFits(PollerNext(s, c, y), p) && PollerNext(s, c, y).pollers.Keys == s.pollers.Keys
    ensures PollerNext(s, c, y).barred == s.barred
  {}

  // ----- the wait groups -----

  /** Putting invoke i at a new place changes the running ones by what it says. */
  lemma CountInvokes(m: map<InvokeId, Invoke>, i: InvokeId, v: Invoke)
    ensures |RunningIn(m[i := v])| == |RunningIn(m)| - (if i in m && !m[i].pc.Returned? then 1 else 0)
                                      + (if v.pc.Returned? then 0 else 1)
  {
    var rest := RunningIn(m) - {i};
    if i in m && !m[i].pc.Returned? {
      assert RunningIn(m) == rest + {i};
    } else {
      assert RunningIn(m) == rest;
    }
    if v.pc.Returned? {
      assert RunningIn(m[i := v]) == rest;
    } else {
      assert RunningIn(m[i := v]) == rest + {i};
    }
  }

  lemma CountPollers(m: map<PollerId, Poller>, c: PollerId, v: Poller)
    ensures |AliveIn(m[c := v])| == |AliveIn(m)| - (if c in m && Counted(m[c].pc) then 1 else 0)
                                    + (if Counted(v.pc) then 1 else 0)
  {
    var rest := AliveIn(m) - {c};
    if c in m && Counted(m[c].pc) {
      assert AliveIn(m) == rest + {c};
    } else {
      assert AliveIn(m) == rest;
    }
    if Counted(v.pc) {
      assert AliveIn(m[c := v]) == rest + {c};
    } else {
      assert AliveIn(m[c := v]) == rest;
    }
  }

  lemma InvokeCounts(s: Service, i: InvokeId, x: InvokeStep)
    requires i in s.invokes && InvokeEnabled(s, i, x) && InvokeFits(s, i) && CountsFit(s)
    ensures CountsFit(InvokeNext(s, i, x))
    ensures !x.Return? && !x.Refuse? ==> InvokeNext(s, i, x).active == s.active
    ensures !x.RunPoller? ==> InvokeNext(s, i, x).background == s.background
    ensures s.active > 0
  {
    var n := InvokeNext(s, i, x);
    assert i in RunningIn(s.invokes);
    CountInvokes(s.invokes, i, n.invokes[i]);
    if x.StopEarly? || x.StopLocked? || x.StopOld? {
      if s.invokes[i].command.p in s.companions && s.companions[s.invokes[i].command.p] in s.pollers {
        var c := s.companions[s.invokes[i].command.p];
        CountPollers(s.pollers, c, s.pollers[c].(cancelled := true));
      }
    } else if x.MakeContext? {
      CountPollers(s.pollers, x.c, n.pollers[x.c]);
    } else if x.RunPoller? {
      CountPollers(s.pollers, s.invokes[i].pc.c, n.pollers[s.invokes[i].pc.c]);
    }
  }

  lemma PollerCounts(s: Service, c: PollerId, y: PollerStep)
    requires c in s.pollers && PollerEnabled(s, c, y) && CountsFit(s)
    ensures CountsFit(PollerNext(s, c, y)) && PollerNext(s, c, y).active == s.active
    ensures s.background > 0 && PollerNext(s, c, y).background <= s.background
  {
    assert c in AliveIn(s.pollers);
    CountPollers(s.pollers, c, PollerNext(s, c, y).pollers[c]);
    assert s.pollers[c := s.pollers[c]] == s.pollers;
  }

  lemma InvokeClose(s: Service, i: InvokeId, x: InvokeStep)
    requires i in s.invokes && InvokeEnabled(s, i, x) && CloseFits(s) && s.active > 0
    ensures CloseFits(InvokeNext(s, i, x))
  {}

  lemma PollerClose(s: Service, c: PollerId, y: PollerStep)
    requires c in s.pollers && PollerEnabled(s, c, y) && CloseFits(s) && s.background > 0
    ensures CloseFits(PollerNext(s, c, y))
  {}

  lemma StepCounts(s: Service, step: Step)
    requires Inv(s) && Enabled(s, step)
    ensures CountsFit(Apply(s, step)) && CloseFits(Apply(s, step))
  {
    if step.InInvoke? {
      InvokeCounts(s, step.i, step.x);
      InvokeClose(s, step.i, step.x);
    } else if step.InPoller? {
      PollerCounts(s, step.c, step.y);
      PollerClose(s, step.c, step.y);
    } else {
      OtherCounts(s, step);
    }
  }

  lemma OtherCounts(s: Service, step: Step)
    requires CountsFit(s) && CloseFits(s) && Enabled(s, step) && !step.InInvoke? && !step.InPoller?
    ensures CountsFit(Apply(s, step)) && CloseFits(Apply(s, step))
  {
    if step.Admit? {
      CountInvokes(s.invokes, step.i, Invoke(step.command, Admitted));
    } else if step.TaskEnds? {
      assert |s.startup - {step.n}| == |s.startup| - 1;
    }
  }

  lemma StepInv(s: Service, step: Step)
    requires Inv(s) && Enabled(s, step)
    ensures Inv(Apply(s, step))
  {
    StepCounts(s, step);
    match step
    case InInvoke(i, x) => InvokeInv(s, i, x);
    case InPoller(c, y) => PollerInv(s, c, y);
    case Admit(i, command) => AdmitInv(s, i, command);
    case _ => SameInv(s, Apply(s, step));
  }

  lemma InvokeInv(s: Service, i: InvokeId, x: InvokeStep)
    requires Inv(s) && i in s.invokes && InvokeEnabled(s, i, x)
    ensures var n := InvokeNext(s, i, x);
            && (forall k :: k in n.invokes ==> InvokeFits(n, k)) && (forall c :: c in n.pollers ==> PollerFits(n, c))
            && (forall p :: TableFits(n, p)) && n.barred <= n.pollers.Keys
  {
    var n := InvokeNext(s, i, x);
    forall k | k in n.invokes
      ensures InvokeFits(n, k)
    {
      if k == i { InvokeOnItself(s, i, x); } else { InvokeOnOther(s, i, x, k); }
    }
    forall c | c in n.pollers
      ensures PollerFits(n, c)
    {
      InvokeOnPoller(s, i, x, c);
    }
    forall p
      ensures TableFits(n, p)
    {
      InvokeOnTable(s, i, x, p);
    }
    BarredExist(s, i, x);
  }

  lemma PollerInv(s: Service, c: PollerId, y: PollerStep)
    requires Inv(s) && c in s.pollers && PollerEnabled(s, c, y)
    ensures var n := PollerNext(s, c, y);
            && (forall k :: k in n.invokes ==> InvokeFits(n, k)) && (forall d :: d in n.pollers ==> PollerFits(n, d))
            && (forall p :: TableFits(n, p)) && n.barred <= n.pollers.Keys
  {
    var n := PollerNext(s, c, y);
    forall k | k in n.invokes
      ensures InvokeFits(n, k)
    {
      PollerOnInvoke(s, c, y, k);
    }
    forall d | d in n.pollers
      ensures PollerFits(n, d)
    {
      PollerOnPoller(s, c, y, d);
    }
    forall p
      ensures TableFits(n, p) && n.barred <= n.pollers.Keys
    {
      PollerOnTable(s, c, y, p);
    }
  }

  /** Steps that touch neither invokes nor pollers nor tables. */
  lemma SameInv(s: Service, n: Service)
    requires Inv(s) && CountsFit(n) && CloseFits(n)
    requires n.invokes == s.invokes && n.pollers == s.pollers && n.locks == s.locks && n.companions == s.companions
    requires n.barred == s.barred
    ensures Inv(n)
  {
    forall i | i in n.invokes ensures InvokeFits(n, i) { assert InvokeFits(s, i); }
    forall c | c in n.pollers ensures PollerFits(n, c) { assert PollerFits(s, c); }
    forall p ensures TableFits(n, p) { assert TableFits(s, p); }
  }

  lemma AdmitInv(s: Service, i: InvokeId, command: Command)
    requires Inv(s) && Enabled(s, Admit(i, command))
    ensures var n := Apply(s, Admit(i, command));
            && (forall k :: k in n.invokes ==> InvokeFits(n, k)) && (forall c :: c in n.pollers ==> PollerFits(n, c))
            && (forall p :: TableFits(n, p)) && n.barred <= n.pollers.Keys
  {
    var n := Apply(s, Admit(i, command));
    forall k | k in n.invokes ensures InvokeFits(n, k) { assert k != i ==> InvokeFits(s, k); }
    forall c | c in n.pollers ensures PollerFits(n, c) { assert PollerFits(s, c); }
    forall p ensures TableFits(n, p) { assert TableFits(s, p); }
  }

  // ----- what holds in every run -----

  function Execute(autoUpdate: bool, steps: seq<Step>): Option<Service> {
    if steps == [] then Some(Opened(autoUpdate))
    else
      var step := steps[|steps| - 1];
      match Execute(autoUpdate, steps[..|steps| - 1])
      case None => None
      case Some(s) => if Enabled(s, step) then Some(Apply(s, step)) else None
  }

  lemma {:induction false} RunInv(autoUpdate: bool, steps: seq<Step>)
    requires Execute(autoUpdate, steps).Some?
    ensures Inv(Execute(autoUpdate, steps).value)
  {
    if steps == [] {
      OpenedInv(autoUpdate);
    } else {
      RunInv(autoUpdate, steps[..|steps| - 1]);
      StepInv(Execute(autoUpdate, steps[..|steps| - 1]).value, steps[|steps| - 1]);
    }
  }

  predicate Carries(s: Service, i: InvokeId, command: Command) {
    i in s.invokes && s.invokes[i].command == command
  }

  lemma InvokeKeepsCommands(s: Service, k: InvokeId, x: InvokeStep, i: InvokeId, command: Command)
    requires Enabled(s, InInvoke(k, x))
    ensures Carries(InvokeNext(s, k, x), i, command) <==> Carries(s, i, command)
    ensures i in InvokeNext(s, k, x).invokes <==> i in s.invokes
  {}

  lemma PollerKeepsInvokes(s: Service, c: PollerId, y: PollerStep)
    requires Enabled(s, InPoller(c, y))
    ensures PollerNext(s, c, y).invokes == s.invokes && PollerNext(s, c, y).cancelled == s.cancelled
  {}

  /** The requests there are, with their commands, are those that were admitted. */
  lemma {:induction false} InvokesAreAdmitted(autoUpdate: bool, steps: seq<Step>, i: InvokeId, command: Command)
    requires Execute(autoUpdate, steps).Some?
    ensures Carries(Execute(autoUpdate, steps).value, i, command) <==> Admit(i, command) in steps
    ensures Admit(i, command) in steps ==> i in Execute(autoUpdate, steps).value.invokes
  {
    if steps != [] {
      var before, step := steps[..|steps| - 1], steps[|steps| - 1];
      assert steps == before + [step];
      InvokesAreAdmitted(autoUpdate, before, i, command);
      var s := Execute(autoUpdate, before).value;
      if step.InInvoke? {
        InvokeKeepsCommands(s, step.i, step.x, i, command);
      } else if step.InPoller? {
        PollerKeepsInvokes(s, step.c, step.y);
      }
    }
  }

  /** Step k of the run is the return of a profiles_close or profiles_delete of p. */
  predicate Closes(autoUpdate: bool, steps: seq<Step>, k: nat, p: ProfileId)
    requires k < |steps|
  {
    && Execute(autoUpdate, steps[..k]).Some?
    && var s := Execute(autoUpdate, steps[..k]).value;
       Enabled(s, steps[k]) && steps[k].InInvoke? && steps[k].x.Return? && s.invokes[steps[k].i].command == CloseOrDelete(p)
  }

  lemma {:induction false} BarredForGood(autoUpdate: bool, steps: seq<Step>, k: nat, p: ProfileId, c: PollerId)
    requires Execute(autoUpdate, steps).Some? && k < |steps| && Closes(autoUpdate, steps, k, p)
    requires var s := Execute(autoUpdate, steps[..k]).value; c in s.pollers && s.pollers[c].p == p
    ensures c in Execute(autoUpdate, steps).value.barred
    decreases |steps|
  {
    var n := |steps| - 1;
    if k < n {
      assert steps[..n][..k] == steps[..k];
      BarredForGood(autoUpdate, steps[..n], k, p, c);
      BarredStays(Execute(autoUpdate, steps[..n]).value, steps[n], c);
    } else {
      CloseBarsAll(Execute(autoUpdate, steps[..k]).value, steps[k].i, c);
    }
  }

  lemma CloseBarsAll(s: Service, i: InvokeId, c: PollerId)
    requires Enabled(s, InInvoke(i, Return)) && s.invokes[i].command.CloseOrDelete?
    requires c in s.pollers && s.pollers[c].p == s.invokes[i].command.p
    ensures c in Apply(s, InInvoke(i, Return)).barred
  {
    assert c in PollersOf(s, s.invokes[i].command.p);
  }

  lemma BarredStays(s: Service, step: Step, c: PollerId)
    requires Enabled(s, step) && c in s.barred
    ensures c in Apply(s, step).barred
  {
    if step.InInvoke? {
      InvokeBars(s, step.i, step.x, c);
    } else if step.InPoller? {
      PollerBars(s, step.c, step.y);
    }
  }

  lemma InvokeBars(s: Service, i: InvokeId, x: InvokeStep, c: PollerId)
    requires i in s.invokes && InvokeEnabled(s, i, x) && c in s.barred
    ensures c in InvokeNext(s, i, x).barred
  {}

  lemma PollerBars(s: Service, c: PollerId, y: PollerStep)
    requires c in s.pollers && PollerEnabled(s, c, y)
    ensures PollerNext(s, c, y).barred == s.barred
  {}

  /**
   Close beats auto-relaunch: after a profiles_close or profiles_delete of p has returned, no
   companion poller of p that existed then ever launches p again.
   */
  lemma CloseBeatsRelaunch(autoUpdate: bool, steps: seq<Step>, k: nat, p: ProfileId, c: PollerId)
    requires Execute(autoUpdate, steps).Some? && k < |steps| && Closes(autoUpdate, steps, k, p)
    requires var s := Execute(autoUpdate, steps[..k]).value; c in s.pollers && s.pollers[c].p == p
    ensures !Enabled(Execute(autoUpdate, steps).value, InPoller(c, RelaunchNow))
  {
    BarredForGood(autoUpdate, steps, k, p, c);
    RunInv(autoUpdate, steps);
    assert PollerFits(Execute(autoUpdate, steps).value, c);
  }

  /** The commands that run under the lock of profile p. */
  predicate UnderLock(command: Command, p: ProfileId) {
    command == CloseOrDelete(p) || command == Launch(p) || command == Export(p)
  }

  /** From taking a lock until returning. */
  predicate Inside(pc: InvokePc) {
    pc.HasLock? || pc.Working? || pc.Launched? || pc.CompanionStopped? || pc.ContextMade? || pc.Registered? || pc.Ending?
  }

  predicate Works(s: Service, i: InvokeId, p: ProfileId) {
    i in s.invokes && UnderLock(s.invokes[i].command, p) && Inside(s.invokes[i].pc)
  }

  predicate Relaunches(s: Service, c: PollerId, p: ProfileId) {
    c in s.pollers && s.pollers[c].p == p && (s.pollers[c].pc.Locked? || s.pollers[c].pc.Relaunching?)
  }

  /**
   One at a time: of the closes, deletes, launches and exports of a profile and the relaunches by
   its pollers, at most one is under way.
   */
  lemma OneAtATime(autoUpdate: bool, steps: seq<Step>, p: ProfileId, i: InvokeId, j: InvokeId, c: PollerId, d: PollerId)
    requires Execute(autoUpdate, steps).Some?
    ensures var s := Execute(autoUpdate, steps).value;
            && (Works(s, i, p) && Works(s, j, p) ==> i == j)
            && (Works(s, i, p) ==> !Relaunches(s, c, p))
            && (Relaunches(s, c, p) && Relaunches(s, d, p) ==> c == d)
  {
    RunInv(autoUpdate, steps);
    var s := Execute(autoUpdate, steps).value;
    assert i in s.invokes ==> InvokeFits(s, i);
    assert j in s.invokes ==> InvokeFits(s, j);
    assert c in s.pollers ==> PollerFits(s, c);
    assert d in s.pollers ==> PollerFits(s, d);
  }

  predicate PastCompanion(s: Service, i: InvokeId) {
    i in s.invokes && s.invokes[i].pc.Ending?
  }

  lemma InvokePastCompanion(s: Service, k: InvokeId, x: InvokeStep, i: InvokeId)
    requires Enabled(s, InInvoke(k, x)) && PastCompanion(InvokeNext(s, k, x), i)
    ensures PastCompanion(s, i) || (k == i && (x.RunPoller? || (x.SkipCompanion? && s.cancelled)))
  {}

  lemma StepPastCompanion(s: Service, step: Step, i: InvokeId)
    requires Enabled(s, step)
    ensures PastCompanion(Apply(s, step), i) ==>
              PastCompanion(s, i) || step == InInvoke(i, RunPoller) || (step == InInvoke(i, SkipCompanion) && s.cancelled)
    ensures Apply(s, step).cancelled ==> s.cancelled || step == CancelContext
  {
    if step.InInvoke? {
      InvokeKeepsContext(s, step.i, step.x);
      if PastCompanion(Apply(s, step), i) {
        InvokePastCompanion(s, step.i, step.x, i);
      }
    } else if step.InPoller? {
      PollerKeepsInvokes(s, step.c, step.y);
    }
  }

  lemma {:induction false} ContextOver(autoUpdate: bool, steps: seq<Step>)
    requires Execute(autoUpdate, steps).Some? && Execute(autoUpdate, steps).value.cancelled
    ensures CancelContext in steps
  {
    if steps != [] {
      var n := |steps| - 1;
      StepPastCompanion(Execute(autoUpdate, steps[..n]).value, steps[n], 0);
      if Execute(autoUpdate, steps[..n]).value.cancelled {
        ContextOver(autoUpdate, steps[..n]);
      }
    }
  }

  /** A launch that succeeded ends only once its companion runs, unless the service's own context was over. */
  lemma {:induction false} LaunchHasCompanion(autoUpdate: bool, steps: seq<Step>, i: InvokeId)
    requires Execute(autoUpdate, steps).Some? && PastCompanion(Execute(autoUpdate, steps).value, i)
    ensures InInvoke(i, RunPoller) in steps || (InInvoke(i, SkipCompanion) in steps && CancelContext in steps)
  {
    if steps != [] {
      var n := |steps| - 1;
      var s := Execute(autoUpdate, steps[..n]).value;
      StepPastCompanion(s, steps[n], i);
      if PastCompanion(s, i) {
        LaunchHasCompanion(autoUpdate, steps[..n], i);
      } else if s.cancelled {
        ContextOver(autoUpdate, steps[..n]);
      }
    }
  }

  /** The step cancels poller c: it leaves or cancels itself, or a close, delete or launch of its profile stops the companion. */
  predicate Cancels(s: Service, step: Step, c: PollerId)
    requires c in s.pollers
  {
    var p := s.pollers[c].p;
    || step == InPoller(c, Leave) || step == InPoller(c, CancelSelf)
    || (step.InInvoke? && step.i in s.invokes && p in s.companions && s.companions[p] == c
        && ((step.x in {StopEarly, StopLocked} && s.invokes[step.i].command == CloseOrDelete(p))
            || (step.x.StopOld? && s.invokes[step.i].command == Launch(p))))
  }

  lemma InvokeCancels(s: Service, i: InvokeId, x: InvokeStep, c: PollerId)
    requires Enabled(s, InInvoke(i, x)) && c in s.pollers
    requires TableFits(s, Profile(s.invokes[i].command)) && InvokeFits(s, i)
    ensures c in InvokeNext(s, i, x).pollers && InvokeNext(s, i, x).pollers[c].p == s.pollers[c].p
    ensures InvokeNext(s, i, x).pollers[c].cancelled <==> s.pollers[c].cancelled || Cancels(s, InInvoke(i, x), c)
  {}

  /**
   A poller is cancelled by nothing else; and once it has the lock it relaunches exactly if neither
   it nor the service has been cancelled.
   */
  lemma CancelledExactly(autoUpdate: bool, steps: seq<Step>, step: Step, c: PollerId)
    requires Execute(autoUpdate, steps).Some? && Enabled(Execute(autoUpdate, steps).value, step)
    requires c in Execute(autoUpdate, steps).value.pollers
    ensures
      var s := Execute(autoUpdate, steps).value;
      var t := Apply(s, step);
      && c in t.pollers && t.pollers[c].p == s.pollers[c].p
      && (t.pollers[c].cancelled <==> s.pollers[c].cancelled || Cancels(s, step, c))
      && (step == InPoller(c, CheckContext) ==> (t.pollers[c].pc.Relaunching? <==> !s.pollers[c].cancelled && !s.cancelled))
      && (step == InPoller(c, NextRound) ==> t.pollers[c].pc.Polling? && !s.pollers[c].cancelled && !s.cancelled)
      && (t.cancelled <==> s.cancelled || step.CancelContext?)
  {
    RunInv(autoUpdate, steps);
    var s := Execute(autoUpdate, steps).value;
    if step.InInvoke? {
      InvokeCancels(s, step.i, step.x, c);
      InvokeKeepsContext(s, step.i, step.x);
    } else if step.InPoller? {
      PollerCancels(s, step.c, step.y, c);
    }
  }

  lemma InvokeKeepsContext(s: Service, i: InvokeId, x: InvokeStep)
    requires Enabled(s, InInvoke(i, x))
    ensures InvokeNext(s, i, x).cancelled == s.cancelled
  {}

  lemma PollerCancels(s: Service, d: PollerId, y: PollerStep, c: PollerId)
    requires Enabled(s, InPoller(d, y)) && c in s.pollers
    ensures c in PollerNext(s, d, y).pollers && PollerNext(s, d, y).pollers[c].p == s.pollers[c].p
    ensures PollerNext(s, d, y).pollers[c].cancelled <==> s.pollers[c].cancelled || (d == c && (y.Leave? || y.CancelSelf?))
    ensures PollerNext(s, d, y).cancelled == s.cancelled
    ensures d == c && y.NextRound? ==> PollerNext(s, d, y).pollers[c].pc.Polling? && !s.pollers[c].cancelled && !s.cancelled
    ensures d == c && y.CheckContext? ==> (PollerNext(s, d, y).pollers[c].pc.Relaunching? <==> !s.pollers[c].cancelled && !s.cancelled)
  {}

  /** With the profile's lock free, at most one of its pollers is uncancelled, and it is the registered one. */
  lemma OneCompanion(autoUpdate: bool, steps: seq<Step>, c: PollerId)
    requires Execute(autoUpdate, steps).Some?
    requires var s := Execute(autoUpdate, steps).value;
             c in s.pollers && !s.pollers[c].cancelled && s.pollers[c].p !in s.locks
    ensures var s := Execute(autoUpdate, steps).value;
            s.pollers[c].p in s.companions && s.companions[s.pollers[c].p] == c
  {
    RunInv(autoUpdate, steps);
    assert PollerFits(Execute(autoUpdate, steps).value, c);
  }

  /**
   The order of shutdown: with the flag set no request is admitted; once the active requests have
   drained no background task is added; once the store is closed nobody uses it.
   */
  lemma OrderedShutdown(autoUpdate: bool, steps: seq<Step>, step: Step)
    requires Execute(autoUpdate, steps).Some? && Enabled(Execute(autoUpdate, steps).value, step)
    ensures var s := Execute(autoUpdate, steps).value;
            && (Stage(s.closePc) >= 1 ==> !step.Admit?)
            && (Stage(s.closePc) >= 4 ==> !StartsTask(step) && !step.InInvoke?)
            && (Stage(s.closePc) >= 5 ==> !UsesStore(step) && !step.InPoller? && !step.TaskEnds?)
  {
    RunInv(autoUpdate, steps);
    var s := Execute(autoUpdate, steps).value;
    match step
    case InInvoke(i, x) => InvokeCounts(s, i, x);
    case InPoller(c, y) => PollerCounts(s, c, y);
    case TaskStore(n) => assert |s.startup| > 0;
    case TaskEnds(n) => assert |s.startup| > 0;
    case _ =>
  }

  // ----- the service's fields -----

  class Desktop {
    var closing: bool
    var cancelled: bool
    var closePc: ClosePc
    var active: int
    var background: int
    var invokes: map<InvokeId, Invoke>
    var pollers: map<PollerId, Poller>
    var startup: set<nat>
    var locks: map<ProfileId, Holder>
    var companions: map<ProfileId, PollerId>
    ghost var barred: set<PollerId>

    ghost function View(): Service
      reads this
    {
      Service(closing, cancelled, closePc, active, background, invokes, pollers, startup, locks, companions, barred)
    }

    constructor (autoUpdate: bool)
      ensures View() == Opened(autoUpdate)
    {
      closing, cancelled, closePc := false, false, NotClosing;
      startup := if autoUpdate then {0, 1} else {0};
      active, background := 0, if autoUpdate then 2 else 1;
      invokes, pollers, locks, companions, barred := map[], map[], map[], map[], {};
    }

    /** The gate at the head of Invoke. */
    method Enter(i: InvokeId, command: Command) returns (admitted: bool)
      requires i !in invokes
      modifies this
      ensures admitted <==> Enabled(old(View()), Admit(i, command))
      ensures View() == if admitted then Apply(old(View()), Admit(i, command)) else old(View())
    {
      admitted := !closing;
      if admitted {
        active := active + 1;
        invokes := invokes[i := Invoke(command, Admitted)];
      }
    }

    method StopCompanion(p: ProfileId)
      modifies this
      ensures View() == Stopped(old(View()), p)
    {
      if p in companions {
        var c := companions[p];
        if c in pollers {
          pollers := pollers[c := pollers[c].(cancelled := true)];
        }
        companions := companions - {p};
      }
    }

    /** startCompanion(p) for a launch i that has succeeded, when no other section runs in between. */
    method StartCompanion(i: InvokeId, p: ProfileId, c: PollerId)
      requires i in invokes && invokes[i] == Invoke(Launch(p), Launched) && c !in pollers
      modifies this
      ensures View() == if old(cancelled) then Go(old(View()), i, Ending) else WithCompanion(old(View()), i, p, c)
    {
      if !cancelled {
        StopCompanion(p);
        pollers := pollers[c := Poller(p, false, Unborn)];
        companions := companions[p := c];
        background := background + 1;
        pollers := pollers[c := pollers[c].(pc := Polling)];
      }
      invokes := invokes[i := Invoke(Launch(p), Ending)];
    }
  }

  /** p's old companion stopped, c registered and running in its place, and launch i about to return. */
  function WithCompanion(s: Service, i: InvokeId, p: ProfileId, c: PollerId): Service {
    var t := Stopped(s, p);
    t.(companions := t.companions[p := c], pollers := t.pollers[c := Poller(p, false, Polling)],
       background := t.background + 1, invokes := t.invokes[i := Invoke(Launch(p), Ending)])
  }

  predicate Follows(s: Service, i: InvokeId, x: InvokeStep, t: Service) {
    i in s.invokes && InvokeEnabled(s, i, x) && InvokeNext(s, i, x) == t
  }

  lemma MakesContext(s: Service, i: InvokeId, p: ProfileId, c: PollerId) returns (t: Service)
    requires i in s.invokes && s.invokes[i] == Invoke(Launch(p), CompanionStopped) && c !in s.pollers
    ensures Follows(s, i, MakeContext(c), t)
    ensures t == s.(pollers := s.pollers[c := Poller(p, false, Unborn)], invokes := s.invokes[i := Invoke(Launch(p), ContextMade(c))])
  {
    t := InvokeNext(s, i, MakeContext(c));
  }

  lemma Registers(s: Service, i: InvokeId, p: ProfileId, c: PollerId) returns (t: Service)
    requires i in s.invokes && s.invokes[i] == Invoke(Launch(p), ContextMade(c))
    ensures Follows(s, i, Register, t)
    ensures t == s.(companions := s.companions[p := c], invokes := s.invokes[i := Invoke(Launch(p), Registered(c))])
  {
    t := InvokeNext(s, i, Register);
  }

  lemma Runs(s: Service, i: InvokeId, p: ProfileId, c: PollerId) returns (t: Service)
    requires i in s.invokes && s.invokes[i] == Invoke(Launch(p), Registered(c))
    requires c in s.pollers && s.pollers[c] == Poller(p, false, Unborn)
    ensures Follows(s, i, RunPoller, t)
    ensures t == s.(pollers := s.pollers[c := Poller(p, false, Polling)], background := s.background + 1,
                    invokes := s.invokes[i := Invoke(Launch(p), Ending)])
  {
    t := InvokeNext(s, i, RunPoller);
  }

  /** That is where the machine's four steps lead, one after the other. */
  lemma StartsInOrder(s: Service, i: InvokeId, p: ProfileId, c: PollerId) returns (s1: Service, s2: Service, s3: Service)
    requires i in s.invokes && s.invokes[i] == Invoke(Launch(p), Launched) && !s.cancelled && c !in s.pollers
    ensures Follows(s, i, StopOld, s1) && Follows(s1, i, MakeContext(c), s2) && Follows(s2, i, Register, s3)
    ensures Follows(s3, i, RunPoller, WithCompanion(s, i, p, c))
  {
    var t := Stopped(s, p);
    s1 := StopsOld(s, i, p);
    s2 := MakesContext(s1, i, p, c);
    s3 := Registers(s2, i, p, c);
    var s4 := Runs(s3, i, p, c);
    Overwritten(t.pollers, c, Poller(p, false, Unborn), Poller(p, false, Polling));
    Overwritten(t.invokes, i, Invoke(Launch(p), CompanionStopped), Invoke(Launch(p), ContextMade(c)));
    Overwritten(t.invokes, i, Invoke(Launch(p), ContextMade(c)), Invoke(Launch(p), Registered(c)));
    Overwritten(t.invokes, i, Invoke(Launch(p), Registered(c)), Invoke(Launch(p), Ending));
  }

  lemma StopsOld(s: Service, i: InvokeId, p: ProfileId) returns (t: Service)
    requires i in s.invokes && s.invokes[i] == Invoke(Launch(p), Launched) && !s.cancelled
    ensures Follows(s, i, StopOld, t)
    ensures t == Stopped(s, p).(invokes := s.invokes[i := Invoke(Launch(p), CompanionStopped)])
    ensures Stopped(s, p).invokes == s.invokes && t.pollers.Keys == s.pollers.Keys
  {
    t := InvokeNext(s, i, StopOld);
  }

  lemma Overwritten<K, V>(m: map<K, V>, k: K, v: V, w: V)
    ensures m[k := v][k := w] == m[k := w]
  {}

  /** Afterwards c is the profile's companion, a registered one before it is cancelled, and no other poller is touched. */
  lemma OneStarted(s: Service, i: InvokeId, p: ProfileId, c: PollerId, d: PollerId)
    requires c !in s.pollers && d in s.pollers
    ensures
      var t := WithCompanion(s, i, p, c);
      && t.companions == s.companions[p := c] && t.pollers[c] == Poller(p, false, Polling)
      && d in t.pollers
      && t.pollers[d] == if p in s.companions && s.companions[p] == d then s.pollers[d].(cancelled := true) else s.pollers[d]
  {
    assert (s.companions - {p})[p := c] == s.companions[p := c];
  }
}
