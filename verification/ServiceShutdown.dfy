/**
 The end of the service: once its context is over every step that is more than a use of the store
 brings it closer to the end, some such step is always possible, and so Close returns.
 */
module ServiceShutdown {
  import opened Common
  import opened Sums
  import opened ServiceLifecycle

  // ----- the rank -----

  function InvokeRank(pc: InvokePc): nat {
    match pc
    case Admitted => 22
    case WantLock => 21
    case HasLock => 20
    case Working => 19
    case Launched => 18
    case CompanionStopped => 17
    case ContextMade(_) => 3          // a new poller came with it
    case Registered(_) => 2
    case Ending => 1
    case Returned => 0
  }

  function PollerRank(v: Poller): nat {
    var stage := match v.pc
      case Unborn => 6
      case Polling => 5
      case WantsLock => 4
      case Locked => 3
      case Relaunching => 2
      case Unlocked => 1
      case Gone => 0;
    2 * stage + if v.cancelled then 0 else 1
  }

  function InvokeRanks(m: map<InvokeId, Invoke>): map<nat, nat> {
    map i | i in m :: InvokeRank(m[i].pc)
  }

  function PollerRanks(m: map<PollerId, Poller>): map<nat, nat> {
    map c | c in m :: PollerRank(m[c])
  }

  ghost function Rank(s: Service): nat {
    Sum(InvokeRanks(s.invokes)) + Sum(PollerRanks(s.pollers)) + |s.startup| + (6 - Stage(s.closePc))
  }

  /** Steps that change more than the store or the browser. */
  predicate Moves(step: Step) {
    match step
    case Admit(_, _) => false
    case InInvoke(_, x) => !x.UseStore?
    case InPoller(_, y) => !y.PollerStore? && !y.RelaunchNow?
    case TaskStore(_) => false
    case _ => true
  }

  /** The service's context is over, and Close under way. */
  predicate Ending(s: Service) {
    Stage(s.closePc) >= 2
  }

  lemma PutInvoke(m: map<InvokeId, Invoke>, i: InvokeId, v: Invoke)
    ensures Sum(InvokeRanks(m[i := v])) == Sum(InvokeRanks(m)) - (if i in m then InvokeRank(m[i].pc) else 0) + InvokeRank(v.pc)
  {
    assert InvokeRanks(m[i := v]) == InvokeRanks(m)[i := InvokeRank(v.pc)];
    SumPut(InvokeRanks(m), i, InvokeRank(v.pc));
  }

  lemma PutPoller(m: map<PollerId, Poller>, c: PollerId, v: Poller)
    ensures Sum(PollerRanks(m[c := v])) == Sum(PollerRanks(m)) - (if c in m then PollerRank(m[c]) else 0) + PollerRank(v)
  {
    assert PollerRanks(m[c := v]) == PollerRanks(m)[c := PollerRank(v)];
    SumPut(PollerRanks(m), c, PollerRank(v));
  }

  // ----- every moving step lowers it -----

  lemma StopLowers(s: Service, p: ProfileId)
    ensures Stopped(s, p).invokes == s.invokes && Sum(PollerRanks(Stopped(s, p).pollers)) <= Sum(PollerRanks(s.pollers))
  {
    if p in s.companions && s.companions[p] in s.pollers {
      PutPoller(s.pollers, s.companions[p], s.pollers[s.companions[p]].(cancelled := true));
    }
  }

  /** Apart from pollers, a step of an Invoke lowers the Invoke's own rank; by enough for a poller it makes. */
  lemma InvokeGoesOn(s: Service, i: InvokeId, x: InvokeStep)
    requires i in s.invokes && InvokeEnabled(s, i, x) && !x.UseStore?
    ensures InvokeNext(s, i, x).invokes == s.invokes[i := InvokeNext(s, i, x).invokes[i]]
    ensures InvokeRank(InvokeNext(s, i, x).invokes[i].pc) + (if x.MakeContext? then 14 else 1) <= InvokeRank(s.invokes[i].pc)
  {
    if OfCompanion(x) {
      CompanionGoesOn(s, i, x);
    }
  }

  lemma CompanionGoesOn(s: Service, i: InvokeId, x: InvokeStep)
    requires i in s.invokes && InvokeEnabled(s, i, x) && OfCompanion(x)
    ensures InvokeNext(s, i, x).invokes == s.invokes[i := InvokeNext(s, i, x).invokes[i]]
    ensures InvokeRank(InvokeNext(s, i, x).invokes[i].pc) + (if x.MakeContext? then 14 else 1) <= InvokeRank(s.invokes[i].pc)
  {}

  lemma InvokeLeavesClose(s: Service, i: InvokeId, x: InvokeStep)
    requires i in s.invokes && InvokeEnabled(s, i, x)
    ensures InvokeNext(s, i, x).startup == s.startup && InvokeNext(s, i, x).closePc == s.closePc
  {}

  lemma PollerLeavesClose(s: Service, c: PollerId, y: PollerStep)
    requires c in s.pollers && PollerEnabled(s, c, y)
    ensures PollerNext(s, c, y).startup == s.startup && PollerNext(s, c, y).closePc == s.closePc
  {}

  lemma PollersGoOn(s: Service, i: InvokeId, x: InvokeStep)
    requires i in s.invokes && InvokeEnabled(s, i, x) && InvokeFits(s, i)
    ensures Sum(PollerRanks(InvokeNext(s, i, x).pollers)) <= Sum(PollerRanks(s.pollers)) + if x.MakeContext? then 13 else 0
  {
    var v := s.invokes[i];
    match x
    case StopEarly => StopLowers(s, v.command.p);
    case StopLocked => StopLowers(s, v.command.p);
    case StopOld => StopLowers(s, v.command.p);
    case MakeContext(c) => PutPoller(s.pollers, c, Poller(v.command.p, false, Unborn));
    case RunPoller => PutPoller(s.pollers, v.pc.c, s.pollers[v.pc.c].(pc := Polling));
    case _ =>
  }

  lemma PollerLowers(s: Service, c: PollerId, y: PollerStep)
    requires c in s.pollers && PollerEnabled(s, c, y) && s.cancelled && !y.PollerStore? && !y.RelaunchNow?
    ensures Rank(PollerNext(s, c, y)) < Rank(s)
  {
    var n := PollerNext(s, c, y);
    assert n.pollers == s.pollers[c := n.pollers[c]];
    PutPoller(s.pollers, c, n.pollers[c]);
  }

  lemma StepLowers(s: Service, step: Step)
    requires Inv(s) && Ending(s) && Enabled(s, step) && Moves(step)
    ensures Rank(Apply(s, step)) < Rank(s)
  {
    match step
    case InInvoke(i, x) =>
      InvokeGoesOn(s, i, x);
      InvokeLeavesClose(s, i, x);
      PollersGoOn(s, i, x);
      PutInvoke(s.invokes, i, InvokeNext(s, i, x).invokes[i]);
    case InPoller(c, y) => PollerLowers(s, c, y);
    case TaskEnds(n) => assert |s.startup - {n}| == |s.startup| - 1;
    case _ =>
  }

  /** The other steps leave the service as it is; none of them is a new request. */
  lemma OtherwiseNothing(s: Service, step: Step)
    requires Inv(s) && Ending(s) && Enabled(s, step) && !Moves(step)
    ensures Apply(s, step) == s
  {}

  lemma EndingStays(s: Service, step: Step)
    requires Ending(s) && Enabled(s, step)
    ensures Ending(Apply(s, step))
  {
    if step.InInvoke? {
      InvokeLeavesClose(s, step.i, step.x);
    } else if step.InPoller? {
      PollerLeavesClose(s, step.c, step.y);
    }
  }

  // ----- some moving step is always possible -----

  /** An Invoke that does not wait for a lock. */
  lemma InvokeMoves(s: Service, i: InvokeId) returns (step: Step)
    requires s.cancelled && i in s.invokes && InvokeFits(s, i) && !s.invokes[i].pc.Returned? && !s.invokes[i].pc.WantLock?
    ensures Moves(step) && Enabled(s, step)
  {
    var v := s.invokes[i];
    var x := match v.pc
      case Admitted => Refuse
      case HasLock => if v.command.CloseOrDelete? then StopLocked else SkipLockedStop
      case Launched => SkipCompanion
      case CompanionStopped => MakeContext(Fresh(s.pollers.Keys))
      case ContextMade(_) => Register
      case Registered(_) => RunPoller
      case _ => Return;
    step := InInvoke(i, x);
  }

  /** Whoever holds a lock can go on. */
  lemma HolderMoves(s: Service, p: ProfileId) returns (step: Step)
    requires Inv(s) && s.cancelled && p in s.locks
    ensures Moves(step) && Enabled(s, step)
  {
    assert TableFits(s, p);
    match s.locks[p]
    case ByInvoke(i) => step := InvokeMoves(s, i);
    case ByPoller(c) => step := InPoller(c, if s.pollers[c].pc.Locked? then CheckContext else ReleaseLock);
  }

  lemma AnyInvokeMoves(s: Service, i: InvokeId) returns (step: Step)
    requires Inv(s) && s.cancelled && i in s.invokes && !s.invokes[i].pc.Returned?
    ensures Moves(step) && Enabled(s, step)
  {
    assert InvokeFits(s, i);
    if !s.invokes[i].pc.WantLock? {
      step := InvokeMoves(s, i);
    } else if LockOf(s.invokes[i].command).value in s.locks {
      step := HolderMoves(s, LockOf(s.invokes[i].command).value);
    } else {
      step := InInvoke(i, TakeLock);
    }
  }

  lemma PollerMoves(s: Service, c: PollerId) returns (step: Step)
    requires Inv(s) && s.cancelled && c in s.pollers && !s.pollers[c].pc.Gone?
    ensures Moves(step) && Enabled(s, step)
  {
    assert PollerFits(s, c);
    var v := s.pollers[c];
    match v.pc
    case Unborn => step := AnyInvokeMoves(s, s.locks[v.p].i);
    case WantsLock =>
      if v.p in s.locks {
        step := HolderMoves(s, v.p);
      } else {
        step := InPoller(c, TakePollerLock);
      }
    case Locked => step := InPoller(c, CheckContext);
    case Relaunching => step := InPoller(c, ReleaseLock);
    case _ => step := InPoller(c, Leave);
  }

  /** Until the store is closed some step that brings the end closer is possible: no wait cycle holds Close up. */
  lemma NeverStuck(s: Service) returns (step: Step)
    requires Inv(s) && Ending(s) && !s.closePc.StoreClosed?
    ensures Moves(step) && Enabled(s, step)
  {
    if i :| i in s.invokes && !s.invokes[i].pc.Returned? {
      step := AnyInvokeMoves(s, i);
    } else if c :| c in s.pollers && !s.pollers[c].pc.Gone? {
      step := PollerMoves(s, c);
    } else if n :| n in s.startup {
      step := TaskEnds(n);
    } else {
      assert RunningIn(s.invokes) == {} && AliveIn(s.pollers) == {} && s.startup == {};
      step := match s.closePc
        case ContextCancelled => CloseManagers
        case ManagersClosed => WaitActive
        case ActiveDrained => WaitBackground
        case _ => CloseStore;
    }
  }

  /** With its context over, the service stands still exactly when Close has closed the store. */
  lemma StillExactlyWhenClosed(s: Service)
    requires Inv(s) && Ending(s)
    ensures s.closePc.StoreClosed? <==> forall step :: Moves(step) ==> !Enabled(s, step)
  {
    if s.closePc.StoreClosed? {
      forall step | Moves(step)
        ensures !Enabled(s, step)
      {
        ClosedIsStill(s, step);
      }
    } else {
      var step := NeverStuck(s);
    }
  }

  lemma ClosedIsStill(s: Service, step: Step)
    requires Inv(s) && s.closePc.StoreClosed? && Moves(step)
    ensures !Enabled(s, step)
  {
    match step
    case InInvoke(i, x) =>
      if Enabled(s, step) {
        InvokeCounts(s, i, x);
      }
    case InPoller(c, y) =>
      if Enabled(s, step) {
        PollerCounts(s, c, y);
      }
    case TaskEnds(n) => assert n in s.startup ==> |s.startup| > 0;
    case _ =>
  }

  // ----- so Close returns -----

  /** How many of the steps move. */
  function Moved(steps: seq<Step>): nat {
    if steps == [] then 0 else Moved(steps[..|steps| - 1]) + if Moves(steps[|steps| - 1]) then 1 else 0
  }

  /** However a run goes on once the context is over, it has at most this many steps that move. */
  lemma {:induction false} EndIsBounded(autoUpdate: bool, steps: seq<Step>, more: seq<Step>)
    requires Execute(autoUpdate, steps).Some? && Ending(Execute(autoUpdate, steps).value)
    requires Execute(autoUpdate, steps + more).Some?
    ensures Ending(Execute(autoUpdate, steps + more).value)
    ensures Moved(more) + Rank(Execute(autoUpdate, steps + more).value) <= Rank(Execute(autoUpdate, steps).value)
  {
    if more == [] {
      assert steps + more == steps;
    } else {
      var before, step := more[..|more| - 1], more[|more| - 1];
      assert (steps + more)[..|steps + more| - 1] == steps + before;
      EndIsBounded(autoUpdate, steps, before);
      RunInv(autoUpdate, steps + before);
      var s := Execute(autoUpdate, steps + before).value;
      EndingStays(s, step);
      if Moves(step) {
        StepLowers(s, step);
      } else {
        OtherwiseNothing(s, step);
      }
    }
  }

  lemma OneMore(autoUpdate: bool, steps: seq<Step>, step: Step, more: seq<Step>)
    requires Execute(autoUpdate, steps).Some? && Enabled(Execute(autoUpdate, steps).value, step)
    ensures Execute(autoUpdate, steps + [step]) == Some(Apply(Execute(autoUpdate, steps).value, step))
    ensures steps + [step] + more == steps + ([step] + more)
  {
    assert (steps + [step])[..|steps|] == steps;
  }

  /** And from any such point of any run moving steps alone lead to a closed store. */
  lemma {:induction false} CloseCompletes(autoUpdate: bool, steps: seq<Step>) returns (more: seq<Step>)
    requires Execute(autoUpdate, steps).Some? && Ending(Execute(autoUpdate, steps).value)
    ensures forall i :: 0 <= i < |more| ==> Moves(more[i])
    ensures Execute(autoUpdate, steps + more).Some? && Execute(autoUpdate, steps + more).value.closePc.StoreClosed?
    decreases Rank(Execute(autoUpdate, steps).value)
  {
    var s := Execute(autoUpdate, steps).value;
    if s.closePc.StoreClosed? {
      more := [];
      assert steps + [] == steps;
    } else {
      RunInv(autoUpdate, steps);
      var step := NeverStuck(s);
      StepLowers(s, step);
      EndingStays(s, step);
      OneMore(autoUpdate, steps, step, []);
      var rest := CloseCompletes(autoUpdate, steps + [step]);
      OneMore(autoUpdate, steps, step, rest);
      more := [step] + rest;
    }
  }
}
