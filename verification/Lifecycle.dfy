/**
 The browser manager and the debugger manager together, wired as the service wires them: the
 debugger reads endpoints from the browser manager, and the handler of the "closed" event runs
 the debugger's CloseProfile.
 */
module Lifecycle {
  import opened Common
  import D = DebuggerProtocol
  import B = BrowserLifecycle
  import T = DebuggerTables

  datatype Joint = Joint(
    d: D.Debugger,
    b: B.Browser,
    handlers: map<B.InstanceId, D.CloserId>)   // the CloseProfile run by the handler of "closed"

  const Init := Joint(D.Init, B.Init, map[])

  datatype Step =
    | Debug(ds: D.Step)
    | Browse(bs: B.Step)
    | HandlerCloses(i: B.InstanceId, c: D.CloserId)   // first section of the handler's CloseProfile
    | HandlerReturns(i: B.InstanceId)

  predicate Enabled(j: Joint, step: Step) {
    match step
    case Debug(s) =>
      && D.Enabled(j.d, s)
      && (s.FirstRead? ==>
            && B.Get(j.b.r, j.d.attaches[s.a].profile) == Some(s.r.incarnation)
            && s.r.url == j.b.r.instances[s.r.incarnation].url)
      && (s.SecondRead? ==>
            var h := B.Get(j.b.r, j.d.attaches[s.a].profile);
            h.Some? && s.url == j.b.r.instances[h.value].url)
    case Browse(s) => B.Enabled(j.b, s) && !(s.OnInstance? && s.w.HandlerReturns?)
    case HandlerCloses(i, c) =>
      && i in j.b.r.instances && j.b.r.instances[i].watch.Handling? && i !in j.handlers
      && c !in j.d.closers
    case HandlerReturns(i) =>
      && B.Enabled(j.b, B.OnInstance(i, B.InstanceStep.HandlerReturns))
      && i in j.handlers && j.handlers[i] in j.d.closers && j.d.closers[j.handlers[i]].returned
  }

  function Apply(j: Joint, step: Step): Joint
    requires Enabled(j, step)
  {
    match step
    case Debug(s) => j.(d := D.Apply(j.d, s))
    case Browse(s) => j.(b := B.Apply(j.b, s))
    case HandlerCloses(i, c) =>
      j.(d := D.Apply(j.d, D.BeginProfile(c, j.b.r.instances[i].profile)), handlers := j.handlers[i := c])
    case HandlerReturns(i) => j.(b := B.Apply(j.b, B.OnInstance(i, B.InstanceStep.HandlerReturns)))
  }

  // ----- the invariant -----

  /** Ticket a is not indexed and can no longer publish. */
  predicate Dead(d: D.Debugger, a: T.Ticket) {
    a in d.attaches && !d.attaches[a].phase.Indexed? && (D.IsPending(d.attaches[a].phase) ==> a in d.t.cancelled)
  }

  /** The instance an attach read first was published for its profile; past its handler the attach is dead. */
  ghost predicate ReadFits(j: Joint, a: T.Ticket)
    requires a in j.d.attaches
  {
    var x := j.d.attaches[a];
    x.first.Some? ==>
      var i := x.first.value.incarnation;
      && i in j.b.r.instances && j.b.r.instances[i].published && j.b.r.instances[i].profile == x.profile
      && (i in j.handlers ==> Dead(j.d, a))
  }

  ghost predicate HandlerFits(j: Joint, i: B.InstanceId)
    requires i in j.b.r.instances
  {
    var x := j.b.r.instances[i];
    && (x.watch.Handled? || x.watch.Finished? ==> i in j.handlers)
    && (i in j.handlers ==> x.watch.Handling? || x.watch.Handled? || x.watch.Finished?)
    && (i in j.handlers ==> j.handlers[i] in j.d.closers && j.d.closers[j.handlers[i]].scope == D.OneProfile(x.profile))
  }

  ghost predicate Inv(j: Joint) {
    && D.Inv(j.d) && B.Inv(j.b)
    && (forall a :: a in j.d.attaches ==> ReadFits(j, a))
    && (forall i :: i in j.b.r.instances ==> HandlerFits(j, i))
    && j.handlers.Keys <= j.b.r.instances.Keys
  }

  lemma InitInv()
    ensures Inv(Init)
  {
    D.InitInv();
    B.InitInv();
  }

  /** A dead ticket stays dead, and nobody rewrites what an attach read first. */
  lemma DeadStays(d: D.Debugger, s: D.Step, a: T.Ticket)
    requires D.Enabled(d, s) && a in d.attaches
    ensures a in D.Apply(d, s).attaches && D.Apply(d, s).attaches[a].profile == d.attaches[a].profile
    ensures Dead(d, a) ==> Dead(D.Apply(d, s), a)
    ensures d.attaches[a].first.Some? ==> D.Apply(d, s).attaches[a].first == d.attaches[a].first
    ensures !(s.FirstRead? && s.a == a) ==> D.Apply(d, s).attaches[a].first == d.attaches[a].first
  {}

  lemma ClosersStay(d: D.Debugger, s: D.Step, c: D.CloserId)
    requires D.Enabled(d, s) && c in d.closers
    ensures c in D.Apply(d, s).closers && D.Apply(d, s).closers[c].scope == d.closers[c].scope
    ensures d.closers[c].returned ==> D.Apply(d, s).closers[c].returned
  {}

  /** CloseProfile kills every attach and session of its profile. */
  lemma CloseKills(d: D.Debugger, c: D.CloserId, p: ProfileId, a: T.Ticket)
    requires D.Inv(d) && D.Enabled(d, D.BeginProfile(c, p)) && a in d.attaches && d.attaches[a].profile == p
    ensures Dead(D.Apply(d, D.BeginProfile(c, p)), a)
  {
    assert D.Fits(d, p, a);
    T.ProfileTakenSound(d.t, p);
    assert a in Lookup(d.t.profiles, p) <==> a in d.t.sessions && d.t.sessions[a] == p;
  }

  /** What Get returns is indexed, so its watcher has not got past waiting. */
  lemma GetIsFresh(b: B.Browser, p: ProfileId)
    requires B.Inv(b) && B.Get(b.r, p).Some?
    ensures var i := B.Get(b.r, p).value;
            i in b.r.instances && b.r.instances[i].published && b.r.instances[i].profile == p
            && (b.r.instances[i].watch.NotStarted? || b.r.instances[i].watch.Waiting?)
  {
    assert B.Fits(b.r, b.turn, B.Get(b.r, p).value);
  }

  lemma StepRead(j: Joint, step: Step, a: T.Ticket)
    requires Inv(j) && Enabled(j, step) && a in Apply(j, step).d.attaches
    ensures ReadFits(Apply(j, step), a)
  {
    match step
    case Debug(s) =>
      if a in j.d.attaches {
        DeadStays(j.d, s, a);
        if s.FirstRead? && s.a == a {
          GetIsFresh(j.b, j.d.attaches[a].profile);
          assert HandlerFits(j, s.r.incarnation);
        }
      }
    case Browse(s) => B.StepInv(j.b, s);
    case HandlerReturns(i) => B.StepInv(j.b, B.OnInstance(i, B.InstanceStep.HandlerReturns));
    case HandlerCloses(i, c) =>
      var p := j.b.r.instances[i].profile;
      DeadStays(j.d, D.BeginProfile(c, p), a);
      if j.d.attaches[a].profile == p {
        CloseKills(j.d, c, p, a);
      }
  }

  /** Only the watcher itself moves past the handler, and it does not move back. */
  lemma WatchMoves(b: B.Browser, s: B.Step, i: B.InstanceId)
    requires B.Inv(b) && B.Enabled(b, s) && i in b.r.instances && !(s.OnInstance? && s.w.HandlerReturns?)
    ensures i in B.Apply(b, s).r.instances
    ensures var w, v := b.r.instances[i].watch, B.Apply(b, s).r.instances[i].watch;
            && (w.Handling? ==> v.Handling?)
            && (v.Handled? ==> w.Handled?)
            && (v.Finished? ==> w.Handled? || w.Finished?)
            && (w.Handled? || w.Finished? ==> v.Handled? || v.Finished?)
    ensures B.Apply(b, s).r.instances[i].profile == b.r.instances[i].profile
  {
    match s
    case InLaunch(l) => B.LaunchGrows(b.r, b.turn, l);
    case InClose(c) => B.CloseGrows(b.r, b.turn, c);
    case OnInstance(k, w) => B.InstanceGrows(b.r, k, w);
    case _ =>
  }

  lemma ClosersMatter(j: Joint, k: Joint, i: B.InstanceId)
    requires i in j.b.r.instances && HandlerFits(j, i) && i in k.b.r.instances
    requires k.b.r.instances[i].profile == j.b.r.instances[i].profile && (i in k.handlers <==> i in j.handlers)
    requires i in j.handlers ==> k.handlers[i] == j.handlers[i] && j.handlers[i] in k.d.closers
                                 && k.d.closers[j.handlers[i]].scope == j.d.closers[j.handlers[i]].scope
    requires var w, v := j.b.r.instances[i].watch, k.b.r.instances[i].watch;
             (w.Handling? ==> v.Handling?) && (v.Handled? ==> w.Handled?) && (v.Finished? ==> w.Handled? || w.Finished?)
             && (w.Handled? || w.Finished? ==> v.Handled? || v.Finished?)
    ensures HandlerFits(k, i)
  {}

  lemma StepHandler(j: Joint, step: Step, i: B.InstanceId)
    requires Inv(j) && Enabled(j, step) && i in Apply(j, step).b.r.instances
    ensures HandlerFits(Apply(j, step), i)
  {
    match step
    case Debug(s) =>
      if i in j.handlers {
        ClosersStay(j.d, s, j.handlers[i]);
      }
      ClosersMatter(j, Apply(j, step), i);
    case Browse(s) =>
      if i in j.b.r.instances {
        WatchMoves(j.b, s, i);
        ClosersMatter(j, Apply(j, step), i);
      } else {
        StartIsFresh(j.b, s, i);
      }
    case HandlerReturns(h) =>
      assert HandlerFits(j, i) && HandlerFits(j, h);
    case HandlerCloses(h, c) =>
      assert HandlerFits(j, i);
      if i in j.handlers {
        ClosersStay(j.d, D.BeginProfile(c, j.b.r.instances[h].profile), j.handlers[i]);
      }
  }

  lemma StartIsFresh(b: B.Browser, s: B.Step, i: B.InstanceId)
    requires B.Enabled(b, s) && i !in b.r.instances && i in B.Apply(b, s).r.instances
    ensures B.Apply(b, s).r.instances[i].watch.NotStarted?
  {}

  lemma StepInv(j: Joint, step: Step)
    requires Inv(j) && Enabled(j, step)
    ensures Inv(Apply(j, step))
  {
    match step {
      case Debug(s) => D.StepInv(j.d, s);
      case Browse(s) => B.StepInv(j.b, s);
      case HandlerReturns(i) => B.StepInv(j.b, B.OnInstance(i, B.InstanceStep.HandlerReturns));
      case HandlerCloses(i, c) => D.StepInv(j.d, D.BeginProfile(c, j.b.r.instances[i].profile));
    }
    var k := Apply(j, step);
    forall a | a in k.d.attaches
      ensures ReadFits(k, a)
    {
      StepRead(j, step, a);
    }
    forall i | i in k.b.r.instances
      ensures HandlerFits(k, i)
    {
      StepHandler(j, step, i);
    }
  }

  // ----- what holds in every run -----

  function Execute(steps: seq<Step>): Option<Joint> {
    if steps == [] then Some(Init)
    else
      var s := steps[|steps| - 1];
      match Execute(steps[..|steps| - 1])
      case None => None
      case Some(j) => if Enabled(j, s) then Some(Apply(j, s)) else None
  }

  lemma {:induction false} RunInv(steps: seq<Step>)
    requires Execute(steps).Some?
    ensures Inv(Execute(steps).value)
  {
    if steps == [] {
      InitInv();
    } else {
      RunInv(steps[..|steps| - 1]);
      StepInv(Execute(steps[..|steps| - 1]).value, steps[|steps| - 1]);
    }
  }

  /**
   Once the "closed" event of a browser instance has been emitted, and in every later state, no
   session whose attach first read that instance's endpoint is indexed, and no attach that
   read it can still publish, whatever was launched since.
   */
  lemma NoStaleSession(steps: seq<Step>, i: B.InstanceId, a: T.Ticket)
    requires Execute(steps).Some?
    requires var j := Execute(steps).value;
             && i in j.b.r.instances && |j.b.r.instances[i].log| == 2
             && a in j.d.attaches && j.d.attaches[a].first.Some? && j.d.attaches[a].first.value.incarnation == i
    ensures var j := Execute(steps).value;
            && a !in j.d.t.sessions
            && (D.Enabled(j.d, D.TryPublish(a)) ==> a !in D.Apply(j.d, D.TryPublish(a)).t.sessions)
  {
    RunInv(steps);
    var j := Execute(steps).value;
    assert B.Fits(j.b.r, j.b.turn, i);
    assert HandlerFits(j, i) && ReadFits(j, a);
    assert D.Fits(j.d, j.d.attaches[a].profile, a);
  }
}
