/**
 The SOCKS bridge's connection accounting. One goroutine accepts clients, one serves each client
 and dials at most one upstream connection for it. Every step is one critical section, one Close
 of a connection, or one network operation that succeeded or failed.
 */
module SocksBridge {
  import opened Sums

  /** The n-th accepted client, and the upstream connection dialled for it. */
  datatype Conn = Client(n: nat) | Upstream(n: nat)

  /** A key of the connections map: the connection itself, or the buffered wrapper around it. */
  datatype Key = Plain(conn: Conn) | Wrapped(conn: Conn)

  /** Where the goroutine that serves a client is. */
  datatype Pc =
    | Serving                            // reading the client's request
    | Dialing
    | Dialed                             // connected, not tracked yet
    | Shaking                            // upstream handshake
    | Refused                            // the swap found the bridge closed
    | Relaying(key: Key)                 // dial has returned this connection
    | Dropping(key: Key, shut: bool, held: bool)   // untrack of the upstream side; held: key is in the map
    | Leaving(shut: bool)                // untrack of the client
    | Finished

  datatype Acceptor = Waiting | Got(n: nat) | Stopped

  datatype State = State(
    closed: bool,
    acceptor: Acceptor,
    next: nat,                           // clients accepted so far
    tasks: map<nat, Pc>,
    tracked: set<Key>,                   // the connections map
    open: set<Conn>)                     // sockets not closed yet

  function Initial(): State {
    State(false, Waiting, 0, map[], {}, {})
  }

  // ----- the steps -----

  datatype Step =
    | Accept
    | AcceptFails
    | TrackClient
    | ServeFails(n: nat)
    | StartDial(n: nat)
    | DialFails(n: nat)
    | DialWorks(n: nat)
    | TrackUpstream(n: nat)
    | ShakeFails(n: nat)
    | ShakeSocks(n: nat)
    | Swap(n: nat)
    | CloseRefused(n: nat)
    | RelayEnds(n: nat, clean: bool)
    | ShutUpstream(n: nat)
    | ForgetUpstream(n: nat)
    | ShutClient(n: nat)
    | ForgetClient(n: nat)
    | Close

  predicate IsAt(s: State, n: nat, pc: Pc) {
    n in s.tasks && s.tasks[n] == pc
  }

  predicate Enabled(s: State, step: Step) {
    match step
    case Accept => !s.closed && s.acceptor == Waiting
    case AcceptFails => s.acceptor == Waiting
    case TrackClient => s.acceptor.Got?
    case ServeFails(n) => IsAt(s, n, Serving)
    case StartDial(n) => IsAt(s, n, Serving)
    case DialFails(n) => IsAt(s, n, Dialing)
    case DialWorks(n) => IsAt(s, n, Dialing)
    case TrackUpstream(n) => IsAt(s, n, Dialed)
    case ShakeFails(n) => IsAt(s, n, Shaking)
    case ShakeSocks(n) => IsAt(s, n, Shaking)
    case Swap(n) => IsAt(s, n, Shaking)
    case CloseRefused(n) => IsAt(s, n, Refused)
    case RelayEnds(n, _) => n in s.tasks && s.tasks[n].Relaying?
    case ShutUpstream(n) => n in s.tasks && s.tasks[n].Dropping? && !s.tasks[n].shut
    case ForgetUpstream(n) => n in s.tasks && s.tasks[n].Dropping? && s.tasks[n].shut
    case ShutClient(n) => IsAt(s, n, Leaving(false))
    case ForgetClient(n) => IsAt(s, n, Leaving(true))
    case Close => true
  }

  /** track: closes the connection instead of adding it once the bridge is closed. */
  function Track(s: State, c: Conn): State {
    if s.closed then s.(open := s.open - {c}) else s.(tracked := s.tracked + {Plain(c)})
  }

  /** The end of the HTTP path: the wrapper takes the original's place, unless the bridge is closed. */
  function SwapKeys(s: State, c: Conn): State {
    if s.closed then s.(tracked := s.tracked - {Plain(c)}) else s.(tracked := s.tracked - {Plain(c)} + {Wrapped(c)})
  }

  function ClosedBridge(s: State): State {
    s.(closed := true, open := s.open - set k | k in s.tracked :: k.conn)
  }

  function To(s: State, n: nat, pc: Pc): State {
    s.(tasks := s.tasks[n := pc])
  }

  function Apply(s: State, step: Step): State
    requires Enabled(s, step)
  {
    match step
    case Accept => s.(acceptor := Got(s.next), next := s.next + 1, open := s.open + {Client(s.next)})
    case AcceptFails => s.(acceptor := Stopped)
    case TrackClient =>
      var n := s.acceptor.n;
      var s1 := Track(s, Client(n)).(acceptor := Waiting);
      if s.closed then s1 else To(s1, n, Serving)
    case ServeFails(n) => To(s, n, Leaving(false))
    case StartDial(n) => To(s, n, Dialing)
    case DialFails(n) => To(s, n, Leaving(false))
    case DialWorks(n) => To(s.(open := s.open + {Upstream(n)}), n, Dialed)
    case TrackUpstream(n) => To(Track(s, Upstream(n)), n, if s.closed then Leaving(false) else Shaking)
    case ShakeFails(n) => To(s, n, Dropping(Plain(Upstream(n)), false, true))
    case ShakeSocks(n) => To(s, n, Relaying(Plain(Upstream(n))))
    case Swap(n) => To(SwapKeys(s, Upstream(n)), n, if s.closed then Refused else Relaying(Wrapped(Upstream(n))))
    case CloseRefused(n) => To(s.(open := s.open - {Upstream(n)}), n, Dropping(Plain(Upstream(n)), false, false))
    case RelayEnds(n, clean) =>
      To(s.(open := if clean then s.open - {Client(n), Upstream(n)} else s.open), n, Dropping(s.tasks[n].key, false, true))
    case ShutUpstream(n) => To(s.(open := s.open - {s.tasks[n].key.conn}), n, s.tasks[n].(shut := true))
    case ForgetUpstream(n) => To(s.(tracked := s.tracked - {s.tasks[n].key}), n, Leaving(false))
    case ShutClient(n) => To(s.(open := s.open - {Client(n)}), n, Leaving(true))
    case ForgetClient(n) => To(s.(tracked := s.tracked - {Plain(Client(n))}), n, Finished)
    case Close => ClosedBridge(s)
  }

  // ----- the invariant -----

  /** The upstream key a goroutine has in the map. */
  predicate Holds(n: nat, pc: Pc, key: Key) {
    match pc
    case Shaking => key == Plain(Upstream(n))
    case Relaying(k) => k == key
    case Dropping(k, _, held) => held && k == key
    case _ => false
  }

  predicate MayBeOpen(pc: Pc) {
    pc == Dialed || pc == Shaking || pc.Relaying? || (pc.Dropping? && !pc.shut)
  }

  /** Keys and sockets of client n are exactly what its goroutine's position says. */
  ghost predicate TaskInv(s: State, n: nat) {
    var c, u := Client(n), Upstream(n);
    && (n in s.tasks ==> n < s.next && s.acceptor != Got(n))
    && (s.acceptor == Got(n) ==> n < s.next)
    && (n in s.tasks && s.tasks[n].Relaying? ==> s.tasks[n].key.conn == u)
    && (n in s.tasks && s.tasks[n].Dropping? ==> s.tasks[n].key.conn == u && (!s.tasks[n].held ==> u !in s.open))
    && (Plain(c) in s.tracked <==> n in s.tasks && s.tasks[n] != Finished)
    && Wrapped(c) !in s.tracked
    && (Plain(u) in s.tracked <==> n in s.tasks && Holds(n, s.tasks[n], Plain(u)))
    && (Wrapped(u) in s.tracked <==> n in s.tasks && Holds(n, s.tasks[n], Wrapped(u)))
    && (c in s.open ==> s.acceptor == Got(n) || (n in s.tasks && s.tasks[n] != Finished && s.tasks[n] != Leaving(true)))
    && (u in s.open ==> n in s.tasks && MayBeOpen(s.tasks[n]))
    && (s.closed ==> (c in s.open ==> s.acceptor == Got(n)) && (u in s.open ==> s.tasks[n] == Dialed))
  }

  ghost predicate Inv(s: State) {
    forall n: nat :: TaskInv(s, n)
  }

  /** The client a step is about. */
  function Subject(s: State, step: Step): nat
    requires Enabled(s, step)
  {
    match step
    case Accept => s.next
    case AcceptFails => 0
    case TrackClient => s.acceptor.n
    case Close => 0
    case _ => step.n
  }

  lemma SubjectKeeps(s: State, step: Step)
    requires Enabled(s, step) && step != Close && TaskInv(s, Subject(s, step))
    ensures TaskInv(Apply(s, step), Subject(s, step))
  {}

  /** A step about one client touches no other. */
  lemma OthersKeep(s: State, step: Step, n: nat)
    requires Enabled(s, step) && step != Close && TaskInv(s, n) && TaskInv(s, Subject(s, step)) && n != Subject(s, step)
    ensures TaskInv(Apply(s, step), n)
  {
    var t := Apply(s, step);
    assert n in t.tasks <==> n in s.tasks;
    assert n in s.tasks ==> t.tasks[n] == s.tasks[n];
    assert forall key: Key :: key.conn.n == n ==> (key in t.tracked <==> key in s.tracked);
    assert forall c: Conn :: c.n == n ==> (c in t.open <==> c in s.open);
  }

  lemma CloseKeeps(s: State, n: nat)
    requires TaskInv(s, n)
    ensures TaskInv(ClosedBridge(s), n)
  {}

  lemma StepInv(s: State, step: Step)
    requires Inv(s) && Enabled(s, step)
    ensures Inv(Apply(s, step))
  {
    forall n: nat
      ensures TaskInv(Apply(s, step), n)
    {
      assert TaskInv(s, n) && TaskInv(s, Subject(s, step));
      if step == Close {
        CloseKeeps(s, n);
      } else if n == Subject(s, step) {
        SubjectKeeps(s, step);
      } else {
        OthersKeep(s, step, n);
      }
    }
  }

  ghost predicate Run(states: seq<State>, steps: seq<Step>) {
    && |states| == |steps| + 1
    && forall i :: 0 <= i < |steps| ==> Enabled(states[i], steps[i]) && states[i + 1] == Apply(states[i], steps[i])
  }

  lemma {:induction false} RunInv(states: seq<State>, steps: seq<Step>, i: nat)
    requires Run(states, steps) && states[0] == Initial() && i < |states|
    ensures Inv(states[i])
  {
    if i > 0 {
      RunInv(states, steps, i - 1);
      StepInv(states[i - 1], steps[i - 1]);
      assert states[i] == Apply(states[i - 1], steps[i - 1]);
    }
  }

  // ----- what the accounting guarantees -----

  /** Just accepted or just dialled, and not yet offered to the map. */
  predicate InHand(s: State, c: Conn) {
    match c
    case Client(n) => s.acceptor == Got(n)
    case Upstream(n) => IsAt(s, n, Dialed)
  }

  /** Every tracked key belongs to the goroutine that serves that client. */
  predicate OwnedBy(s: State, key: Key, n: nat) {
    n in s.tasks && s.tasks[n] != Finished && (key == Plain(Client(n)) || Holds(n, s.tasks[n], key))
  }

  /**
   An open connection is in hand, or in the map under exactly one key: the original or its
   wrapper, never both. Every key in the map is owned by exactly one goroutine.
   */
  lemma OneOwner(states: seq<State>, steps: seq<Step>, i: nat, c: Conn, key: Key)
    requires Run(states, steps) && states[0] == Initial() && i < |states|
    ensures c in states[i].open ==> InHand(states[i], c) || (Plain(c) in states[i].tracked <==> Wrapped(c) !in states[i].tracked)
    ensures key in states[i].tracked ==> OwnedBy(states[i], key, key.conn.n)
    ensures forall n: nat :: key in states[i].tracked && OwnedBy(states[i], key, n) ==> n == key.conn.n
  {
    var s := states[i];
    RunInv(states, steps, i);
    assert TaskInv(s, c.n) && TaskInv(s, key.conn.n);
    forall n: nat | key in s.tracked && OwnedBy(s, key, n)
      ensures n == key.conn.n
    {
      assert TaskInv(s, n);
    }
  }

  /** Both ends of a client are up until its goroutine lets go of them; a connection in hand is, even after Close. */
  predicate StaysUp(s: State, n: nat) {
    && (s.acceptor == Got(n) ==> Client(n) in s.open)
    && (IsAt(s, n, Dialed) ==> Upstream(n) in s.open)
    && (!s.closed && n in s.tasks ==>
          var pc := s.tasks[n];
          && (pc.Serving? || pc.Dialing? || pc.Dialed? || pc.Shaking? || pc.Relaying? ==> Client(n) in s.open)
          && (pc.Shaking? || pc.Relaying? ==> Upstream(n) in s.open))
  }

  lemma StepStaysUp(s: State, step: Step, n: nat)
    requires Enabled(s, step) && TaskInv(s, n) && TaskInv(s, Subject(s, step)) && StaysUp(s, n)
    ensures StaysUp(Apply(s, step), n)
  {}

  /** While the bridge is open it closes no connection of a client that is still being served. */
  lemma {:induction false} ServedStaysUp(states: seq<State>, steps: seq<Step>, i: nat, n: nat)
    requires Run(states, steps) && states[0] == Initial() && i < |states|
    ensures StaysUp(states[i], n)
  {
    if i > 0 {
      ServedStaysUp(states, steps, i - 1, n);
      RunInv(states, steps, i - 1);
      var s := states[i - 1];
      assert TaskInv(s, n) && TaskInv(s, Subject(s, steps[i - 1]));
      StepStaysUp(s, steps[i - 1], n);
      assert states[i] == Apply(s, steps[i - 1]);
    }
  }

  /** On its way out: the upstream side is being dropped, or the client is. */
  predicate LetsGo(pc: Pc) {
    pc.Dropping? || pc.Leaving? || pc.Finished?
  }

  /** What makes a goroutine let go: a failure, the end of the relay, or a bridge that is closed. */
  predicate Ends(s: State, step: Step, n: nat) {
    || step in {ServeFails(n), DialFails(n), ShakeFails(n), CloseRefused(n), RelayEnds(n, true), RelayEnds(n, false)}
    || (step == TrackUpstream(n) && s.closed)
  }

  lemma StepEnds(s: State, step: Step, n: nat)
    requires Enabled(s, step) && TaskInv(s, n)
    ensures n in Apply(s, step).tasks && LetsGo(Apply(s, step).tasks[n]) ==> (n in s.tasks && LetsGo(s.tasks[n])) || Ends(s, step, n)
    ensures n in s.tasks && LetsGo(s.tasks[n]) ==> n in Apply(s, step).tasks && LetsGo(Apply(s, step).tasks[n])
  {}

  /** A goroutine lets go of its connections for such a cause only. */
  lemma {:induction false} EndsForACause(states: seq<State>, steps: seq<Step>, i: nat, n: nat) returns (k: nat)
    requires Run(states, steps) && states[0] == Initial() && i < |states| && n in states[i].tasks && LetsGo(states[i].tasks[n])
    ensures k < i && Ends(states[k], steps[k], n)
  {
    RunInv(states, steps, i - 1);
    assert states[i] == Apply(states[i - 1], steps[i - 1]);
    assert TaskInv(states[i - 1], n);
    StepEnds(states[i - 1], steps[i - 1], n);
    if n in states[i - 1].tasks && LetsGo(states[i - 1].tasks[n]) {
      k := EndsForACause(states, steps, i - 1, n);
    } else {
      k := i - 1;
    }
  }

  /** Both connections of client n are closed, and its goroutine is on its way out. */
  predicate Shut(s: State, n: nat) {
    n in s.tasks && LetsGo(s.tasks[n]) && Client(n) !in s.open && Upstream(n) !in s.open
  }

  lemma StepShut(s: State, step: Step, n: nat)
    requires Enabled(s, step) && TaskInv(s, n) && (step == RelayEnds(n, true) || Shut(s, n))
    ensures Shut(Apply(s, step), n)
  {}

  /** A relay that ends cleanly has closed both of its connections, for good. */
  lemma {:induction false} CleanEndShutsBoth(states: seq<State>, steps: seq<Step>, k: nat, i: nat, n: nat)
    requires Run(states, steps) && states[0] == Initial() && k < i < |states| && steps[k] == RelayEnds(n, true)
    ensures Shut(states[i], n)
    decreases i
  {
    RunInv(states, steps, i - 1);
    if k < i - 1 {
      CleanEndShutsBoth(states, steps, k, i - 1, n);
    }
    assert TaskInv(states[i - 1], n) && Enabled(states[i - 1], steps[i - 1]);
    StepShut(states[i - 1], steps[i - 1], n);
    assert states[i] == Apply(states[i - 1], steps[i - 1]);
  }

  /** After Close nothing joins the map, and what is in it is already closed. */
  lemma ClosedForGood(states: seq<State>, steps: seq<Step>, i: nat, j: nat)
    requires Run(states, steps) && states[0] == Initial() && i <= j < |states| && states[i].closed
    ensures states[j].closed && states[j].tracked <= states[i].tracked
    ensures forall key :: key in states[j].tracked ==> key.conn !in states[j].open
    decreases j - i
  {
    RunInv(states, steps, j);
    if i < j {
      ClosedForGood(states, steps, i, j - 1);
      assert states[j] == Apply(states[j - 1], steps[j - 1]);
    }
    forall key | key in states[j].tracked
      ensures key.conn !in states[j].open
    {
      assert TaskInv(states[j], key.conn.n);
    }
  }

  /** The wait group is down to zero: the acceptor and every serving goroutine have returned. */
  ghost predicate Drained(s: State) {
    s.acceptor == Stopped && forall n :: n in s.tasks ==> s.tasks[n] == Finished
  }

  /** When Close returns every connection is closed, none is tracked, and so it stays. */
  lemma CloseIsComplete(states: seq<State>, steps: seq<Step>, i: nat, j: nat)
    requires Run(states, steps) && states[0] == Initial() && i <= j < |states|
    requires states[i].closed && Drained(states[i])
    ensures Drained(states[j]) && states[j].open == {} && states[j].tracked == {}
    decreases j - i
  {
    RunInv(states, steps, j);
    ClosedForGood(states, steps, i, j);
    if i < j {
      CloseIsComplete(states, steps, i, j - 1);
      assert states[j] == Apply(states[j - 1], steps[j - 1]);
    }
    forall c
      ensures c !in states[j].open && Plain(c) !in states[j].tracked && Wrapped(c) !in states[j].tracked
    {
      assert TaskInv(states[j], c.n);
    }
    forall key
      ensures key !in states[j].tracked
    {
      assert key == Plain(key.conn) || key == Wrapped(key.conn);
    }
  }

  // ----- Close returns -----

  function PcRank(pc: Pc): nat {
    match pc
    case Serving => 9
    case Dialing => 8
    case Dialed => 7
    case Shaking => 6
    case Refused => 5
    case Relaying(_) => 5
    case Dropping(_, shut, _) => if shut then 3 else 4
    case Leaving(shut) => if shut then 1 else 2
    case Finished => 0
  }

  function Ranks(tasks: map<nat, Pc>): map<nat, nat> {
    map n | n in tasks :: PcRank(tasks[n])
  }

  ghost function Rank(s: State): nat {
    Sum(Ranks(s.tasks)) + match s.acceptor { case Waiting => 1 case Got(_) => 2 case Stopped => 0 }
  }

  lemma TaskMoves(tasks: map<nat, Pc>, n: nat, pc: Pc)
    requires n in tasks && PcRank(pc) < PcRank(tasks[n])
    ensures Sum(Ranks(tasks[n := pc])) < Sum(Ranks(tasks))
  {
    SumLess(Ranks(tasks), Ranks(tasks[n := pc]), n);
  }

  /** After Close every further step of the bridge brings it closer to its end. */
  lemma ClosedLowers(s: State, step: Step)
    requires s.closed && Enabled(s, step) && step != Close
    ensures Rank(Apply(s, step)) < Rank(s)
  {
    if step != AcceptFails && step != TrackClient {
      var n := step.n;
      TaskMoves(s.tasks, n, Apply(s, step).tasks[n]);
      assert Apply(s, step).tasks == s.tasks[n := Apply(s, step).tasks[n]];
    }
  }

  /**
   Steps that must come: the code's own, and the return of a network operation once the
   connection it waits on has been closed, or the context of a dial is over.
   */
  predicate Forced(s: State, step: Step) {
    && Enabled(s, step)
    && match step
       case Accept => false
       case AcceptFails => s.closed                        // the listener is closed
       case ServeFails(n) => Client(n) !in s.open
       case StartDial(_) => false
       case DialFails(_) => s.closed                       // b.ctx is cancelled
       case DialWorks(_) => false
       case ShakeFails(n) => Upstream(n) !in s.open
       case ShakeSocks(_) => false
       case Swap(_) => false
       case RelayEnds(n, clean) => clean && Upstream(n) !in s.open   // the reading from upstream returns
       case Close => false
       case _ => true
  }

  /** Close has closed what each goroutine waits on, so until the wait group is down some step must come. */
  lemma NeverStuck(s: State) returns (step: Step)
    requires Inv(s) && s.closed && !Drained(s)
    ensures Forced(s, step)
  {
    if s.acceptor == Waiting {
      return AcceptFails;
    }
    if s.acceptor.Got? {
      return TrackClient;
    }
    var n :| n in s.tasks && s.tasks[n] != Finished;
    assert TaskInv(s, n);
    match s.tasks[n]
    case Serving => step := ServeFails(n);
    case Dialing => step := DialFails(n);
    case Dialed => step := TrackUpstream(n);
    case Shaking => step := ShakeFails(n);
    case Refused => step := CloseRefused(n);
    case Relaying(_) => step := RelayEnds(n, true);
    case Dropping(_, shut, _) => step := if shut then ForgetUpstream(n) else ShutUpstream(n);
    case Leaving(shut) => step := if shut then ForgetClient(n) else ShutClient(n);
  }

  /** The steps other than further calls of Close. */
  function Moves(steps: seq<Step>): nat {
    if steps == [] then 0 else (if steps[0] == Close then 0 else 1) + Moves(steps[1..])
  }

  lemma {:induction false} ClosedIsBounded(states: seq<State>, steps: seq<Step>)
    requires Run(states, steps) && states[0].closed
    ensures Moves(steps) <= Rank(states[0])
    decreases |steps|
  {
    if steps != [] {
      if steps[0] != Close {
        ClosedLowers(states[0], steps[0]);
      }
      assert states[1] == Apply(states[0], steps[0]);
      ClosedIsBounded(states[1..], steps[1..]);
    }
  }

  /**
   Close returns: from state i of a run, where the bridge has been closed, at most Rank more steps
   follow, and once nothing must come any more the wait group is down, every connection is closed
   and none tracked.
   */
  lemma CloseReturns(states: seq<State>, steps: seq<Step>, i: nat)
    requires Run(states, steps) && states[0] == Initial() && i <= |steps| && states[i].closed
    ensures Moves(steps[i..]) <= Rank(states[i])
    ensures
      var s := states[|steps|];
      (forall step :: !Forced(s, step)) ==> Drained(s) && s.open == {} && s.tracked == {}
  {
    assert Run(states[i..], steps[i..]);
    ClosedIsBounded(states[i..], steps[i..]);
    var s := states[|steps|];
    RunInv(states, steps, |steps|);
    ClosedForGood(states, steps, i, |steps|);
    if !Drained(s) {
      var step := NeverStuck(s);
    } else {
      CloseIsComplete(states, steps, |steps|, |steps|);
    }
  }

  // ----- the bridge's own methods -----

  class Bridge {
    var connections: set<Key>
    var closed: bool
    var open: set<Conn>

    /** The state of the machine that these fields belong to, its goroutines taken from s. */
    ghost function View(s: State): State
      reads this
    {
      s.(closed := closed, tracked := connections, open := open)
    }

    /** track. */
    method TrackConn(c: Conn, ghost s: State) returns (ok: bool)
      modifies `connections, `open
      ensures ok == !closed && View(s) == Track(old(View(s)), c)
    {
      if closed {
        open := open - {c};
        return false;
      }
      connections := connections + {Plain(c)};
      return true;
    }

    /** untrack: close, then forget. */
    method Untrack(key: Key)
      modifies `connections, `open
      ensures connections == old(connections) - {key} && open == old(open) - {key.conn}
    {
      open := open - {key.conn};
      connections := connections - {key};
    }

    /** The last section of dial on the HTTP path. */
    method SwapConn(original: Conn, ghost s: State) returns (ok: bool)
      modifies `connections, `open
      ensures ok == !closed
      ensures var swapped := SwapKeys(old(View(s)), original);
        View(s) == if ok then swapped else swapped.(open := swapped.open - {original})
    {
      connections := connections - {Plain(original)};
      if closed {
        open := open - {original};
        return false;
      }
      connections := connections + {Wrapped(original)};
      return true;
    }

    /** The section of Close: no more connections, and every tracked one is closed. */
    method CloseAll(ghost s: State)
      modifies `closed, `open
      ensures View(s) == ClosedBridge(old(View(s)))
    {
      closed := true;
      var todo := connections;
      while todo != {}
        invariant closed && todo <= connections
        invariant open == old(open) - set k | k in connections - todo :: k.conn
        decreases |todo|
      {
        var k :| k in todo;
        assert k !in connections - todo;
        open := open - {k.conn};
        todo := todo - {k};
      }
      assert connections - todo == connections;
    }
  }
}
