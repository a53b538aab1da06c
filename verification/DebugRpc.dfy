/**
 The request side of the stdio debug client: requests numbered by a counter, their replies
 routed by the text of the id, with one-place channels that are never blocked on.
 */
module DebugRpc {
  import opened Common
  import opened Sums

  datatype Reply =
    | Response(idText: string, result: string)
    | RemoteError(idText: string)
    | CancelNote(idText: string)        // notifications/cancelled

  datatype Pc = InFlight | Leaving(r: Option<Reply>) | Returned(r: Option<Reply>)

  datatype Rpc = Rpc(
    next: nat,
    pending: map<string, nat>,
    channels: map<nat, Reply>,
    requests: map<nat, Pc>)

  const Init := Rpc(0, map[], map[], map[])

  function Digit(d: nat): char
    requires d < 10
  {
    "0123456789"[d]
  }

  /** strconv.FormatUint in base ten. */
  function IdText(n: nat): (text: string)
    ensures |text| > 0 && (|text| == 1 <==> n < 10)
  {
    if n < 10 then [Digit(n)] else IdText(n / 10) + [Digit(n % 10)]
  }

  lemma {:induction false} IdTextInjective(m: nat, n: nat)
    ensures IdText(m) == IdText(n) <==> m == n
  {
    if m >= 10 && n >= 10 {
      IdTextInjective(m / 10, n / 10);
      assert IdText(m)[..|IdText(m)| - 1] == IdText(m / 10) && IdText(m)[|IdText(m)| - 1] == Digit(m % 10);
      assert IdText(n)[..|IdText(n)| - 1] == IdText(n / 10) && IdText(n)[|IdText(n)| - 1] == Digit(n % 10);
    }
  }

  datatype Step =
    | Begin
    | Incoming(r: Reply)        // a response or a cancellation note from the child
    | Receive(n: nat)
    | GiveUp(n: nat)            // done, or the context is over
    | Forget(n: nat)            // the deferred delete

  predicate Enabled(c: Rpc, s: Step) {
    match s
    case Begin => true
    case Incoming(_) => true
    case Receive(n) => n in c.requests && c.requests[n].InFlight? && n in c.channels
    case GiveUp(n) => n in c.requests && c.requests[n].InFlight?
    case Forget(n) => n in c.requests && c.requests[n].Leaving?
  }

  function Begun(c: Rpc): Rpc {
    c.(next := c.next + 1, pending := c.pending[IdText(c.next + 1) := c.next + 1],
       requests := c.requests[c.next + 1 := InFlight])
  }

  /** `select { case ch <- r: default: }`: a full channel, or no channel, drops the reply. */
  function Routed(c: Rpc, r: Reply): Rpc {
    if r.idText in c.pending && c.pending[r.idText] !in c.channels
    then c.(channels := c.channels[c.pending[r.idText] := r]) else c
  }

  function Apply(c: Rpc, s: Step): Rpc
    requires Enabled(c, s)
  {
    match s
    case Begin => Begun(c)
    case Incoming(r) => Routed(c, r)
    case Receive(n) => c.(requests := c.requests[n := Leaving(Some(c.channels[n]))], channels := c.channels - {n})
    case GiveUp(n) => c.(requests := c.requests[n := Leaving(None)])
    case Forget(n) => c.(requests := c.requests[n := Returned(c.requests[n].r)], pending := c.pending - {IdText(n)})
  }

  predicate Waits(c: Rpc, n: nat) {
    n in c.requests && !c.requests[n].Returned?
  }

  predicate Own(n: nat, r: Option<Reply>) {
    r.Some? ==> r.value.idText == IdText(n)
  }

  ghost predicate Inv(c: Rpc) {
    && (forall n :: n in c.requests ==> n <= c.next)
    && (forall text :: text in c.pending ==> text == IdText(c.pending[text]) && Waits(c, c.pending[text]))
    && (forall n :: Waits(c, n) ==> IdText(n) in c.pending && c.pending[IdText(n)] == n)
    && (forall n :: n in c.channels ==> n in c.requests && c.channels[n].idText == IdText(n))
    && (forall n :: n in c.requests && !c.requests[n].InFlight? ==> Own(n, c.requests[n].r))
  }

  lemma BeginInv(c: Rpc)
    requires Inv(c)
    ensures Inv(Begun(c))
  {
    forall n | Waits(c, n)
      ensures IdText(n) != IdText(c.next + 1)
    {
      IdTextInjective(n, c.next + 1);
    }
  }

  lemma ForgetInv(c: Rpc, n: nat)
    requires Inv(c) && Enabled(c, Forget(n))
    ensures Inv(Apply(c, Forget(n)))
  {
    forall k | Waits(c, k) && k != n
      ensures IdText(k) != IdText(n)
    {
      IdTextInjective(k, n);
    }
  }

  lemma StepInv(c: Rpc, s: Step)
    requires Inv(c) && Enabled(c, s)
    ensures Inv(Apply(c, s))
  {
    if s.Begin? {
      BeginInv(c);
    } else if s.Forget? {
      ForgetInv(c, s.n);
    }
  }

  function Execute(steps: seq<Step>): Option<Rpc> {
    if steps == [] then Some(Init)
    else
      var s := steps[|steps| - 1];
      match Execute(steps[..|steps| - 1])
      case None => None
      case Some(c) => if Enabled(c, s) then Some(Apply(c, s)) else None
  }

  lemma {:induction false} RunInv(steps: seq<Step>)
    requires Execute(steps).Some?
    ensures Inv(Execute(steps).value)
  {
    if steps != [] {
      RunInv(steps[..|steps| - 1]);
      StepInv(Execute(steps[..|steps| - 1]).value, steps[|steps| - 1]);
    }
  }

  /** A request returns nothing but a reply that bears its own id, and no other request's. */
  lemma OwnReply(steps: seq<Step>, n: nat, m: nat, r: Reply)
    requires Execute(steps).Some? && n in Execute(steps).value.requests
    requires Execute(steps).value.requests[n] == Returned(Some(r))
    ensures r.idText == IdText(m) <==> m == n
  {
    RunInv(steps);
    IdTextInjective(m, n);
  }

  /** The pending table holds exactly the requests that have not returned. */
  lemma PendingIsExact(steps: seq<Step>, n: nat)
    requires Execute(steps).Some?
    ensures var c := Execute(steps).value;
            Waits(c, n) <==> IdText(n) in c.pending
  {
    RunInv(steps);
    var c := Execute(steps).value;
    if IdText(n) in c.pending {
      IdTextInjective(c.pending[IdText(n)], n);
    }
  }

  // ----- which reply a request returns -----

  /** Step j brings a reply to request n, which has begun. */
  ghost predicate Answers(steps: seq<Step>, n: nat, j: nat) {
    && j < |steps| && steps[j].Incoming? && steps[j].r.idText == IdText(n)
    && Execute(steps[..j]).Some? && n in Execute(steps[..j]).value.requests
  }

  /** r came in for request n, and nothing had come in for it before. */
  ghost predicate CameFirst(steps: seq<Step>, n: nat, r: Reply) {
    exists k: nat :: Answers(steps, n, k) && steps[k].r == r && forall j :: 0 <= j < k ==> !Answers(steps, n, j)
  }

  ghost predicate Unheard(steps: seq<Step>, n: nat) {
    forall j :: 0 <= j < |steps| ==> !Answers(steps, n, j)
  }

  ghost predicate Explained(steps: seq<Step>, n: nat, r: Option<Reply>) {
    if r.Some? then CameFirst(steps, n, r.value) else GiveUp(n) in steps
  }

  /** What has come in for n, by where n is. */
  ghost predicate Tracked(steps: seq<Step>, c: Rpc, n: nat) {
    n in c.requests ==>
      match c.requests[n]
      case InFlight => if n in c.channels then CameFirst(steps, n, c.channels[n]) else Unheard(steps, n)
      case Leaving(r) => Explained(steps, n, r)
      case Returned(r) => Explained(steps, n, r)
  }

  lemma SameAnswers(steps: seq<Step>, s: Step, n: nat, j: nat)
    requires j < |steps|
    ensures Answers(steps + [s], n, j) <==> Answers(steps, n, j)
  {
    assert (steps + [s])[..j] == steps[..j];
  }

  lemma FirstStays(steps: seq<Step>, s: Step, n: nat, r: Reply)
    ensures CameFirst(steps, n, r) ==> CameFirst(steps + [s], n, r)
    ensures Unheard(steps, n) && !Answers(steps + [s], n, |steps|) ==> Unheard(steps + [s], n)
    ensures Unheard(steps, n) && Answers(steps + [s], n, |steps|) ==> CameFirst(steps + [s], n, s.r)
  {
    forall j: nat | j < |steps|
      ensures Answers(steps + [s], n, j) <==> Answers(steps, n, j)
    {
      SameAnswers(steps, s, n, j);
    }
    assert (steps + [s])[|steps|] == s;
    if k: nat :| Answers(steps, n, k) && steps[k].r == r && forall j :: 0 <= j < k ==> !Answers(steps, n, j) {
      assert Answers(steps + [s], n, k) && (steps + [s])[k].r == r;
    }
  }

  lemma StepTracked(steps: seq<Step>, s: Step, n: nat)
    requires Execute(steps).Some? && Enabled(Execute(steps).value, s) && Inv(Execute(steps).value)
    requires Tracked(steps, Execute(steps).value, n)
    ensures Tracked(steps + [s], Apply(Execute(steps).value, s), n)
  {
    var c := Execute(steps).value;
    assert (steps + [s])[..|steps|] == steps;
    assert (steps + [s])[|steps|] == s;
    FirstStays(steps, s, n, if n in c.channels then c.channels[n] else CancelNote(""));
    if n in c.requests && !c.requests[n].InFlight? && c.requests[n].r.Some? {
      FirstStays(steps, s, n, c.requests[n].r.value);
    }
    if n in c.requests && s.Incoming? {
      assert Waits(c, n) ==> IdText(n) in c.pending && c.pending[IdText(n)] == n;
    }
    if s.Begin? && n == c.next + 1 {
      NotYetBegun(steps, n);
    }
  }

  lemma {:induction false} NotYetBegun(steps: seq<Step>, n: nat)
    requires Execute(steps).Some? && n !in Execute(steps).value.requests
    ensures Unheard(steps, n)
  {
    if steps != [] {
      var before, s := steps[..|steps| - 1], steps[|steps| - 1];
      assert steps == before + [s];
      NotYetBegun(before, n);
      FirstStays(before, s, n, CancelNote(""));
    }
  }

  lemma {:induction false} RunTracked(steps: seq<Step>, n: nat)
    requires Execute(steps).Some?
    ensures Tracked(steps, Execute(steps).value, n)
  {
    if steps != [] {
      var before, s := steps[..|steps| - 1], steps[|steps| - 1];
      assert steps == before + [s];
      RunTracked(before, n);
      RunInv(before);
      StepTracked(before, s, n);
    }
  }

  /**
   A request returns the first reply that came in for it after it began, whole; without one, only
   by giving up.
   */
  lemma FirstReplyReturned(steps: seq<Step>, n: nat, r: Option<Reply>)
    requires Execute(steps).Some? && n in Execute(steps).value.requests
    requires Execute(steps).value.requests[n] == Returned(r)
    ensures if r.Some? then CameFirst(steps, n, r.value) else GiveUp(n) in steps
  {
    RunTracked(steps, n);
  }

  // ----- every request comes to an end -----

  function Ranks(requests: map<nat, Pc>): map<nat, nat> {
    map n | n in requests :: match requests[n] { case InFlight => 2 case Leaving(_) => 1 case Returned(_) => 0 }
  }

  /** Each step of a request lowers the rank, and until all have returned one is possible: nobody waits for another. */
  lemma StepLowers(c: Rpc, s: Step)
    requires Enabled(c, s) && !s.Begin? && !s.Incoming?
    ensures Sum(Ranks(Apply(c, s).requests)) < Sum(Ranks(c.requests))
  {
    SumLess(Ranks(c.requests), Ranks(Apply(c, s).requests), s.n);
  }

  lemma StillExactlyWhenDone(c: Rpc)
    ensures (forall s :: Enabled(c, s) ==> s.Begin? || s.Incoming?) <==> forall n :: n in c.requests ==> c.requests[n].Returned?
  {
    if n :| n in c.requests && !c.requests[n].Returned? {
      assert Enabled(c, if c.requests[n].InFlight? then GiveUp(n) else Forget(n));
    }
  }

  // ----- the client's fields -----

  class Correlator {
    var next: nat
    var pending: map<string, nat>
    var channels: map<nat, Reply>
    ghost var requests: map<nat, Pc>

    ghost function View(): Rpc
      reads this
    {
      Rpc(next, pending, channels, requests)
    }

    constructor ()
      ensures View() == Init
    {
      next, pending, channels, requests := 0, map[], map[], map[];
    }

    method BeginRequest() returns (n: nat)
      modifies this
      ensures View() == Begun(old(View())) && n == next
    {
      next := next + 1;
      n := next;
      pending := pending[Format(n) := n];
      requests := requests[n := InFlight];
    }

    method Route(r: Reply)
      modifies this
      ensures View() == Routed(old(View()), r)
    {
      if r.idText in pending {
        var n := pending[r.idText];
        if n !in channels {
          channels := channels[n := r];
        }
      }
    }

    function Format(n: nat): string { IdText(n) }
  }
}
