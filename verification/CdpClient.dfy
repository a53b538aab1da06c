/**
 The browser's CDP connection: registration of requests, delivery of replies and the drain of
 Close, interleaved freely. Every request makes a reply channel of its own with one place, and
 the reader finds the channel of a message by looking its id up in the pending map.
 */
module CdpClient {
  import opened Common
  import opened Sums

  type Id = nat
  type Chan = nat

  datatype Reply = Answer(id: Id, payload: string) | ConnectionClosed

  datatype Pc =
    | HasId                         // took an id from the counter
    | Registered(ch: Chan)
    | Waiting(ch: Chan)             // the message is written
    | Leaving(r: Option<Reply>)     // the deferred delete is due; None is an error of its own
    | Returned(r: Option<Reply>)

  /** Between messages, or about to send to the channel it looked up. */
  datatype Reader = Idle | Holding(ch: Chan, reply: Reply) | Ended

  datatype Closer = NotRun | DoneClosed | Over

  datatype Client = Client(
    next: nat,
    done: bool,
    pending: map<Id, Chan>,
    boxes: map<Chan, Reply>,        // the reply a channel holds
    made: map<Chan, Id>,            // every channel made so far, and the request that made it
    sends: multiset<Chan>,          // how often each channel was sent to
    requests: map<Id, Pc>,
    reader: Reader,
    closer: Closer)

  const Init := Client(0, false, map[], map[], map[], multiset{}, map[], Idle, NotRun)

  datatype Step =
    | TakeId
    | Register(id: Id, ch: Chan)
    | Write(id: Id)
    | GiveUp(id: Id)                // write error, context or done
    | Receive(id: Id)
    | Forget(id: Id)
    | Read(id: Id, payload: string)
    | Deliver                       // ch <- reply, by the reader
    | ReadEnds
    | CloseDone
    | Drain                         // the locked loop of Close

  /** A send would go through: the one place of the channel is free. */
  predicate Free(c: Client, ch: Chan) {
    ch !in c.boxes
  }

  function SendOne(c: Client, ch: Chan, r: Reply): Client {
    c.(boxes := c.boxes[ch := r], sends := c.sends + multiset{ch})
  }

  predicate Enabled(c: Client, s: Step) {
    match s
    case TakeId => true
    case Register(id, ch) => id in c.requests && c.requests[id].HasId? && ch !in c.made
    case Write(id) => id in c.requests && c.requests[id].Registered?
    case GiveUp(id) => id in c.requests && (c.requests[id].Registered? || c.requests[id].Waiting?)
    case Receive(id) => id in c.requests && c.requests[id].Waiting? && c.requests[id].ch in c.boxes
    case Forget(id) => id in c.requests && c.requests[id].Leaving?
    case Read(_, _) => c.reader.Idle?
    case Deliver => c.reader.Holding? && Free(c, c.reader.ch)
    case ReadEnds => c.reader.Idle?
    case CloseDone => c.closer.NotRun?
    case Drain => c.closer.DoneClosed? && forall id :: id in c.pending ==> Free(c, c.pending[id])
  }

  function At(c: Client, id: Id, pc: Pc): Client {
    c.(requests := c.requests[id := pc])
  }

  function Registration(c: Client, id: Id, ch: Chan): Client {
    if c.done then At(c, id, Returned(None)).(made := c.made[ch := id])
    else At(c, id, Registered(ch)).(made := c.made[ch := id], pending := c.pending[id := ch])
  }

  /** The reader's locked section for a message with a non-zero id: look its channel up, and forget it. */
  function Claimed(c: Client, id: Id, payload: string): Client {
    if id == 0 then c
    else c.(pending := c.pending - {id}, reader := if id in c.pending then Holding(c.pending[id], Answer(id, payload)) else Idle)
  }

  function Channels(pending: map<Id, Chan>): set<Chan> {
    set id | id in pending :: pending[id]
  }

  /** Every channel of `chans` holds the error that the connection is closed. */
  function Failed(boxes: map<Chan, Reply>, chans: set<Chan>): map<Chan, Reply> {
    boxes + map ch | ch in chans :: ConnectionClosed
  }

  function Drained(c: Client): Client {
    c.(boxes := Failed(c.boxes, Channels(c.pending)),
       sends := c.sends + multiset(Channels(c.pending)),
       pending := map[], closer := Over)
  }

  function Apply(c: Client, s: Step): Client
    requires Enabled(c, s)
  {
    match s
    case TakeId => At(c, c.next + 1, HasId).(next := c.next + 1)
    case Register(id, ch) => Registration(c, id, ch)
    case Write(id) => At(c, id, Waiting(c.requests[id].ch))
    case GiveUp(id) => At(c, id, Leaving(None))
    case Receive(id) => At(c, id, Leaving(Some(c.boxes[c.requests[id].ch]))).(boxes := c.boxes - {c.requests[id].ch})
    case Forget(id) => At(c, id, Returned(c.requests[id].r)).(pending := c.pending - {id})
    case Read(id, payload) => Claimed(c, id, payload)
    case Deliver => SendOne(c, c.reader.ch, c.reader.reply).(reader := Idle)
    case ReadEnds => c.(reader := Ended)
    case CloseDone => c.(done := true, closer := DoneClosed)
    case Drain => Drained(c)
  }

  // ----- the invariant -----

  predicate Own(id: Id, r: Option<Reply>) {
    r.Some? && r.value.Answer? ==> r.value.id == id
  }

  predicate Made(c: Client, ch: Chan, id: Id) {
    ch in c.made && c.made[ch] == id
  }

  /** Registered, or in the hands of the reader: a send to it is still to come. */
  predicate IsPending(c: Client, ch: Chan) {
    ch in c.made && c.made[ch] in c.pending && c.pending[c.made[ch]] == ch
  }

  predicate IsHeld(c: Client, ch: Chan) {
    c.reader.Holding? && c.reader.ch == ch
  }

  /** A channel is sent to at most once, with its owner's answer; whoever may still send finds it empty and unsent. */
  predicate ChanFits(c: Client, ch: Chan) {
    && c.sends[ch] <= 1
    && (ch !in c.made ==> c.sends[ch] == 0 && !IsHeld(c, ch))
    && (IsPending(c, ch) || IsHeld(c, ch) ==> c.sends[ch] == 0)
    && !(IsPending(c, ch) && IsHeld(c, ch))
    && (IsHeld(c, ch) ==> ch in c.made && Own(c.made[ch], Some(c.reader.reply)))
    && (ch in c.boxes ==> c.sends[ch] == 1 && ch in c.made && Own(c.made[ch], Some(c.boxes[ch])))
  }

  /** A request's place in the pending map and the channel it waits on are of its own making. */
  predicate IdFits(c: Client, id: Id) {
    && (id in c.pending ==> id in c.requests && Made(c, c.pending[id], id))
    && (id in c.requests ==> 0 < id <= c.next)
    && (id in c.requests && c.requests[id].HasId? ==> id !in c.pending)
    && (id in c.requests && (c.requests[id].Registered? || c.requests[id].Waiting?) ==> Made(c, c.requests[id].ch, id))
    && (id in c.requests && c.requests[id].Leaving? ==> Own(id, c.requests[id].r))
    && (id in c.requests && c.requests[id].Returned? ==> Own(id, c.requests[id].r) && id !in c.pending)
  }

  ghost predicate Inv(c: Client) {
    && (forall ch :: ChanFits(c, ch))
    && (forall id :: IdFits(c, id))
    && (c.done <==> !c.closer.NotRun?)
    && (c.closer.Over? ==> c.pending == map[])
  }

  lemma DrainFits(c: Client, ch: Chan)
    requires Enabled(c, Drain) && ChanFits(c, ch) && forall id :: IdFits(c, id)
    ensures ChanFits(Drained(c), ch)
  {
    assert ch in Channels(c.pending) <==> IsPending(c, ch) by {
      forall id | id in c.pending && c.pending[id] == ch
        ensures IsPending(c, ch)
      {
        assert IdFits(c, id);
      }
    }
  }

  lemma StepChan(c: Client, s: Step, ch: Chan)
    requires ChanFits(c, ch) && Enabled(c, s) && !s.Drain? && (s.Read? ==> IdFits(c, s.id))
    requires s.Receive? || s.Forget? || s.Register? ==> IdFits(c, s.id)
    ensures ChanFits(Apply(c, s), ch)
  {}

  lemma StepId(c: Client, s: Step, id: Id)
    requires IdFits(c, id) && Enabled(c, s)
    requires s.Receive? ==> IdFits(c, s.id) && ChanFits(c, c.requests[s.id].ch)
    ensures IdFits(Apply(c, s), id)
  {}

  lemma StepInv(c: Client, s: Step)
    requires Inv(c) && Enabled(c, s)
    ensures Inv(Apply(c, s))
  {
    forall ch
      ensures ChanFits(Apply(c, s), ch)
    {
      if s.Drain? {
        DrainFits(c, ch);
      } else {
        StepChan(c, s, ch);
      }
    }
    forall id
      ensures IdFits(Apply(c, s), id)
    {
      StepId(c, s, id);
    }
  }

  // ----- what holds in every run -----

  function Execute(steps: seq<Step>): Option<Client> {
    if steps == [] then Some(Init)
    else
      var s := steps[|steps| - 1];
      match Execute(steps[..|steps| - 1])
      case None => None
      case Some(c) => if Enabled(c, s) then Some(Apply(c, s)) else None
  }

  lemma {:induction false} RunInv(steps: seq<Step>)
    requires Execute(steps).Some?
    ensures Inv(Execute(steps).value)
  {
    if steps != [] {
      RunInv(steps[..|steps| - 1]);
      StepInv(Execute(steps[..|steps| - 1]).value, steps[|steps| - 1]);
    }
  }

  /** Every reply channel is sent to at most once, so neither the reader nor Close ever blocks on one. */
  lemma NobodyBlocks(steps: seq<Step>, ch: Chan)
    requires Execute(steps).Some?
    ensures var c := Execute(steps).value;
            && c.sends[ch] <= 1
            && (c.reader.Holding? ==> c.reader.ch !in c.boxes && Enabled(c, Deliver))
            && (forall id :: id in c.pending ==> c.pending[id] !in c.boxes)
            && (c.closer.DoneClosed? ==> Enabled(c, Drain))
  {
    RunInv(steps);
    var c := Execute(steps).value;
    assert ChanFits(c, ch);
    if c.reader.Holding? {
      assert ChanFits(c, c.reader.ch);
    }
    forall id | id in c.pending
      ensures Free(c, c.pending[id])
    {
      assert IdFits(c, id) && ChanFits(c, c.pending[id]);
    }
  }

  /** The channel a request made receives no answer but the one that bears the request's id. */
  lemma OwnChannel(steps: seq<Step>, ch: Chan)
    requires Execute(steps).Some? && ch in Execute(steps).value.boxes && Execute(steps).value.boxes[ch].Answer?
    ensures Made(Execute(steps).value, ch, Execute(steps).value.boxes[ch].id)
  {
    RunInv(steps);
    assert ChanFits(Execute(steps).value, ch);
  }

  /** A request that succeeds returns the answer that carries its own id. */
  lemma OwnAnswer(steps: seq<Step>, id: Id, r: Reply)
    requires Execute(steps).Some? && id in Execute(steps).value.requests
    requires Execute(steps).value.requests[id] == Returned(Some(r)) && r.Answer?
    ensures r.id == id
  {
    RunInv(steps);
    assert IdFits(Execute(steps).value, id);
  }

  /** Once Close has drained, nothing is pending in any later state. */
  lemma NothingPendingAfterClose(steps: seq<Step>)
    requires Execute(steps).Some? && Execute(steps).value.closer.Over?
    ensures Execute(steps).value.pending == map[]
  {
    RunInv(steps);
  }

  // ----- which reply a request returns -----

  predicate Sent(c: Client, id: Id) {
    id in c.requests && !c.requests[id].HasId?
  }

  /** Step j reads an answer to request id, which has registered. */
  ghost predicate Answers(steps: seq<Step>, id: Id, j: nat) {
    && j < |steps| && steps[j].Read? && steps[j].id == id
    && Execute(steps[..j]).Some? && Sent(Execute(steps[..j]).value, id)
  }

  /** The answer with this payload was read for request id, and none had been read for it before. */
  ghost predicate ReadFirst(steps: seq<Step>, id: Id, payload: string) {
    exists k: nat :: Answers(steps, id, k) && steps[k].payload == payload && forall j :: 0 <= j < k ==> !Answers(steps, id, j)
  }

  ghost predicate Unheard(steps: seq<Step>, id: Id) {
    forall j :: 0 <= j < |steps| ==> !Answers(steps, id, j)
  }

  ghost predicate Brought(steps: seq<Step>, id: Id, r: Reply) {
    match r
    case Answer(i, payload) => i == id && ReadFirst(steps, id, payload)
    case ConnectionClosed => Drain in steps
  }

  ghost predicate Explained(steps: seq<Step>, id: Id, r: Option<Reply>) {
    if r.Some? then Brought(steps, id, r.value) else GiveUp(id) in steps || CloseDone in steps
  }

  ghost predicate TrackedAt(steps: seq<Step>, c: Client, id: Id, ch: Chan) {
    && (id in c.pending ==> Unheard(steps, id))
    && (IsHeld(c, ch) ==> Brought(steps, id, c.reader.reply))
    && (ch in c.boxes ==> Brought(steps, id, c.boxes[ch]))
  }

  /** What has been read for a request, by where it is. */
  ghost predicate Tracked(steps: seq<Step>, c: Client, id: Id) {
    id in c.requests ==>
      match c.requests[id]
      case HasId => Unheard(steps, id)
      case Registered(ch) => TrackedAt(steps, c, id, ch)
      case Waiting(ch) => TrackedAt(steps, c, id, ch)
      case Leaving(r) => Explained(steps, id, r)
      case Returned(r) => Explained(steps, id, r)
  }

  lemma SameAnswers(steps: seq<Step>, s: Step, id: Id, j: nat)
    requires j < |steps|
    ensures Answers(steps + [s], id, j) <==> Answers(steps, id, j)
  {
    assert (steps + [s])[..j] == steps[..j];
  }

  lemma FirstStays(steps: seq<Step>, s: Step, id: Id)
    ensures forall r :: Brought(steps, id, r) ==> Brought(steps + [s], id, r)
    ensures Unheard(steps, id) && !Answers(steps + [s], id, |steps|) ==> Unheard(steps + [s], id)
    ensures Unheard(steps, id) && Answers(steps + [s], id, |steps|) ==> ReadFirst(steps + [s], id, s.payload)
  {
    forall j: nat | j < |steps|
      ensures Answers(steps + [s], id, j) <==> Answers(steps, id, j)
    {
      SameAnswers(steps, s, id, j);
    }
    assert (steps + [s])[|steps|] == s;
    forall r | Brought(steps, id, r)
      ensures Brought(steps + [s], id, r)
    {
      if r.Answer? {
        var k: nat :| Answers(steps, id, k) && steps[k].payload == r.payload && forall j :: 0 <= j < k ==> !Answers(steps, id, j);
        assert Answers(steps + [s], id, k) && (steps + [s])[k].payload == r.payload;
      }
    }
  }

  lemma StepSent(c: Client, s: Step, id: Id)
    requires Enabled(c, s)
    ensures Sent(c, id) && (s.TakeId? ==> id <= c.next) ==> Sent(Apply(c, s), id)
  {}

  /** A request that waits on ch before a step and after it. */
  lemma StepTrackedAt(steps: seq<Step>, s: Step, c: Client, id: Id, ch: Chan)
    requires Execute(steps) == Some(c) && Enabled(c, s) && Sent(c, id) && c.requests[id] in {Registered(ch), Waiting(ch)}
    requires IdFits(c, id) && (s.Read? ==> IdFits(c, s.id)) && ChanFits(c, ch) && TrackedAt(steps, c, id, ch)
    ensures Apply(c, s).requests[id] in {Registered(ch), Waiting(ch)} ==> TrackedAt(steps + [s], Apply(c, s), id, ch)
  {
    var t := Apply(c, s);
    assert (steps + [s])[..|steps|] == steps && (steps + [s])[|steps|] == s;
    FirstStays(steps, s, id);
    if s.Read? && s.id == id {
      assert Unheard(steps, id) ==> ReadFirst(steps + [s], id, s.payload);
    }
  }

  /** A request that had not registered before the step. */
  lemma StepTrackedNew(steps: seq<Step>, s: Step, c: Client, id: Id)
    requires Execute(steps) == Some(c) && Enabled(c, s) && !Sent(c, id)
    requires IdFits(c, id) && (s.Register? ==> ChanFits(c, s.ch)) && (c.done ==> CloseDone in steps)
    ensures Tracked(steps + [s], Apply(c, s), id)
  {
    assert (steps + [s])[..|steps|] == steps && (steps + [s])[|steps|] == s;
    FirstStays(steps, s, id);
    NotYetSent(steps, id);
    assert !Answers(steps + [s], id, |steps|);
  }

  /** A request whose outcome is settled. */
  lemma StepTrackedOver(steps: seq<Step>, s: Step, c: Client, id: Id)
    requires Enabled(c, s) && Sent(c, id) && (c.requests[id].Leaving? || c.requests[id].Returned?) && id <= c.next
    requires Explained(steps, id, c.requests[id].r)
    ensures Apply(c, s).requests[id] in {c.requests[id], Returned(c.requests[id].r)}
    ensures Explained(steps + [s], id, c.requests[id].r)
  {
    FirstStays(steps, s, id);
  }

  lemma StepTracked(steps: seq<Step>, s: Step, c: Client, id: Id)
    requires Execute(steps) == Some(c) && Enabled(c, s) && IdFits(c, id)
    requires (s.Read? ==> IdFits(c, s.id)) && (s.Register? ==> ChanFits(c, s.ch))
    requires Sent(c, id) && (c.requests[id].Registered? || c.requests[id].Waiting?) ==> ChanFits(c, c.requests[id].ch)
    requires (c.done ==> CloseDone in steps) && Tracked(steps, c, id)
    ensures Tracked(steps + [s], Apply(c, s), id)
  {
    if !Sent(c, id) {
      StepTrackedNew(steps, s, c, id);
    } else if c.requests[id].Registered? || c.requests[id].Waiting? {
      StepTrackedAt(steps, s, c, id, c.requests[id].ch);
      StepLeaves(steps, s, c, id);
    } else {
      StepTrackedOver(steps, s, c, id);
    }
  }

  /** A request that stops waiting. */
  lemma StepLeaves(steps: seq<Step>, s: Step, c: Client, id: Id)
    requires Enabled(c, s) && Sent(c, id) && (c.requests[id].Registered? || c.requests[id].Waiting?)
    requires TrackedAt(steps, c, id, c.requests[id].ch) && id <= c.next
    ensures
      var pc := Apply(c, s).requests[id];
      pc == c.requests[id] || pc == Waiting(c.requests[id].ch) || (pc.Leaving? && Explained(steps + [s], id, pc.r))
  {
    FirstStays(steps, s, id);
  }

  lemma {:induction false} NotYetSent(steps: seq<Step>, id: Id)
    requires Execute(steps).Some? && !Sent(Execute(steps).value, id)
    ensures Unheard(steps, id)
  {
    if steps != [] {
      var before, s := steps[..|steps| - 1], steps[|steps| - 1];
      assert steps == before + [s];
      var c := Execute(before).value;
      RunInv(before);
      assert IdFits(c, id);
      StepSent(c, s, id);
      NotYetSent(before, id);
      FirstStays(before, s, id);
      assert !Answers(steps, id, |before|);
    }
  }

  lemma {:induction false} RunTracked(steps: seq<Step>, id: Id)
    requires Execute(steps).Some?
    ensures Execute(steps).value.done ==> CloseDone in steps
    ensures Tracked(steps, Execute(steps).value, id)
  {
    if steps != [] {
      var before, s := steps[..|steps| - 1], steps[|steps| - 1];
      assert steps == before + [s];
      RunTracked(before, id);
      RunInv(before);
      var c := Execute(before).value;
      assert IdFits(c, id) && (s.Read? ==> IdFits(c, s.id)) && (s.Register? ==> ChanFits(c, s.ch));
      assert Sent(c, id) && (c.requests[id].Registered? || c.requests[id].Waiting?) ==> ChanFits(c, c.requests[id].ch);
      StepTracked(before, s, c, id);
    }
  }

  /**
   A request returns the first answer that was read for it once it had registered, payload and
   all; the closing of the connection only if Close drained it; and neither only if it gave up.
   */
  lemma FirstAnswerReturned(steps: seq<Step>, id: Id, r: Option<Reply>)
    requires Execute(steps).Some? && id in Execute(steps).value.requests
    requires Execute(steps).value.requests[id] == Returned(r)
    ensures
      if r.None? then GiveUp(id) in steps || CloseDone in steps
      else if r.value.ConnectionClosed? then Drain in steps
      else r.value.id == id && ReadFirst(steps, id, r.value.payload)
  {
    RunTracked(steps, id);
  }

  // ----- nobody waits for a reply that was lost -----

  /** A request that waits still can be answered, is about to be, or has been. */
  predicate Answerable(c: Client, id: Id) {
    id in c.requests && (c.requests[id].Registered? || c.requests[id].Waiting?) ==>
      var ch := c.requests[id].ch;
      (id in c.pending && c.pending[id] == ch) || IsHeld(c, ch) || ch in c.boxes
  }

  lemma StepAnswerable(c: Client, s: Step, id: Id)
    requires Enabled(c, s) && Answerable(c, id) && IdFits(c, id) && (s.Receive? ==> IdFits(c, s.id))
    ensures Answerable(Apply(c, s), id)
  {}

  lemma {:induction false} RunAnswerable(steps: seq<Step>, id: Id)
    requires Execute(steps).Some?
    ensures Answerable(Execute(steps).value, id)
  {
    if steps != [] {
      var before, s := steps[..|steps| - 1], steps[|steps| - 1];
      RunAnswerable(before, id);
      RunInv(before);
      var c := Execute(before).value;
      assert IdFits(c, id) && (s.Receive? ==> IdFits(c, s.id));
      StepAnswerable(c, s, id);
    }
  }

  /** Once Close has drained, and the reader has delivered what it held, every request that waits has its reply. */
  lemma DrainAnswersAll(steps: seq<Step>, id: Id)
    requires Execute(steps).Some? && Execute(steps).value.closer.Over? && !Execute(steps).value.reader.Holding?
    requires id in Execute(steps).value.requests && Execute(steps).value.requests[id].Waiting?
    ensures Enabled(Execute(steps).value, Receive(id))
  {
    RunAnswerable(steps, id);
    NothingPendingAfterClose(steps);
  }

  lemma StepCounts(c: Client, s: Step, id: Id)
    requires Enabled(c, s) && (id in c.requests <==> 1 <= id <= c.next) && IdFits(c, id)
    ensures id in Apply(c, s).requests <==> 1 <= id <= Apply(c, s).next
    ensures Apply(c, s).next == c.next + if s.TakeId? then 1 else 0
  {}

  /** The ids handed out count up from one: a request each, and none twice. */
  lemma {:induction false} IdsCountUp(steps: seq<Step>, id: Id)
    requires Execute(steps).Some?
    ensures Execute(steps).value.next == multiset(steps)[TakeId]
    ensures id in Execute(steps).value.requests <==> 1 <= id <= multiset(steps)[TakeId]
  {
    if steps != [] {
      var before, s := steps[..|steps| - 1], steps[|steps| - 1];
      assert steps == before + [s];
      IdsCountUp(before, id);
      RunInv(before);
      assert IdFits(Execute(before).value, id);
      StepCounts(Execute(before).value, s, id);
    }
  }

  // ----- every request comes to an end -----

  function PcRank(pc: Pc): nat {
    match pc
    case HasId => 4
    case Registered(_) => 3
    case Waiting(_) => 2
    case Leaving(_) => 1
    case Returned(_) => 0
  }

  function Ranks(requests: map<Id, Pc>): map<nat, nat> {
    map id | id in requests :: PcRank(requests[id])
  }

  ghost function Rank(c: Client): nat {
    Sum(Ranks(c.requests)) + (match c.reader { case Idle => 1 case Holding(_, _) => 2 case Ended => 0 })
    + match c.closer { case NotRun => 2 case DoneClosed => 1 case Over => 0 }
  }

  /** Neither a new request nor a new message. */
  predicate Onward(s: Step) {
    !s.TakeId? && !s.Read?
  }

  lemma StepLowers(c: Client, s: Step)
    requires Enabled(c, s) && Onward(s)
    ensures Rank(Apply(c, s)) < Rank(c)
  {
    if s.Register? || s.Write? || s.GiveUp? || s.Receive? || s.Forget? {
      var pc := Apply(c, s).requests[s.id];
      assert Apply(c, s).requests == c.requests[s.id := pc] && PcRank(pc) < PcRank(c.requests[s.id]);
      SumLess(Ranks(c.requests), Ranks(c.requests[s.id := pc]), s.id);
    }
  }

  predicate AllDone(c: Client) {
    && (forall id :: id in c.requests ==> c.requests[id].Returned?)
    && c.reader.Ended? && c.closer.Over?
  }

  lemma SomethingMoves(c: Client) returns (s: Step)
    requires !AllDone(c)
    requires (c.reader.Holding? ==> Enabled(c, Deliver)) && (c.closer.DoneClosed? ==> Enabled(c, Drain))
    ensures Onward(s) && Enabled(c, s)
  {
    if id :| id in c.requests && !c.requests[id].Returned? {
      s := match c.requests[id]
        case HasId => Register(id, Fresh(c.made.Keys))
        case Registered(_) => Write(id)
        case Waiting(_) => GiveUp(id)
        case _ => Forget(id);
    } else if !c.reader.Ended? {
      s := if c.reader.Holding? then Deliver else ReadEnds;
    } else {
      s := if c.closer.NotRun? then CloseDone else Drain;
    }
  }

  /** A run stands still, but for new requests and messages, exactly when every request has returned and both the reader and Close are over. */
  lemma StillExactlyWhenDone(steps: seq<Step>)
    requires Execute(steps).Some?
    ensures (forall s :: Onward(s) ==> !Enabled(Execute(steps).value, s)) <==> AllDone(Execute(steps).value)
  {
    var c := Execute(steps).value;
    NobodyBlocks(steps, 0);
    if !AllDone(c) {
      var s := SomethingMoves(c);
    }
  }

  // ----- the connection's fields -----

  class Connection {
    var done: bool
    var pending: map<Id, Chan>
    var boxes: map<Chan, Reply>

    /** The sections below touch these parts of c and nothing else. */
    ghost function In(c: Client): Client
      reads this
    {
      c.(done := done, pending := pending, boxes := boxes)
    }

    constructor ()
      ensures In(Init) == Init
    {
      done, pending, boxes := false, map[], map[];
    }

    /** The locked section of request. */
    method Register(id: Id, ch: Chan, ghost c: Client) returns (ok: bool)
      requires In(c) == c
      modifies this
      ensures ok <==> !old(done)
      ensures In(c) == Registration(c, id, ch).(requests := c.requests, made := c.made)
    {
      ok := !done;
      if ok {
        pending := pending[id := ch];
      }
    }

    /** The locked section of read: the channel of the request the message answers, if it waits. */
    method Claim(id: Id, payload: string, ghost c: Client) returns (found: Option<Chan>)
      requires In(c) == c && c.reader == Idle && id != 0
      modifies this
      ensures found == if id in c.pending then Some(c.pending[id]) else None
      ensures In(c) == Claimed(c, id, payload).(reader := Idle)
      ensures Claimed(c, id, payload).reader == if found.Some? then Holding(found.value, Answer(id, payload)) else Idle
    {
      found := if id in pending then Some(pending[id]) else None;
      pending := pending - {id};
    }

    /** The loop of Close: an error to every pending request, none left. */
    method DrainPending(ghost c: Client)
      requires In(c) == c && forall id :: id in c.pending ==> Free(c, c.pending[id])
      requires Distinct(c.pending)
      modifies this
      ensures In(c) == Drained(c).(closer := c.closer, sends := c.sends)
    {
      ghost var sent: set<Chan> := {};
      while pending != map[]
        invariant done == c.done && Distinct(pending) && sent !! Channels(pending)
        invariant sent + Channels(pending) == Channels(c.pending)
        invariant boxes == Failed(c.boxes, sent)
        invariant forall ch :: ch in Channels(pending) ==> Free(c, ch)
        decreases pending.Keys
      {
        var id :| id in pending;
        OneLess(pending, id);
        OneMore(c.boxes, sent, pending[id]);
        assert pending[id] !in boxes;  // the send goes through
        boxes, sent := boxes[pending[id] := ConnectionClosed], sent + {pending[id]};
        pending := pending - {id};
      }
      assert sent == Channels(c.pending);
    }
  }

  lemma OneMore(boxes: map<Chan, Reply>, chans: set<Chan>, ch: Chan)
    ensures Failed(boxes, chans + {ch}) == Failed(boxes, chans)[ch := ConnectionClosed]
  {}

  /** No two requests share a channel. */
  ghost predicate Distinct(pending: map<Id, Chan>) {
    forall i, j :: i in pending && j in pending && pending[i] == pending[j] ==> i == j
  }

  lemma OneLess(pending: map<Id, Chan>, id: Id)
    requires Distinct(pending) && id in pending
    ensures pending[id] in Channels(pending)
    ensures Distinct(pending - {id}) && Channels(pending - {id}) == Channels(pending) - {pending[id]}
  {
    forall ch | ch in Channels(pending) && ch != pending[id]
      ensures ch in Channels(pending - {id})
    {
      var k :| k in pending && pending[k] == ch;
      assert k in pending - {id};
    }
  }

  /** In every state of the invariant the channels waited on are distinct. */
  lemma PendingIsDistinct(c: Client)
    requires Inv(c)
    ensures Distinct(c.pending)
  {
    forall i, j | i in c.pending && j in c.pending && c.pending[i] == c.pending[j]
      ensures i == j
    {
      assert IdFits(c, i) && IdFits(c, j);
    }
  }
}
