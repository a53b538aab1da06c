/**
 The write side of the stdio debug client: senders queue whole messages, one writer writes them,
 anybody may fail the client, all interleaved freely.
 */
module DebugWriter {
  import opened Common
  import opened Sums

  type SenderId = nat

  const MAX_REQUEST_BYTES := 0x100000
  const QUEUE_CAPACITY := 32

  datatype Item = Item(k: SenderId, payload: string)

  /** What became of an item the writer took: written, skipped as cancelled, or cut by a write error. */
  datatype Fate = Whole | Skipped | Cut(n: nat)

  /** `over`: the sender's context was over when the writer took the item. */
  datatype Taken = Taken(item: Item, fate: Fate, over: bool)

  datatype Writer = Ready | Writing(item: Item, over: bool) | Failing | Stopped

  datatype Sender = Offering(payload: string) | Waiting | Gone

  datatype Client = Client(
    failure: Option<string>, done: bool,
    queue: seq<Item>,
    writer: Writer,
    bytes: string,                  // what the child's stdin received
    senders: map<SenderId, Sender>,
    cancelled: set<SenderId>,       // senders whose context is over
    replies: set<SenderId>,         // item.sent holds its one reply
    answered: multiset<SenderId>,   // sends on item.sent
    history: seq<Item>,             // all items ever queued, in order
    taken: seq<Taken>)              // what the writer took, in order

  const Init := Client(None, false, [], Ready, "", map[], {}, {}, multiset{}, [], [])

  function Frame(payload: string): string {
    payload + "\n"
  }

  datatype Step =
    | Offer(k: SenderId, payload: string)
    | Enqueue(k: SenderId)
    | Refuse(k: SenderId)           // context or done before a place was free
    | CancelContext(k: SenderId)
    | GetReply(k: SenderId)
    | LeaveOnDone(k: SenderId)
    | LeaveOnCancel(k: SenderId)    // fails the client: a partial write cannot be retried
    | Take
    | WriteWhole
    | WriteCut(n: nat)
    | FailAfterCut
    | Exit                          // the writer saw done
    | Fail(cause: string)           // by the reader, the waiter or Close

  predicate At(c: Client, k: SenderId, s: Sender) {
    k in c.senders && c.senders[k] == s
  }

  predicate Enabled(c: Client, s: Step) {
    match s
    case Offer(k, payload) => k !in c.senders && |payload| <= MAX_REQUEST_BYTES && '\n' !in payload
    case Enqueue(k) => k in c.senders && c.senders[k].Offering? && |c.queue| < QUEUE_CAPACITY
    case Refuse(k) => k in c.senders && c.senders[k].Offering? && (c.done || k in c.cancelled)
    case CancelContext(k) => k in c.senders && k !in c.cancelled
    case GetReply(k) => At(c, k, Waiting) && k in c.replies
    case LeaveOnDone(k) => At(c, k, Waiting) && c.done
    case LeaveOnCancel(k) => At(c, k, Waiting) && k in c.cancelled
    case Take => c.writer.Ready? && c.queue != []
    case WriteWhole => c.writer.Writing?
    case WriteCut(n) => c.writer.Writing? && n < |Frame(c.writer.item.payload)|
    case FailAfterCut => c.writer.Failing?
    case Exit => c.writer.Ready? && c.done
    case Fail(_) => true
  }

  /** fail: only the first cause counts, and done closes with it. */
  function Failed(c: Client, cause: string): Client {
    if c.done then c else c.(failure := Some(cause), done := true)
  }

  function Answer(c: Client, k: SenderId): Client {
    c.(replies := c.replies + {k}, answered := c.answered + multiset{k})
  }

  function Done(c: Client, item: Item, fate: Fate, over: bool): Client {
    Answer(c, item.k).(taken := c.taken + [Taken(item, fate, over)])
  }

  function Apply(c: Client, s: Step): Client
    requires Enabled(c, s)
  {
    match s
    case Offer(k, payload) => c.(senders := c.senders[k := Offering(payload)])
    case Enqueue(k) =>
      var item := Item(k, c.senders[k].payload);
      c.(senders := c.senders[k := Waiting], queue := c.queue + [item], history := c.history + [item])
    case Refuse(k) => c.(senders := c.senders[k := Gone])
    case CancelContext(k) => c.(cancelled := c.cancelled + {k})
    case GetReply(k) => c.(senders := c.senders[k := Gone], replies := c.replies - {k})
    case LeaveOnDone(k) => c.(senders := c.senders[k := Gone])
    case LeaveOnCancel(k) => Failed(c.(senders := c.senders[k := Gone]), "write interrupted")
    case Take =>
      var item := c.queue[0];
      var d := c.(queue := c.queue[1..]);
      var over := item.k in c.cancelled;
      if over then Done(d, item, Skipped, over) else d.(writer := Writing(item, over))
    case WriteWhole =>
      var item := c.writer.item;
      Done(c, item, Whole, c.writer.over).(bytes := c.bytes + Frame(item.payload), writer := Ready)
    case WriteCut(n) =>
      var item := c.writer.item;
      Done(c, item, Cut(n), c.writer.over).(bytes := c.bytes + Frame(item.payload)[..n], writer := Failing)
    case FailAfterCut => Failed(c, "write").(writer := Stopped)
    case Exit => c.(writer := Stopped)
    case Fail(cause) => Failed(c, cause)
  }

  // ----- what the bytes are -----

  function Bytes(t: Taken): string {
    match t.fate
    case Whole => Frame(t.item.payload)
    case Skipped => ""
    case Cut(n) => if n <= |Frame(t.item.payload)| then Frame(t.item.payload)[..n] else ""
  }

  function Render(ts: seq<Taken>): string {
    if ts == [] then "" else Render(ts[..|ts| - 1]) + Bytes(ts[|ts| - 1])
  }

  function Items(ts: seq<Taken>): seq<Item> {
    seq(|ts|, i requires 0 <= i < |ts| => ts[i].item)
  }

  /** Taken by the writer, being written, still queued. */
  function Progress(c: Client): seq<Item> {
    Items(c.taken) + (if c.writer.Writing? then [c.writer.item] else []) + c.queue
  }

  predicate Ongoing(c: Client, k: SenderId) {
    (exists i :: 0 <= i < |c.queue| && c.queue[i].k == k) || (c.writer.Writing? && c.writer.item.k == k)
  }

  predicate Distinct(c: Client) {
    && (forall i, j :: 0 <= i < j < |c.queue| ==> c.queue[i].k != c.queue[j].k)
    && (c.writer.Writing? ==> forall i :: 0 <= i < |c.queue| ==> c.queue[i].k != c.writer.item.k)
  }

  /** item.sent of a sender is sent to at most once, and is still empty while its item is under way. */
  ghost predicate SenderFits(c: Client, k: SenderId) {
    && c.answered[k] <= 1
    && (k in c.replies ==> c.answered[k] == 1)
    && (Ongoing(c, k) ==> c.answered[k] == 0 && k in c.senders && !c.senders[k].Offering?)
    && (c.answered[k] > 0 ==> k in c.senders && !c.senders[k].Offering?)
  }

  ghost predicate Inv(c: Client) {
    && (c.failure.Some? <==> c.done)
    && c.history == Progress(c)
    && c.bytes == Render(c.taken)
    && Distinct(c)
    && (forall k :: SenderFits(c, k))
    && PlainText(c) && CutLast(c) && FatesFit(c)
  }

  /** What was skipped is what had been cancelled when it was taken. */
  predicate FatesFit(c: Client) {
    && (forall i :: 0 <= i < |c.taken| ==> (c.taken[i].fate.Skipped? <==> c.taken[i].over))
    && (c.writer.Writing? ==> !c.writer.over)
  }

  predicate PlainText(c: Client) {
    && (forall i :: 0 <= i < |c.history| ==> '\n' !in c.history[i].payload)
    && (forall k :: k in c.senders && c.senders[k].Offering? ==> '\n' !in c.senders[k].payload)
  }

  predicate CutLast(c: Client) {
    forall i :: 0 <= i < |c.taken| && c.taken[i].fate.Cut? ==>
      && i == |c.taken| - 1 && (c.writer.Failing? || c.writer.Stopped?)
      && c.taken[i].fate.n < |Frame(c.taken[i].item.payload)|
  }

  lemma StepInv(c: Client, s: Step)
    requires Inv(c) && Enabled(c, s)
    ensures Inv(Apply(c, s))
  {
    StepProgress(c, s);
    StepDistinct(c, s);
    StepPlain(c, s);
    forall k
      ensures SenderFits(Apply(c, s), k)
    {
      StepSender(c, s, k);
    }
  }

  lemma StepPlain(c: Client, s: Step)
    requires Enabled(c, s) && PlainText(c) && CutLast(c) && FatesFit(c) && (c.failure.Some? <==> c.done)
    ensures PlainText(Apply(c, s)) && CutLast(Apply(c, s)) && FatesFit(Apply(c, s)) && (Apply(c, s).failure.Some? <==> Apply(c, s).done)
  {}

  lemma TakeOne(ts: seq<Taken>, t: Taken)
    ensures Render(ts + [t]) == Render(ts) + Bytes(t) && Items(ts + [t]) == Items(ts) + [t.item]
  {
    assert (ts + [t])[..|ts|] == ts;
  }

  lemma StepProgress(c: Client, s: Step)
    requires c.history == Progress(c) && c.bytes == Render(c.taken) && Enabled(c, s)
    ensures Apply(c, s).history == Progress(Apply(c, s)) && Apply(c, s).bytes == Render(Apply(c, s).taken)
  {
    if s.Take? {
      TakeProgress(c);
    } else if s.WriteWhole? {
      AnswerProgress(c, Whole);
    } else if s.WriteCut? {
      AnswerProgress(c, Cut(s.n));
    } else if s.Enqueue? {
      EnqueueProgress(c, Item(s.k, c.senders[s.k].payload));
    } else {
      ElsewhereProgress(c, s);
    }
  }

  /** Steps that neither queue, take nor write. */
  lemma ElsewhereProgress(c: Client, s: Step)
    requires Enabled(c, s) && !s.Take? && !s.WriteWhole? && !s.WriteCut? && !s.Enqueue?
    ensures
      var d := Apply(c, s);
      Progress(d) == Progress(c) && d.history == c.history && d.taken == c.taken && d.bytes == c.bytes
  {}

  lemma TakeProgress(c: Client)
    requires Enabled(c, Take)
    ensures Progress(Apply(c, Take)) == Progress(c)
    ensures c.bytes == Render(c.taken) ==> Apply(c, Take).bytes == Render(Apply(c, Take).taken)
  {
    Shift(Items(c.taken), c.queue);
    if c.queue[0].k in c.cancelled {
      TakeOne(c.taken, Taken(c.queue[0], Skipped, true));
      assert Render(c.taken) + "" == Render(c.taken);
    }
  }

  lemma Shift(before: seq<Item>, queue: seq<Item>)
    requires queue != []
    ensures before + [] + queue == before + [queue[0]] + queue[1..] == (before + [queue[0]]) + [] + queue[1..]
  {}

  lemma AnswerProgress(c: Client, fate: Fate)
    requires c.writer.Writing?
    ensures Render(c.taken + [Taken(c.writer.item, fate, c.writer.over)]) == Render(c.taken) + Bytes(Taken(c.writer.item, fate, c.writer.over))
    ensures Items(c.taken + [Taken(c.writer.item, fate, c.writer.over)]) + [] + c.queue == Progress(c)
  {
    TakeOne(c.taken, Taken(c.writer.item, fate, c.writer.over));
  }

  lemma EnqueueProgress(c: Client, item: Item)
    ensures var w := if c.writer.Writing? then [c.writer.item] else [];
            Items(c.taken) + w + (c.queue + [item]) == Progress(c) + [item]
  {}

  lemma StepDistinct(c: Client, s: Step)
    requires Distinct(c) && Enabled(c, s) && (s.Enqueue? ==> SenderFits(c, s.k))
    ensures Distinct(Apply(c, s))
  {
    if s.Enqueue? {
      assert !Ongoing(c, s.k);
    }
  }

  lemma StepSender(c: Client, s: Step, k: SenderId)
    requires SenderFits(c, k) && Distinct(c) && Enabled(c, s)
    ensures SenderFits(Apply(c, s), k)
  {
  }

  // ----- what holds in every run -----

  function Execute(steps: seq<Step>): Option<Client> {
    if steps == [] then Some(Init)
    else
      var s := steps[|steps| - 1];
      match Execute(steps[..|steps| - 1])
      case None => None
      case Some(c) => if Enabled(c, s) then Some(Apply(c, s)) else None
  }

  lemma {:induction false} RunInv(steps: seq<Step>)
    requires Execute(steps).Some?
    ensures Inv(Execute(steps).value)
  {
    if steps != [] {
      RunInv(steps[..|steps| - 1]);
      StepInv(Execute(steps[..|steps| - 1]).value, steps[|steps| - 1]);
    }
  }

  /** The payloads written whole, in the order they were taken. */
  function Written(ts: seq<Taken>): seq<string> {
    if ts == [] then []
    else Written(ts[..|ts| - 1]) + if ts[|ts| - 1].fate.Whole? then [ts[|ts| - 1].item.payload] else []
  }

  /** A reader of lines: the complete lines of s and what follows the last newline. */
  function Lines(s: string): (seq<string>, string) {
    if s == "" then ([], "")
    else
      var (lines, rest) := Lines(s[..|s| - 1]);
      if s[|s| - 1] == '\n' then (lines + [rest], "") else (lines, rest + [s[|s| - 1]])
  }

  lemma {:induction false} LinesOfText(s: string, text: string)
    requires '\n' !in text
    ensures Lines(s + text) == (Lines(s).0, Lines(s).1 + text)
  {
    if text == "" {
      assert s + text == s && Lines(s).1 + text == Lines(s).1;
    } else {
      var init, last := text[..|text| - 1], text[|text| - 1];
      LinesOfText(s, init);
      assert (s + text)[..|s + text| - 1] == s + init;
      assert Lines(s).1 + init + [last] == Lines(s).1 + text;
    }
  }

  lemma LinesOfFrame(s: string, payload: string)
    requires '\n' !in payload
    ensures Lines(s + Frame(payload)) == (Lines(s).0 + [Lines(s).1 + payload], "")
  {
    LinesOfText(s, payload);
    assert (s + Frame(payload))[..|s + Frame(payload)| - 1] == s + payload;
  }

  /** Without a cut, reading lines gives back exactly the payloads that were written. */
  lemma {:induction false} LinesOfRender(ts: seq<Taken>)
    requires forall i :: 0 <= i < |ts| ==> '\n' !in ts[i].item.payload && !ts[i].fate.Cut?
    ensures Lines(Render(ts)) == (Written(ts), "")
  {
    if ts != [] {
      var init, t := ts[..|ts| - 1], ts[|ts| - 1];
      LinesOfRender(init);
      if t.fate.Whole? {
        LinesOfFrame(Render(init), t.item.payload);
        assert "" + t.item.payload == t.item.payload;
      } else {
        assert Render(ts) == Render(init) + "" == Render(init);
        assert Written(ts) == Written(init) + [] == Written(init);
      }
    }
  }

  /** The writer took what was queued first, in that order, and took nothing twice. */
  lemma TakenInOrder(steps: seq<Step>)
    requires Execute(steps).Some?
    ensures Items(Execute(steps).value.taken) <= Execute(steps).value.history
  {
    RunInv(steps);
  }

  lemma TakenIsPlain(c: Client)
    requires c.history == Progress(c) && PlainText(c)
    ensures forall i :: 0 <= i < |c.taken| ==> '\n' !in c.taken[i].item.payload
  {
    assert forall i :: 0 <= i < |c.taken| ==> c.taken[i].item == c.history[i];
  }

  /** The payloads of the taken items whose context was not over, but for one that was cut. */
  function Due(ts: seq<Taken>): seq<string> {
    if ts == [] then []
    else
      var t := ts[|ts| - 1];
      Due(ts[..|ts| - 1]) + if t.over || t.fate.Cut? then [] else [t.item.payload]
  }

  lemma {:induction false} WrittenIsDue(ts: seq<Taken>)
    requires forall i :: 0 <= i < |ts| ==> (ts[i].fate.Skipped? <==> ts[i].over)
    ensures Written(ts) == Due(ts)
  {
    if ts != [] {
      WrittenIsDue(ts[..|ts| - 1]);
    }
  }

  /**
   The bytes that reached the child are the frames of the taken items whose context was not over
   when they were taken, in the order they were queued, and after them at most one cut frame;
   after a cut nothing is written. A line reader recovers those items, and the cut one is no
   complete line.
   */
  lemma BytesAreFrames(steps: seq<Step>)
    requires Execute(steps).Some?
    ensures var c := Execute(steps).value;
            && Lines(c.bytes).0 == Due(c.taken)
            && (Lines(c.bytes).1 != "" ==>
                  && c.taken != [] && c.taken[|c.taken| - 1].fate.Cut?
                  && Lines(c.bytes).1 <= c.taken[|c.taken| - 1].item.payload)
            && (forall i :: 0 <= i < |c.taken| && c.taken[i].fate.Cut? ==>
                  i == |c.taken| - 1 && (c.writer.Failing? || c.writer.Stopped?))
  {
    RunInv(steps);
    var c := Execute(steps).value;
    TakenIsPlain(c);
    LinesOfTaken(c.taken);
    WrittenIsDue(c.taken);
  }

  /** Step n of the run is the writer taking `item`; `over` says whether its context was over then. */
  predicate TakesAt(steps: seq<Step>, n: nat, item: Item, over: bool) {
    && n < |steps| && steps[n] == Take && Execute(steps[..n]).Some?
    && var c := Execute(steps[..n]).value; c.queue != [] && c.queue[0] == item && (over <==> item.k in c.cancelled)
  }

  lemma TakesLater(steps: seq<Step>, s: Step, n: nat, item: Item, over: bool)
    requires TakesAt(steps, n, item, over)
    ensures TakesAt(steps + [s], n, item, over)
  {
    assert (steps + [s])[..n] == steps[..n];
  }

  lemma StepWrites(c: Client, s: Step)
    requires Enabled(c, s) && Apply(c, s).writer.Writing?
    ensures
      var w := Apply(c, s).writer;
      if c.writer.Writing? then w == c.writer
      else s == Take && c.queue != [] && w.item == c.queue[0] && (w.over <==> w.item.k in c.cancelled)
  {}

  /** The item being written was taken in some step of the run. */
  lemma {:induction false} WriterTook(steps: seq<Step>) returns (n: nat)
    requires Execute(steps).Some? && Execute(steps).value.writer.Writing?
    ensures TakesAt(steps, n, Execute(steps).value.writer.item, Execute(steps).value.writer.over)
  {
    var prefix, s := steps[..|steps| - 1], steps[|steps| - 1];
    var c := Execute(prefix).value;
    StepWrites(c, s);
    if c.writer.Writing? {
      n := WriterTook(prefix);
      TakesLater(prefix, s, n, c.writer.item, c.writer.over);
      assert steps == prefix + [s];
    } else {
      n := |prefix|;
    }
  }

  /** A step adds at most one taken item: the one it takes and skips, or the one being written. */
  lemma StepTakes(c: Client, s: Step, i: nat)
    requires Enabled(c, s) && i < |Apply(c, s).taken|
    ensures
      var t := Apply(c, s).taken[i];
      if i < |c.taken| then t == c.taken[i]
      else if s.Take? then t.item == c.queue[0] && (t.over <==> t.item.k in c.cancelled)
      else c.writer.Writing? && t.item == c.writer.item && t.over == c.writer.over
  {}

  lemma {:induction false} TookItem(steps: seq<Step>, i: nat) returns (n: nat)
    requires Execute(steps).Some? && i < |Execute(steps).value.taken|
    ensures TakesAt(steps, n, Execute(steps).value.taken[i].item, Execute(steps).value.taken[i].over)
    decreases |steps|, 0
  {
    var prefix, s := steps[..|steps| - 1], steps[|steps| - 1];
    assert steps == prefix + [s];
    var c, t := Execute(prefix).value, Execute(steps).value.taken[i];
    StepTakes(c, s, i);
    if i >= |c.taken| && s.Take? {
      n := |prefix|;
    } else {
      n := TookBefore(prefix, i, t);
      TakesLater(prefix, s, n, t.item, t.over);
    }
  }

  lemma TookBefore(steps: seq<Step>, i: nat, t: Taken) returns (n: nat)
    requires Execute(steps).Some?
    requires var c := Execute(steps).value;
             if i < |c.taken| then t == c.taken[i]
             else c.writer.Writing? && t.item == c.writer.item && t.over == c.writer.over
    ensures TakesAt(steps, n, t.item, t.over)
    decreases |steps|, 1
  {
    if i < |Execute(steps).value.taken| {
      n := TookItem(steps, i);
    } else {
      n := WriterTook(steps);
    }
  }

  lemma StepCancels(c: Client, s: Step, k: SenderId)
    requires Enabled(c, s)
    ensures k in Apply(c, s).cancelled <==> k in c.cancelled || s == CancelContext(k)
  {}

  lemma {:induction false} CancelledByStep(steps: seq<Step>, k: SenderId)
    requires Execute(steps).Some?
    ensures k in Execute(steps).value.cancelled <==> CancelContext(k) in steps
  {
    if steps != [] {
      var prefix, s := steps[..|steps| - 1], steps[|steps| - 1];
      CancelledByStep(prefix, k);
      StepCancels(Execute(prefix).value, s, k);
      assert steps == prefix + [s];
    }
  }

  /** Each taken item has its Take step, and was skipped exactly when its context was cancelled before it. */
  lemma SkippedExactlyCancelled(steps: seq<Step>, i: nat) returns (n: nat)
    requires Execute(steps).Some? && i < |Execute(steps).value.taken|
    ensures
      var t := Execute(steps).value.taken[i];
      TakesAt(steps, n, t.item, t.over) && (t.fate.Skipped? <==> CancelContext(t.item.k) in steps[..n])
  {
    RunInv(steps);
    n := TookItem(steps, i);
    CancelledByStep(steps[..n], Execute(steps).value.taken[i].item.k);
  }

  lemma CutBytes(t: Taken)
    requires '\n' !in t.item.payload && t.fate.Cut? && t.fate.n < |Frame(t.item.payload)|
    ensures t.fate.n <= |t.item.payload| && Bytes(t) == t.item.payload[..t.fate.n] && '\n' !in Bytes(t)
  {}

  lemma CutIsNotWritten(init: seq<Taken>, t: Taken)
    requires t.fate.Cut?
    ensures Written(init + [t]) == Written(init)
  {
    assert (init + [t])[..|init|] == init;
    assert Written(init) + [] == Written(init);
  }

  /** Lines of whole frames, then the beginning of one more. */
  lemma LinesOfCut(init: seq<Taken>, t: Taken)
    requires forall i :: 0 <= i < |init| ==> '\n' !in init[i].item.payload && !init[i].fate.Cut?
    requires '\n' !in t.item.payload && t.fate.Cut? && t.fate.n < |Frame(t.item.payload)|
    ensures t.fate.n <= |t.item.payload| && Lines(Render(init + [t])) == (Written(init), t.item.payload[..t.fate.n])
  {
    LinesOfRender(init);
    CutBytes(t);
    TakeOne(init, t);
    LinesOfText(Render(init), Bytes(t));
    assert "" + Bytes(t) == Bytes(t);
  }

  lemma LinesOfTaken(ts: seq<Taken>)
    requires forall i :: 0 <= i < |ts| ==> '\n' !in ts[i].item.payload
    requires forall i :: 0 <= i < |ts| && ts[i].fate.Cut? ==> i == |ts| - 1 && ts[i].fate.n < |Frame(ts[i].item.payload)|
    ensures Lines(Render(ts)).0 == Written(ts)
    ensures Lines(Render(ts)).1 != "" ==>
              ts != [] && ts[|ts| - 1].fate.Cut? && Lines(Render(ts)).1 <= ts[|ts| - 1].item.payload
  {
    if ts != [] && ts[|ts| - 1].fate.Cut? {
      LinesOfCut(ts[..|ts| - 1], ts[|ts| - 1]);
      CutIsNotWritten(ts[..|ts| - 1], ts[|ts| - 1]);
      assert ts == ts[..|ts| - 1] + [ts[|ts| - 1]];
    } else {
      LinesOfRender(ts);
    }
  }

  /** `failure` is set exactly when `done` is closed, and whoever left, the writer's reply goes through. */
  lemma WriterNeverBlocks(steps: seq<Step>)
    requires Execute(steps).Some?
    ensures var c := Execute(steps).value;
            && (c.failure.Some? <==> c.done)
            && (c.writer.Writing? ==> c.writer.item.k !in c.replies)
            && (c.queue != [] ==> c.queue[0].k !in c.replies)
  {
    RunInv(steps);
    var c := Execute(steps).value;
    if c.writer.Writing? {
      assert SenderFits(c, c.writer.item.k);
    }
    if c.queue != [] {
      assert SenderFits(c, c.queue[0].k);
    }
  }

  lemma FailureStays(c: Client, s: Step)
    requires Enabled(c, s) && c.failure.Some? && c.done
    ensures Apply(c, s).failure == c.failure && Apply(c, s).done
  {}

  ghost predicate AsOffered(steps: seq<Step>, c: Client) {
    && (forall i :: 0 <= i < |c.history| ==> Offer(c.history[i].k, c.history[i].payload) in steps)
    && (forall k :: k in c.senders && c.senders[k].Offering? ==> Offer(k, c.senders[k].payload) in steps)
    && (forall k, payload :: Offer(k, payload) in steps ==> k in c.senders)
  }

  lemma StepOffered(steps: seq<Step>, c: Client, s: Step)
    requires Enabled(c, s) && AsOffered(steps, c)
    ensures AsOffered(steps + [s], Apply(c, s))
  {
    assert forall x :: x in steps ==> x in steps + [s];
    assert s in steps + [s];
  }

  /** What is queued, and so whatever is written, is what its sender offered. */
  lemma {:induction false} QueuedAsOffered(steps: seq<Step>)
    requires Execute(steps).Some?
    ensures AsOffered(steps, Execute(steps).value)
  {
    if steps != [] {
      var n := |steps| - 1;
      QueuedAsOffered(steps[..n]);
      StepOffered(steps[..n], Execute(steps[..n]).value, steps[n]);
      assert steps[..n] + [steps[n]] == steps;
    }
  }

  /** A sender that waits has its item under way, or its reply at hand. */
  predicate Served(c: Client, k: SenderId) {
    At(c, k, Waiting) ==> Ongoing(c, k) || k in c.replies
  }

  lemma StepServed(c: Client, s: Step, k: SenderId)
    requires Enabled(c, s) && Served(c, k) && Distinct(c)
    ensures Served(Apply(c, s), k)
  {
    if s.Enqueue? {
      var d := Apply(c, s);
      assert d.queue[|d.queue| - 1].k == s.k;
      assert forall i :: 0 <= i < |c.queue| ==> d.queue[i] == c.queue[i];
    } else if s.Take? {
      assert forall i :: 0 < i < |c.queue| ==> c.queue[1..][i - 1] == c.queue[i];
    }
  }

  /** No reply is lost: whoever waits is queued, being written, or can have its reply. */
  lemma {:induction false} NoReplyIsLost(steps: seq<Step>, k: SenderId)
    requires Execute(steps).Some?
    ensures var c := Execute(steps).value;
            At(c, k, Waiting) ==> Ongoing(c, k) || Enabled(c, GetReply(k))
  {
    if steps != [] {
      NoReplyIsLost(steps[..|steps| - 1], k);
      RunInv(steps[..|steps| - 1]);
      StepServed(Execute(steps[..|steps| - 1]).value, steps[|steps| - 1], k);
    }
  }

  // ----- every sender comes to an end -----

  function Ranks(senders: map<SenderId, Sender>): map<nat, nat> {
    map k | k in senders :: match senders[k] { case Offering(_) => 6 case Waiting => 1 case Gone => 0 }
  }

  ghost function Rank(c: Client): nat {
    Sum(Ranks(c.senders)) + 3 * |c.queue|
    + match c.writer { case Ready => 1 case Writing(_, _) => 2 case Failing => 1 case Stopped => 0 }
  }

  /** No new sender, and nothing from outside. */
  predicate Onward(s: Step) {
    !s.Offer? && !s.CancelContext? && !s.Fail?
  }

  lemma StepLowers(c: Client, s: Step)
    requires Enabled(c, s) && Onward(s)
    ensures Rank(Apply(c, s)) < Rank(c)
  {
    if s.Enqueue? || s.Refuse? || s.GetReply? || s.LeaveOnDone? || s.LeaveOnCancel? {
      var after := Apply(c, s).senders[s.k];
      assert Apply(c, s).senders == c.senders[s.k := after];
      assert Ranks(c.senders[s.k := after]) == Ranks(c.senders)[s.k := match after { case Offering(_) => 6 case Waiting => 1 case Gone => 0 }];
      SumPut(Ranks(c.senders), s.k, match after { case Offering(_) => 6 case Waiting => 1 case Gone => 0 });
    }
  }

  lemma StepStops(c: Client, s: Step)
    requires Enabled(c, s) && (c.writer.Stopped? ==> c.done)
    ensures Apply(c, s).writer.Stopped? ==> Apply(c, s).done
  {}

  lemma {:induction false} StoppedIsDone(steps: seq<Step>)
    requires Execute(steps).Some?
    ensures Execute(steps).value.writer.Stopped? ==> Execute(steps).value.done
  {
    if steps != [] {
      StoppedIsDone(steps[..|steps| - 1]);
      StepStops(Execute(steps[..|steps| - 1]).value, steps[|steps| - 1]);
    }
  }

  /** A run in which nothing more comes from outside stands still only when every sender has left. */
  lemma StillOnlyWhenDone(steps: seq<Step>, k: SenderId)
    requires Execute(steps).Some? && k in Execute(steps).value.senders
    requires forall s :: Onward(s) ==> !Enabled(Execute(steps).value, s)
    ensures Execute(steps).value.senders[k].Gone?
  {
    var c := Execute(steps).value;
    StoppedIsDone(steps);
    NoReplyIsLost(steps, k);
    assert !Enabled(c, WriteWhole) && !Enabled(c, FailAfterCut) && !Enabled(c, Take) && !Enabled(c, Exit);
    assert c.queue == [] || c.done;
    assert !Enabled(c, Enqueue(k)) && !Enabled(c, Refuse(k)) && !Enabled(c, LeaveOnDone(k)) && !Enabled(c, GetReply(k));
  }

  predicate HasACause(steps: seq<Step>, c: Client, k: SenderId) {
    At(c, k, Gone) ==> GetReply(k) in steps || c.done || CancelContext(k) in steps
  }

  lemma StepLeaves(c: Client, s: Step, k: SenderId)
    requires Enabled(c, s) && At(Apply(c, s), k, Gone)
    ensures At(c, k, Gone) || s == GetReply(k) || c.done || k in c.cancelled
    ensures c.done ==> Apply(c, s).done
  {}

  /** A sender leaves with its reply, or once the client has failed or its own context is over. */
  lemma {:induction false} LeavesForACause(steps: seq<Step>, k: SenderId)
    requires Execute(steps).Some?
    ensures HasACause(steps, Execute(steps).value, k)
  {
    if steps != [] {
      var prefix, s := steps[..|steps| - 1], steps[|steps| - 1];
      assert steps == prefix + [s];
      LeavesForACause(prefix, k);
      CancelledByStep(prefix, k);
      if At(Execute(steps).value, k, Gone) {
        StepLeaves(Execute(prefix).value, s, k);
      }
    }
  }

  /** The cause on record is that of the step that failed the client. */
  lemma CauseOnRecord(c: Client, s: Step)
    requires Inv(c) && Enabled(c, s) && c.failure.None?
    ensures Apply(c, s).failure ==
              match s
              case Fail(cause) => Some(cause)
              case LeaveOnCancel(_) => Some("write interrupted")
              case FailAfterCut => Some("write")
              case _ => None
  {}

  ghost predicate Small(c: Client) {
    && |c.queue| <= 32
    && (forall i :: 0 <= i < |c.history| ==> |c.history[i].payload| <= 0x10_0000)
    && forall k :: k in c.senders && c.senders[k].Offering? ==> |c.senders[k].payload| <= 0x10_0000
  }

  /** At most 32 messages are queued, and none is over one mebibyte. */
  lemma {:induction false} QueueIsSmall(steps: seq<Step>)
    requires Execute(steps).Some?
    ensures Small(Execute(steps).value)
  {
    if steps != [] {
      QueueIsSmall(steps[..|steps| - 1]);
      StepSmall(Execute(steps[..|steps| - 1]).value, steps[|steps| - 1]);
    }
  }

  lemma StepSmall(c: Client, s: Step)
    requires Enabled(c, s) && Small(c)
    ensures Small(Apply(c, s))
  {}

  /** The first cause of failure is reported ever after, whatever fails later. */
  lemma {:induction false} FirstCauseStays(steps: seq<Step>, k: nat)
    requires k <= |steps| && Execute(steps).Some? && Execute(steps[..k]).Some? && Execute(steps[..k]).value.failure.Some?
    ensures Execute(steps).value.failure == Execute(steps[..k]).value.failure && Execute(steps).value.done
    decreases |steps|
  {
    var n := |steps| - 1;
    if k <= n {
      assert steps[..n][..k] == steps[..k];
      FirstCauseStays(steps[..n], k);
      FailureStays(Execute(steps[..n]).value, steps[n]);
    } else {
      assert steps[..k] == steps;
      RunInv(steps);
    }
  }

  // ----- the client's fields -----

  class Stream {
    var failure: Option<string>
    var done: bool
    var queue: seq<Item>
    var bytes: string
    var cancelled: set<SenderId>
    var replies: set<SenderId>

    /** The sections below touch these parts of c and nothing else. */
    ghost function In(c: Client): Client
      reads this
    {
      c.(failure := failure, done := done, queue := queue, bytes := bytes, cancelled := cancelled, replies := replies)
    }

    constructor ()
      ensures In(Init) == Init
    {
      failure, done, queue, bytes, cancelled, replies := None, false, [], "", {}, {};
    }

    method RecordFailure(cause: string, ghost c: Client)
      requires In(c) == c
      modifies this
      ensures In(c) == Failed(c, cause)
    {
      if !done {
        failure := Some(cause);
        done := true;
      }
    }

    /** One turn of writeLoop with an item at hand; `written` is what the pipe accepted of it. */
    method WriteNext(written: nat, ghost c: Client) returns (goOn: bool)
      requires In(c) == c && Enabled(c, Take) && written <= |Frame(c.queue[0].payload)|
      modifies this
      ensures var d := Apply(c, Take); var n := |Frame(c.queue[0].payload)|;
              var e := if !d.writer.Writing? then d
                       else if written == n then Apply(d, WriteWhole)
                       else Apply(Apply(d, WriteCut(written)), FailAfterCut);
              In(e) == e && (goOn <==> e.writer.Ready?)
    {
      var item := queue[0];
      queue := queue[1..];
      replies := replies + {item.k};
      if item.k in cancelled {
        return true;
      }
      bytes := bytes + Frame(item.payload)[..written];
      goOn := written == |Frame(item.payload)|;
      if goOn {
        assert Frame(item.payload)[..written] == Frame(item.payload);
      } else if !done {
        failure := Some("write");
        done := true;
      }
    }
  }
}
