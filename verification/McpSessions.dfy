/**
 The MCP server's HTTP session table. A request is one critical section when it enters and one
 when it ends; sessions are objects (`Ref`) that in-flight requests keep using after they have
 left the table.
 */
module McpSessions {
  import opened Common

  type SessionId = string
  type Ref = nat
  type RequestId = nat

  const MAX_HTTP_SESSIONS := 256
  const MAX_SESSION_REQUESTS := 128
  const SESSION_IDLE_TIMEOUT := 1800   // seconds

  // ----- request ids and protocols -----

  /** A JSON-RPC id as decoded: a number keeps its text. */
  datatype RawId = StringId(value: string) | NumberId(text: string) | NullId | OtherId

  function RequestKey(id: RawId): Option<string> {
    match id
    case StringId(value) => Some("s:" + value)
    case NumberId(text) => Some("n:" + text)
    case _ => None
  }

  lemma RequestKeyInjective(a: RawId, b: RawId)
    requires RequestKey(a).Some? && RequestKey(a) == RequestKey(b)
    ensures a == b
  {
    assert RequestKey(a).value[2..] == RequestKey(b).value[2..];
    assert RequestKey(a).value[0] == RequestKey(b).value[0];
    assert a.StringId? ==> RequestKey(a).value[2..] == a.value;
    assert b.StringId? ==> RequestKey(b).value[2..] == b.value;
    assert a.NumberId? ==> RequestKey(a).value[2..] == a.text;
    assert b.NumberId? ==> RequestKey(b).value[2..] == b.text;
  }

  predicate SupportedProtocol(version: string) {
    version in {"2024-11-05", "2025-03-26", "2025-06-18", "2025-11-25"}
  }

  function NegotiatedProtocol(version: string): (r: string)
    ensures SupportedProtocol(r) && (SupportedProtocol(version) ==> r == version)
    ensures version == "" ==> r == "2024-11-05"
    ensures version != "" && !SupportedProtocol(version) ==> r == "2025-06-18"
  {
    if version == "" then "2024-11-05" else if SupportedProtocol(version) then version else "2025-06-18"
  }

  // ----- the state -----

  datatype HttpSession = HttpSession(protocol: string, lastUsed: int, active: map<string, RequestId>)

  /** A keyed request in flight: its session object and its key there. */
  datatype InFlight = InFlight(session: Ref, key: string)

  datatype Server = Server(
    closed: bool,
    swept: bool,                         // closeSessions has run
    table: map<SessionId, Ref>,
    objects: map<Ref, HttpSession>,
    requests: map<RequestId, InFlight>,
    cancelled: set<RequestId>)

  const Init := Server(false, false, map[], map[], map[], {})

  function Idle(x: HttpSession, now: int): bool {
    x.active == map[] && now - x.lastUsed >= SESSION_IDLE_TIMEOUT
  }

  function Expired(s: Server, now: int): Server {
    s.(table := map id | id in s.table && !(s.table[id] in s.objects && Idle(s.objects[s.table[id]], now)) :: s.table[id])
  }

  datatype Headers = Headers(ids: seq<string>, versions: seq<string>)

  datatype Lookup = ServerClosed | BadHeader | NotFound | WrongProtocol | Found(session: Option<Ref>)

  predicate BadHeaders(h: Headers) {
    |h.ids| > 1 || |h.versions| > 1 || (|h.ids| == 1 && h.ids[0] == "")
    || (|h.versions| == 1 && !SupportedProtocol(h.versions[0]))
  }

  /** sessionForHTTP; `now` and `later` are its two readings of the clock. */
  function SessionForHttp(s: Server, h: Headers, now: int, later: int): (r: (Server, Lookup))
    ensures r.1.Found? && r.1.session.Some? ==>
              |h.ids| == 1 && h.ids[0] in r.0.table && r.0.table[h.ids[0]] == r.1.session.value && r.1.session.value in r.0.objects
    ensures r.1.Found? ==> !s.closed && r.0 == Expired(s, now).(objects := r.0.objects) && r.0.objects.Keys == s.objects.Keys
  {
    if s.closed then (s, ServerClosed)
    else
      var e := Expired(s, now);
      if BadHeaders(h) then (e, BadHeader)
      else if h.ids == [] then (e, Found(None))
      else if h.ids[0] !in e.table || e.table[h.ids[0]] !in e.objects then (e, NotFound)
      else
        var ref := e.table[h.ids[0]];
        if |h.versions| == 1 && h.versions[0] != e.objects[ref].protocol then (e, WrongProtocol)
        else (e.(objects := e.objects[ref := e.objects[ref].(lastUsed := later)]), Found(Some(ref)))
  }

  datatype Call = Call(valid: bool, method_: string, id: Option<RawId>, target: RawId, version: string)

  datatype Response =
    | Invalid | Refused(why: Lookup) | Accepted | InitializeRejected | NoCapacity | NoRandom
    | Initialized(id: SessionId) | Duplicate | TooMany | Served

  predicate WellFormed(c: Call) {
    c.valid && c.method_ != ""
    && (c.id.Some? && !c.id.value.NullId? ==> RequestKey(c.id.value).Some?)
  }

  function CancelTarget(s: Server, ref: Ref, target: RawId): Server
    requires ref in s.objects
  {
    var key := RequestKey(target);
    if key.Some? && key.value in s.objects[ref].active
    then s.(cancelled := s.cancelled + {s.objects[ref].active[key.value]}) else s
  }

  /** What the environment supplies: a random id (or none), a new object and a new request. */
  datatype Supply = Supply(id: Option<SessionId>, ref: Ref, request: RequestId)

  function Initialize(s: Server, c: Call, session: Option<Ref>, later: int, supply: Supply): (Server, Response) {
    if session.Some? || c.id.None? || RequestKey(c.id.value).None? then (s, InitializeRejected)
    else if |s.table| >= MAX_HTTP_SESSIONS then (s, NoCapacity)
    else if supply.id.None? then (s, NoRandom)
    else (s.(table := s.table[supply.id.value := supply.ref],
             objects := s.objects[supply.ref := HttpSession(NegotiatedProtocol(c.version), later, map[])]),
          Initialized(supply.id.value))
  }

  function Begin(s: Server, ref: Ref, key: string, r: RequestId): (Server, Response)
    requires ref in s.objects
  {
    var x := s.objects[ref];
    if key in x.active then (s, Duplicate)
    else if |x.active| >= MAX_SESSION_REQUESTS then (s, TooMany)
    else (s.(objects := s.objects[ref := x.(active := x.active[key := r])],
             requests := s.requests[r := InFlight(ref, key)]), Served)
  }

  /** handleHTTPRPC up to the end of its critical section. */
  function Handle(s: Server, c: Call, h: Headers, now: int, later: int, supply: Supply): (Server, Response) {
    if !WellFormed(c) then (s, Invalid)
    else
      var (t, lookup) := SessionForHttp(s, h, now, later);
      if !lookup.Found? then (t, Refused(lookup))
      else if c.id.None? then
        (if c.method_ == "notifications/cancelled" && lookup.session.Some?
         then CancelTarget(t, lookup.session.value, c.target) else t, Accepted)
      else if c.method_ == "initialize" then Initialize(t, c, lookup.session, later, supply)
      else if lookup.session.Some? && RequestKey(c.id.value).Some?
      then Begin(t, lookup.session.value, RequestKey(c.id.value).value, supply.request)
      else (t, Served)
  }

  /** The deferred end of a keyed request. */
  function Finished(s: Server, r: RequestId, now: int): Server
    requires r in s.requests && s.requests[r].session in s.objects
  {
    var f := s.requests[r];
    var x := s.objects[f.session];
    s.(objects := s.objects[f.session := x.(active := x.active - {f.key}, lastUsed := now)],
       requests := s.requests - {r}, cancelled := s.cancelled + {r})
  }

  /** deleteHTTPSession: whether it deleted. */
  function Deleted(s: Server, h: Headers, now: int, later: int): (Server, bool) {
    var (t, lookup) := SessionForHttp(s, h, now, later);
    if !lookup.Found? || lookup.session.None? then (t, false)
    else (t.(table := t.table - {h.ids[0]}, cancelled := t.cancelled + t.objects[lookup.session.value].active.Values), true)
  }

  function ActiveOf(s: Server): set<RequestId> {
    set id, r | id in s.table && s.table[id] in s.objects && r in s.objects[s.table[id]].active.Values :: r
  }

  function Swept(s: Server): Server {
    s.(table := map[], cancelled := s.cancelled + ActiveOf(s), swept := true)
  }

  datatype Step =
    | Enter(c: Call, h: Headers, now: int, later: int, supply: Supply)
    | Finish(r: RequestId, now: int)
    | Delete(h: Headers, now: int, later: int)
    | MarkClosed
    | Sweep

  predicate Enabled(s: Server, step: Step) {
    match step
    case Enter(_, _, now, later, supply) =>
      now <= later && supply.ref !in s.objects && supply.request !in s.requests && supply.request !in s.cancelled
      && (supply.id.Some? ==> supply.id.value !in s.table)
    case Finish(r, _) => r in s.requests && s.requests[r].session in s.objects
    case Delete(_, now, later) => now <= later
    case MarkClosed => true
    case Sweep => s.closed
  }

  function Apply(s: Server, step: Step): Server
    requires Enabled(s, step)
  {
    match step
    case Enter(c, h, now, later, supply) => Handle(s, c, h, now, later, supply).0
    case Finish(r, now) => Finished(s, r, now)
    case Delete(h, now, later) => Deleted(s, h, now, later).0
    case MarkClosed => s.(closed := true)
    case Sweep => Swept(s)
  }

  // ----- the invariant -----

  predicate Holds(s: Server, f: InFlight, r: RequestId) {
    f.session in s.objects && f.key in s.objects[f.session].active && s.objects[f.session].active[f.key] == r
  }

  predicate Runs(s: Server, f: InFlight, r: RequestId) {
    r in s.requests && s.requests[r] == f
  }

  /** A session object's active map is exactly its keyed requests in flight. */
  ghost predicate ActiveExact(s: Server) {
    && (forall r :: r in s.requests ==> Holds(s, s.requests[r], r))
    && (forall ref, key :: ref in s.objects && key in s.objects[ref].active ==>
          Runs(s, InFlight(ref, key), s.objects[ref].active[key]))
  }

  ghost predicate Listed(table: map<SessionId, Ref>, ref: Ref) {
    exists id :: id in table && table[id] == ref
  }

  ghost predicate SizesFit(s: Server) {
    |s.table| <= MAX_HTTP_SESSIONS && forall ref :: ref in s.objects ==> |s.objects[ref].active| <= MAX_SESSION_REQUESTS
  }

  ghost predicate TableFits(s: Server) {
    && (forall id :: id in s.table ==> s.table[id] in s.objects)
    && (forall i, j :: i in s.table && j in s.table && s.table[i] == s.table[j] ==> i == j)
    && (s.swept ==> s.closed && s.table == map[])
  }

  /** A request whose session has left the table has been cancelled. */
  ghost predicate OrphansCancelled(s: Server) {
    forall r :: r in s.requests ==> Listed(s.table, s.requests[r].session) || r in s.cancelled
  }

  ghost predicate Inv(s: Server) {
    ActiveExact(s) && SizesFit(s) && TableFits(s) && OrphansCancelled(s)
  }

  lemma ExpiredInv(s: Server, now: int)
    requires Inv(s)
    ensures Inv(Expired(s, now))
  {
    var e := Expired(s, now);
    assert e.table.Keys <= s.table.Keys;
    SubsetSize(e.table.Keys, s.table.Keys);
    assert |e.table.Keys| == |e.table| && |s.table.Keys| == |s.table|;
    forall r | r in e.requests
      ensures Listed(e.table, e.requests[r].session) || r in e.cancelled
    {
      assert Holds(s, s.requests[r], r);
      if id :| id in s.table && s.table[id] == s.requests[r].session {
        assert e.table[id] == s.requests[r].session;
      }
    }
  }

  lemma {:induction false} SubsetSize<T>(a: set<T>, b: set<T>)
    requires a <= b
    ensures |a| <= |b|
    decreases b
  {
    if a != {} {
      var x :| x in a;
      SubsetSize(a - {x}, b - {x});
    }
  }

  /** Replacing an object by one with the same requests changes nothing the invariant says. */
  lemma TouchInv(s: Server, ref: Ref, x: HttpSession)
    requires Inv(s) && ref in s.objects && x.active == s.objects[ref].active
    ensures Inv(s.(objects := s.objects[ref := x]))
  {
    var t := s.(objects := s.objects[ref := x]);
    TouchExact(s, ref, x);
    assert SizesFit(t);
    assert TableFits(t);
  }

  lemma TouchExact(s: Server, ref: Ref, x: HttpSession)
    requires ActiveExact(s) && ref in s.objects && x.active == s.objects[ref].active
    ensures ActiveExact(s.(objects := s.objects[ref := x]))
  {
    var t := s.(objects := s.objects[ref := x]);
    forall r | r in t.requests
      ensures Holds(t, t.requests[r], r)
    {
      assert Holds(s, s.requests[r], r);
    }
    forall k, key | k in t.objects && key in t.objects[k].active
      ensures Runs(t, InFlight(k, key), t.objects[k].active[key])
    {
      assert Runs(s, InFlight(k, key), s.objects[k].active[key]);
    }
  }

  lemma LookupInv(s: Server, h: Headers, now: int, later: int)
    requires Inv(s)
    ensures Inv(SessionForHttp(s, h, now, later).0)
  {
    ExpiredInv(s, now);
    var e := Expired(s, now);
    if |h.ids| == 1 && h.ids[0] in e.table && e.table[h.ids[0]] in e.objects {
      var ref := e.table[h.ids[0]];
      TouchInv(e, ref, e.objects[ref].(lastUsed := later));
    }
  }

  lemma CancelInv(s: Server, ref: Ref, target: RawId)
    requires Inv(s) && ref in s.objects
    ensures Inv(CancelTarget(s, ref, target))
  {
  }

  lemma InitializeInv(s: Server, c: Call, session: Option<Ref>, later: int, supply: Supply)
    requires Inv(s) && supply.ref !in s.objects && !s.closed && (supply.id.Some? ==> supply.id.value !in s.table)
    ensures Inv(Initialize(s, c, session, later, supply).0)
  {
    if Initialize(s, c, session, later, supply).1.Initialized? {
      InitializeExact(s, c, session, later, supply);
      InitializeTable(s, c, session, later, supply);
    }
  }

  lemma InitializeTable(s: Server, c: Call, session: Option<Ref>, later: int, supply: Supply)
    requires SizesFit(s) && TableFits(s) && OrphansCancelled(s) && supply.ref !in s.objects && !s.closed
    requires Initialize(s, c, session, later, supply).1.Initialized? && supply.id.value !in s.table
    ensures var t := Initialize(s, c, session, later, supply).0;
            SizesFit(t) && TableFits(t) && OrphansCancelled(t)
  {
    var t := Initialize(s, c, session, later, supply).0;
    assert |t.table| == |s.table| + 1;
    forall r | r in t.requests
      ensures Listed(t.table, t.requests[r].session) || r in t.cancelled
    {
      if id :| id in s.table && s.table[id] == t.requests[r].session {
        assert t.table[id] == t.requests[r].session;
      }
    }
  }

  lemma InitializeExact(s: Server, c: Call, session: Option<Ref>, later: int, supply: Supply)
    requires ActiveExact(s) && supply.ref !in s.objects && Initialize(s, c, session, later, supply).1.Initialized?
    ensures ActiveExact(Initialize(s, c, session, later, supply).0)
  {
    var t := Initialize(s, c, session, later, supply).0;
    forall r | r in t.requests
      ensures Holds(t, t.requests[r], r)
    {
      assert Holds(s, s.requests[r], r);
    }
    forall k, key | k in t.objects && key in t.objects[k].active
      ensures Runs(t, InFlight(k, key), t.objects[k].active[key])
    {
      assert Runs(s, InFlight(k, key), s.objects[k].active[key]);
    }
  }

  lemma BeginExact(s: Server, ref: Ref, key: string, q: RequestId)
    requires ActiveExact(s) && ref in s.objects && q !in s.requests && Begin(s, ref, key, q).1.Served?
    ensures ActiveExact(Begin(s, ref, key, q).0)
  {
    var t := Begin(s, ref, key, q).0;
    forall r | r in t.requests
      ensures Holds(t, t.requests[r], r)
    {
      assert r != q ==> Holds(s, s.requests[r], r);
    }
    forall k, key' | k in t.objects && key' in t.objects[k].active
      ensures Runs(t, InFlight(k, key'), t.objects[k].active[key'])
    {
      assert InFlight(k, key') != InFlight(ref, key) ==> Runs(s, InFlight(k, key'), s.objects[k].active[key']);
    }
  }

  lemma BeginInv(s: Server, ref: Ref, key: string, r: RequestId)
    requires Inv(s) && ref in s.objects && Listed(s.table, ref) && r !in s.requests
    ensures Inv(Begin(s, ref, key, r).0)
  {
    if Begin(s, ref, key, r).1.Served? {
      BeginExact(s, ref, key, r);
      BeginSizes(s, ref, key, r);
    }
  }

  lemma BeginSizes(s: Server, ref: Ref, key: string, r: RequestId)
    requires SizesFit(s) && TableFits(s) && OrphansCancelled(s) && ref in s.objects && Listed(s.table, ref)
    requires Begin(s, ref, key, r).1.Served?
    ensures var t := Begin(s, ref, key, r).0;
            SizesFit(t) && TableFits(t) && OrphansCancelled(t)
  {
    assert |Begin(s, ref, key, r).0.objects[ref].active| == |s.objects[ref].active| + 1;
  }

  lemma FinishExact(s: Server, q: RequestId, now: int)
    requires ActiveExact(s) && q in s.requests && s.requests[q].session in s.objects
    ensures ActiveExact(Finished(s, q, now))
  {
    var t := Finished(s, q, now);
    assert Holds(s, s.requests[q], q);
    forall r | r in t.requests
      ensures Holds(t, t.requests[r], r)
    {
      assert Holds(s, s.requests[r], r);
    }
    forall k, key | k in t.objects && key in t.objects[k].active
      ensures Runs(t, InFlight(k, key), t.objects[k].active[key])
    {
      assert Runs(s, InFlight(k, key), s.objects[k].active[key]);
    }
  }

  lemma FinishInv(s: Server, r: RequestId, now: int)
    requires Inv(s) && r in s.requests && s.requests[r].session in s.objects
    ensures Inv(Finished(s, r, now))
  {
    var t := Finished(s, r, now);
    var f := s.requests[r];
    FinishExact(s, r, now);
    assert |t.objects[f.session].active| <= |s.objects[f.session].active| by {
      SubsetSize(t.objects[f.session].active.Keys, s.objects[f.session].active.Keys);
      assert |t.objects[f.session].active.Keys| == |t.objects[f.session].active|;
      assert |s.objects[f.session].active.Keys| == |s.objects[f.session].active|;
    }
    assert SizesFit(t) && TableFits(t);
  }

  /** Taking a session out of the table after cancelling what it runs. */
  lemma UnlistInv(t: Server, id: SessionId)
    requires Inv(t) && id in t.table
    ensures Inv(t.(table := t.table - {id}, cancelled := t.cancelled + t.objects[t.table[id]].active.Values))
  {
    var d := t.(table := t.table - {id}, cancelled := t.cancelled + t.objects[t.table[id]].active.Values);
    assert |d.table| <= |t.table|;
    assert SizesFit(d) && TableFits(d);
    assert ActiveExact(d) by {
      assert forall f, r :: Holds(t, f, r) <==> Holds(d, f, r);
      assert forall f, r :: Runs(t, f, r) <==> Runs(d, f, r);
    }
    forall r | r in d.requests
      ensures Listed(d.table, d.requests[r].session) || r in d.cancelled
    {
      assert Holds(t, t.requests[r], r);
      if k :| k in t.table && t.table[k] == d.requests[r].session {
        assert k == id || d.table[k] == d.requests[r].session;
      }
    }
  }

  lemma DeleteInv(s: Server, h: Headers, now: int, later: int)
    requires Inv(s)
    ensures Inv(Deleted(s, h, now, later).0)
  {
    LookupInv(s, h, now, later);
    if Deleted(s, h, now, later).1 {
      UnlistInv(SessionForHttp(s, h, now, later).0, h.ids[0]);
    }
  }

  lemma SweepInv(s: Server)
    requires Inv(s) && s.closed
    ensures Inv(Swept(s))
  {
    forall r | r in s.requests
      ensures r in Swept(s).cancelled
    {
      if id :| id in s.table && s.table[id] == s.requests[r].session {
        assert Holds(s, s.requests[r], r);
        assert r in s.objects[s.table[id]].active.Values;
      }
    }
  }

  lemma EnterInv(s: Server, c: Call, h: Headers, now: int, later: int, supply: Supply)
    requires Inv(s) && Enabled(s, Enter(c, h, now, later, supply))
    ensures Inv(Handle(s, c, h, now, later, supply).0)
  {
    LookupInv(s, h, now, later);
    var (t, lookup) := SessionForHttp(s, h, now, later);
    if WellFormed(c) && lookup.Found? {
      if c.id.None? {
        if lookup.session.Some? {
          CancelInv(t, lookup.session.value, c.target);
        }
      } else if c.method_ == "initialize" {
        InitializeInv(t, c, lookup.session, later, supply);
      } else if lookup.session.Some? && RequestKey(c.id.value).Some? {
        assert t.table[h.ids[0]] == lookup.session.value;
        BeginInv(t, lookup.session.value, RequestKey(c.id.value).value, supply.request);
      }
    }
  }

  lemma StepInv(s: Server, step: Step)
    requires Inv(s) && Enabled(s, step)
    ensures Inv(Apply(s, step))
  {
    match step
    case Enter(c, h, now, later, supply) => EnterInv(s, c, h, now, later, supply);
    case Finish(r, now) => FinishInv(s, r, now);
    case Delete(h, now, later) => DeleteInv(s, h, now, later);
    case MarkClosed =>
    case Sweep => SweepInv(s);
  }

  // ----- what holds in every run -----

  function Execute(steps: seq<Step>): Option<Server> {
    if steps == [] then Some(Init)
    else
      var step := steps[|steps| - 1];
      match Execute(steps[..|steps| - 1])
      case None => None
      case Some(s) => if Enabled(s, step) then Some(Apply(s, step)) else None
  }

  lemma {:induction false} RunInv(steps: seq<Step>)
    requires Execute(steps).Some?
    ensures Inv(Execute(steps).value)
  {
    if steps != [] {
      RunInv(steps[..|steps| - 1]);
      StepInv(Execute(steps[..|steps| - 1]).value, steps[|steps| - 1]);
    }
  }

  /** The capacities, and each active map the exact image of the keyed requests in flight. */
  lemma TableBounds(steps: seq<Step>, ref: Ref, key: string, r: RequestId)
    requires Execute(steps).Some?
    ensures var s := Execute(steps).value;
            && |s.table| <= 256
            && (ref in s.objects ==> |s.objects[ref].active| <= 128)
            && ((ref in s.objects && key in s.objects[ref].active && s.objects[ref].active[key] == r)
                <==> r in s.requests && s.requests[r] == InFlight(ref, key))
  {
    RunInv(steps);
    var s := Execute(steps).value;
    if r in s.requests && s.requests[r] == InFlight(ref, key) {
      assert Holds(s, s.requests[r], r);
    }
    if ref in s.objects && key in s.objects[ref].active {
      assert Runs(s, InFlight(ref, key), s.objects[ref].active[key]);
    }
  }

  /**
   A session leaves the table only by its own deletion, by the final sweep, or by expiring with
   no active request and no use within the idle limit.
   */
  lemma OnlyIdleExpire(s: Server, step: Step, id: SessionId)
    requires Inv(s) && Enabled(s, step) && id in s.table && id !in Apply(s, step).table
    ensures
      || step.Sweep?
      || (step.Delete? && step.h.ids == [id] && Deleted(s, step.h, step.now, step.later).1)
      || ((step.Enter? || step.Delete?) && s.objects[s.table[id]].active == map[]
          && step.now - s.objects[s.table[id]].lastUsed >= 1800)
  {
    if step.Enter? {
      ExpiryIsIdle(s, step.now, id);
      EnterKeeps(s, step.c, step.h, step.now, step.later, step.supply, id);
    } else if step.Delete? {
      ExpiryIsIdle(s, step.now, id);
      DeleteKeeps(s, step.h, step.now, step.later, id);
    }
  }

  lemma ExpiryIsIdle(s: Server, now: int, id: SessionId)
    requires TableFits(s) && id in s.table
    ensures id in Expired(s, now).table || Idle(s.objects[s.table[id]], now)
  {}

  lemma EnterKeeps(s: Server, c: Call, h: Headers, now: int, later: int, supply: Supply, id: SessionId)
    requires id in s.table
    ensures id in Expired(s, now).table ==> id in Handle(s, c, h, now, later, supply).0.table
  {}

  lemma DeleteKeeps(s: Server, h: Headers, now: int, later: int, id: SessionId)
    requires id in s.table
    ensures id in Expired(s, now).table ==>
              id in Deleted(s, h, now, later).0.table || (Deleted(s, h, now, later).1 && h.ids == [id])
  {}

  /** And every lookup on an open server removes each session that is idle. */
  lemma IdleLeave(s: Server, step: Step, id: SessionId)
    requires Inv(s) && Enabled(s, step) && !s.closed && id in s.table
    requires (step.Enter? && WellFormed(step.c)) || step.Delete?
    requires s.objects[s.table[id]].active == map[] && step.now - s.objects[s.table[id]].lastUsed >= 1800
    ensures id !in Apply(s, step).table
  {
    assert id !in Expired(s, step.now).table;
    if step.Enter? {
      EnterDrops(s, step.c, step.h, step.now, step.later, step.supply, id);
    } else {
      DeleteDrops(s, step.h, step.now, step.later, id);
    }
  }

  lemma EnterDrops(s: Server, c: Call, h: Headers, now: int, later: int, supply: Supply, id: SessionId)
    requires !s.closed && WellFormed(c) && supply.id != Some(id) && id !in Expired(s, now).table
    ensures id !in Handle(s, c, h, now, later, supply).0.table
  {}

  lemma DeleteDrops(s: Server, h: Headers, now: int, later: int, id: SessionId)
    requires !s.closed && id !in Expired(s, now).table
    ensures id !in Deleted(s, h, now, later).0.table
  {}

  // ----- what a request is answered -----

  /** The headers of a request name the listed session object ref, which has not expired, under its own protocol. */
  predicate Names(s: Server, h: Headers, now: int, ref: Ref) {
    && |h.ids| == 1 && h.ids[0] != "" && h.ids[0] in s.table && s.table[h.ids[0]] == ref && ref in s.objects
    && (s.objects[ref].active != map[] || now - s.objects[ref].lastUsed < 1800)
    && (h.versions == [] || (h.versions == [s.objects[ref].protocol] && SupportedProtocol(h.versions[0])))
  }

  /** Whether a listed session survives the expiry at the head of a lookup. */
  lemma SurvivesIff(s: Server, now: int, id: SessionId)
    requires id in s.table && s.table[id] in s.objects
    ensures id in Expired(s, now).table <==>
              s.objects[s.table[id]].active != map[] || now - s.objects[s.table[id]].lastUsed < 1800
    ensures id in Expired(s, now).table ==> Expired(s, now).table[id] == s.table[id]
  {}

  /** A session is found exactly if the server is open and the headers name it; none exactly if they name none. */
  lemma FoundIff(s: Server, h: Headers, now: int, later: int, ref: Ref)
    requires TableFits(s)
    ensures SessionForHttp(s, h, now, later).1 == Found(Some(ref)) <==> !s.closed && Names(s, h, now, ref)
    ensures SessionForHttp(s, h, now, later).1 == Found(None) <==>
              !s.closed && h.ids == [] && |h.versions| <= 1 && (h.versions != [] ==> SupportedProtocol(h.versions[0]))
    ensures SessionForHttp(s, h, now, later).1 == ServerClosed <==> s.closed
  {
    if |h.ids| == 1 && h.ids[0] in s.table {
      SurvivesIff(s, now, h.ids[0]);
    }
    assert |h.versions| == 1 ==> h.versions == [h.versions[0]];
  }

  /** A message that is no request, or whose id is neither null nor text nor a number, is refused before any session is looked at. */
  lemma MalformedIsInvalid(s: Server, c: Call, h: Headers, now: int, later: int, supply: Supply)
    ensures Handle(s, c, h, now, later, supply).1 == Invalid <==>
              !c.valid || c.method_ == "" || c.id == Some(OtherId)
    ensures Handle(s, c, h, now, later, supply).1 == Invalid ==> Handle(s, c, h, now, later, supply).0 == s
  {}

  /**
   A keyed request of a session is refused exactly while one with the same typed id is in flight
   there or 128 others are; otherwise it is in flight from then on.
   */
  lemma KeyedAnswer(s: Server, c: Call, h: Headers, now: int, later: int, supply: Supply, ref: Ref, key: string)
    requires Inv(s) && Enabled(s, Enter(c, h, now, later, supply)) && WellFormed(c) && !s.closed && Names(s, h, now, ref)
    requires c.id.Some? && RequestKey(c.id.value) == Some(key) && c.method_ != "initialize"
    ensures
      var (t, r) := Handle(s, c, h, now, later, supply);
      && (r == Duplicate <==> exists q :: Runs(s, InFlight(ref, key), q))
      && (r == TooMany <==> (forall q :: !Runs(s, InFlight(ref, key), q)) && |s.objects[ref].active| == 128)
      && t.requests == (if r in {Duplicate, TooMany} then s.requests else s.requests[supply.request := InFlight(ref, key)])
      && t.cancelled == s.cancelled
  {
    FoundIff(s, h, now, later, ref);
    if key in s.objects[ref].active {
      assert Runs(s, InFlight(ref, key), s.objects[ref].active[key]);
    }
    if q :| Runs(s, InFlight(ref, key), q) {
      assert Holds(s, s.requests[q], q);
    }
  }

  /** An initialize call opens a session exactly without a session id, while fewer than 256 are unexpired. */
  lemma InitializeAnswer(s: Server, c: Call, h: Headers, now: int, later: int, supply: Supply)
    requires Inv(s) && Enabled(s, Enter(c, h, now, later, supply)) && WellFormed(c) && c.method_ == "initialize"
    ensures
      var (t, r) := Handle(s, c, h, now, later, supply);
      && (r.Initialized? <==>
            !s.closed && h.ids == [] && !BadHeaders(h) && c.id.Some? && RequestKey(c.id.value).Some?
            && |Expired(s, now).table| < 256 && supply.id.Some?)
      && (r.Initialized? ==>
            supply.id == Some(r.id) && r.id !in s.table && t.table == Expired(s, now).table[r.id := supply.ref]
            && t.objects == s.objects[supply.ref := HttpSession(NegotiatedProtocol(c.version), later, map[])])
  {}

  // ----- what a session object remembers -----

  /** The time of the use that a step makes of session object ref, if it makes one. */
  function UseOf(s: Server, step: Step, ref: Ref): Option<int> {
    match step
    case Enter(c, h, now, later, supply) =>
      if WellFormed(c) && !s.closed && Names(s, h, now, ref) then Some(later)
      else if c.method_ == "initialize" && supply.ref == ref && ref !in s.objects then Some(later)
      else None
    case Delete(h, now, later) => if !s.closed && Names(s, h, now, ref) then Some(later) else None
    case Finish(r, now) => if r in s.requests && s.requests[r].session == ref then Some(now) else None
    case _ => None
  }

  /** A lookup keeps the protocol of ref, and sets its last use exactly if the headers name it. */
  predicate Touched(s: Server, h: Headers, now: int, later: int, ref: Ref)
    requires ref in s.objects
  {
    var t := SessionForHttp(s, h, now, later).0;
    && ref in t.objects && t.objects[ref].protocol == s.objects[ref].protocol
    && t.objects[ref].lastUsed == if !s.closed && Names(s, h, now, ref) then later else s.objects[ref].lastUsed
  }

  lemma LookupTouches(s: Server, h: Headers, now: int, later: int)
    ensures
      var (t, lookup) := SessionForHttp(s, h, now, later);
      if lookup.Found? && lookup.session.Some?
      then
        && h.ids != [] && h.ids[0] in s.table && s.table[h.ids[0]] == lookup.session.value && lookup.session.value in s.objects
        && t.objects == s.objects[lookup.session.value := s.objects[lookup.session.value].(lastUsed := later)]
      else t.objects == s.objects
  {}

  lemma LookupUse(s: Server, h: Headers, now: int, later: int, ref: Ref)
    requires TableFits(s) && ref in s.objects
    ensures Touched(s, h, now, later, ref)
  {
    FoundIff(s, h, now, later, ref);
    LookupTouches(s, h, now, later);
  }

  /** After the lookup, a request changes no session's protocol or last use, and makes at most a new one. */
  lemma HandleUse(s: Server, c: Call, h: Headers, now: int, later: int, supply: Supply, ref: Ref)
    requires supply.ref !in s.objects && ref in Handle(s, c, h, now, later, supply).0.objects
    ensures
      var (t, u) := (SessionForHttp(s, h, now, later).0, Handle(s, c, h, now, later, supply).0);
      && (!WellFormed(c) ==> u == s)
      && (WellFormed(c) && ref in s.objects ==>
            && ref in t.objects && u.objects[ref].protocol == t.objects[ref].protocol
            && u.objects[ref].lastUsed == t.objects[ref].lastUsed)
      && (ref !in s.objects ==>
            && WellFormed(c) && c.method_ == "initialize" && ref == supply.ref && u.objects[ref].lastUsed == later
            && u.objects[ref].protocol == NegotiatedProtocol(c.version))
  {}

  /** What a step that leaves x in session object ref may have changed there. */
  predicate UseFits(s: Server, step: Step, ref: Ref, x: HttpSession) {
    && (ref in s.objects ==> x.protocol == s.objects[ref].protocol)
    && (ref !in s.objects ==> Opens(step, ref, x.protocol) && UseOf(s, step, ref).Some?)
    && x.lastUsed == if UseOf(s, step, ref).Some? then UseOf(s, step, ref).value else s.objects[ref].lastUsed
  }

  lemma StepUse(s: Server, step: Step, ref: Ref)
    requires Inv(s) && Enabled(s, step) && ref in Apply(s, step).objects
    ensures UseFits(s, step, ref, Apply(s, step).objects[ref])
  {
    match step
    case Enter(c, h, now, later, supply) =>
      if ref in s.objects {
        LookupUse(s, h, now, later, ref);
      }
      EnterFits(s, c, h, now, later, supply, ref);
    case Delete(h, now, later) => DeleteFits(s, h, now, later, ref);
    case Finish(r, now) => FinishFits(s, r, now, ref);
    case _ =>
  }

  lemma EnterFits(s: Server, c: Call, h: Headers, now: int, later: int, supply: Supply, ref: Ref)
    requires Enabled(s, Enter(c, h, now, later, supply)) && ref in Handle(s, c, h, now, later, supply).0.objects
    requires ref in s.objects ==> Touched(s, h, now, later, ref)
    ensures UseFits(s, Enter(c, h, now, later, supply), ref, Handle(s, c, h, now, later, supply).0.objects[ref])
  {
    HandleUse(s, c, h, now, later, supply, ref);
  }

  lemma DeleteFits(s: Server, h: Headers, now: int, later: int, ref: Ref)
    requires TableFits(s) && ref in Deleted(s, h, now, later).0.objects
    ensures UseFits(s, Delete(h, now, later), ref, Deleted(s, h, now, later).0.objects[ref])
  {
    DeletedObjects(s, h, now, later);
    LookupTouches(s, h, now, later);
    LookupUse(s, h, now, later, ref);
  }

  lemma DeletedObjects(s: Server, h: Headers, now: int, later: int)
    ensures Deleted(s, h, now, later).0.objects == SessionForHttp(s, h, now, later).0.objects
  {}

  lemma FinishFits(s: Server, r: RequestId, now: int, ref: Ref)
    requires Enabled(s, Finish(r, now)) && ref in Finished(s, r, now).objects
    ensures UseFits(s, Finish(r, now), ref, Finished(s, r, now).objects[ref])
  {}

  /** The step is an initialize call that made session object ref, and `protocol` is what it negotiated. */
  predicate Opens(step: Step, ref: Ref, protocol: string) {
    step.Enter? && WellFormed(step.c) && step.c.method_ == "initialize" && step.supply.ref == ref
    && protocol == NegotiatedProtocol(step.c.version)
  }

  ghost predicate UsedLast(steps: seq<Step>, ref: Ref, k: nat, time: int) {
    && k < |steps|
    && UseIn(steps, k, ref) == Some(time)
    && forall j :: k < j < |steps| ==> UseIn(steps, j, ref) == None
  }

  /** The use that step k of a run makes of ref. */
  function UseIn(steps: seq<Step>, k: nat, ref: Ref): Option<int>
    requires k < |steps|
  {
    var s := Execute(steps[..k]);
    if s.Some? then UseOf(s.value, steps[k], ref) else None
  }

  /** The protocol of a session object is what the initialize call that made it negotiated. */
  lemma {:induction false} ProtocolIsNegotiated(steps: seq<Step>, ref: Ref)
    requires Execute(steps).Some? && ref in Execute(steps).value.objects
    ensures exists k :: 0 <= k < |steps| && Opens(steps[k], ref, Execute(steps).value.objects[ref].protocol)
  {
    var n := |steps| - 1;
    var before := steps[..n];
    var s := Execute(before).value;
    RunInv(before);
    StepUse(s, steps[n], ref);
    if ref in s.objects {
      ProtocolIsNegotiated(before, ref);
      var i :| 0 <= i < n && Opens(before[i], ref, s.objects[ref].protocol);
      assert Opens(steps[i], ref, s.objects[ref].protocol);
    }
  }

  /** The last use on record is the last time a request named the session, or one of its requests ended. */
  lemma {:induction false} LastUseIsTheLast(steps: seq<Step>, ref: Ref)
    requires Execute(steps).Some? && ref in Execute(steps).value.objects
    ensures exists k: nat :: UsedLast(steps, ref, k, Execute(steps).value.objects[ref].lastUsed)
  {
    var n := |steps| - 1;
    var before := steps[..n];
    var s := Execute(before).value;
    RunInv(before);
    StepUse(s, steps[n], ref);
    var use := UseOf(s, steps[n], ref);
    assert UseIn(steps, n, ref) == use;
    if use.Some? {
      assert UsedLast(steps, ref, n, use.value);
    } else {
      LastUseIsTheLast(before, ref);
      var k: nat :| UsedLast(before, ref, k, s.objects[ref].lastUsed);
      UnusedSince(steps, ref, k, s.objects[ref].lastUsed);
    }
  }

  lemma UnusedSince(steps: seq<Step>, ref: Ref, k: nat, time: int)
    requires steps != [] && UsedLast(steps[..|steps| - 1], ref, k, time) && UseIn(steps, |steps| - 1, ref) == None
    ensures UsedLast(steps, ref, k, time)
  {
    var n := |steps| - 1;
    forall j | 0 <= j < n
      ensures UseIn(steps, j, ref) == UseIn(steps[..n], j, ref)
    {
      assert steps[..n][..j] == steps[..j];
    }
  }

  /** A cancellation note cancels the request with the same typed id in the same session, and no other. */
  lemma CancelIsExact(s: Server, c: Call, h: Headers, now: int, later: int, supply: Supply, r: RequestId)
    requires Inv(s) && Enabled(s, Enter(c, h, now, later, supply)) && r in s.requests && r !in s.cancelled
    ensures r in Handle(s, c, h, now, later, supply).0.cancelled <==>
              Notes(s, c, h, now, later) && RequestKey(c.target) == Some(s.requests[r].key)
              && SessionForHttp(s, h, now, later).1.session == Some(s.requests[r].session)
  {
    LookupInv(s, h, now, later);
    NotesCancel(s, c, h, now, later, supply);
    var (t, lookup) := SessionForHttp(s, h, now, later);
    if Notes(s, c, h, now, later) {
      TargetIsExact(t, lookup.session.value, c.target, r);
    }
  }

  /** The request is a cancellation note of a session that was found. */
  predicate Notes(s: Server, c: Call, h: Headers, now: int, later: int) {
    WellFormed(c) && c.id.None? && c.method_ == "notifications/cancelled"
    && var lookup := SessionForHttp(s, h, now, later).1; lookup.Found? && lookup.session.Some?
  }

  lemma NotesCancel(s: Server, c: Call, h: Headers, now: int, later: int, supply: Supply)
    ensures var (t, lookup) := SessionForHttp(s, h, now, later);
            && t.requests == s.requests && t.cancelled == s.cancelled
            && (if Notes(s, c, h, now, later)
                then Handle(s, c, h, now, later, supply).0 == CancelTarget(t, lookup.session.value, c.target)
                else Handle(s, c, h, now, later, supply).0.cancelled == s.cancelled)
  {}

  lemma TargetIsExact(t: Server, ref: Ref, target: RawId, r: RequestId)
    requires Inv(t) && ref in t.objects && r in t.requests && r !in t.cancelled
    ensures r in CancelTarget(t, ref, target).cancelled <==>
              RequestKey(target) == Some(t.requests[r].key) && ref == t.requests[r].session
  {
    assert Holds(t, t.requests[r], r);
    if RequestKey(target).Some? && RequestKey(target).value in t.objects[ref].active {
      var key := RequestKey(target).value;
      assert Runs(t, InFlight(ref, key), t.objects[ref].active[key]);
    }
  }

  /** Deleting a session takes it out of the table and cancels everything it runs. */
  lemma DeleteCancelsAll(s: Server, h: Headers, now: int, later: int, r: RequestId)
    requires Inv(s) && Deleted(s, h, now, later).1 && r in s.requests
    ensures |h.ids| == 1 && h.ids[0] in s.table && h.ids[0] !in Deleted(s, h, now, later).0.table
    ensures s.requests[r].session == s.table[h.ids[0]] ==> r in Deleted(s, h, now, later).0.cancelled
  {
    LookupInv(s, h, now, later);
    var t := SessionForHttp(s, h, now, later).0;
    assert Holds(t, t.requests[r], r);
  }

  lemma SweepIsFinal(s: Server, step: Step)
    requires Inv(s) && Enabled(s, step) && s.swept
    ensures Apply(s, step).swept
  {}

  lemma {:induction false} SweptForGood(steps: seq<Step>, k: nat)
    requires k <= |steps| && Execute(steps).Some? && Execute(steps[..k]).Some? && Execute(steps[..k]).value.swept
    ensures Execute(steps).value.swept
    decreases |steps|
  {
    var n := |steps| - 1;
    if k <= n {
      assert steps[..n][..k] == steps[..k];
      SweptForGood(steps[..n], k);
      RunInv(steps[..n]);
      SweepIsFinal(Execute(steps[..n]).value, steps[n]);
    } else {
      assert steps[..k] == steps;
    }
  }

  /** Once the server has been closed and swept, in every later state the table is empty and all that ran is cancelled. */
  lemma EmptyAfterClose(steps: seq<Step>, k: nat, r: RequestId)
    requires k <= |steps| && Execute(steps).Some? && Execute(steps[..k]).Some? && Execute(steps[..k]).value.swept
    ensures var s := Execute(steps).value; s.table == map[] && (r in s.requests ==> r in s.cancelled)
  {
    SweptForGood(steps, k);
    RunInv(steps);
  }

  // ----- the server's fields -----

  class SessionTable {
    var closed: bool
    var swept: bool
    var table: map<SessionId, Ref>
    var objects: map<Ref, HttpSession>
    var requests: map<RequestId, InFlight>
    var cancelled: set<RequestId>

    ghost function View(): Server
      reads this
    {
      Server(closed, swept, table, objects, requests, cancelled)
    }

    constructor ()
      ensures View() == Init
    {
      closed, swept, table, objects, requests, cancelled := false, false, map[], map[], map[], {};
    }

    /** `for id, session := range s.sessions { if idle { delete } }` */
    method ExpireSessions(now: int)
      modifies this`table
      ensures View() == Expired(old(View()), now)
    {
      var todo := table.Keys;
      while todo != {}
        invariant todo <= old(table).Keys
        invariant forall id :: id in table <==>
                    id in old(table) && (id in todo || !(old(table)[id] in objects && Idle(objects[old(table)[id]], now)))
        invariant forall id :: id in table ==> table[id] == old(table)[id]
        decreases todo
      {
        var id :| id in todo;
        if table[id] in objects && Idle(objects[table[id]], now) {
          table := table - {id};
        }
        todo := todo - {id};
      }
      assert table == Expired(old(View()), now).table;
    }

    /** closeSessions: drop every session and cancel what it runs. */
    method CloseSessions()
      requires TableFits(View()) && closed
      modifies this
      ensures View() == Swept(old(View()))
    {
      while table != map[]
        invariant table.Keys <= old(table).Keys && forall id :: id in table ==> table[id] == old(table)[id]
        invariant View() == old(View()).(table := table, cancelled := cancelled)
        invariant forall r :: r in cancelled <==> r in old(cancelled) || Dropped(old(View()), table, r)
        decreases table.Keys
      {
        var id :| id in table;
        cancelled := cancelled + objects[table[id]].active.Values;
        table := table - {id};
      }
      swept := true;
      assert cancelled == Swept(old(View())).cancelled;
    }

    method FinishRequest(r: RequestId, now: int)
      requires r in requests && requests[r].session in objects
      modifies this
      ensures View() == Finished(old(View()), r, now)
    {
      cancelled := cancelled + {r};
      var f := requests[r];
      var x := objects[f.session];
      objects := objects[f.session := x.(active := x.active - {f.key}, lastUsed := now)];
      requests := requests - {r};
    }
  }

  /** Request r runs in a session of s that has left `table`. */
  ghost predicate Dropped(s: Server, table: map<SessionId, Ref>, r: RequestId) {
    exists id :: id in s.table && id !in table && s.table[id] in s.objects && r in s.objects[s.table[id]].active.Values
  }
}
