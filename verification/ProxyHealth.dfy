/**
 The proxy-health scheduler behind the profile cards: a shared cache, at most one probe per
 profile, three probes at a time, and a probe for an old proxy superseded by one for the wanted
 proxy. JavaScript runs each callback to its end, so every step below is atomic.
 */
module ProxyHealth {
  import opened Common

  type ProbeId = nat
  type Card = nat

  const MAX_CONCURRENT := 3
  const TTL := 300_000   // milliseconds

  datatype ProxyConfig = ProxyConfig(scheme: string, username: Option<string>, password: Option<string>, host: string, port: string)

  function OrEmpty(s: Option<string>): string {
    if s.Some? then s.value else ""
  }

  function KeyOf(p: ProxyConfig): string {
    p.scheme + "://" + OrEmpty(p.username) + ":" + OrEmpty(p.password) + "@" + p.host + ":" + p.port
  }

  /** With one part changed, the key is the same exactly if the part is; a missing one counts as empty. */
  lemma PartChangesKey(x: ProxyConfig, username: Option<string>, password: Option<string>, scheme: string, host: string, port: string)
    ensures KeyOf(x.(password := password)) == KeyOf(x) <==> OrEmpty(password) == OrEmpty(x.password)
    ensures KeyOf(x.(username := username)) == KeyOf(x) <==> OrEmpty(username) == OrEmpty(x.username)
    ensures KeyOf(x.(scheme := scheme)) == KeyOf(x) <==> scheme == x.scheme
    ensures KeyOf(x.(host := host)) == KeyOf(x) <==> host == x.host
    ensures KeyOf(x.(port := port)) == KeyOf(x) <==> port == x.port
  {
    var user, pass := OrEmpty(x.username), OrEmpty(x.password);
    Middle(x.scheme + "://" + user + ":", pass, OrEmpty(password), "@" + x.host + ":" + x.port);
    Middle(x.scheme + "://", user, OrEmpty(username), ":" + pass + "@" + x.host + ":" + x.port);
    Middle("", x.scheme, scheme, "://" + user + ":" + pass + "@" + x.host + ":" + x.port);
    Middle(x.scheme + "://" + user + ":" + pass + "@", x.host, host, ":" + x.port);
    Middle(x.scheme + "://" + user + ":" + pass + "@" + x.host + ":", x.port, port, "");
    KeyParts(x);
    KeyParts(x.(password := password));
    KeyParts(x.(username := username));
    KeyParts(x.(scheme := scheme));
    KeyParts(x.(host := host));
    KeyParts(x.(port := port));
  }

  /** A key, cut before and after each of its parts. */
  lemma KeyParts(x: ProxyConfig)
    ensures
      var user, pass := OrEmpty(x.username), OrEmpty(x.password);
      && KeyOf(x) == x.scheme + "://" + user + ":" + (pass + ("@" + x.host + ":" + x.port))
      && KeyOf(x) == x.scheme + "://" + (user + (":" + pass + "@" + x.host + ":" + x.port))
      && KeyOf(x) == "" + (x.scheme + ("://" + user + ":" + pass + "@" + x.host + ":" + x.port))
      && KeyOf(x) == x.scheme + "://" + user + ":" + pass + "@" + (x.host + (":" + x.port))
      && KeyOf(x) == x.scheme + "://" + user + ":" + pass + "@" + x.host + ":" + (x.port + "")
  {}

  lemma Middle(a: string, b: string, c: string, d: string)
    ensures a + (b + d) == a + (c + d) <==> b == c
  {
    if a + (b + d) == a + (c + d) {
      assert (a + (b + d))[|a|..] == b + d && (a + (c + d))[|a|..] == c + d;
      assert |b| == |c| && (b + d)[..|b|] == b && (c + d)[..|c|] == c;
    }
  }

  /** Different credentials can share a key: the parts are not escaped. */
  lemma KeysCollide(host: string, port: string)
    ensures
      var x := ProxyConfig("http", Some("a:b"), Some("c"), host, port);
      var y := ProxyConfig("http", Some("a"), Some("b:c"), host, port);
      x != y && KeyOf(x) == KeyOf(y)
  {
    assert "a:b" + ":" + "c" == "a" + ":" + "b:c";
  }

  datatype Health = Checking | Resolved(outcome: Result<string, string>)

  datatype Entry = Entry(health: Health, ts: int, key: string)

  datatype Probe = Probe(profile: ProfileId, proxy: ProxyConfig)

  datatype Mounted = Mounted(profile: ProfileId, proxy: ProxyConfig)

  /** The queue and the jobs that hold a slot. */
  datatype Slots = Slots(
    active: int,
    queue: seq<ProbeId>,
    running: set<ProbeId>,             // jobs waiting for detectGeo
    settled: set<ProbeId>,             // jobs over, still counted in active
    enqueued: seq<ProbeId>,            // history: in the order queued, in the order started
    started: seq<ProbeId>)

  datatype State = State(
    slots: Slots,
    probes: map<ProbeId, Probe>,       // every probe made so far
    inFlight: map<ProfileId, ProbeId>,
    cache: map<ProfileId, Entry>,
    wanted: map<ProfileId, ProxyConfig>,
    listeners: map<ProfileId, set<Card>>,
    cards: map<Card, Mounted>)         // mounted cards whose profile has a proxy

  function Initial(): State {
    State(Slots(0, [], {}, {}, [], []), map[], map[], map[], map[], map[], map[])
  }

  // ----- the steps -----

  /** The first queued job takes a slot. */
  function StartFirst(sl: Slots): Slots
    requires sl.queue != []
  {
    var id := sl.queue[0];
    sl.(queue := sl.queue[1..], active := sl.active + 1, running := sl.running + {id}, started := sl.started + [id])
  }

  /** Starts queued jobs while a slot is free. */
  function Pump(sl: Slots): Slots
    decreases |sl.queue|
  {
    if sl.active < MAX_CONCURRENT && sl.queue != [] then Pump(StartFirst(sl)) else sl
  }

  function RunQueued(sl: Slots, id: ProbeId): Slots {
    Pump(sl.(queue := sl.queue + [id], enqueued := sl.enqueued + [id]))
  }

  /** A probe unless one is in flight: cache "checking", queue the job, record it. */
  function StartProbe(s: State, p: ProfileId, proxy: ProxyConfig): State {
    if p in s.inFlight then s
    else
      var id := |s.probes|;
      s.(cache := s.cache[p := Entry(Checking, 0, KeyOf(proxy))],
         probes := s.probes[id := Probe(p, proxy)],
         slots := RunQueued(s.slots, id),
         inFlight := s.inFlight[p := id])
  }

  predicate IsFresh(cache: map<ProfileId, Entry>, p: ProfileId, key: string, now: int) {
    p in cache && cache[p].key == key && cache[p].ts > 0 && now - cache[p].ts < TTL
  }

  /** The effect of a card that mounts, or whose key changed after UnmountedCard. */
  function MountedCard(s: State, card: Card, p: ProfileId, proxy: ProxyConfig, now: int): State {
    var s1 := s.(listeners := Insert(s.listeners, p, card), wanted := s.wanted[p := proxy], cards := s.cards[card := Mounted(p, proxy)]);
    if IsFresh(s.cache, p, KeyOf(proxy), now) || p in s.inFlight then s1 else StartProbe(s1, p, proxy)
  }

  /** The effect's cleanup. */
  function UnmountedCard(s: State, card: Card): State
    requires card in s.cards
  {
    var p := s.cards[card].profile;
    var rest := Lookup(s.listeners, p) - {card};
    s.(listeners := Discard(s.listeners, p, card), wanted := if rest == {} then s.wanted - {p} else s.wanted, cards := s.cards - {card})
  }

  /** detectGeo returned or failed: the cache holds the result, for the probe's own key. */
  function SettledProbe(s: State, id: ProbeId, outcome: Result<string, string>, now: int): State
    requires id in s.probes
  {
    var probe := s.probes[id];
    s.(cache := s.cache[probe.profile := Entry(Resolved(outcome), now, KeyOf(probe.proxy))],
       slots := s.slots.(running := s.slots.running - {id}, settled := s.slots.settled + {id}))
  }

  function Released(sl: Slots, id: ProbeId): Slots {
    Pump(sl.(active := sl.active - 1, settled := sl.settled - {id}))
  }

  /** The probe's finally: out of flight, and superseded if the wanted key is another one. */
  function Finalized(s: State, p: ProfileId): State
    requires p in s.inFlight && s.inFlight[p] in s.probes
  {
    var key := KeyOf(s.probes[s.inFlight[p]].proxy);
    var s1 := s.(inFlight := s.inFlight - {p});
    if p in s.wanted && KeyOf(s.wanted[p]) != key then StartProbe(s1, p, s.wanted[p]) else s1
  }

  datatype Step =
    | Mount(card: Card, profile: ProfileId, proxy: ProxyConfig, now: int)
    | Unmount(card: Card)
    | Recheck(card: Card)
    | Settle(id: ProbeId, outcome: Result<string, string>, now: int)
    | Release(id: ProbeId)
    | Finalize(profile: ProfileId)

  /** Steps that no user action causes. */
  predicate Background(step: Step) {
    step.Settle? || step.Release? || step.Finalize?
  }

  predicate Pending(sl: Slots, id: ProbeId) {
    id in sl.running || id in sl.queue
  }

  predicate Enabled(s: State, step: Step) {
    match step
    case Mount(card, _, _, now) => card !in s.cards && now > 0
    case Unmount(card) => card in s.cards
    case Recheck(card) => card in s.cards
    case Settle(id, _, now) => id in s.slots.running && id in s.probes && now > 0
    case Release(id) => id in s.slots.settled
    case Finalize(p) => p in s.inFlight && s.inFlight[p] in s.probes && !Pending(s.slots, s.inFlight[p])
  }

  function Apply(s: State, step: Step): State
    requires Enabled(s, step)
  {
    match step
    case Mount(card, p, proxy, now) => MountedCard(s, card, p, proxy, now)
    case Unmount(card) => UnmountedCard(s, card)
    case Recheck(card) => StartProbe(s, s.cards[card].profile, s.cards[card].proxy)
    case Settle(id, outcome, now) => SettledProbe(s, id, outcome, now)
    case Release(id) => s.(slots := Released(s.slots, id))
    case Finalize(p) => Finalized(s, p)
  }

  ghost predicate Run(states: seq<State>, steps: seq<Step>) {
    && |states| == |steps| + 1
    && forall i :: 0 <= i < |steps| ==> Enabled(states[i], steps[i]) && states[i + 1] == Apply(states[i], steps[i])
  }

  // ----- the invariant -----

  /** Exactly `active` jobs hold a slot, at most three; all jobs differ; they start in queue order. */
  ghost predicate Counted(sl: Slots) {
    && sl.active == |sl.running| + |sl.settled| <= MAX_CONCURRENT
    && sl.running !! sl.settled
    && (forall i :: 0 <= i < |sl.queue| ==> sl.queue[i] !in sl.running && sl.queue[i] !in sl.settled)
    && (forall i, j :: 0 <= i < j < |sl.queue| ==> sl.queue[i] != sl.queue[j])
    && sl.enqueued == sl.started + sl.queue
  }

  /** No slot is free while a job waits. */
  ghost predicate Working(sl: Slots) {
    Counted(sl) && (sl.queue != [] ==> sl.active == MAX_CONCURRENT)
  }

  /** Ids count up, and every job belongs to a probe. */
  ghost predicate Numbered(sl: Slots, probes: map<ProbeId, Probe>) {
    && (forall id :: id in probes <==> 0 <= id < |probes|)
    && (forall id :: id in sl.settled || Pending(sl, id) ==> id in probes)
  }

  /** A pending probe is the one in flight for its profile. */
  ghost predicate Flying(sl: Slots, probes: map<ProbeId, Probe>, inFlight: map<ProfileId, ProbeId>, id: ProbeId) {
    Pending(sl, id) ==> id in probes && probes[id].profile in inFlight && inFlight[probes[id].profile] == id
  }

  ghost predicate Flights(sl: Slots, probes: map<ProbeId, Probe>, inFlight: map<ProfileId, ProbeId>) {
    && (forall id :: Flying(sl, probes, inFlight, id))
    && (forall p :: p in inFlight ==> inFlight[p] in probes && probes[inFlight[p]].profile == p)
  }

  /** What is wanted is in flight or resolved for the wanted key; a flight in the cache is its own. */
  ghost predicate CacheAt(s: State, p: ProfileId) {
    && (p in s.inFlight ==>
          && p in s.cache && s.inFlight[p] in s.probes
          && s.cache[p].key == KeyOf(s.probes[s.inFlight[p]].proxy)
          && (s.cache[p].health == Checking <==> Pending(s.slots, s.inFlight[p])))
    && (p in s.wanted && p !in s.inFlight ==>
          p in s.cache && s.cache[p].health != Checking && s.cache[p].key == KeyOf(s.wanted[p]))
    && (p in s.cache ==> (s.cache[p].health == Checking ==> s.cache[p].ts == 0 && p in s.inFlight))
  }

  ghost predicate Caches(s: State) {
    forall p :: CacheAt(s, p)
  }

  /** Listeners are the mounted cards; a profile is wanted while one of its cards is mounted. */
  ghost predicate Cards(listeners: map<ProfileId, set<Card>>, cards: map<Card, Mounted>, wanted: set<ProfileId>) {
    && NoEmptySets(listeners)
    && (forall card :: card in cards ==> card in Lookup(listeners, cards[card].profile))
    && (forall p, card :: card in Lookup(listeners, p) ==> card in cards && cards[card].profile == p)
    && (forall p :: p in wanted <==> p in listeners)
  }

  ghost predicate Core(s: State) {
    Working(s.slots) && Numbered(s.slots, s.probes) && Flights(s.slots, s.probes, s.inFlight) && Caches(s)
  }

  ghost predicate Inv(s: State) {
    Core(s) && Cards(s.listeners, s.cards, s.wanted.Keys)
  }

  /** The probe in flight for p is not for the proxy that is wanted now. */
  predicate Outdated(s: State, p: ProfileId) {
    && p in s.inFlight && s.inFlight[p] in s.probes && p in s.wanted
    && KeyOf(s.wanted[p]) != KeyOf(s.probes[s.inFlight[p]].proxy)
  }

  // ----- pumping -----

  lemma StartsOne(sl: Slots)
    requires Counted(sl) && sl.active < MAX_CONCURRENT && sl.queue != []
    ensures Counted(StartFirst(sl))
    ensures |StartFirst(sl).queue| + |StartFirst(sl).running| == |sl.queue| + |sl.running|
    ensures forall id :: Pending(StartFirst(sl), id) <==> Pending(sl, id)
  {
    var t := StartFirst(sl);
    assert sl.queue == [sl.queue[0]] + t.queue;
    assert sl.started + ([sl.queue[0]] + t.queue) == sl.started + [sl.queue[0]] + t.queue;
    forall id
      ensures Pending(t, id) <==> Pending(sl, id)
    {
      assert id in sl.queue <==> id == sl.queue[0] || id in t.queue;
    }
  }

  /** Pumping restores work conservation and only moves jobs from the queue to slots. */
  lemma {:induction false} PumpFills(sl: Slots)
    requires Counted(sl)
    ensures Working(Pump(sl)) && Pump(sl).settled == sl.settled && Pump(sl).enqueued == sl.enqueued
    ensures forall id :: Pending(Pump(sl), id) <==> Pending(sl, id)
    ensures |Pump(sl).queue| + |Pump(sl).running| == |sl.queue| + |sl.running|
    decreases |sl.queue|
  {
    if sl.active < MAX_CONCURRENT && sl.queue != [] {
      StartsOne(sl);
      PumpFills(StartFirst(sl));
    }
  }

  /** A new job with an unused id keeps the slots right. */
  lemma RunQueuedFills(sl: Slots, id: ProbeId)
    requires Working(sl) && !Pending(sl, id) && id !in sl.settled
    ensures
      var t := RunQueued(sl, id);
      && Working(t) && t.settled == sl.settled && t.enqueued == sl.enqueued + [id]
      && (forall x :: Pending(t, x) <==> Pending(sl, x) || x == id)
      && |t.queue| + |t.running| == |sl.queue| + |sl.running| + 1
  {
    var sl1 := sl.(queue := sl.queue + [id], enqueued := sl.enqueued + [id]);
    assert sl.started + sl.queue + [id] == sl.started + (sl.queue + [id]);
    assert id !in sl.queue;
    PumpFills(sl1);
    assert forall x :: Pending(sl1, x) <==> Pending(sl, x) || x == id;
  }

  // ----- every step keeps the invariant -----

  /** What a new probe changes. */
  lemma StartMakes(s: State, p: ProfileId, proxy: ProxyConfig)
    requires Working(s.slots) && Numbered(s.slots, s.probes) && p !in s.inFlight
    ensures
      var id, t := |s.probes|, StartProbe(s, p, proxy);
      && Working(t.slots) && Numbered(t.slots, t.probes)
      && t.slots.settled == s.slots.settled
      && (forall x :: Pending(t.slots, x) <==> Pending(s.slots, x) || x == id)
      && id !in s.probes && !Pending(s.slots, id)
      && |t.slots.queue| + |t.slots.running| == |s.slots.queue| + |s.slots.running| + 1
  {
    var id := |s.probes|;
    assert id !in s.probes;
    assert !Pending(s.slots, id) && id !in s.slots.settled;
    RunQueuedFills(s.slots, id);
    var t := StartProbe(s, p, proxy);
    forall x
      ensures x in t.probes <==> 0 <= x < |t.probes|
    {
      assert x in s.probes <==> 0 <= x < |s.probes|;
    }
    forall x | x in t.slots.settled || Pending(t.slots, x)
      ensures x in t.probes
    {
      assert x == id || x in s.slots.settled || Pending(s.slots, x);
    }
  }

  lemma StartFlights(s: State, p: ProfileId, proxy: ProxyConfig)
    requires Working(s.slots) && Numbered(s.slots, s.probes) && Flights(s.slots, s.probes, s.inFlight) && p !in s.inFlight
    ensures
      var t := StartProbe(s, p, proxy);
      Flights(t.slots, t.probes, t.inFlight)
  {
    StartMakes(s, p, proxy);
    var t := StartProbe(s, p, proxy);
    forall x
      ensures Flying(t.slots, t.probes, t.inFlight, x)
    {
      assert Flying(s.slots, s.probes, s.inFlight, x);
    }
  }

  lemma StartCache(s: State, p: ProfileId, proxy: ProxyConfig, q: ProfileId)
    requires Working(s.slots) && Numbered(s.slots, s.probes) && p !in s.inFlight
    requires q != p ==> CacheAt(s, q)
    ensures CacheAt(StartProbe(s, p, proxy), q)
  {
    StartMakes(s, p, proxy);
    if q != p && q in s.inFlight {
      assert s.inFlight[q] in s.probes && s.inFlight[q] != |s.probes|;
    }
  }

  /** A probe for p makes p right again, whatever the cache said about p. */
  lemma StartKeeps(s: State, p: ProfileId, proxy: ProxyConfig)
    requires Working(s.slots) && Numbered(s.slots, s.probes) && Flights(s.slots, s.probes, s.inFlight)
    requires p !in s.inFlight && forall q :: q != p ==> CacheAt(s, q)
    ensures Core(StartProbe(s, p, proxy))
  {
    StartMakes(s, p, proxy);
    StartFlights(s, p, proxy);
    forall q
      ensures CacheAt(StartProbe(s, p, proxy), q)
    {
      StartCache(s, p, proxy, q);
    }
  }

  lemma MountCards(listeners: map<ProfileId, set<Card>>, cards: map<Card, Mounted>, wanted: set<ProfileId>,
                   card: Card, p: ProfileId, proxy: ProxyConfig)
    requires Cards(listeners, cards, wanted) && card !in cards
    ensures Cards(Insert(listeners, p, card), cards[card := Mounted(p, proxy)], wanted + {p})
  {}

  /** Before its probe, a new card changes only what is wanted for its profile. */
  lemma MountTables(s: State, card: Card, p: ProfileId, proxy: ProxyConfig, now: int, q: ProfileId)
    requires CacheAt(s, q)
    ensures
      var s1 := s.(listeners := Insert(s.listeners, p, card), wanted := s.wanted[p := proxy], cards := s.cards[card := Mounted(p, proxy)]);
      q != p || IsFresh(s.cache, p, KeyOf(proxy), now) || p in s.inFlight ==> CacheAt(s1, q)
  {}

  lemma MountCore(s: State, card: Card, p: ProfileId, proxy: ProxyConfig, now: int)
    requires Core(s)
    ensures Core(MountedCard(s, card, p, proxy, now))
  {
    var s1 := s.(listeners := Insert(s.listeners, p, card), wanted := s.wanted[p := proxy], cards := s.cards[card := Mounted(p, proxy)]);
    forall q
      ensures q != p || IsFresh(s.cache, p, KeyOf(proxy), now) || p in s.inFlight ==> CacheAt(s1, q)
    {
      assert CacheAt(s, q);
      MountTables(s, card, p, proxy, now, q);
    }
    if !IsFresh(s.cache, p, KeyOf(proxy), now) && p !in s.inFlight {
      StartKeeps(s1, p, proxy);
    }
  }

  lemma MountKeepsCards(s: State, card: Card, p: ProfileId, proxy: ProxyConfig, now: int)
    requires Cards(s.listeners, s.cards, s.wanted.Keys) && card !in s.cards
    ensures
      var t := MountedCard(s, card, p, proxy, now);
      Cards(t.listeners, t.cards, t.wanted.Keys)
  {
    MountCards(s.listeners, s.cards, s.wanted.Keys, card, p, proxy);
    assert s.wanted[p := proxy].Keys == s.wanted.Keys + {p};
  }

  lemma MountKeeps(s: State, card: Card, p: ProfileId, proxy: ProxyConfig, now: int)
    requires Inv(s) && card !in s.cards
    ensures Inv(MountedCard(s, card, p, proxy, now))
  {
    MountCore(s, card, p, proxy, now);
    MountKeepsCards(s, card, p, proxy, now);
  }

  lemma UnmountCards(listeners: map<ProfileId, set<Card>>, cards: map<Card, Mounted>, wanted: set<ProfileId>, card: Card)
    requires Cards(listeners, cards, wanted) && card in cards
    ensures
      var p := cards[card].profile;
      Cards(Discard(listeners, p, card), cards - {card}, if Lookup(listeners, p) - {card} == {} then wanted - {p} else wanted)
  {
    var p := cards[card].profile;
    var after := Discard(listeners, p, card);
    forall q
      ensures q in after <==> if q == p then Lookup(listeners, p) - {card} != {} else q in listeners
    {}
  }

  lemma UnmountKeeps(s: State, card: Card)
    requires Inv(s) && card in s.cards
    ensures Inv(UnmountedCard(s, card))
  {
    var t, p := UnmountedCard(s, card), s.cards[card].profile;
    UnmountCards(s.listeners, s.cards, s.wanted.Keys, card);
    assert t.wanted.Keys == if Lookup(s.listeners, p) - {card} == {} then s.wanted.Keys - {p} else s.wanted.Keys;
    forall q
      ensures CacheAt(t, q)
    {
      assert CacheAt(s, q);
    }
  }

  lemma SettleSlots(sl: Slots, id: ProbeId)
    requires Working(sl) && id in sl.running
    ensures
      var t := sl.(running := sl.running - {id}, settled := sl.settled + {id});
      Working(t) && forall x :: Pending(t, x) <==> Pending(sl, x) && x != id
  {
    assert id !in sl.queue;
  }

  lemma SettleKeeps(s: State, id: ProbeId, outcome: Result<string, string>, now: int)
    requires Inv(s) && id in s.slots.running && id in s.probes
    ensures Inv(SettledProbe(s, id, outcome, now))
  {
    var t := SettledProbe(s, id, outcome, now);
    SettleSlots(s.slots, id);
    assert Numbered(t.slots, t.probes);
    forall x
      ensures Flying(t.slots, t.probes, t.inFlight, x)
    {
      assert Flying(s.slots, s.probes, s.inFlight, x);
    }
    forall q
      ensures CacheAt(t, q)
    {
      assert CacheAt(s, q);
      assert Flying(s.slots, s.probes, s.inFlight, id) && Pending(s.slots, id);
    }
  }

  lemma ReleaseSlots(sl: Slots, id: ProbeId)
    requires Working(sl) && id in sl.settled
    ensures
      var t := Released(sl, id);
      && Working(t) && t.settled == sl.settled - {id}
      && (forall x :: Pending(t, x) <==> Pending(sl, x))
      && |t.queue| + |t.running| == |sl.queue| + |sl.running|
  {
    var sl1 := sl.(active := sl.active - 1, settled := sl.settled - {id});
    PumpFills(sl1);
    assert forall x :: Pending(sl1, x) <==> Pending(sl, x);
  }

  lemma ReleaseKeeps(s: State, id: ProbeId)
    requires Inv(s) && id in s.slots.settled
    ensures Inv(s.(slots := Released(s.slots, id)))
  {
    var t := s.(slots := Released(s.slots, id));
    ReleaseSlots(s.slots, id);
    assert Numbered(t.slots, t.probes);
    forall x
      ensures Flying(t.slots, t.probes, t.inFlight, x)
    {
      assert Flying(s.slots, s.probes, s.inFlight, x);
    }
    forall q
      ensures CacheAt(t, q)
    {
      assert CacheAt(s, q);
    }
  }

  /** Taking a finished probe out of flight breaks at most the cache of an outdated profile. */
  lemma OutOfFlight(s: State, p: ProfileId)
    requires Inv(s) && Enabled(s, Finalize(p))
    ensures Flights(s.slots, s.probes, s.inFlight - {p})
    ensures forall q :: q != p || !Outdated(s, p) ==> CacheAt(s.(inFlight := s.inFlight - {p}), q)
  {
    forall id
      ensures Flying(s.slots, s.probes, s.inFlight - {p}, id)
    {
      assert Flying(s.slots, s.probes, s.inFlight, id);
    }
    forall q | q != p || !Outdated(s, p)
      ensures CacheAt(s.(inFlight := s.inFlight - {p}), q)
    {
      assert CacheAt(s, q);
    }
  }

  lemma FinalizeKeeps(s: State, p: ProfileId)
    requires Inv(s) && Enabled(s, Finalize(p))
    ensures Inv(Finalized(s, p))
  {
    OutOfFlight(s, p);
    if Outdated(s, p) {
      StartKeeps(s.(inFlight := s.inFlight - {p}), p, s.wanted[p]);
    }
  }

  lemma StepInv(s: State, step: Step)
    requires Inv(s) && Enabled(s, step)
    ensures Inv(Apply(s, step))
  {
    match step
    case Mount(card, p, proxy, now) => MountKeeps(s, card, p, proxy, now);
    case Unmount(card) => UnmountKeeps(s, card);
    case Recheck(card) =>
      var m := s.cards[card];
      if m.profile !in s.inFlight {
        StartKeeps(s, m.profile, m.proxy);
      }
    case Settle(id, outcome, now) => SettleKeeps(s, id, outcome, now);
    case Release(id) => ReleaseKeeps(s, id);
    case Finalize(p) => FinalizeKeeps(s, p);
  }

  lemma {:induction false} RunInv(states: seq<State>, steps: seq<Step>)
    requires Run(states, steps) && Inv(states[0])
    ensures forall i :: 0 <= i < |states| ==> Inv(states[i])
  {
    if steps != [] {
      var n := |steps| - 1;
      assert Run(states[..n + 1], steps[..n]);
      RunInv(states[..n + 1], steps[..n]);
      assert forall i :: 0 <= i <= n ==> states[..n + 1][i] == states[i];
      StepInv(states[n], steps[n]);
      assert states[n + 1] == Apply(states[n], steps[n]);
    }
  }

  /** Two pending probes of one profile are the same probe. */
  predicate OnePerProfile(s: State, x: ProbeId, y: ProbeId) {
    Pending(s.slots, x) && Pending(s.slots, y) ==>
      x in s.probes && y in s.probes && (s.probes[x].profile == s.probes[y].profile ==> x == y)
  }

  /**
   In every reachable state at most three probes hold a slot, no slot is free while one waits,
   probes start in the order they were queued, and no profile has two probes pending.
   */
  lemma Bounded(states: seq<State>, steps: seq<Step>, i: int)
    requires Run(states, steps) && states[0] == Initial() && 0 <= i < |states|
    ensures
      var sl := states[i].slots;
      && 0 <= sl.active <= 3
      && (sl.queue != [] ==> sl.active == 3)
      && sl.started <= sl.enqueued && sl.enqueued[|sl.started|..] == sl.queue
    ensures forall x, y :: OnePerProfile(states[i], x, y)
  {
    InitialInv();
    RunInv(states, steps);
    var s := states[i];
    assert Inv(s);
    forall x, y
      ensures OnePerProfile(s, x, y)
    {
      assert Flying(s.slots, s.probes, s.inFlight, x) && Flying(s.slots, s.probes, s.inFlight, y);
    }
  }

  lemma NoCards()
    ensures Cards(map[], map[], {})
  {}

  lemma InitialInv()
    ensures Inv(Initial())
  {
    var s := Initial();
    assert Core(s) by {
      assert Working(s.slots);
      assert forall id :: !Pending(s.slots, id);
      assert forall q :: CacheAt(s, q);
    }
    NoCards();
  }

  // ----- with no new user action, everything settles -----

  function OutdatedSet(s: State): set<ProfileId> {
    set p | p in s.inFlight && Outdated(s, p)
  }

  /** Background steps left: settle, release and finalize for each probe, three more for each superseding one. */
  function Rank(s: State): nat {
    2 * (|s.slots.queue| + |s.slots.running|) + |s.slots.settled| + |s.inFlight| + 3 * |OutdatedSet(s)|
  }

  lemma SettleLowers(s: State, id: ProbeId, outcome: Result<string, string>, now: int)
    requires Working(s.slots) && id in s.slots.running && id in s.probes
    ensures Rank(SettledProbe(s, id, outcome, now)) < Rank(s)
  {
    var t := SettledProbe(s, id, outcome, now);
    assert OutdatedSet(t) == OutdatedSet(s);
  }

  lemma ReleaseLowers(s: State, id: ProbeId)
    requires Working(s.slots) && id in s.slots.settled
    ensures Rank(s.(slots := Released(s.slots, id))) < Rank(s)
  {
    ReleaseSlots(s.slots, id);
    assert OutdatedSet(s.(slots := Released(s.slots, id))) == OutdatedSet(s);
  }

  lemma BackgroundLowers(s: State, step: Step)
    requires Inv(s) && Enabled(s, step) && Background(step)
    ensures Rank(Apply(s, step)) < Rank(s)
  {
    match step
    case Settle(id, outcome, now) => SettleLowers(s, id, outcome, now);
    case Release(id) => ReleaseLowers(s, id);
    case Finalize(p) => FinalizeLowers(s, p);
  }

  lemma FinalizeLowers(s: State, p: ProfileId)
    requires Inv(s) && Enabled(s, Finalize(p))
    ensures Rank(Finalized(s, p)) < Rank(s)
  {
    var t := Finalized(s, p);
    if Outdated(s, p) {
      FinalizeStarts(s, p);
      assert t.inFlight.Keys == s.inFlight.Keys;
      assert |t.inFlight| == |t.inFlight.Keys| == |s.inFlight|;
      OutdatedShrinks(s, p);
    } else {
      assert |t.inFlight| == |s.inFlight| - 1;
      assert OutdatedSet(t) == OutdatedSet(s);
    }
  }

  lemma OutdatedShrinks(s: State, p: ProfileId)
    requires Inv(s) && Enabled(s, Finalize(p)) && Outdated(s, p)
    ensures |OutdatedSet(Finalized(s, p))| == |OutdatedSet(s)| - 1
  {
    var t := Finalized(s, p);
    FinalizeStarts(s, p);
    forall q
      ensures q != p ==> (Outdated(t, q) <==> Outdated(s, q))
    {
      assert q in s.inFlight ==> s.inFlight[q] in s.probes;
    }
    assert OutdatedSet(t) == OutdatedSet(s) - {p};
  }

  /** Superseding: the new probe is for what is wanted, so it is not outdated itself. */
  lemma FinalizeStarts(s: State, p: ProfileId)
    requires Inv(s) && Enabled(s, Finalize(p)) && Outdated(s, p)
    ensures
      var t := Finalized(s, p);
      && t.inFlight == s.inFlight[p := |s.probes|] && t.probes == s.probes[|s.probes| := Probe(p, s.wanted[p])]
      && t.slots.settled == s.slots.settled && t.wanted == s.wanted
      && |t.slots.queue| + |t.slots.running| == |s.slots.queue| + |s.slots.running| + 1
      && !Outdated(t, p)
  {
    OutOfFlight(s, p);
    var s1 := s.(inFlight := s.inFlight - {p});
    StartMakes(s1, p, s.wanted[p]);
    assert s1.inFlight[p := |s.probes|] == s.inFlight[p := |s.probes|];
  }

  /** No slot taken, nothing queued, nothing in flight. */
  predicate Quiet(s: State) {
    s.slots.active == 0 && s.slots.queue == [] && s.slots.running == {} && s.slots.settled == {} && s.inFlight == map[]
  }

  /** Until then some background step can happen: results and callbacks do arrive. */
  lemma NeverStuck(s: State) returns (step: Step)
    requires Inv(s) && !Quiet(s)
    ensures Background(step) && Enabled(s, step)
  {
    if s.slots.running != {} {
      var id :| id in s.slots.running;
      assert Pending(s.slots, id);
      step := Settle(id, Ok(""), 1);
    } else if s.slots.settled != {} {
      var id :| id in s.slots.settled;
      step := Release(id);
    } else {
      assert s.slots.queue == [];
      assert s.inFlight != map[];
      var p :| p in s.inFlight;
      step := Finalize(p);
    }
  }

  lemma {:induction false} BackgroundEnds(states: seq<State>, steps: seq<Step>)
    requires Run(states, steps) && Inv(states[0]) && forall i :: 0 <= i < |steps| ==> Background(steps[i])
    ensures |steps| <= Rank(states[0])
    decreases |steps|
  {
    if steps != [] {
      BackgroundLowers(states[0], steps[0]);
      StepInv(states[0], steps[0]);
      assert states[1] == Apply(states[0], steps[0]);
      BackgroundEnds(states[1..], steps[1..]);
    }
  }

  /** What a card shows. */
  function Shown(s: State, card: Card): Health
    requires card in s.cards
  {
    var m := s.cards[card];
    if m.profile in s.cache && s.cache[m.profile].key == KeyOf(m.proxy) then s.cache[m.profile].health else Checking
  }

  /** Once quiet, every profile with a mounted card has a result for its wanted proxy. */
  lemma QuietIsResolved(s: State, card: Card)
    requires Inv(s) && Quiet(s) && card in s.cards
    ensures
      var p := s.cards[card].profile;
      p in s.wanted && p in s.cache && s.cache[p].health.Resolved? && s.cache[p].key == KeyOf(s.wanted[p])
  {
    var p := s.cards[card].profile;
    assert card in Lookup(s.listeners, p);
    assert p in s.listeners;
    assert CacheAt(s, p);
  }

  /**
   A recheck starts a probe of the card's own proxy, unless one of the profile is in flight: then
   it does nothing. The card shows "checking" until that probe settles.
   */
  lemma RecheckProbes(s: State, card: Card)
    requires Inv(s) && card in s.cards
    ensures
      var (m, t) := (s.cards[card], Apply(s, Recheck(card)));
      if m.profile in s.inFlight then t == s
      else
        && m.profile in t.inFlight && t.inFlight[m.profile] !in s.probes
        && t.probes == s.probes[t.inFlight[m.profile] := Probe(m.profile, m.proxy)]
        && Pending(t.slots, t.inFlight[m.profile])
        && t.cards == s.cards && Shown(t, card) == Checking
  {
    var m := s.cards[card];
    if m.profile !in s.inFlight {
      StartMakes(s, m.profile, m.proxy);
    }
  }

  /**
   A mount starts a probe of the card's proxy exactly if none of the profile is in flight and the
   cache has no result for this key that is younger than five minutes.
   */
  lemma MountProbes(s: State, card: Card, p: ProfileId, proxy: ProxyConfig, now: int)
    requires Inv(s) && Enabled(s, Mount(card, p, proxy, now))
    ensures
      var t := Apply(s, Mount(card, p, proxy, now));
      if p in s.inFlight || HasResult(s, p, KeyOf(proxy), now - 300_000)
      then t.probes == s.probes && t.inFlight == s.inFlight && t.cache == s.cache
      else
        && p in t.inFlight && t.inFlight[p] !in s.probes && t.probes == s.probes[t.inFlight[p] := Probe(p, proxy)]
        && Pending(t.slots, t.inFlight[p]) && Shown(t, card) == Checking
  {
    assert CacheAt(s, p);
    if p !in s.inFlight && !HasResult(s, p, KeyOf(proxy), now - 300_000) {
      var s1 := s.(listeners := Insert(s.listeners, p, card), wanted := s.wanted[p := proxy], cards := s.cards[card := Mounted(p, proxy)]);
      StartMakes(s1, p, proxy);
    }
  }

  /** The cache has a result for this key from after `since`. */
  predicate HasResult(s: State, p: ProfileId, key: string, since: int) {
    p in s.cache && s.cache[p].key == key && s.cache[p].health.Resolved? && s.cache[p].ts > 0 && s.cache[p].ts > since
  }

  /** Step k settles a probe of p. */
  ghost predicate SettlesFor(states: seq<State>, steps: seq<Step>, k: nat, p: ProfileId) {
    && k < |steps| && k < |states| && steps[k].Settle?
    && steps[k].id in states[k].probes && states[k].probes[steps[k].id].profile == p
  }

  /** The entry is what step k brought: the outcome of the probe, the time, and the key of the proxy it went through. */
  ghost predicate Came(states: seq<State>, steps: seq<Step>, k: nat, p: ProfileId, e: Entry) {
    && SettlesFor(states, steps, k, p)
    && e == Entry(Resolved(steps[k].outcome), steps[k].now, KeyOf(states[k].probes[steps[k].id].proxy))
    && forall j :: k < j < |steps| ==> !SettlesFor(states, steps, j, p)
  }

  lemma StepResult(s: State, step: Step, p: ProfileId)
    requires Enabled(s, step) && p in Apply(s, step).cache && Apply(s, step).cache[p].health.Resolved?
    ensures
      if step.Settle? && s.probes[step.id].profile == p
      then Apply(s, step).cache[p] == Entry(Resolved(step.outcome), step.now, KeyOf(s.probes[step.id].proxy))
      else p in s.cache && s.cache[p] == Apply(s, step).cache[p]
  {}

  /** A cached result is the outcome of the probe of that profile that settled last. */
  lemma {:induction false} ResultCame(states: seq<State>, steps: seq<Step>, p: ProfileId)
    requires Run(states, steps) && states[0] == Initial()
    requires p in states[|steps|].cache && states[|steps|].cache[p].health.Resolved?
    ensures exists k: nat :: Came(states, steps, k, p, states[|steps|].cache[p])
    decreases |steps|
  {
    var n := |steps| - 1;
    assert states[n + 1] == Apply(states[n], steps[n]);
    StepResult(states[n], steps[n], p);
    if SettlesFor(states, steps, n, p) {
      assert Came(states, steps, n, p, states[n + 1].cache[p]);
    } else {
      assert Run(states[..n + 1], steps[..n]) && states[..n + 1][n] == states[n];
      ResultCame(states[..n + 1], steps[..n], p);
      var k: nat :| Came(states[..n + 1], steps[..n], k, p, states[n].cache[p]);
      CameBefore(states, steps, k, p, states[n].cache[p]);
    }
  }

  lemma CameBefore(states: seq<State>, steps: seq<Step>, k: nat, p: ProfileId, e: Entry)
    requires steps != [] && |states| == |steps| + 1 && !SettlesFor(states, steps, |steps| - 1, p)
    requires Came(states[..|steps|], steps[..|steps| - 1], k, p, e)
    ensures Came(states, steps, k, p, e)
  {
    var n := |steps| - 1;
    assert states[..n + 1][k] == states[k] && steps[..n][k] == steps[k];
    forall j: nat | j < n
      ensures SettlesFor(states, steps, j, p) <==> SettlesFor(states[..n + 1], steps[..n], j, p)
    {
      assert states[..n + 1][j] == states[j] && steps[..n][j] == steps[j];
    }
  }

  /** What a card shows as a result is the outcome of the probe of its profile that settled last, for its own key. */
  lemma ShownIsTheLastOutcome(states: seq<State>, steps: seq<Step>, card: Card)
    requires Run(states, steps) && states[0] == Initial() && card in states[|steps|].cards
    requires Shown(states[|steps|], card).Resolved?
    ensures
      var m := states[|steps|].cards[card];
      exists k: nat ::
        && SettlesFor(states, steps, k, m.profile) && (forall j :: k < j < |steps| ==> !SettlesFor(states, steps, j, m.profile))
        && Shown(states[|steps|], card) == Resolved(steps[k].outcome)
        && KeyOf(states[k].probes[steps[k].id].proxy) == KeyOf(m.proxy)
  {
    var m := states[|steps|].cards[card];
    ResultCame(states, steps, m.profile);
    var k: nat :| Came(states, steps, k, m.profile, states[|steps|].cache[m.profile]);
    assert SettlesFor(states, steps, k, m.profile);
  }

  predicate Mounts(step: Step, p: ProfileId) {
    step.Mount? && step.profile == p
  }

  /** The proxy of the last card of p to mount, whether or not that card is still there. */
  function LastMount(steps: seq<Step>, p: ProfileId): Option<ProxyConfig> {
    if steps == [] then None
    else if Mounts(steps[|steps| - 1], p) then Some(steps[|steps| - 1].proxy)
    else LastMount(steps[..|steps| - 1], p)
  }

  lemma StartWants(s: State, p: ProfileId, proxy: ProxyConfig)
    ensures StartProbe(s, p, proxy).wanted == s.wanted
  {}

  lemma StepWants(s: State, step: Step, p: ProfileId)
    requires Enabled(s, step) && p in Apply(s, step).wanted
    ensures if Mounts(step, p) then Apply(s, step).wanted[p] == step.proxy
            else p in s.wanted && Apply(s, step).wanted[p] == s.wanted[p]
  {
    match step
    case Recheck(card) => StartWants(s, s.cards[card].profile, s.cards[card].proxy);
    case Finalize(q) =>
      if q in s.wanted {
        StartWants(s.(inFlight := s.inFlight - {q}), q, s.wanted[q]);
      }
    case _ =>
  }

  /** What is wanted for a profile is what the last card of it to mount brought. */
  lemma {:induction false} WantedIsLastMount(states: seq<State>, steps: seq<Step>, p: ProfileId)
    requires Run(states, steps) && states[0] == Initial() && p in states[|steps|].wanted
    ensures LastMount(steps, p) == Some(states[|steps|].wanted[p])
    decreases |steps|
  {
    if steps != [] {
      var n := |steps| - 1;
      assert states[n + 1] == Apply(states[n], steps[n]);
      StepWants(states[n], steps[n], p);
      if !Mounts(steps[n], p) {
        assert Run(states[..n + 1], steps[..n]) && states[..n + 1][n] == states[n];
        WantedIsLastMount(states[..n + 1], steps[..n], p);
      }
    }
  }

  /**
   Once a run is quiet, a mounted card shows a result exactly when its key is the key of the last
   card of its profile to mount.
   */
  lemma SettledCards(states: seq<State>, steps: seq<Step>, card: Card)
    requires Run(states, steps) && states[0] == Initial() && Quiet(states[|steps|]) && card in states[|steps|].cards
    ensures
      var s := states[|steps|];
      var last := LastMount(steps, s.cards[card].profile);
      last.Some? && (Shown(s, card).Resolved? <==> KeyOf(s.cards[card].proxy) == KeyOf(last.value))
  {
    var s := states[|steps|];
    InitialInv();
    RunInv(states, steps);
    QuietIsResolved(s, card);
    WantedIsLastMount(states, steps, s.cards[card].profile);
  }

  lemma {:induction false} LastMountIsAStep(steps: seq<Step>, p: ProfileId) returns (i: nat)
    requires LastMount(steps, p).Some?
    ensures i < |steps| && Mounts(steps[i], p) && LastMount(steps, p) == Some(steps[i].proxy)
  {
    if Mounts(steps[|steps| - 1], p) {
      i := |steps| - 1;
    } else {
      i := LastMountIsAStep(steps[..|steps| - 1], p);
    }
  }

  /** Every mounted card was mounted, with its proxy, by some step. */
  lemma {:induction false} CardIsAStep(states: seq<State>, steps: seq<Step>, card: Card) returns (i: nat)
    requires Run(states, steps) && states[0] == Initial() && card in states[|steps|].cards
    ensures i < |steps| && Mounts(steps[i], states[|steps|].cards[card].profile)
    ensures steps[i].proxy == states[|steps|].cards[card].proxy
    decreases |steps|
  {
    var n := |steps| - 1;
    assert states[n + 1] == Apply(states[n], steps[n]);
    if steps[n].Mount? && steps[n].card == card {
      i := n;
    } else {
      StepCards(states[n], steps[n], card);
      assert Run(states[..n + 1], steps[..n]) && states[..n + 1][n] == states[n];
      i := CardIsAStep(states[..n + 1], steps[..n], card);
    }
  }

  lemma StepCards(s: State, step: Step, card: Card)
    requires Enabled(s, step) && card in Apply(s, step).cards && !(step.Mount? && step.card == card)
    ensures card in s.cards && s.cards[card] == Apply(s, step).cards[card]
  {}

  /** If all mounts of p in a run have one key, no card of p is left on "checking". */
  lemma SameProxySettles(states: seq<State>, steps: seq<Step>, p: ProfileId, key: string, card: Card)
    requires Run(states, steps) && states[0] == Initial() && Quiet(states[|steps|])
    requires forall i :: 0 <= i < |steps| && Mounts(steps[i], p) ==> KeyOf(steps[i].proxy) == key
    requires card in states[|steps|].cards && states[|steps|].cards[card].profile == p
    ensures Shown(states[|steps|], card).Resolved?
  {
    SettledCards(states, steps, card);
    var i := LastMountIsAStep(steps, p);
    var j := CardIsAStep(states, steps, card);
  }

  /** Background steps leave the cards and what they want alone. */
  lemma BackgroundKeepsCards(s: State, step: Step)
    requires Enabled(s, step) && Background(step)
    ensures Apply(s, step).cards == s.cards && Apply(s, step).wanted == s.wanted
  {}

  /** A run of background steps from s to t. */
  ghost predicate BackgroundRun(s: State, t: State, states: seq<State>, steps: seq<Step>) {
    && Run(states, steps) && states[0] == s && states[|steps|] == t
    && forall i :: 0 <= i < |steps| ==> Background(steps[i])
  }

  lemma RunCons(s: State, step: Step, t: State, rest: seq<State>, more: seq<Step>)
    requires Enabled(s, step) && Background(step) && BackgroundRun(Apply(s, step), t, rest, more)
    ensures BackgroundRun(s, t, [s] + rest, [step] + more)
  {
    var states, steps := [s] + rest, [step] + more;
    forall i | 0 <= i < |steps|
      ensures Enabled(states[i], steps[i]) && states[i + 1] == Apply(states[i], steps[i]) && Background(steps[i])
    {
      assert i > 0 ==> states[i] == rest[i - 1] && steps[i] == more[i - 1];
    }
  }

  lemma RunNone(s: State)
    ensures BackgroundRun(s, s, [s], [])
  {}

  /** From every reachable state background steps alone lead to a quiet one. */
  lemma {:induction false} ReachQuiet(s: State) returns (t: State, states: seq<State>, steps: seq<Step>)
    requires Inv(s)
    ensures BackgroundRun(s, t, states, steps) && Quiet(t) && Inv(t)
    ensures t.cards == s.cards && t.wanted == s.wanted
    decreases Rank(s)
  {
    if Quiet(s) {
      RunNone(s);
      return s, [s], [];
    }
    var step := NeverStuck(s);
    BackgroundLowers(s, step);
    StepInv(s, step);
    BackgroundKeepsCards(s, step);
    var rest, more;
    t, rest, more := ReachQuiet(Apply(s, step));
    RunCons(s, step, t, rest, more);
    states, steps := [s] + rest, [step] + more;
  }

  /** A run of any steps from s to t. */
  ghost predicate RunTo(s: State, t: State, states: seq<State>, steps: seq<Step>) {
    Run(states, steps) && states[0] == s && states[|steps|] == t
  }

  lemma Prepend(s: State, step: Step, t: State, rest: seq<State>, more: seq<Step>)
    requires Enabled(s, step) && RunTo(Apply(s, step), t, rest, more)
    ensures RunTo(s, t, [s] + rest, [step] + more)
  {
    var states, steps := [s] + rest, [step] + more;
    forall i | 0 <= i < |steps|
      ensures Enabled(states[i], steps[i]) && states[i + 1] == Apply(states[i], steps[i])
    {
      assert i > 0 ==> states[i] == rest[i - 1] && steps[i] == more[i - 1];
    }
  }

  lemma MountsTwo(p: ProfileId, x: ProxyConfig, y: ProxyConfig)
    ensures
      var s1 := MountedCard(Initial(), 0, p, x, 1);
      var s2 := MountedCard(s1, 1, p, y, 1);
      && 1 !in s1.cards && 1 in s2.cards
      && UnmountedCard(s2, 1).cards == map[0 := Mounted(p, x)]
      && p in UnmountedCard(s2, 1).wanted && UnmountedCard(s2, 1).wanted[p] == y
  {
    var s2 := MountedCard(MountedCard(Initial(), 0, p, x, 1), 1, p, y, 1);
    assert s2.cards == map[0 := Mounted(p, x), 1 := Mounted(p, y)];
    assert 0 in Lookup(s2.listeners, p) - {1};
  }

  /** Mount a card with x, mount another with y, unmount that one. */
  function MountAndReplace(p: ProfileId, x: ProxyConfig, y: ProxyConfig): seq<Step> {
    [Mount(0, p, x, 1), Mount(1, p, y, 1), Unmount(1)]
  }

  lemma ReplacedCard(p: ProfileId, x: ProxyConfig, y: ProxyConfig) returns (s: State)
    ensures s == UnmountedCard(MountedCard(MountedCard(Initial(), 0, p, x, 1), 1, p, y, 1), 1)
    ensures Inv(s) && s.cards == map[0 := Mounted(p, x)] && p in s.wanted && s.wanted[p] == y
  {
    InitialInv();
    MountKeeps(Initial(), 0, p, x, 1);
    MountsTwo(p, x, y);
    MountKeeps(MountedCard(Initial(), 0, p, x, 1), 1, p, y, 1);
    UnmountKeeps(MountedCard(MountedCard(Initial(), 0, p, x, 1), 1, p, y, 1), 1);
    s := UnmountedCard(MountedCard(MountedCard(Initial(), 0, p, x, 1), 1, p, y, 1), 1);
  }

  lemma FirstThree(a: Step, b: Step, c: Step, more: seq<Step>)
    ensures [a] + ([b] + ([c] + more)) == [a, b, c] + more
  {}

  /**
   Two cards of one profile with different proxies mount, the second unmounts: when all is quiet
   the first is the only card, and shows "checking".
   */
  lemma TwoProxies(p: ProfileId, x: ProxyConfig, y: ProxyConfig) returns (t: State, states: seq<State>, more: seq<Step>)
    requires KeyOf(x) != KeyOf(y)
    ensures RunTo(Initial(), t, states, MountAndReplace(p, x, y) + more)
    ensures forall i :: 0 <= i < |more| ==> Background(more[i])
    ensures Quiet(t) && t.cards == map[0 := Mounted(p, x)] && Shown(t, 0) == Checking
  {
    var s := ReplacedCard(p, x, y);
    MountsTwo(p, x, y);
    var rest;
    t, rest, more := ReachQuiet(s);
    QuietIsResolved(t, 0);
    var a, b, c := Mount(0, p, x, 1), Mount(1, p, y, 1), Unmount(1);
    var s1 := Apply(Initial(), a);
    var s2 := Apply(s1, b);
    Prepend(s2, c, t, rest, more);
    Prepend(s1, b, t, [s2] + rest, [c] + more);
    Prepend(Initial(), a, t, [s1] + ([s2] + rest), [b] + ([c] + more));
    states := [Initial()] + ([s1] + ([s2] + rest));
    FirstThree(a, b, c, more);
  }

  // ----- superseding happens once -----

  /** The probes for p made between s and t. */
  function Made(s: State, t: State, p: ProfileId): set<ProbeId> {
    set id | id in t.probes && id !in s.probes && t.probes[id].profile == p
  }

  /** One background step makes a probe for p only by superseding an outdated one. */
  lemma MadeByStep(s: State, step: Step, p: ProfileId)
    requires Inv(s) && Enabled(s, step) && Background(step)
    ensures
      var t := Apply(s, step);
      && |Made(s, t, p)| <= 1
      && (Made(s, t, p) != {} ==> Outdated(s, p) && !Outdated(t, p))
      && (Outdated(t, p) ==> Outdated(s, p))
      && (forall id :: id in s.probes ==> id in t.probes && t.probes[id] == s.probes[id])
  {
    var t := Apply(s, step);
    match step
    case Settle(id, outcome, now) =>
      assert Made(s, t, p) == {};
    case Release(id) =>
      assert Made(s, t, p) == {};
    case Finalize(q) =>
      if Outdated(s, q) {
        FinalizeStarts(s, q);
        assert |s.probes| !in s.probes;
        assert Made(s, t, p) == if p == q then {|s.probes|} else {};
      } else {
        assert Made(s, t, p) == {};
      }
  }

  /** With no new user action at most one superseding probe is made per profile, and only for an outdated one. */
  lemma {:induction false} SupersededOnce(states: seq<State>, steps: seq<Step>, p: ProfileId)
    requires Run(states, steps) && Inv(states[0]) && forall i :: 0 <= i < |steps| ==> Background(steps[i])
    ensures
      var made := Made(states[0], states[|steps|], p);
      |made| <= 1 && (made != {} ==> Outdated(states[0], p))
    ensures forall id :: id in states[0].probes ==> id in states[|steps|].probes && states[|steps|].probes[id] == states[0].probes[id]
    decreases |steps|
  {
    if steps == [] {
      assert Made(states[0], states[0], p) == {};
    } else {
      var s, t, u := states[0], states[1], states[|steps|];
      StepInv(s, steps[0]);
      MadeByStep(s, steps[0], p);
      assert t == Apply(s, steps[0]);
      SupersededOnce(states[1..], steps[1..], p);
      assert states[1..][|steps| - 1] == u;
      MadeSplits(s, t, u, p);
    }
  }

  lemma MadeSplits(s: State, t: State, u: State, p: ProfileId)
    requires forall id :: id in s.probes ==> id in t.probes && t.probes[id] == s.probes[id]
    requires forall id :: id in t.probes ==> id in u.probes && u.probes[id] == t.probes[id]
    ensures Made(s, u, p) == Made(s, t, p) + Made(t, u, p)
    ensures Made(s, t, p) == {} ==> Made(s, u, p) == Made(t, u, p)
    ensures Made(t, u, p) == {} ==> Made(s, u, p) == Made(s, t, p)
  {
    assert Made(s, u, p) == Made(s, t, p) + Made(t, u, p);
    assert forall a: set<ProbeId> :: {} + a == a && a + {} == a;
  }

  // ----- the module's own variables -----

  class Scheduler {
    var active: int
    var queue: seq<ProbeId>
    var running: set<ProbeId>
    var settled: set<ProbeId>
    ghost var enqueued: seq<ProbeId>
    ghost var started: seq<ProbeId>
    var probes: map<ProbeId, Probe>
    var inFlight: map<ProfileId, ProbeId>
    var cache: map<ProfileId, Entry>
    var wanted: map<ProfileId, ProxyConfig>
    var listeners: map<ProfileId, set<Card>>
    var cards: map<Card, Mounted>

    ghost function Jobs(): Slots
      reads this
    {
      Slots(active, queue, running, settled, enqueued, started)
    }

    ghost function View(): State
      reads this
    {
      State(Jobs(), probes, inFlight, cache, wanted, listeners, cards)
    }

    constructor ()
      ensures View() == Initial()
    {
      active, queue, running, settled, enqueued, started := 0, [], {}, {}, [], [];
      probes, inFlight, cache, wanted, listeners, cards := map[], map[], map[], map[], map[], map[];
    }

    method PumpJobs()
      modifies `active, `queue, `running, `started
      ensures Jobs() == Pump(old(Jobs()))
    {
      while active < MAX_CONCURRENT && |queue| > 0
        invariant Pump(Jobs()) == Pump(old(Jobs()))
        decreases |queue|
      {
        var job := queue[0];
        queue := queue[1..];
        active := active + 1;
        running, started := running + {job}, started + [job];
      }
    }

    method RunJob(id: ProbeId)
      modifies `active, `queue, `running, `enqueued, `started
      ensures Jobs() == RunQueued(old(Jobs()), id)
    {
      queue, enqueued := queue + [id], enqueued + [id];
      PumpJobs();
    }

    method ProbeProfile(p: ProfileId, proxy: ProxyConfig)
      modifies this
      ensures View() == StartProbe(old(View()), p, proxy)
    {
      if p in inFlight {
        return;
      }
      var id := |probes|;
      cache := cache[p := Entry(Checking, 0, KeyOf(proxy))];
      probes := probes[id := Probe(p, proxy)];
      RunJob(id);
      inFlight := inFlight[p := id];
    }

    method OnMount(card: Card, p: ProfileId, proxy: ProxyConfig, now: int)
      modifies this
      ensures View() == MountedCard(old(View()), card, p, proxy, now)
    {
      listeners := Insert(listeners, p, card);
      wanted := wanted[p := proxy];
      cards := cards[card := Mounted(p, proxy)];
      var isFresh := p in cache && cache[p].key == KeyOf(proxy) && cache[p].ts > 0 && now - cache[p].ts < TTL;
      if !isFresh && p !in inFlight {
        ProbeProfile(p, proxy);
      }
    }

    method OnUnmount(card: Card)
      requires card in cards
      modifies this
      ensures View() == UnmountedCard(old(View()), card)
    {
      var p := cards[card].profile;
      var rest := Lookup(listeners, p) - {card};
      if rest == {} {
        listeners, wanted := listeners - {p}, wanted - {p};
      } else {
        listeners := listeners[p := rest];
      }
      cards := cards - {card};
    }

    method OnResult(id: ProbeId, outcome: Result<string, string>, now: int)
      requires id in probes
      modifies this
      ensures View() == SettledProbe(old(View()), id, outcome, now)
    {
      var probe := probes[id];
      cache := cache[probe.profile := Entry(Resolved(outcome), now, KeyOf(probe.proxy))];
      running, settled := running - {id}, settled + {id};
    }

    method OnJobOver(id: ProbeId)
      modifies this
      ensures View() == old(View()).(slots := Released(old(Jobs()), id))
    {
      active, settled := active - 1, settled - {id};
      PumpJobs();
    }

    method OnProbeOver(p: ProfileId)
      requires p in inFlight && inFlight[p] in probes
      modifies this
      ensures View() == Finalized(old(View()), p)
    {
      var key := KeyOf(probes[inFlight[p]].proxy);
      inFlight := inFlight - {p};
      if p in wanted && KeyOf(wanted[p]) != key {
        ProbeProfile(p, wanted[p]);
      }
    }
  }
}
