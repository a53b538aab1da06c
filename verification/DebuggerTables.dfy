/**
 The shared tables of the reverse-debugger manager and the code that runs while its
 mutex is held.

 `Tables` is the value of the manager's fields; each function on it is one critical section
 of desktop/internal/debugger/manager.go. The class `Manager` runs the same sections step by
 step on its fields, loops included, and is proved to compute those functions.
 */
module DebuggerTables {
  import opened Common

  /** Names one `pendingAttach` and the session it may become. */
  type Ticket = nat

  datatype Tables = Tables(
    sessions: map<Ticket, ProfileId>,
    profiles: map<ProfileId, set<Ticket>>,
    pending: map<ProfileId, set<Ticket>>,
    closingProfiles: map<ProfileId, int>,
    closed: bool,
    cancelled: set<Ticket>,   // tickets whose context is cancelled
    done: multiset<Ticket>)   // close(pending.done), with multiplicity

  const EmptyTables := Tables(map[], map[], map[], map[], false, {}, multiset{})

  function ClosingCount(t: Tables, p: ProfileId): int {
    if p in t.closingProfiles then t.closingProfiles[p] else 0
  }

  predicate Barred(t: Tables, p: ProfileId) {
    t.closed || ClosingCount(t, p) != 0
  }

  function AllPending(t: Tables): set<Ticket> {
    set p, a | p in t.pending && a in t.pending[p] :: a
  }

  // ----- the critical sections -----

  function Registered(t: Tables, p: ProfileId, a: Ticket): Tables {
    t.(pending := Insert(t.pending, p, a))
  }

  function Published(t: Tables, p: ProfileId, a: Ticket): Tables {
    t.(sessions := t.sessions[a := p],
       profiles := Insert(t.profiles, p, a),
       pending := Discard(t.pending, p, a),
       done := t.done + multiset{a})
  }

  function Abandoned(t: Tables, p: ProfileId, a: Ticket): Tables {
    t.(pending := Discard(t.pending, p, a), done := t.done + multiset{a})
  }

  function Removed(t: Tables, id: Ticket): Tables {
    if id !in t.sessions then t
    else t.(sessions := t.sessions - {id}, profiles := Discard(t.profiles, t.sessions[id], id))
  }

  function ProfileTaken(t: Tables, p: ProfileId): Tables {
    t.(closingProfiles := t.closingProfiles[p := ClosingCount(t, p) + 1],
       cancelled := t.cancelled + Lookup(t.pending, p),
       sessions := t.sessions - Lookup(t.profiles, p),
       profiles := t.profiles - {p})
  }

  function ProfileReleased(t: Tables, p: ProfileId): Tables {
    t.(closingProfiles := if ClosingCount(t, p) == 1 then t.closingProfiles - {p}
                          else t.closingProfiles[p := ClosingCount(t, p) - 1])
  }

  function AllTaken(t: Tables): Tables {
    t.(closed := true, cancelled := t.cancelled + AllPending(t), sessions := map[], profiles := map[])
  }

  // ----- what every critical section keeps -----

  /** `sessions` and `profiles` are exact inverses of each other. */
  ghost predicate Inverse(t: Tables) {
    Inverses(t.sessions, t.profiles)
  }

  ghost predicate Inverses(sessions: map<Ticket, ProfileId>, profiles: map<ProfileId, set<Ticket>>) {
    forall p, id :: id in Lookup(profiles, p) <==> id in sessions && sessions[id] == p
  }

  /** A profile being closed has no indexed session and only cancelled attaches. */
  ghost predicate Barrier(t: Tables) {
    forall p :: Barred(t, p) ==> Lookup(t.profiles, p) == {} && Lookup(t.pending, p) <= t.cancelled
  }

  ghost predicate Sound(t: Tables) {
    && Inverse(t)
    && Barrier(t)
    && NoEmptySets(t.profiles)
    && NoEmptySets(t.pending)
    && (forall p :: p in t.closingProfiles ==> t.closingProfiles[p] > 0)
  }

  lemma EmptyIsSound()
    ensures Sound(EmptyTables)
  {}

  lemma BarredIsEmpty(t: Tables, p: ProfileId, id: Ticket)
    requires Sound(t) && Barred(t, p)
    ensures !(id in t.sessions && t.sessions[id] == p)
  {
    assert id !in Lookup(t.profiles, p);
  }

  lemma RegisteredSound(t: Tables, p: ProfileId, a: Ticket)
    requires Sound(t) && !Barred(t, p)
    ensures Sound(Registered(t, p, a))
  {}

  lemma PublishedSound(t: Tables, p: ProfileId, a: Ticket)
    requires Sound(t) && a in Lookup(t.pending, p) && a !in t.cancelled && a !in t.sessions
    ensures Sound(Published(t, p, a))
  {
    assert !Barred(t, p);
  }

  lemma AbandonedSound(t: Tables, p: ProfileId, a: Ticket)
    requires Sound(t)
    ensures Sound(Abandoned(t, p, a))
  {}

  lemma RemovedSound(t: Tables, id: Ticket)
    requires Sound(t)
    ensures Sound(Removed(t, id))
  {
    if id in t.sessions {
      var p := t.sessions[id];
      assert id in Lookup(t.profiles, p);
    }
  }

  lemma ProfileTakenSound(t: Tables, p: ProfileId)
    requires Sound(t)
    ensures Sound(ProfileTaken(t, p)) && Barred(ProfileTaken(t, p), p)
  {
    var u := ProfileTaken(t, p);
    forall q, id
      ensures id in Lookup(u.profiles, q) <==> id in u.sessions && u.sessions[id] == q
    {
      assert id in Lookup(t.profiles, q) <==> id in t.sessions && t.sessions[id] == q;
      assert id in Lookup(t.profiles, p) <==> id in t.sessions && t.sessions[id] == p;
    }
    forall q | Barred(u, q)
      ensures Lookup(u.profiles, q) == {} && Lookup(u.pending, q) <= u.cancelled
    {
      assert q == p || Barred(t, q);
    }
  }

  lemma ProfileReleasedSound(t: Tables, p: ProfileId)
    requires Sound(t) && ClosingCount(t, p) > 0
    ensures Sound(ProfileReleased(t, p))
  {
    var u := ProfileReleased(t, p);
    forall q | Barred(u, q)
      ensures Lookup(u.profiles, q) == {} && Lookup(u.pending, q) <= u.cancelled
    {
      assert Barred(t, q);
    }
  }

  lemma AllTakenSound(t: Tables)
    requires Sound(t)
    ensures Sound(AllTaken(t))
  {
    forall p | p in t.pending
      ensures t.pending[p] <= AllPending(t)
    {}
  }

  lemma IndexedAreSessions(sessions: map<Ticket, ProfileId>, profiles: map<ProfileId, set<Ticket>>, p: ProfileId)
    requires Inverses(sessions, profiles)
    ensures Lookup(profiles, p) <= sessions.Keys
  {
    forall id | id in Lookup(profiles, p)
      ensures id in sessions
    {}
  }

  /** Without the sessions indexed under p, what is left is indexed as before under the other profiles. */
  lemma WithoutProfile(sessions: map<Ticket, ProfileId>, profiles: map<ProfileId, set<Ticket>>, p: ProfileId,
                       after: map<ProfileId, set<Ticket>>)
    requires Inverses(sessions, profiles) && NoEmptySets(profiles) && NoEmptySets(after)
    requires forall q :: Lookup(after, q) == Lookup(profiles, q) - Lookup(profiles, p)
    ensures after == profiles - {p}
  {
    forall q
      ensures Lookup(after, q) == Lookup(profiles - {p}, q)
    {
      if q != p {
        forall id | id in Lookup(profiles, q)
          ensures id !in Lookup(profiles, p)
        {
          assert sessions[id] == q;
        }
      }
    }
    SameSets(after, profiles - {p});
  }

  lemma WithoutSessions(sessions: map<Ticket, ProfileId>, profiles: map<ProfileId, set<Ticket>>, after: map<ProfileId, set<Ticket>>)
    requires Inverses(sessions, profiles) && NoEmptySets(after)
    requires forall q :: Lookup(after, q) == Lookup(profiles, q) - sessions.Keys
    ensures after == map[]
  {
    forall q
      ensures Lookup(after, q) == {}
    {
      IndexedAreSessions(sessions, profiles, q);
    }
    SameSets(after, map[]);
  }

  // ----- the manager -----

  datatype Admission = NoProfileId | Closing | Admitted

  class Manager {
    var sessions: map<Ticket, ProfileId>
    var profiles: map<ProfileId, set<Ticket>>
    var pending: map<ProfileId, set<Ticket>>
    var closingProfiles: map<ProfileId, int>
    var closed: bool
    var cancelled: set<Ticket>
    var done: multiset<Ticket>

    ghost function View(): Tables
      reads this
    {
      Tables(sessions, profiles, pending, closingProfiles, closed, cancelled, done)
    }

    constructor ()
      ensures View() == EmptyTables
    {
      sessions, profiles, pending, closingProfiles := map[], map[], map[], map[];
      closed, cancelled, done := false, {}, multiset{};
    }

    /** The entry of Attach: refuse an empty profile or one that is closing, else register. */
    method Enter(p: ProfileId, a: Ticket) returns (r: Admission)
      requires Sound(View())
      modifies this
      ensures r == if p == "" then NoProfileId else if Barred(old(View()), p) then Closing else Admitted
      ensures View() == if r == Admitted then Registered(old(View()), p, a) else old(View())
      ensures Sound(View())
    {
      if p == "" {
        return NoProfileId;
      }
      if closed || (p in closingProfiles && closingProfiles[p] != 0) {
        return Closing;
      }
      RegisteredSound(View(), p, a);
      if p !in pending {
        pending := pending[p := {}];
      }
      pending := pending[p := pending[p] + {a}];
      return Admitted;
    }

    /** The deferred exit of an Attach that did not publish. */
    method Abandon(p: ProfileId, a: Ticket)
      requires Sound(View())
      modifies this
      ensures View() == Abandoned(old(View()), p, a) && Sound(View())
    {
      AbandonedSound(View(), p, a);
      Forget(p, a);
      done := done + multiset{a};
    }

    /** delete(m.pending[p], a), and the entry of p with its last attach. */
    method Forget(p: ProfileId, a: Ticket)
      modifies this`pending
      ensures pending == Discard(old(pending), p, a)
    {
      if p in pending {
        pending := pending[p := pending[p] - {a}];
      }
      if p !in pending || pending[p] == {} {
        pending := pending - {p};
      }
    }

    /** The publishing section of Attach: nothing changes once the context is cancelled. */
    method Publish(p: ProfileId, a: Ticket) returns (published: bool)
      requires Sound(View()) && a in Lookup(pending, p) && a !in sessions
      modifies this
      ensures published <==> a !in old(cancelled)
      ensures View() == (if published then Published(old(View()), p, a) else old(View())) && Sound(View())
    {
      if a in cancelled {
        return false;
      }
      PublishedSound(View(), p, a);
      sessions := sessions[a := p];
      Index(p, a);
      Forget(p, a);
      done := done + multiset{a};
      return true;
    }

    /** m.profiles[p][a], and the entry of p with its first session. */
    method Index(p: ProfileId, a: Ticket)
      modifies this`profiles
      ensures profiles == Insert(old(profiles), p, a)
    {
      if p !in profiles {
        profiles := profiles[p := {}];
      }
      profiles := profiles[p := profiles[p] + {a}];
    }

    method RemoveLocked(id: Ticket) returns (found: bool)
      requires Inverses(sessions, profiles)
      modifies this`sessions, this`profiles
      ensures found <==> id in old(sessions)
      ensures View() == Removed(old(View()), id)
    {
      found := id in sessions;
      if found {
        var p := sessions[id];
        assert id in Lookup(profiles, p);
        sessions := sessions - {id};
        profiles := profiles[p := profiles[p] - {id}];
        if profiles[p] == {} {
          profiles := profiles - {p};
        }
      }
    }

    /** First section of CloseProfile: bar the profile, cancel its attaches, take its sessions. */
    method TakeProfile(p: ProfileId) returns (taken: set<Ticket>, waits: set<Ticket>)
      requires Sound(View())
      modifies this
      ensures View() == ProfileTaken(old(View()), p) && Sound(View())
      ensures taken == Lookup(old(profiles), p) && waits == Lookup(old(pending), p)
    {
      ghost var was := View();
      closingProfiles := closingProfiles[p := (if p in closingProfiles then closingProfiles[p] else 0) + 1];
      waits := Lookup(pending, p);
      CancelEach(waits);
      IndexedAreSessions(sessions, profiles, p);
      taken := RemoveEach(Lookup(profiles, p));
      WithoutProfile(old(sessions), old(profiles), p, profiles);
      assert View() == ProfileTaken(was, p);
      ProfileTakenSound(was, p);
    }

    /** `for a := range waits { a.cancel() }` */
    method CancelEach(waits: set<Ticket>)
      modifies this`cancelled
      ensures cancelled == old(cancelled) + waits
    {
      var todo := waits;
      while todo != {}
        invariant todo <= waits && cancelled == old(cancelled) + (waits - todo)
        decreases todo
      {
        var a :| a in todo;
        cancelled, todo := cancelled + {a}, todo - {a};
      }
    }

    /** `for id := range ids { removeLocked(id) }` */
    method RemoveEach(ids: set<Ticket>) returns (taken: set<Ticket>)
      requires Inverses(sessions, profiles) && NoEmptySets(profiles) && ids <= sessions.Keys
      modifies this`sessions, this`profiles
      ensures Inverses(sessions, profiles) && NoEmptySets(profiles)
      ensures taken == ids && sessions == old(sessions) - ids
      ensures forall q :: Lookup(profiles, q) == Lookup(old(profiles), q) - ids
    {
      taken := {};
      var rest := ids;
      while rest != {}
        invariant Inverses(sessions, profiles) && NoEmptySets(profiles)
        invariant taken + rest == ids && taken !! rest && sessions == old(sessions) - taken
        invariant forall q :: Lookup(profiles, q) == Lookup(old(profiles), q) - taken
        decreases rest
      {
        var id :| id in rest;
        assert id in sessions;
        var _ := RemoveLocked(id);
        taken, rest := taken + {id}, rest - {id};
      }
    }

    /** Second section of CloseProfile, after the drain. */
    method ReleaseProfile(p: ProfileId)
      requires Sound(View()) && ClosingCount(View(), p) > 0
      modifies this
      ensures View() == ProfileReleased(old(View()), p) && Sound(View())
    {
      ProfileReleasedSound(View(), p);
      closingProfiles := closingProfiles[p := closingProfiles[p] - 1];
      if closingProfiles[p] == 0 {
        closingProfiles := closingProfiles - {p};
      }
    }

    /** The section of Close: nothing may enter again; cancel and take everything. */
    method TakeAll() returns (taken: set<Ticket>, waits: set<Ticket>)
      requires Sound(View())
      modifies this
      ensures View() == AllTaken(old(View())) && Sound(View())
      ensures taken == old(sessions).Keys && waits == AllPending(old(View()))
    {
      ghost var was := View();
      closed := true;
      waits := {};
      var todo := pending.Keys;
      while todo != {}
        invariant todo <= old(pending).Keys
        invariant waits == set p, a | p in old(pending) && p !in todo && a in old(pending)[p] :: a
        invariant View() == old(View()).(closed := true, cancelled := old(cancelled) + waits)
        decreases todo
      {
        var p :| p in todo;
        CancelEach(pending[p]);
        waits, todo := waits + pending[p], todo - {p};
      }
      taken := RemoveEach(sessions.Keys);
      WithoutSessions(old(sessions), old(profiles), profiles);
      assert View() == AllTaken(was);
      AllTakenSound(was);
    }
  }
}
