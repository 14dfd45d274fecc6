/** Client-side spawning: the scheduler that turns queued requests for remote characters
    into game objects, one per remote player, and the hook that drains the same queue. */
module SpawnQueue {
  import opened Types

  const MAX_RETRIES := 200
  const MAX_PER_PLAYER := 1

  type Character = nat

  datatype Request = Request(netId: EntityID, owner: PlayerID, retries: nat)

  predicate Fresh(q: seq<Request>) { forall i :: 0 <= i < |q| ==> q[i].retries < MAX_RETRIES }

  // ----- the direct scheduler

  /** Queue, game objects by entity, the per-player counter, and (for the record) the owner
      of every character linked or created since the last reset. */
  datatype Scheduler = Scheduler(
    queue: seq<Request>, objects: map<EntityID, Character>, used: map<PlayerID, nat>, made: seq<PlayerID>)

  /** What one attempt finds: the mod character of the owner's slot, if loaded, and the
      character the factory returns, if any. */
  datatype Attempt = Attempt(existing: Option<Character>, created: Option<Character>)

  function Used(s: Scheduler, p: PlayerID): nat { if p in s.used then s.used[p] else 0 }

  predicate CanLink(s: Scheduler, a: Attempt) { a.existing.Some? && a.existing.value !in s.objects.Values }

  function Attached(s: Scheduler, r: Request, c: Character): Scheduler {
    s.(objects := s.objects[r.netId := c], used := s.used[r.owner := Used(s, r.owner) + 1], made := s.made + [r.owner])
  }

  /** One request taken off the queue. */
  function Serve(s: Scheduler, r: Request, a: Attempt): Scheduler {
    if r.netId in s.objects then s.(used := s.used[r.owner := Used(s, r.owner) + 1])
    else if Used(s, r.owner) >= MAX_PER_PLAYER then s
    else if CanLink(s, a) then Attached(s, r, a.existing.value)
    else if a.created.Some? then Attached(s, r, a.created.value)
    else if r.retries + 1 < MAX_RETRIES then s.(queue := s.queue + [r.(retries := r.retries + 1)])
    else s
  }

  function Pop(s: Scheduler, a: Attempt): Scheduler {
    if s.queue == [] then s else Serve(s.(queue := s.queue[1..]), s.queue[0], a)
  }

  /** The scheduler as the code runs it. */
  class SpawnScheduler {
    var queue: seq<Request>
    var objects: map<EntityID, Character>
    var used: map<PlayerID, nat>
    ghost var made: seq<PlayerID>

    ghost function View(): Scheduler
      reads this
    {
      Scheduler(queue, objects, used, made)
    }

    /** At most one character made per player since the last reset, and no request in the
        queue that has used up its retries. */
    ghost predicate Valid()
      reads this
    {
      Capped(View()) && Fresh(queue)
    }

    constructor ()
      ensures Valid() && View() == Scheduler([], map[], map[], [])
    {
      queue, objects, used, made := [], map[], map[], [];
    }

    method QueueSpawn(r: Request)
      requires Valid() && r.retries < MAX_RETRIES
      modifies this
      ensures Valid() && View() == Next(old(View()), Arrives(r))
    {
      hide Capped;
      SameMade(View(), View().(queue := queue + [r]));
      queue := queue + [r];
    }

    /** Objects linked or unregistered elsewhere. */
    method Relink(objects: map<EntityID, Character>)
      requires Valid()
      modifies this`objects
      ensures Valid() && View() == Next(old(View()), Relinks(objects))
    {
      hide Capped;
      SameMade(View(), View().(objects := objects));
      this.objects := objects;
    }

    /** After a disconnect: the counters start over. */
    method Reset()
      requires Valid()
      modifies this`used, this`made
      ensures Valid() && made == [] && used == map[]
    {
      used, made := map[], [];
    }

    method CountUp(owner: PlayerID)
      modifies this`used
      ensures used == old(used)[owner := Used(old(View()), owner) + 1]
    {
      used := used[owner := (if owner in used then used[owner] else 0) + 1];
    }

    method Attach(r: Request, c: Character)
      modifies this`objects, this`used, this`made
      ensures View() == Attached(old(View()), r, c)
    {
      objects := objects[r.netId := c];
      CountUp(r.owner);
      made := made + [r.owner];
    }

    /** One attempt, once the gate, the factory and the timers allow it. Whatever it finds, no
        player gets a second character, and the total of remaining retries goes down. */
    method HandleSpawnQueue(a: Attempt)
      requires Valid()
      modifies this
      ensures Valid() && View() == Pop(old(View()), a)
      ensures forall p :: Count(p, made) <= 1
      ensures old(queue) != [] ==> Potential(queue) < Potential(old(queue))
      ensures old(queue) != [] ==> FateOf(old(View()), a, View(), Fate(old(View()), a))
    {
      ghost var s := View();
      if queue != [] {
        FateTrue(s, a);
      }
      TryOne(a);
      NextCapped(s, Tries(a));
      if s.queue != [] {
        PopLowers(s, a);
      }
    }

    method TryOne(a: Attempt)
      modifies this
      ensures View() == Pop(old(View()), a)
    {
      if queue == [] {
        return;
      }
      var r := queue[0];
      queue := queue[1..];
      if r.netId in objects {
        CountUp(r.owner);
        return;
      }
      if r.owner in used && used[r.owner] >= MAX_PER_PLAYER {
        return;
      }
      if a.existing.Some? && a.existing.value !in objects.Values {
        Attach(r, a.existing.value);
      } else if a.created.Some? {
        Attach(r, a.created.value);
      } else if r.retries + 1 < MAX_RETRIES {
        queue := queue + [r.(retries := r.retries + 1)];
      }
    }
  }

  // ----- runs of the scheduler: attempts, new requests, and whatever others do to the registry

  datatype Event = Arrives(request: Request) | Tries(attempt: Attempt) | Relinks(objects: map<EntityID, Character>)

  function Next(s: Scheduler, e: Event): Scheduler {
    match e
    case Arrives(r) => s.(queue := s.queue + [r])
    case Tries(a) => Pop(s, a)
    case Relinks(objects) => s.(objects := objects)
  }

  function Run(s: Scheduler, events: seq<Event>): Scheduler {
    if events == [] then s else Next(Run(s, events[..|events| - 1]), events[|events| - 1])
  }

  function Count(p: PlayerID, made: seq<PlayerID>): (n: nat)
    ensures n <= |made|
  {
    if made == [] then 0 else Count(p, made[..|made| - 1]) + (if made[|made| - 1] == p then 1 else 0)
  }

  ghost predicate Capped(s: Scheduler) { forall p :: Count(p, s.made) <= 1 && Count(p, s.made) <= Used(s, p) }

  lemma SameMade(s: Scheduler, s': Scheduler)
    requires Capped(s) && s'.made == s.made && s'.used == s.used
    ensures Capped(s')
  {
    forall p ensures Count(p, s'.made) <= 1 && Count(p, s'.made) <= Used(s', p) {
      assert Count(p, s.made) <= Used(s, p);
    }
  }

  lemma AttachedCapped(s: Scheduler, r: Request, c: Character)
    requires Capped(s) && Used(s, r.owner) == 0
    ensures Capped(Attached(s, r, c))
  {
    var s' := Attached(s, r, c);
    forall p ensures Count(p, s'.made) <= 1 && Count(p, s'.made) <= Used(s', p) {
      assert s'.made[..|s'.made| - 1] == s.made;
    }
  }

  lemma NextCapped(s: Scheduler, e: Event)
    requires Capped(s)
    ensures Capped(Next(s, e))
  {
    if e.Relinks? {
      SameMade(s, Next(s, e));
    }
    if e.Tries? && s.queue != [] {
      var t, r := s.(queue := s.queue[1..]), s.queue[0];
      if Used(t, r.owner) == 0 && r.netId !in t.objects {
        forall c ensures Capped(Attached(t, r, c)) {
          AttachedCapped(t, r, c);
        }
      }
    }
  }

  /** Over every run between resets, whatever arrives and whatever the attempts find, at
      most one character is linked or created for each remote player. */
  lemma {:induction false} OnePerPlayer(s: Scheduler, events: seq<Event>, p: PlayerID)
    requires s.made == [] && s.used == map[]
    ensures Count(p, Run(s, events).made) <= 1
  {
    RunCapped(s, events);
  }

  lemma {:induction false} RunCapped(s: Scheduler, events: seq<Event>)
    requires s.made == [] && s.used == map[]
    ensures Capped(Run(s, events))
  {
    if events != [] {
      RunCapped(s, events[..|events| - 1]);
      NextCapped(Run(s, events[..|events| - 1]), events[|events| - 1]);
    }
  }

  // ----- the queue empties

  function Potential(q: seq<Request>): (n: int)
    ensures Fresh(q) ==> n >= |q|
  {
    if q == [] then 0 else Potential(q[..|q| - 1]) + MAX_RETRIES - q[|q| - 1].retries
  }

  lemma {:induction false} PotentialFront(q: seq<Request>)
    requires q != []
    ensures Potential(q) == MAX_RETRIES - q[0].retries + Potential(q[1..])
  {
    if |q| > 1 {
      PotentialFront(q[..|q| - 1]);
      assert q[1..][..|q| - 2] == q[..|q| - 1][1..];
    } else {
      assert q[1..] == [] && q[..0] == [];
    }
  }

  lemma PotentialBack(q: seq<Request>, r: Request)
    ensures Potential(q + [r]) == Potential(q) + MAX_RETRIES - r.retries
  {
    assert (q + [r])[..|q|] == q;
  }

  /** Serving a request puts at most that request back, with one more retry. */
  lemma ServeQueue(s: Scheduler, r: Request, a: Attempt)
    ensures || Serve(s, r, a).queue == s.queue
            || (r.retries + 1 < MAX_RETRIES && Serve(s, r, a).queue == s.queue + [Raised(r)])
  {}

  /** Every attempt on a non-empty queue strictly lowers the total of remaining retries. */
  lemma PopLowers(s: Scheduler, a: Attempt)
    requires s.queue != [] && Fresh(s.queue)
    ensures Fresh(Pop(s, a).queue) && Potential(Pop(s, a).queue) < Potential(s.queue)
  {
    hide Serve, Potential;
    var rest, r := s.queue[1..], s.queue[0];
    PotentialFront(s.queue);
    ServeQueue(s.(queue := rest), r, a);
    PotentialBack(rest, Raised(r));
    assert Fresh(rest);
  }

  predicate NoArrivals(events: seq<Event>) { forall i :: 0 <= i < |events| ==> !events[i].Arrives? }

  function Attempts(events: seq<Event>): nat {
    if events == [] then 0 else Attempts(events[..|events| - 1]) + (if events[|events| - 1].Tries? then 1 else 0)
  }

  /** Without new requests the queue is empty after as many attempts as it has retries
      left, whether or not any of them succeeds and whatever else happens to the registry. */
  lemma {:induction false} QueueEmpties(s: Scheduler, events: seq<Event>)
    requires Fresh(s.queue) && NoArrivals(events)
    ensures Fresh(Run(s, events).queue)
    ensures Potential(Run(s, events).queue) <= if Potential(s.queue) > Attempts(events) then Potential(s.queue) - Attempts(events) else 0
    ensures Attempts(events) >= Potential(s.queue) ==> Run(s, events).queue == []
  {
    if events != [] {
      var front := events[..|events| - 1];
      QueueEmpties(s, front);
      var t := Run(s, front);
      if t.queue != [] && events[|events| - 1].Tries? {
        PopLowers(t, events[|events| - 1].attempt);
      }
    }
  }

  // ----- what becomes of a request

  datatype How = AlreadyLinked | AtCap | Linked(c: Character) | Made(c: Character) | Requeued | GivenUp

  /** One attempt on the first request: what it found, and all that it changed. */
  ghost predicate FateOf(s: Scheduler, a: Attempt, s': Scheduler, how: How)
    requires s.queue != []
  {
    var r, rest := s.queue[0], s.queue[1..];
    var free := a.existing.Some? && forall id :: id in s.objects ==> s.objects[id] != a.existing.value;
    match how
    case AlreadyLinked =>
      && r.netId in s.objects && s'.queue == rest && s'.objects == s.objects && s'.made == s.made
      && s'.used == s.used[r.owner := Used(s, r.owner) + 1]
    case AtCap =>
      r.netId !in s.objects && Used(s, r.owner) >= 1 && s' == s.(queue := rest)
    case Linked(c) =>
      && r.netId !in s.objects && Used(s, r.owner) == 0 && free && c == a.existing.value
      && s'.queue == rest && s'.objects == s.objects[r.netId := c] && s'.made == s.made + [r.owner]
      && s'.used == s.used[r.owner := 1]
    case Made(c) =>
      && r.netId !in s.objects && Used(s, r.owner) == 0 && !free && a.created == Some(c)
      && s'.queue == rest && s'.objects == s.objects[r.netId := c] && s'.made == s.made + [r.owner]
      && s'.used == s.used[r.owner := 1]
    case Requeued =>
      && r.netId !in s.objects && Used(s, r.owner) == 0 && !free && a.created.None? && r.retries < 199
      && s' == s.(queue := rest + [Request(r.netId, r.owner, r.retries + 1)])
    case GivenUp =>
      && r.netId !in s.objects && Used(s, r.owner) == 0 && !free && a.created.None? && r.retries >= 199
      && s' == s.(queue := rest)
  }

  function Fate(s: Scheduler, a: Attempt): How
    requires s.queue != []
  {
    var r := s.queue[0];
    if r.netId in s.objects then AlreadyLinked
    else if Used(s, r.owner) >= 1 then AtCap
    else if CanLink(s, a) then Linked(a.existing.value)
    else if a.created.Some? then Made(a.created.value)
    else if r.retries < 199 then Requeued
    else GivenUp
  }

  /** Every attempt has one of these fates: a request is not thrown away while its owner has no
      character and one can be had, nor before its retries are used up. */
  lemma FateTrue(s: Scheduler, a: Attempt)
    requires s.queue != []
    ensures FateOf(s, a, Pop(s, a), Fate(s, a))
  {
    assert CanLink(s, a) <==> a.existing.Some? && forall id :: id in s.objects ==> s.objects[id] != a.existing.value;
  }

  datatype Entry = Entry(request: Request, how: How)

  /** The requests that attempts have settled for good, in order. */
  function Ledger(s: Scheduler, events: seq<Event>): seq<Entry> {
    if events == [] then []
    else
      var before, t, e := Ledger(s, events[..|events| - 1]), Run(s, events[..|events| - 1]), events[|events| - 1];
      if e.Tries? && t.queue != [] && !Fate(t, e.attempt).Requeued?
      then before + [Entry(t.queue[0], Fate(t, e.attempt))] else before
  }

  /** Which entity and owner a list of requests is about. */
  function Tags(q: seq<Request>): multiset<(EntityID, PlayerID)> {
    if q == [] then multiset{} else Tags(q[..|q| - 1]) + multiset{(q[|q| - 1].netId, q[|q| - 1].owner)}
  }

  function LedgerTags(l: seq<Entry>): multiset<(EntityID, PlayerID)> {
    if l == [] then multiset{} else LedgerTags(l[..|l| - 1]) + multiset{(l[|l| - 1].request.netId, l[|l| - 1].request.owner)}
  }

  function Arrived(events: seq<Event>): seq<Request> {
    if events == [] then []
    else Arrived(events[..|events| - 1]) + (if events[|events| - 1].Arrives? then [events[|events| - 1].request] else [])
  }

  lemma TagsBack(q: seq<Request>, r: Request)
    ensures Tags(q + [r]) == Tags(q) + multiset{(r.netId, r.owner)}
  {
    assert (q + [r])[..|q|] == q;
  }

  function Tag(r: Request): multiset<(EntityID, PlayerID)> { multiset{(r.netId, r.owner)} }

  lemma {:induction false} TagsFront(q: seq<Request>)
    requires q != []
    ensures Tags(q) == Tag(q[0]) + Tags(q[1..])
  {
    if |q| > 1 {
      var front, last := q[..|q| - 1], q[|q| - 1];
      TagsFront(front);
      TagsBack(front, last);
      TagsBack(front[1..], last);
      assert q == front + [last] && q[1..] == front[1..] + [last];
      hide Tags, Tag;
    } else {
      assert q[1..] == [] && q[..0] == [];
    }
  }

  lemma LedgerBack(l: seq<Entry>, x: Entry)
    ensures LedgerTags(l + [x]) == LedgerTags(l) + multiset{(x.request.netId, x.request.owner)}
  {
    assert (l + [x])[..|l|] == l;
  }

  lemma LedgerNext(s: Scheduler, events: seq<Event>)
    requires events != []
    ensures var front, e := events[..|events| - 1], events[|events| - 1];
            Tags(Run(s, events).queue) + LedgerTags(Ledger(s, events)) ==
            Tags(Run(s, front).queue) + LedgerTags(Ledger(s, front)) + (if e.Arrives? then multiset{(e.request.netId, e.request.owner)} else multiset{})
  {
    hide Pop, Tags, LedgerTags, Fate;
    var front, e := events[..|events| - 1], events[|events| - 1];
    var t := Run(s, front);
    if e.Arrives? {
      TagsBack(t.queue, e.request);
    } else if e.Tries? {
      if t.queue == [] {
        NothingPopped(t, e.attempt);
      } else {
        FateTrue(t, e.attempt);
        TagsFront(t.queue);
        TagsBack(t.queue[1..], Request(t.queue[0].netId, t.queue[0].owner, t.queue[0].retries + 1));
        LedgerBack(Ledger(s, front), Entry(t.queue[0], Fate(t, e.attempt)));
      }
    }
  }

  lemma NothingPopped(s: Scheduler, a: Attempt)
    requires s.queue == []
    ensures Pop(s, a) == s
  {}

  /** Over every run each request, queued at the start or arrived since, is still queued or has
      been settled, once. */
  lemma {:induction false} RequestsSettled(s: Scheduler, events: seq<Event>)
    ensures Tags(Run(s, events).queue) + LedgerTags(Ledger(s, events)) == Tags(s.queue) + Tags(Arrived(events))
  {
    if events != [] {
      var front, e := events[..|events| - 1], events[|events| - 1];
      RequestsSettled(s, front);
      hide Run, Ledger, Tags, LedgerTags;
      LedgerNext(s, events);
      if e.Arrives? {
        TagsBack(Arrived(front), e.request);
      } else {
        assert Arrived(events) == Arrived(front);
      }
    }
  }

  /** So once the queue is empty every request has been linked, created, found linked, capped, or
      given up after its last retry. */
  lemma AllSettled(s: Scheduler, events: seq<Event>)
    requires Run(s, events).queue == []
    ensures LedgerTags(Ledger(s, events)) == Tags(s.queue) + Tags(Arrived(events))
    ensures forall k :: 0 <= k < |Ledger(s, events)| ==> SettledRight(s, events, Ledger(s, events)[k])
  {
    hide Run, Ledger, SettledRight;
    RequestsSettled(s, events);
    assert Tags([]) == multiset{};
    forall k | 0 <= k < |Ledger(s, events)| ensures SettledRight(s, events, Ledger(s, events)[k]) {
      EntryRight(s, events, k);
    }
  }

  /** The entry records what an attempt did. */
  ghost predicate SettledRight(s: Scheduler, events: seq<Event>, x: Entry) {
    exists i :: 0 <= i < |events| && SettledAt(s, events, i, x)
  }

  ghost predicate SettledAt(s: Scheduler, events: seq<Event>, i: nat, x: Entry)
    requires i < |events|
  {
    && events[i].Tries? && Run(s, events[..i]).queue != [] && x.request == Run(s, events[..i]).queue[0] && !x.how.Requeued?
    && FateOf(Run(s, events[..i]), events[i].attempt, Run(s, events[..i + 1]), x.how)
  }

  lemma {:induction false} EntryRight(s: Scheduler, events: seq<Event>, k: nat)
    requires k < |Ledger(s, events)|
    ensures SettledRight(s, events, Ledger(s, events)[k])
  {
    hide Fate, FateOf, Next;
    var n := |events| - 1;
    var front := events[..n];
    if k < |Ledger(s, front)| {
      EntryRight(s, front, k);
      var i :| 0 <= i < n && SettledAt(s, front, i, Ledger(s, front)[k]);
      assert front[..i] == events[..i] && front[..i + 1] == events[..i + 1];
      assert SettledAt(s, events, i, Ledger(s, events)[k]);
    } else {
      TriedHere(s, events);
      assert SettledAt(s, events, n, Ledger(s, events)[k]);
    }
  }

  lemma TriedHere(s: Scheduler, events: seq<Event>)
    requires events != [] && events[|events| - 1].Tries? && Run(s, events[..|events| - 1]).queue != []
    ensures var n := |events| - 1;
            var t, a := Run(s, events[..n]), events[n].attempt;
            FateOf(t, a, Run(s, events[..n + 1]), Fate(t, a))
  {
    var n := |events| - 1;
    assert events[..n + 1] == events;
    FateTrue(Run(s, events[..n]), events[n].attempt);
    hide FateOf, Fate;
  }

  // ----- draining from the creation hook

  datatype Outcome = Spawned | NotYet

  /** How the requests taken off the queue end up, given the outcome of each. */
  datatype Drained = Drained(spawned: seq<Request>, retry: seq<Request>, dropped: seq<Request>)

  function Raised(r: Request): Request { r.(retries := r.retries + 1) }

  function Drain(q: seq<Request>, o: seq<Outcome>): Drained
    requires |o| == |q|
  {
    if q == [] then Drained([], [], [])
    else
      var d := Drain(q[..|q| - 1], o[..|o| - 1]);
      var r := q[|q| - 1];
      if o[|o| - 1].Spawned? then d.(spawned := d.spawned + [r])
      else if r.retries + 1 < MAX_RETRIES then d.(retry := d.retry + [Raised(r)])
      else d.(dropped := d.dropped + [r])
  }

  function Lowered(q: seq<Request>): seq<Request>
  {
    seq(|q|, i requires 0 <= i < |q| => if q[i].retries > 0 then q[i].(retries := q[i].retries - 1) else q[i])
  }

  class SpawnManager {
    var queue: seq<Request>
    ghost var spawned: seq<Request>

    constructor ()
      ensures queue == [] && spawned == []
    {
      queue, spawned := [], [];
    }

    method QueueSpawn(r: Request)
      modifies this`queue
      ensures queue == old(queue) + [r]
    {
      queue := queue + [r];
    }

    /** Drains the queue. The lock is not held while requests are processed, so others may
        arrive in the meantime; `original` says whether the factory function is known. */
    method ProcessSpawnQueueFromHook(original: bool, outcomes: seq<Outcome>, arrivals: seq<Request>) returns (count: nat)
      requires |outcomes| == |queue|
      modifies this
      ensures old(queue) == [] ==> queue == arrivals
      ensures old(queue) != [] && original ==>
        var d := Drain(old(queue), outcomes);
        queue == arrivals + d.retry && spawned == old(spawned) + d.spawned && count == |d.spawned|
      ensures old(queue) != [] && !original ==> queue == old(queue) && spawned == old(spawned) && count == 0
    {
      var toProcess: seq<Request> := [];
      if queue == [] {
        queue := queue + arrivals;
        return 0;
      }
      toProcess, queue := queue, toProcess;
      queue := queue + arrivals;
      if !original {
        queue, toProcess := toProcess, queue;
        return 0;
      }
      ghost var all, before := toProcess, spawned;
      var retryQueue: seq<Request> := [];
      count := 0;
      var i := 0;
      while toProcess != []
        invariant 0 <= i <= |all| && toProcess == all[i..] && queue == arrivals
        invariant var d := Drain(all[..i], outcomes[..i]);
                  retryQueue == d.retry && spawned == before + d.spawned && count == |d.spawned|
        decreases |toProcess|
      {
        var r := toProcess[0];
        assert all[..i + 1][..i] == all[..i] && outcomes[..i + 1][..i] == outcomes[..i];
        toProcess := toProcess[1..];
        if outcomes[i].Spawned? {
          spawned := spawned + [r];
          count := count + 1;
        } else {
          r := r.(retries := r.retries + 1);
          if r.retries < MAX_RETRIES {
            retryQueue := retryQueue + [r];
          }
        }
        i := i + 1;
      }
      assert all[..i] == all && outcomes[..i] == outcomes;
      queue := queue + retryQueue;
    }
  }

  lemma LoweredAppend(q: seq<Request>, r: Request)
    ensures Lowered(q + [Raised(r)]) == Lowered(q) + [r]
  {}

  lemma {:induction false} DrainBounds(q: seq<Request>, o: seq<Outcome>)
    requires |o| == |q|
    ensures forall i :: 0 <= i < |Drain(q, o).retry| ==> 0 < Drain(q, o).retry[i].retries < MAX_RETRIES
    ensures forall i :: 0 <= i < |Drain(q, o).dropped| ==> Drain(q, o).dropped[i].retries + 1 >= MAX_RETRIES
  {
    if q != [] {
      DrainBounds(q[..|q| - 1], o[..|o| - 1]);
    }
  }

  /** Which dequeued requests end up where, by position. */
  function WasSpawned(q: seq<Request>, o: seq<Outcome>): nat -> bool { (i: nat) => i < |q| && i < |o| && o[i].Spawned? }
  function MayRetry(q: seq<Request>, o: seq<Outcome>): nat -> bool {
    (i: nat) => i < |q| && i < |o| && o[i].NotYet? && q[i].retries < 199
  }
  function IsSpent(q: seq<Request>, o: seq<Outcome>): nat -> bool {
    (i: nat) => i < |q| && i < |o| && o[i].NotYet? && q[i].retries >= 199
  }

  lemma {:induction false} DrainUpTo(q: seq<Request>, o: seq<Outcome>, n: nat)
    requires |o| == |q| && n <= |q|
    ensures var d := Drain(q[..n], o[..n]);
            && Picks(d.spawned, q[..n], WasSpawned(q, o)) && Picks(d.dropped, q[..n], IsSpent(q, o))
            && Picks(Lowered(d.retry), q[..n], MayRetry(q, o))
  {
    hide Picks, Lowered;
    if n == 0 {
      LoweredNone();
      PicksNothing<Request>(WasSpawned(q, o));
      PicksNothing<Request>(IsSpent(q, o));
      PicksNothing<Request>(MayRetry(q, o));
    } else {
      DrainUpTo(q, o, n - 1);
      var front, r := q[..n - 1], q[n - 1];
      var d := Drain(front, o[..n - 1]);
      assert q[..n] == front + [r] && q[..n][..n - 1] == front && o[..n][..n - 1] == o[..n - 1];
      PicksMore(d.spawned, front, WasSpawned(q, o), r);
      PicksMore(d.dropped, front, IsSpent(q, o), r);
      PicksMore(Lowered(d.retry), front, MayRetry(q, o), r);
      LoweredAppend(d.retry, r);
    }
  }

  /** Each dequeued request ends up where its outcome puts it, in order: spawned if it was, put
      back with one more retry if it was not and has one left, dropped otherwise. */
  lemma DrainByOutcome(q: seq<Request>, o: seq<Outcome>)
    requires |o| == |q|
    ensures var d := Drain(q, o);
            && Picks(d.spawned, q, WasSpawned(q, o)) && Picks(d.dropped, q, IsSpent(q, o))
            && Picks(Lowered(d.retry), q, MayRetry(q, o))
            && forall i :: 0 <= i < |d.retry| ==> d.retry[i].retries > 0
  {
    hide Picks, Lowered, Drain;
    DrainUpTo(q, o, |q|);
    DrainBounds(q, o);
    assert q[..|q|] == q && o[..|q|] == o;
  }

  function Tally(d: Drained): multiset<Request> {
    multiset(d.spawned) + multiset(Lowered(d.retry)) + multiset(d.dropped)
  }

  /** Conservation: each request taken off the queue is spawned once, queued again with one
      more retry, or dropped at the limit; none is lost and none doubled. */
  lemma {:induction false} DrainConserves(q: seq<Request>, o: seq<Outcome>)
    requires |o| == |q|
    ensures multiset(q) == Tally(Drain(q, o))
  {
    hide Lowered, Tally;
    if q != [] {
      var front, r := q[..|q| - 1], q[|q| - 1];
      var d := Drain(front, o[..|o| - 1]);
      DrainConserves(front, o[..|o| - 1]);
      TallyGrows(d, r);
      assert q == front + [r];
    } else {
      NothingTallied();
    }
  }

  lemma NothingTallied()
    ensures Tally(Drained([], [], [])) == multiset{}
  {
    hide Lowered;
    LoweredNone();
  }

  /** Wherever one more request ends up, the tally grows by it. */
  lemma TallyGrows(d: Drained, r: Request)
    ensures Tally(d.(spawned := d.spawned + [r])) == Tally(d) + multiset{r}
    ensures Tally(d.(retry := d.retry + [Raised(r)])) == Tally(d) + multiset{r}
    ensures Tally(d.(dropped := d.dropped + [r])) == Tally(d) + multiset{r}
  {
    hide Lowered;
    LoweredAppend(d.retry, r);
  }

  lemma LoweredNone()
    ensures Lowered([]) == []
  {}

  /** Everything that was in the queue or arrived during the call, as found afterwards. */
  function Accounted(q: seq<Request>, original: bool, o: seq<Outcome>, arrivals: seq<Request>): multiset<Request>
    requires |o| == |q|
  {
    if q == [] then multiset(arrivals)
    else if !original then multiset(q)
    else multiset(arrivals) + Tally(Drain(q, o))
  }

  /** The whole call, arrivals included: nothing is lost or doubled if and only if the
      function is known, or the queue was empty, or nothing arrived in between. With the
      function missing, the second swap puts the old queue over the new arrivals. */
  lemma HookConserves(q: seq<Request>, original: bool, o: seq<Outcome>, arrivals: seq<Request>)
    requires |o| == |q|
    ensures Accounted(q, original, o, arrivals) == multiset(q) + multiset(arrivals) <==>
      original || q == [] || arrivals == []
  {
    DrainConserves(q, o);
    assert |multiset(q) + multiset(arrivals)| == |q| + |arrivals|;
    assert |multiset(q)| == |q|;
  }
}
