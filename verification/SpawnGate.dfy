/** The loading orchestrator: a phase machine fed by loading events that decides when
    characters may be spawned. Times are milliseconds of a monotonic clock. */
module SpawnGate {

  datatype Phase = Idle | InitialLoad | ZoneTransition | SpawnLoad

  datatype Resource = Resource(loaded: bool, failed: bool)

  const SPAWN_COOLDOWN := 2000
  const ZONE_SETTLE := 1500
  const BURST_TIMEOUT := 30000

  datatype Gate = Gate(
    phase: Phase, resources: map<string, Resource>, pending: set<string>, hooked: bool,
    gameLoaded: bool, inBurst: bool, burstStart: int, lastComplete: int, zoneEnd: int)

  const START := Gate(InitialLoad, map[], {}, false, false, false, 0, 0, 0)

  datatype Event =
    | Requested(name: string) | Loaded(name: string) | Failed(name: string)
    | BurstDetected | BurstEnded | GameLoaded | ZoneLoadStart | ZoneLoadEnd | Tick

  // ----- queries

  predicate SafeToSpawn(g: Gate, now: int) {
    && g.phase == Idle && !g.inBurst && g.gameLoaded
    && (g.hooked ==> g.pending == {})
    && now - g.lastComplete >= SPAWN_COOLDOWN
  }

  datatype Reason = WrongPhase(phase: Phase) | InBurst | NotLoaded | Pending(count: nat) | Cooldown(left: int) | Ok

  /** The diagnostic gives a reason exactly when the gate is closed, and it is a true one. */
  function BlockReason(g: Gate, now: int): (r: Reason)
    ensures r == Ok <==> SafeToSpawn(g, now)
    ensures r.WrongPhase? ==> r.phase == g.phase != Idle
    ensures (r.InBurst? ==> g.inBurst) && (r.NotLoaded? ==> !g.gameLoaded)
    ensures r.Pending? ==> r.count == |g.pending| > 0
    ensures r.Cooldown? ==> 0 < r.left && g.lastComplete + SPAWN_COOLDOWN == now + r.left
  {
    if g.phase != Idle then WrongPhase(g.phase)
    else if g.inBurst then InBurst
    else if !g.gameLoaded then NotLoaded
    else if g.hooked && g.pending != {} then Pending(|g.pending|)
    else if now - g.lastComplete < SPAWN_COOLDOWN then Cooldown(SPAWN_COOLDOWN - (now - g.lastComplete))
    else Ok
  }

  // ----- events

  function Complete(g: Gate, name: string, r: Resource, now: int): Gate {
    g.(pending := g.pending - {name},
       resources := if name in g.resources then g.resources[name := r] else g.resources,
       lastComplete := now)
  }

  function ResourceOf(g: Gate, name: string): Resource {
    if name in g.resources then g.resources[name] else Resource(false, false)
  }

  predicate TimedOut(g: Gate, now: int) { g.inBurst && now - g.burstStart >= BURST_TIMEOUT }

  function TickBurst(g: Gate, now: int): Gate {
    if TimedOut(g, now)
    then g.(inBurst := false, lastComplete := now,
            phase := if g.phase == InitialLoad || g.phase == ZoneTransition then Idle else g.phase)
    else g
  }

  /** The tick reads the phase once, before the burst timeout may change it. */
  function Ticked(g: Gate, now: int): Gate {
    var g1 := TickBurst(g, now);
    if g.phase == ZoneTransition && !g1.inBurst && now - g1.zoneEnd >= ZONE_SETTLE then g1.(phase := Idle) else g1
  }

  function Apply(g: Gate, e: Event, now: int): Gate {
    match e
    case Requested(n) =>
      g.(pending := g.pending + {n}, resources := g.resources[n := Resource(false, false)], hooked := true)
    case Loaded(n) => Complete(g, n, ResourceOf(g, n).(loaded := true), now)
    case Failed(n) => Complete(g, n, ResourceOf(g, n).(failed := true), now)
    case BurstDetected =>
      g.(inBurst := true, burstStart := now, phase := if g.phase == Idle && g.gameLoaded then ZoneTransition else g.phase)
    case BurstEnded =>
      g.(inBurst := false, lastComplete := now,
         phase := if g.phase == InitialLoad || g.phase == ZoneTransition then Idle else g.phase)
    case GameLoaded =>
      g.(gameLoaded := true, lastComplete := now, phase := if g.phase == InitialLoad then Idle else g.phase)
    case ZoneLoadStart => g.(phase := if g.gameLoaded then ZoneTransition else g.phase)
    case ZoneLoadEnd => g.(zoneEnd := now, lastComplete := now)
    case Tick => Ticked(g, now)
  }

  // ----- histories

  datatype Stamped = Stamped(event: Event, at: int)

  predicate Monotonic(h: seq<Stamped>) { forall i, j :: 0 <= i <= j < |h| ==> h[i].at <= h[j].at }

  function After(h: seq<Stamped>): Gate {
    if h == [] then START else Apply(After(h[..|h| - 1]), h[|h| - 1].event, h[|h| - 1].at)
  }

  /** The events that end some loading: a resource done or failed, the end of a burst, of a
      zone load, of the game load, and a tick that gives up on a burst. */
  predicate Completes(h: seq<Stamped>, i: nat)
    requires i < |h|
  {
    var e := h[i].event;
    || e.Loaded? || e.Failed? || e.BurstEnded? || e.GameLoaded? || e.ZoneLoadEnd?
    || (e.Tick? && TimedOut(After(h[..i]), h[i].at))
  }

  /** The completion time never goes back, and a completion sets it. */
  lemma ApplyStamps(g: Gate, e: Event, now: int)
    ensures Apply(g, e, now).lastComplete == g.lastComplete || Apply(g, e, now).lastComplete == now
    ensures (e.Loaded? || e.Failed? || e.BurstEnded? || e.GameLoaded? || e.ZoneLoadEnd? || (e.Tick? && TimedOut(g, now)))
            ==> Apply(g, e, now).lastComplete == now
  {}

  lemma {:induction false} LatestCompletion(h: seq<Stamped>, i: nat)
    requires Monotonic(h) && i < |h| && Completes(h, i)
    ensures After(h).lastComplete >= h[i].at
  {
    hide Apply, TimedOut;
    var front := h[..|h| - 1];
    ApplyStamps(After(front), h[|h| - 1].event, h[|h| - 1].at);
    if i == |h| - 1 {
      assert h[..i] == front;
    } else {
      assert front[..i] == h[..i] && front[i] == h[i];
      LatestCompletion(front, i);
    }
  }

  /** Over every history, the gate is closed for two seconds after every completion. */
  lemma NoSpawnAfterCompletion(h: seq<Stamped>, i: nat, now: int)
    requires Monotonic(h) && i < |h| && Completes(h, i) && SafeToSpawn(After(h), now)
    ensures now - h[i].at >= SPAWN_COOLDOWN
  {
    LatestCompletion(h, i);
  }

  /** The last event about a resource, if any, was a request. */
  predicate Awaited(h: seq<Stamped>, name: string) {
    if h == [] then false
    else
      var e := h[|h| - 1].event;
      if e == Requested(name) then true
      else if e == Loaded(name) || e == Failed(name) then false
      else Awaited(h[..|h| - 1], name)
  }

  /** The pending set and the records agree, before and after any event. */
  predicate PendingMatches(g: Gate, name: string) {
    name in g.pending <==> name in g.resources && !g.resources[name].loaded && !g.resources[name].failed
  }

  lemma ApplyPending(g: Gate, e: Event, now: int, name: string)
    requires PendingMatches(g, name)
    ensures PendingMatches(Apply(g, e, now), name)
    ensures name in Apply(g, e, now).pending <==>
      e == Requested(name) || (name in g.pending && e != Loaded(name) && e != Failed(name))
  {}

  /** Pending are exactly the resources whose last event was a request, and exactly those
      recorded as neither loaded nor failed. */
  lemma {:induction false} PendingExactly(h: seq<Stamped>, name: string)
    ensures name in After(h).pending <==> Awaited(h, name)
    ensures PendingMatches(After(h), name)
  {
    hide Apply;
    if h != [] {
      PendingExactly(h[..|h| - 1], name);
      ApplyPending(After(h[..|h| - 1]), h[|h| - 1].event, h[|h| - 1].at, name);
    }
  }

  // ----- the gate opens again

  /** What every history keeps about phases and times. */
  predicate GateOk(g: Gate, now: int) {
    && g.phase != SpawnLoad && (g.gameLoaded ==> g.phase != InitialLoad)
    && g.burstStart <= now && g.lastComplete <= now && g.zoneEnd <= now
    && (!g.hooked ==> g.pending == {})
  }

  lemma ApplyOk(g: Gate, e: Event, was: int, now: int)
    requires GateOk(g, was) && was <= now
    ensures GateOk(Apply(g, e, now), now)
  {}

  lemma {:induction false} HistoryOk(h: seq<Stamped>, now: int)
    requires Monotonic(h) && 0 <= now && forall i :: 0 <= i < |h| ==> 0 <= h[i].at <= now
    ensures GateOk(After(h), now)
  {
    hide Apply;
    if h != [] {
      var front, last := h[..|h| - 1], h[|h| - 1];
      HistoryOk(front, last.at);
      ApplyOk(After(front), last.event, last.at, last.at);
    }
  }

  predicate OnlyTicks(h: seq<Stamped>, k: nat) { forall i :: k <= i < |h| ==> h[i].event.Tick? }

  /** Loaded, nothing pending, and all that is going on began by `t`. */
  predicate Settling(g: Gate, t: int, now: int) {
    && g.gameLoaded && g.pending == {} && (g.phase == Idle || g.phase == ZoneTransition)
    && g.burstStart <= t && g.zoneEnd <= t && g.lastComplete <= now && t <= now
  }

  predicate Settled(g: Gate, now: int) {
    g.gameLoaded && g.pending == {} && g.phase == Idle && !g.inBurst && g.lastComplete <= now
  }

  lemma TickSettles(g: Gate, t: int, was: int, now: int)
    requires Settling(g, t, was) && was <= now
    ensures Settling(Ticked(g, now), t, now)
    ensures now >= t + BURST_TIMEOUT ==> Settled(Ticked(g, now), now)
  {}

  lemma TickKeepsSettled(g: Gate, was: int, now: int)
    requires Settled(g, was)
    ensures Ticked(g, now) == g
  {}

  lemma {:induction false} StillSettling(h: seq<Stamped>, k: nat, t: int, now: int)
    requires Monotonic(h) && k <= |h| && OnlyTicks(h, k) && t <= now
    requires forall i :: k <= i < |h| ==> t <= h[i].at <= now
    requires Settling(After(h[..k]), t, t)
    ensures Settling(After(h), t, now)
  {
    if k == |h| {
      assert h[..k] == h;
    } else {
      var front, last := h[..|h| - 1], h[|h| - 1];
      assert front[..k] == h[..k];
      StillSettling(front, k, t, last.at);
      TickSettles(After(front), t, last.at, last.at);
    }
  }

  lemma {:induction false} StaysSettled(h: seq<Stamped>, i: nat, now: int)
    requires i <= |h| && OnlyTicks(h, i) && Settled(After(h[..i]), now)
    ensures After(h) == After(h[..i])
  {
    if i == |h| {
      assert h[..i] == h;
    } else {
      var front := h[..|h| - 1];
      assert front[..i] == h[..i];
      StaysSettled(front, i, now);
      TickKeepsSettled(After(front), now, h[|h| - 1].at);
    }
  }

  // ----- the state, read off the history

  /** The game has been reported loaded. */
  ghost predicate GameIsLoaded(h: seq<Stamped>) { exists i :: 0 <= i < |h| && h[i].event.GameLoaded? }

  /** What ends a burst that began at `i`: the next one, its end, or a tick half a minute later. */
  predicate Stops(h: seq<Stamped>, i: nat, k: nat)
    requires i < |h| && k < |h|
  {
    h[k].event.BurstDetected? || h[k].event.BurstEnded? || (h[k].event.Tick? && h[k].at - h[i].at >= BURST_TIMEOUT)
  }

  /** A burst began here and nothing has ended it. */
  predicate BurstFrom(h: seq<Stamped>, i: nat)
    requires i < |h|
  {
    h[i].event.BurstDetected? && forall k :: i < k < |h| ==> !Stops(h, i, k)
  }

  ghost predicate Burst(h: seq<Stamped>) { exists i :: 0 <= i < |h| && BurstFrom(h, i) }

  /** A tick that gives up on a burst. */
  ghost predicate GivesUp(h: seq<Stamped>, k: nat)
    requires k < |h|
  {
    h[k].event.Tick? && exists i :: 0 <= i < k && BurstFrom(h[..k], i) && h[k].at - h[i].at >= BURST_TIMEOUT
  }

  /** Something finished loading, or was given up. */
  ghost predicate Finishes(h: seq<Stamped>, k: nat)
    requires k < |h|
  {
    var e := h[k].event;
    e.Loaded? || e.Failed? || e.BurstEnded? || e.GameLoaded? || e.ZoneLoadEnd? || GivesUp(h, k)
  }

  /** A loaded game starts loading a zone. */
  ghost predicate Enters(h: seq<Stamped>, k: nat)
    requires k < |h|
  {
    (h[k].event.ZoneLoadStart? || h[k].event.BurstDetected?) && GameIsLoaded(h[..k])
  }

  /** The last zone load, if any, ended a while before. */
  predicate ZoneSettled(h: seq<Stamped>, k: nat)
    requires k < |h|
  {
    h[k].at >= ZONE_SETTLE && forall i :: 0 <= i < k && h[i].event.ZoneLoadEnd? ==> h[k].at - h[i].at >= ZONE_SETTLE
  }

  ghost predicate Exits(h: seq<Stamped>, k: nat)
    requires k < |h|
  {
    h[k].event.BurstEnded? || GivesUp(h, k) || (h[k].event.Tick? && !Burst(h[..k]) && ZoneSettled(h, k))
  }

  ghost predicate TransitionFrom(h: seq<Stamped>, i: nat)
    requires i < |h|
  {
    Enters(h, i) && forall k :: i < k < |h| ==> !Exits(h, k)
  }

  /** A zone is being loaded. */
  ghost predicate Transition(h: seq<Stamped>) { exists i :: 0 <= i < |h| && TransitionFrom(h, i) }

  /** Nothing has ended the first load. */
  ghost predicate Initial(h: seq<Stamped>) {
    forall k :: 0 <= k < |h| ==> !h[k].event.GameLoaded? && !h[k].event.BurstEnded? && !GivesUp(h, k)
  }

  /** When characters may be spawned, in terms of what has happened: the game is loaded, no burst
      and no zone load is going on, no requested resource is outstanding, and nothing finished
      within the last two seconds. */
  ghost predicate Open(h: seq<Stamped>, now: int) {
    && GameIsLoaded(h) && !Burst(h) && !Transition(h) && (forall name :: !Awaited(h, name))
    && (forall k :: 0 <= k < |h| && Finishes(h, k) ==> now - h[k].at >= SPAWN_COOLDOWN)
  }

  predicate Timely(h: seq<Stamped>) { Monotonic(h) && forall i :: 0 <= i < |h| ==> 0 <= h[i].at }

  lemma TimelyFront(h: seq<Stamped>)
    requires Timely(h) && h != []
    ensures Timely(h[..|h| - 1])
  {}

  // The game load.

  lemma {:induction false} LoadedExactly(h: seq<Stamped>)
    ensures After(h).gameLoaded <==> GameIsLoaded(h)
  {
    if h != [] {
      var front, last := h[..|h| - 1], h[|h| - 1];
      LoadedExactly(front);
      LoadedMore(h);
      LoadedApply(After(front), last.event, last.at);
      hide Apply, GameIsLoaded;
    }
  }

  lemma LoadedMore(h: seq<Stamped>)
    requires h != []
    ensures GameIsLoaded(h) <==> GameIsLoaded(h[..|h| - 1]) || h[|h| - 1].event.GameLoaded?
  {
    var front := h[..|h| - 1];
    if i :| 0 <= i < |front| && front[i].event.GameLoaded? {
      assert h[i].event.GameLoaded?;
    }
    if i :| 0 <= i < |h| && h[i].event.GameLoaded? {
      assert i < |front| ==> front[i].event.GameLoaded?;
    }
  }

  lemma LoadedApply(g: Gate, e: Event, now: int)
    ensures Apply(g, e, now).gameLoaded <==> g.gameLoaded || e.GameLoaded?
  {}

  // Bursts.

  lemma BurstMore(h: seq<Stamped>, i: nat)
    requires h != [] && i < |h|
    ensures BurstFrom(h, i) <==>
      if i == |h| - 1 then h[i].event.BurstDetected? else BurstFrom(h[..|h| - 1], i) && !Stops(h, i, |h| - 1)
  {
    if i < |h| - 1 {
      var front := h[..|h| - 1];
      assert forall k :: i < k < |front| ==> (Stops(front, i, k) <==> Stops(h, i, k));
    }
  }

  /** What the gate knows of bursts is what the history says. */
  ghost predicate BurstKnown(h: seq<Stamped>) {
    && (After(h).inBurst <==> Burst(h))
    && (forall i :: 0 <= i < |h| && BurstFrom(h, i) ==> After(h).burstStart == h[i].at)
  }

  lemma BurstApply(g: Gate, e: Event, now: int)
    ensures var g' := Apply(g, e, now);
            && (g'.inBurst <==>
                  e.BurstDetected? || (g.inBurst && !e.BurstEnded? && !(e.Tick? && now - g.burstStart >= BURST_TIMEOUT)))
            && g'.burstStart == if e.BurstDetected? then now else g.burstStart
  {}

  lemma {:induction false} BurstExactly(h: seq<Stamped>)
    ensures BurstKnown(h)
  {
    if h != [] {
      var n := |h| - 1;
      BurstExactly(h[..n]);
      BurstApply(After(h[..n]), h[n].event, h[n].at);
      BurstStep(h);
    }
  }

  lemma BurstStep(h: seq<Stamped>)
    requires h != [] && BurstKnown(h[..|h| - 1])
    requires var g, last := After(h[..|h| - 1]), h[|h| - 1];
             && After(h) == Apply(g, last.event, last.at)
             && (After(h).inBurst <==>
                   last.event.BurstDetected? || (g.inBurst && !last.event.BurstEnded? && !(last.event.Tick? && last.at - g.burstStart >= BURST_TIMEOUT)))
             && After(h).burstStart == if last.event.BurstDetected? then last.at else g.burstStart
    ensures BurstKnown(h)
  {
    hide After, Apply, BurstFrom;
    var n := |h| - 1;
    var front := h[..n];
    forall i | 0 <= i < |h|
      ensures BurstFrom(h, i) <==> if i == n then h[i].event.BurstDetected? else BurstFrom(front, i) && !Stops(h, i, n)
    {
      BurstMore(h, i);
    }
    if After(front).inBurst {
      var i :| 0 <= i < |front| && BurstFrom(front, i);
      assert After(front).burstStart == front[i].at == h[i].at;
      assert BurstFrom(h, i) <==> !Stops(h, i, n);
    }
    forall i | 0 <= i < |h| && BurstFrom(h, i) ensures After(h).burstStart == h[i].at && After(h).inBurst {
      if i < n {
        assert After(front).burstStart == front[i].at;
      }
    }
    if h[n].event.BurstDetected? {
      assert BurstFrom(h, n);
    }
  }

  lemma GivesUpIsTimeout(h: seq<Stamped>, k: nat)
    requires k < |h|
    ensures GivesUp(h, k) <==> h[k].event.Tick? && TimedOut(After(h[..k]), h[k].at)
    ensures Finishes(h, k) <==> Completes(h, k)
  {
    hide After, BurstFrom;
    BurstExactly(h[..k]);
    var front := h[..k];
    if h[k].event.Tick? && TimedOut(After(front), h[k].at) {
      var i :| 0 <= i < |front| && BurstFrom(front, i);
      assert After(front).burstStart == front[i].at;
    }
    if GivesUp(h, k) {
      var i :| 0 <= i < k && BurstFrom(h[..k], i) && h[k].at - h[i].at >= BURST_TIMEOUT;
      assert After(front).burstStart == front[i].at;
    }
  }

  // Times.

  /** The completion time is that of some completion, unless there was none. */
  lemma {:induction false} CompletionAttained(h: seq<Stamped>)
    ensures (After(h).lastComplete == 0 && forall i :: 0 <= i < |h| ==> !Completes(h, i)) ||
            exists i :: 0 <= i < |h| && Completes(h, i) && After(h).lastComplete == h[i].at
  {
    if h != [] {
      var n := |h| - 1;
      CompletionAttained(h[..n]);
      CompletionStep(h);
    }
  }

  lemma CompletionStep(h: seq<Stamped>)
    requires h != []
    requires var front := h[..|h| - 1];
             (After(front).lastComplete == 0 && forall i :: 0 <= i < |front| ==> !Completes(front, i)) ||
             exists i :: 0 <= i < |front| && Completes(front, i) && After(front).lastComplete == front[i].at
    ensures (After(h).lastComplete == 0 && forall i :: 0 <= i < |h| ==> !Completes(h, i)) ||
            exists i :: 0 <= i < |h| && Completes(h, i) && After(h).lastComplete == h[i].at
  {
    var n := |h| - 1;
    var front := h[..n];
    AfterNext(h, n);
    assert h[..n + 1] == h;
    CompletionSets(After(front), h[n].event, h[n].at);
    hide After, Apply, TimedOut;
    assert forall i :: 0 <= i < n ==> front[..i] == h[..i];
    assert forall i :: 0 <= i < n ==> (Completes(front, i) <==> Completes(h, i));
    if Completes(h, n) {
      assert After(h).lastComplete == h[n].at;
    } else if i :| 0 <= i < |front| && Completes(front, i) && After(front).lastComplete == front[i].at {
      assert Completes(h, i) && After(h).lastComplete == h[i].at;
    }
  }

  lemma CompletionSets(g: Gate, e: Event, now: int)
    ensures var done := e.Loaded? || e.Failed? || e.BurstEnded? || e.GameLoaded? || e.ZoneLoadEnd? || (e.Tick? && TimedOut(g, now));
            Apply(g, e, now).lastComplete == if done then now else g.lastComplete
  {}

  lemma CooldownExactly(h: seq<Stamped>, now: int)
    requires Timely(h) && GameIsLoaded(h)
    ensures now - After(h).lastComplete >= SPAWN_COOLDOWN <==>
      forall k :: 0 <= k < |h| && Finishes(h, k) ==> now - h[k].at >= SPAWN_COOLDOWN
  {
    hide After, Completes, Finishes;
    forall k | 0 <= k < |h| ensures Finishes(h, k) <==> Completes(h, k) {
      GivesUpIsTimeout(h, k);
    }
    LoadCompletes(h);
    CompletionAttained(h);
    forall k | 0 <= k < |h| && Completes(h, k) ensures After(h).lastComplete >= h[k].at {
      LatestCompletion(h, k);
    }
  }

  lemma LoadCompletes(h: seq<Stamped>)
    requires GameIsLoaded(h)
    ensures exists k :: 0 <= k < |h| && Completes(h, k)
  {
    var k :| 0 <= k < |h| && h[k].event.GameLoaded?;
    assert Completes(h, k);
  }

  /** The end of the last zone load, or zero. */
  lemma {:induction false} ZoneEndExactly(h: seq<Stamped>)
    requires Timely(h)
    ensures forall i :: 0 <= i < |h| && h[i].event.ZoneLoadEnd? ==> h[i].at <= After(h).zoneEnd
    ensures After(h).zoneEnd == 0 || exists i :: 0 <= i < |h| && h[i].event.ZoneLoadEnd? && h[i].at == After(h).zoneEnd
    ensures After(h).zoneEnd >= 0
  {
    if h != [] {
      var n := |h| - 1;
      var front := h[..n];
      TimelyFront(h);
      ZoneEndExactly(front);
      ZoneEndApply(After(front), h[n].event, h[n].at);
      hide Apply;
      if i :| 0 <= i < |front| && front[i].event.ZoneLoadEnd? && front[i].at == After(front).zoneEnd {
        assert h[i].at == After(front).zoneEnd && h[i].event.ZoneLoadEnd?;
      }
      forall i | 0 <= i < n && h[i].event.ZoneLoadEnd? ensures h[i].at <= After(front).zoneEnd {
        assert front[i] == h[i];
      }
    }
  }

  lemma ZoneEndApply(g: Gate, e: Event, now: int)
    ensures Apply(g, e, now).zoneEnd == if e.ZoneLoadEnd? then now else g.zoneEnd
  {}

  lemma SettledExactly(h: seq<Stamped>, k: nat)
    requires Timely(h) && k < |h|
    ensures h[k].at - After(h[..k]).zoneEnd >= ZONE_SETTLE <==> ZoneSettled(h, k)
  {
    hide After;
    var front := h[..k];
    assert Timely(front);
    ZoneEndExactly(front);
    assert forall i :: 0 <= i < k ==> front[i] == h[i];
  }

  // Phases.

  /** What the gate knows of its phase is what the history says. */
  ghost predicate PhaseKnown(h: seq<Stamped>) {
    && (After(h).phase.ZoneTransition? <==> Transition(h)) && (After(h).phase.InitialLoad? <==> Initial(h))
    && !After(h).phase.SpawnLoad? && (After(h).gameLoaded ==> !After(h).phase.InitialLoad?)
  }

  lemma TransitionMore(h: seq<Stamped>, i: nat)
    requires h != [] && i < |h|
    ensures TransitionFrom(h, i) <==>
      if i == |h| - 1 then Enters(h, i) else TransitionFrom(h[..|h| - 1], i) && !Exits(h, |h| - 1)
  {
    hide Burst, GivesUp, GameIsLoaded, ZoneSettled;
    var front := h[..|h| - 1];
    if i < |h| - 1 {
      assert forall k :: 0 <= k < |front| ==> front[..k] == h[..k];
      forall k | i < k < |front| ensures Exits(front, k) <==> Exits(h, k) {
        SameExits(h, k);
      }
      SameEnters(h, i);
    }
  }

  lemma SameEnters(h: seq<Stamped>, i: nat)
    requires h != [] && i < |h| - 1
    ensures Enters(h[..|h| - 1], i) <==> Enters(h, i)
  {
    hide GameIsLoaded;
    assert h[..|h| - 1][..i] == h[..i];
  }

  lemma SameExits(h: seq<Stamped>, k: nat)
    requires h != [] && k < |h| - 1
    ensures (Exits(h[..|h| - 1], k) <==> Exits(h, k)) && (GivesUp(h[..|h| - 1], k) <==> GivesUp(h, k))
  {
    hide Burst, BurstFrom;
    var front := h[..|h| - 1];
    assert front[..k] == h[..k];
    assert forall i :: 0 <= i <= k ==> front[i] == h[i];
  }

  lemma TransitionStep(h: seq<Stamped>)
    requires h != []
    ensures Transition(h) <==> Enters(h, |h| - 1) || (Transition(h[..|h| - 1]) && !Exits(h, |h| - 1))
  {
    hide TransitionFrom, Enters, Exits;
    var n := |h| - 1;
    TransitionMore(h, n);
    if i :| 0 <= i < n && TransitionFrom(h, i) {
      TransitionMore(h, i);
    }
    if i :| 0 <= i < |h[..n]| && TransitionFrom(h[..n], i) {
      TransitionMore(h, i);
    }
  }

  lemma InitialStep(h: seq<Stamped>)
    requires h != []
    ensures var last := h[|h| - 1].event;
            Initial(h) <==> Initial(h[..|h| - 1]) && !last.GameLoaded? && !last.BurstEnded? && !GivesUp(h, |h| - 1)
  {
    hide GivesUp;
    var front := h[..|h| - 1];
    forall k | 0 <= k < |front| ensures GivesUp(front, k) <==> GivesUp(h, k) {
      SameExits(h, k);
    }
    if Initial(h) {
      forall k | 0 <= k < |front| ensures !front[k].event.GameLoaded? && !front[k].event.BurstEnded? && !GivesUp(front, k) {
        assert h[k] == front[k];
      }
    }
  }

  /** How one event moves the phase, given what the history says about it. */
  lemma PhaseApply(g: Gate, e: Event, now: int, gives: bool, settles: bool)
    requires !g.phase.SpawnLoad? && (g.gameLoaded ==> !g.phase.InitialLoad?)
    requires gives == (e.Tick? && TimedOut(g, now)) && settles == (e.Tick? && !g.inBurst && now - g.zoneEnd >= ZONE_SETTLE)
    ensures var g' := Apply(g, e, now);
            && (g'.phase.ZoneTransition? <==>
                  ((e.ZoneLoadStart? || e.BurstDetected?) && g.gameLoaded) || (g.phase.ZoneTransition? && !e.BurstEnded? && !gives && !settles))
            && (g'.phase.InitialLoad? <==> g.phase.InitialLoad? && !e.GameLoaded? && !e.BurstEnded? && !gives)
            && !g'.phase.SpawnLoad? && (g'.gameLoaded ==> !g'.phase.InitialLoad?)
  {}

  lemma {:induction false} PhaseExactly(h: seq<Stamped>)
    requires Timely(h)
    ensures PhaseKnown(h)
  {
    if h != [] {
      TimelyFront(h);
      PhaseExactly(h[..|h| - 1]);
      hide PhaseKnown;
      PhaseStep(h);
    }
  }

  lemma PhaseStep(h: seq<Stamped>)
    requires Timely(h) && h != [] && PhaseKnown(h[..|h| - 1])
    ensures PhaseKnown(h)
  {
    var n := |h| - 1;
    AfterNext(h, n);
    assert h[..n + 1] == h;
    hide After, Apply, TimedOut, Initial, Transition, GameIsLoaded, Burst, GivesUp, ZoneSettled, Timely;
    var g, e := After(h[..n]), h[n].event;
    LoadedExactly(h[..n]);
    BurstExactly(h[..n]);
    GivesUpIsTimeout(h, n);
    SettledExactly(h, n);
    TransitionStep(h);
    InitialStep(h);
    PhaseApply(g, e, h[n].at, GivesUp(h, n), e.Tick? && !Burst(h[..n]) && ZoneSettled(h, n));
  }

  /** The gate is open exactly when the history says so, over every history. */
  lemma GateExactly(h: seq<Stamped>, now: int)
    requires Timely(h)
    ensures SafeToSpawn(After(h), now) <==> Open(h, now)
  {
    hide After, GameIsLoaded, Burst, Transition, Initial, Awaited, Finishes, Timely;
    LoadedExactly(h);
    BurstExactly(h);
    PhaseExactly(h);
    forall name ensures name in After(h).pending <==> Awaited(h, name) {
      PendingExactly(h, name);
    }
    HookedWhenPending(h);
    if GameIsLoaded(h) {
      CooldownExactly(h, now);
    }
  }

  lemma {:induction false} HookedWhenPending(h: seq<Stamped>)
    ensures !After(h).hooked ==> After(h).pending == {}
  {
    if h != [] {
      HookedWhenPending(h[..|h| - 1]);
    }
  }

  /** Liveness over every history: once the game has been reported loaded, nothing requested is
      awaited and from `t` on there are only ticks, the first tick at or after `t + 30000` leaves the
      gate idle with no burst, and from two seconds later on it is open for good. */
  lemma OpensAgain(h: seq<Stamped>, k: nat, i: nat, t: int, now: int)
    requires Monotonic(h) && k <= i < |h| && 0 <= t && forall j :: 0 <= j < |h| ==> 0 <= h[j].at
    requires (forall j :: 0 <= j < k ==> h[j].at <= t) && (forall j :: k <= j < |h| ==> t <= h[j].at)
    requires OnlyTicks(h, k) && GameIsLoaded(h[..k]) && forall name :: !Awaited(h[..k], name)
    requires h[i].at >= t + BURST_TIMEOUT && now >= h[i].at + SPAWN_COOLDOWN
    ensures After(h[..i + 1]).phase == Idle && !After(h[..i + 1]).inBurst
    ensures SafeToSpawn(After(h), now) && Open(h, now)
  {
    hide Ticked, Apply, After, GameIsLoaded, Awaited, Open;
    LoadedExactly(h[..k]);
    forall name ensures name !in After(h[..k]).pending {
      PendingExactly(h[..k], name);
    }
    GateExactly(h, now);
    SettlesBy(h, k, i, t);
    AfterNext(h, i);
    TickSettles(After(h[..i]), t, h[i].at, h[i].at);
    TickIsTick(After(h[..i]), h[i].at);
    StaysSettled(h, i + 1, h[i].at);
  }

  lemma AfterNext(h: seq<Stamped>, i: nat)
    requires i < |h|
    ensures After(h[..i + 1]) == Apply(After(h[..i]), h[i].event, h[i].at)
  {
    hide Apply;
    assert h[..i + 1][..i] == h[..i];
  }

  lemma SettlesBy(h: seq<Stamped>, k: nat, i: nat, t: int)
    requires Monotonic(h) && k <= i < |h| && 0 <= t && forall j :: 0 <= j < |h| ==> 0 <= h[j].at
    requires (forall j :: 0 <= j < k ==> h[j].at <= t) && (forall j :: k <= j < |h| ==> t <= h[j].at)
    requires OnlyTicks(h, k) && After(h[..k]).gameLoaded && After(h[..k]).pending == {}
    ensures Settling(After(h[..i]), t, h[i].at)
  {
    hide After;
    HistoryOk(h[..k], t);
    assert h[..i][..k] == h[..k];
    StillSettling(h[..i], k, t, h[i].at);
  }

  lemma TickIsTick(g: Gate, now: int)
    ensures Apply(g, Tick, now) == Ticked(g, now)
  {}

  /** A zone load alone does not hold the gate: the next tick opens the phase again if and
      only if no burst is running and the previous zone load ended long enough ago. */
  lemma ZoneLoadHolds(g: Gate, at: int, tick: int)
    requires GateOk(g, at) && g.gameLoaded && at <= tick
    ensures Apply(g, ZoneLoadStart, at).phase == ZoneTransition
    ensures Ticked(Apply(g, ZoneLoadStart, at), tick).phase == Idle <==>
      TimedOut(g, tick) || (!g.inBurst && tick - g.zoneEnd >= ZONE_SETTLE)
  {}

  /** The orchestrator as an object. */
  class LoadingOrchestrator {
    var phase: Phase
    var resources: map<string, Resource>
    var pending: set<string>
    var hooked: bool
    var gameLoaded: bool
    var inBurst: bool
    var burstStart: int
    var lastComplete: int
    var zoneEnd: int
    /** Every event so far, with its time. */
    ghost var history: seq<Stamped>

    /** The state is what the history leaves, and time has not run backwards. */
    ghost predicate Valid()
      reads this
    {
      View() == After(history) && Timely(history)
    }

    ghost predicate NotBefore(now: int)
      reads this
    {
      0 <= now && (history != [] ==> history[|history| - 1].at <= now)
    }

    ghost method Record(e: Event, now: int)
      requires Timely(history) && NotBefore(now) && View() == Apply(After(history), e, now)
      modifies this`history
      ensures Valid() && history == old(history) + [Stamped(e, now)]
    {
      hide Apply;
      assert (history + [Stamped(e, now)])[..|history|] == history;
      history := history + [Stamped(e, now)];
    }

    /** Spawning is allowed exactly when the history says that nothing is loading and nothing
        finished loading just now. */
    method IsSafeToSpawn(now: int) returns (safe: bool)
      requires Valid() && NotBefore(now)
      ensures safe <==> Open(history, now)
    {
      hide Open, After, Timely;
      safe := phase == Idle && !inBurst && gameLoaded && !(hooked && pending != {}) && now - lastComplete >= SPAWN_COOLDOWN;
      GateExactly(history, now);
    }

    function View(): Gate
      reads this
    {
      Gate(phase, resources, pending, hooked, gameLoaded, inBurst, burstStart, lastComplete, zoneEnd)
    }

    constructor ()
      ensures Valid() && View() == START && history == []
    {
      phase, resources, pending, hooked := InitialLoad, map[], {}, false;
      gameLoaded, inBurst, burstStart, lastComplete, zoneEnd := false, false, 0, 0, 0;
      history := [];
    }

    method OnResourceRequested(name: string, now: int)
      requires Valid() && NotBefore(now)
      modifies this
      ensures Valid() && history == old(history) + [Stamped(Requested(name), now)]
    {
      pending := pending + {name};
      resources := resources[name := Resource(false, false)];
      hooked := true;
      Record(Requested(name), now);
    }

    method OnResourceLoaded(name: string, now: int)
      requires Valid() && NotBefore(now)
      modifies this
      ensures Valid() && history == old(history) + [Stamped(Loaded(name), now)]
    {
      pending := pending - {name};
      if name in resources {
        resources := resources[name := resources[name].(loaded := true)];
      }
      lastComplete := now;
      Record(Loaded(name), now);
    }

    method OnResourceFailed(name: string, now: int)
      requires Valid() && NotBefore(now)
      modifies this
      ensures Valid() && history == old(history) + [Stamped(Failed(name), now)]
    {
      pending := pending - {name};
      if name in resources {
        resources := resources[name := resources[name].(failed := true)];
      }
      lastComplete := now;
      Record(Failed(name), now);
    }

    method OnBurstDetected(now: int)
      requires Valid() && NotBefore(now)
      modifies this
      ensures Valid() && history == old(history) + [Stamped(BurstDetected, now)]
    {
      inBurst, burstStart := true, now;
      if phase == Idle && gameLoaded {
        phase := ZoneTransition;
      }
      Record(BurstDetected, now);
    }

    method OnBurstEnded(now: int)
      requires Valid() && NotBefore(now)
      modifies this
      ensures Valid() && history == old(history) + [Stamped(BurstEnded, now)]
    {
      inBurst, lastComplete := false, now;
      if phase == InitialLoad || phase == ZoneTransition {
        phase := Idle;
      }
      Record(BurstEnded, now);
    }

    method OnGameLoaded(now: int)
      requires Valid() && NotBefore(now)
      modifies this
      ensures Valid() && history == old(history) + [Stamped(GameLoaded, now)]
    {
      gameLoaded, lastComplete := true, now;
      if phase == InitialLoad {
        phase := Idle;
      }
      Record(GameLoaded, now);
    }

    method OnZoneLoadStart(now: int)
      requires Valid() && NotBefore(now)
      modifies this
      ensures Valid() && history == old(history) + [Stamped(ZoneLoadStart, now)]
    {
      if gameLoaded {
        phase := ZoneTransition;
      }
      Record(ZoneLoadStart, now);
    }

    method OnZoneLoadEnd(now: int)
      requires Valid() && NotBefore(now)
      modifies this
      ensures Valid() && history == old(history) + [Stamped(ZoneLoadEnd, now)]
    {
      zoneEnd := now;
      lastComplete := zoneEnd;
      Record(ZoneLoadEnd, now);
    }

    /** One tick. The gate is reported open exactly when the history says so, and the tick that
        gives up on everything begun half a minute ago leaves it idle. */
    method OnTick(now: int) returns (safe: bool)
      requires Valid() && NotBefore(now)
      modifies this
      ensures Valid() && history == old(history) + [Stamped(Tick, now)]
      ensures safe <==> Open(history, now)
      ensures forall t :: Settling(old(View()), t, now) && now >= t + BURST_TIMEOUT ==> Settled(View(), now)
    {
      var was := phase;
      if inBurst && now - burstStart >= BURST_TIMEOUT {
        inBurst, lastComplete := false, now;
        if was == InitialLoad || was == ZoneTransition {
          phase := Idle;
        }
      }
      if was == ZoneTransition && !inBurst && now - zoneEnd >= ZONE_SETTLE {
        phase := Idle;
      }
      Record(Tick, now);
      safe := IsSafeToSpawn(now);
    }
  }
}
