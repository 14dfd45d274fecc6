/** The remote part of a client's entity registry. It follows the same messages as the view,
    but drops most of them until the game is loaded, defers early spawns until all players
    are ready, and forgets a player's entities when that player leaves. */
module ClientRegistry {
  import opened Types
  import opened ServerModel
  import opened Runs
  import opened Ownership
  import opened Hosts
  import opened Replication
  import opened Mirroring

  datatype Phase = Startup | MainMenu | Loading | GameReady | Connecting | Connected

  predicate Early(phase: Phase) { phase.Startup? || phase.MainMenu? || phase.Loading? }

  datatype Deferred = Deferred(id: EntityID, owner: PlayerID)

  /** The remote entities by owner, and the spawns put off until everybody is ready. */
  datatype Client = Client(
    localId: PlayerID, loaded: bool, phase: Phase, remote: map<EntityID, PlayerID>, deferred: seq<Deferred>)

  /** What can happen to a client: a message, a heartbeat with the server's entity ids, an
      entity given up locally (out of retries, stuck, destroyed by the game, out of the zone),
      the end of a load, the start of one from within the game, and the end of the connection. */
  datatype Happening =
    | Hears(msg: Msg) | Heartbeat(ids: set<EntityID>) | Drops(id: EntityID) | GameLoads | SaveLoads | Disconnects

  /** A second registration of an id changes nothing. */
  function Register(remote: map<EntityID, PlayerID>, id: EntityID, owner: PlayerID): map<EntityID, PlayerID> {
    if id in remote then remote else remote[id := owner]
  }

  function RegisterAll(remote: map<EntityID, PlayerID>, ds: seq<Deferred>, localId: PlayerID): map<EntityID, PlayerID> {
    if ds == [] then remote
    else
      var rest, d := RegisterAll(remote, ds[..|ds| - 1], localId), ds[|ds| - 1];
      if d.owner == localId then rest else Register(rest, d.id, d.owner)
  }

  predicate Defers(c: Client) { !c.loaded || Early(c.phase) }

  function Hear(c: Client, m: Msg): Client {
    match m
    case HandshakeAck(id) => c.(localId := id, phase := Connected)
    case HandshakeReject(_) => if c.loaded then c.(phase := GameReady) else c
    case EntitySpawn(id, owner, _, _, _, _, _, _, _, _) =>
      if owner == c.localId then c
      else if Defers(c) then c.(deferred := c.deferred + [Deferred(id, owner)])
      else c.(remote := Register(c.remote, id, owner))
    case BuildPlaced(id, _, _, _, builder) => if c.loaded then c.(remote := Register(c.remote, id, builder)) else c
    case EntityDespawn(id, _) => if c.loaded then c.(remote := c.remote - {id}) else c
    case BuildDestroyed(id, _) => if c.loaded then c.(remote := c.remote - {id}) else c
    case PlayerLeft(p) =>
      if c.loaded then c.(remote := map id | id in c.remote && c.remote[id] != p :: c.remote[id]) else c
    case AllPlayersReady => c.(remote := RegisterAll(c.remote, c.deferred, c.localId), deferred := [])
    case _ => c
  }

  function Next(c: Client, e: Happening): Client {
    match e
    case Hears(m) => Hear(c, m)
    case Heartbeat(ids) =>
      if c.loaded then c.(remote := map id | id in c.remote && id in ids :: c.remote[id]) else c
    case Drops(id) => c.(remote := c.remote - {id})
    case GameLoads => if c.loaded then c else c.(loaded := true, phase := GameReady)
    case SaveLoads =>
      if c.phase.GameReady? then c.(loaded := false, phase := Loading, remote := map[])
      else if c.phase.MainMenu? then c.(loaded := false, phase := Loading)
      else c
    case Disconnects => c.(phase := if c.loaded then GameReady else c.phase, remote := map[])
  }

  function After(c: Client, h: seq<Happening>): Client {
    if h == [] then c else Next(After(c, h[..|h| - 1]), h[|h| - 1])
  }

  // ----- when an id is registered

  /** This happening registers the id, unless it is registered already. */
  predicate Registers(c: Client, e: Happening, id: EntityID) {
    e.Hears? &&
    match e.msg
    case EntitySpawn(x, owner, _, _, _, _, _, _, _, _) => x == id && owner != c.localId && !Defers(c)
    case BuildPlaced(x, _, _, _, _) => x == id && c.loaded
    case AllPlayersReady => exists k :: 0 <= k < |c.deferred| && c.deferred[k].id == id && c.deferred[k].owner != c.localId
    case _ => false
  }

  predicate Unregisters(c: Client, e: Happening, id: EntityID) {
    match e
    case Hears(m) =>
      c.loaded && ((m.EntityDespawn? && m.id == id) || (m.BuildDestroyed? && m.id == id) ||
                   (m.PlayerLeft? && id in c.remote && c.remote[id] == m.playerId))
    case Heartbeat(ids) => c.loaded && id !in ids
    case Drops(x) => x == id
    case GameLoads => false
    case SaveLoads => c.phase.GameReady?
    case Disconnects => true
  }

  lemma {:induction false} RegisterAllKeys(remote: map<EntityID, PlayerID>, ds: seq<Deferred>, localId: PlayerID, id: EntityID)
    ensures id in RegisterAll(remote, ds, localId) <==>
      id in remote || exists k :: 0 <= k < |ds| && ds[k].id == id && ds[k].owner != localId
    ensures id in remote ==> RegisterAll(remote, ds, localId)[id] == remote[id]
  {
    if ds != [] {
      var front, d := ds[..|ds| - 1], ds[|ds| - 1];
      RegisterAllKeys(remote, front, localId, id);
      if k :| 0 <= k < |front| && front[k].id == id && front[k].owner != localId {
        assert ds[k] == front[k];
      }
    }
  }

  lemma NextRegistered(c: Client, e: Happening, id: EntityID)
    ensures id in Next(c, e).remote <==> Registers(c, e, id) || (id in c.remote && !Unregisters(c, e, id))
    ensures id in c.remote && id in Next(c, e).remote ==> Next(c, e).remote[id] == c.remote[id]
  {
    if e.Hears? && e.msg.AllPlayersReady? {
      RegisterAllKeys(c.remote, c.deferred, c.localId, id);
    }
  }

  /** Who a newly registered entity is attributed to: the owner or builder the message names, or
      that of the first deferred spawn of the id. */
  lemma RegisteredOwner(c: Client, e: Happening, id: EntityID)
    requires e.Hears? && Registers(c, e, id) && id !in c.remote
    ensures id in Next(c, e).remote
    ensures e.msg.EntitySpawn? ==> Next(c, e).remote[id] == e.msg.owner
    ensures e.msg.BuildPlaced? ==> Next(c, e).remote[id] == e.msg.builder
    ensures e.msg.AllPlayersReady? ==>
      exists k :: FirstDeferred(c, id, k) && Next(c, e).remote[id] == c.deferred[k].owner
  {
    NextRegistered(c, e, id);
    if e.msg.AllPlayersReady? {
      var k := RegisteredFirst(c.remote, c.deferred, c.localId, id);
      assert FirstDeferred(c, id, k);
    }
  }

  predicate FirstDeferred(c: Client, id: EntityID, k: int) {
    && 0 <= k < |c.deferred| && c.deferred[k].id == id && c.deferred[k].owner != c.localId
    && forall j :: 0 <= j < k ==> c.deferred[j].id != id || c.deferred[j].owner == c.localId
  }

  lemma {:induction false} RegisteredFirst(remote: map<EntityID, PlayerID>, ds: seq<Deferred>, localId: PlayerID, id: EntityID) returns (k: nat)
    requires id !in remote && id in RegisterAll(remote, ds, localId)
    ensures k < |ds| && ds[k].id == id && ds[k].owner != localId && RegisterAll(remote, ds, localId)[id] == ds[k].owner
    ensures forall j :: 0 <= j < k ==> ds[j].id != id || ds[j].owner == localId
  {
    var front, n := ds[..|ds| - 1], |ds| - 1;
    if id in RegisterAll(remote, front, localId) {
      k := RegisteredFirst(remote, front, localId, id);
    } else {
      k := n;
      forall j | 0 <= j < n ensures ds[j].id != id || ds[j].owner == localId {
        RegisterAllKeys(remote, front, localId, id);
        assert front[j] == ds[j];
      }
    }
  }

  /** The id was registered at this point and nothing has unregistered it since. */
  ghost predicate StillRegistered(c: Client, h: seq<Happening>, i: nat, id: EntityID)
    requires i < |h|
  {
    Registers(After(c, h[..i]), h[i], id) && KeptFrom(c, h, i + 1, id)
  }

  ghost predicate KeptFrom(c: Client, h: seq<Happening>, a: nat, id: EntityID) {
    forall k :: a <= k < |h| ==> !Unregisters(After(c, h[..k]), h[k], id)
  }

  lemma KeptOneMore(c: Client, h: seq<Happening>, a: nat, id: EntityID)
    requires h != [] && a < |h|
    ensures KeptFrom(c, h, a, id) <==>
      KeptFrom(c, h[..|h| - 1], a, id) && !Unregisters(After(c, h[..|h| - 1]), h[|h| - 1], id)
  {
    hide After, Unregisters;
    var front := h[..|h| - 1];
    assert forall k :: 0 <= k <= |front| ==> front[..k] == h[..k];
    if KeptFrom(c, h, a, id) {
      forall k | a <= k < |front| ensures !Unregisters(After(c, front[..k]), front[k], id) {
        assert front[..k] == h[..k] && !Unregisters(After(c, h[..k]), h[k], id);
      }
    }
    if KeptFrom(c, front, a, id) && !Unregisters(After(c, front), h[|h| - 1], id) {
      forall k | a <= k < |h| ensures !Unregisters(After(c, h[..k]), h[k], id) {
        assert k < |front| ==> front[..k] == h[..k] && !Unregisters(After(c, front[..k]), front[k], id);
        assert k == |front| ==> h[..k] == front;
      }
    }
  }

  lemma StillOneMore(c: Client, h: seq<Happening>, i: nat, id: EntityID)
    requires h != [] && i < |h| - 1
    ensures StillRegistered(c, h, i, id) <==>
      StillRegistered(c, h[..|h| - 1], i, id) && !Unregisters(After(c, h[..|h| - 1]), h[|h| - 1], id)
  {
    hide After, Registers, Unregisters, KeptFrom;
    assert h[..|h| - 1][..i] == h[..i];
    KeptOneMore(c, h, i + 1, id);
  }

  ghost predicate Ever(c: Client, h: seq<Happening>, id: EntityID) {
    exists i :: 0 <= i < |h| && StillRegistered(c, h, i, id)
  }

  lemma EverOneMore(c: Client, h: seq<Happening>, id: EntityID)
    requires h != []
    ensures var n := |h| - 1;
            Ever(c, h, id) <==> Registers(After(c, h[..n]), h[n], id) ||
                                (Ever(c, h[..n], id) && !Unregisters(After(c, h[..n]), h[n], id))
  {
    var n := |h| - 1;
    assert StillRegistered(c, h, n, id) <==> Registers(After(c, h[..n]), h[n], id);
    hide StillRegistered, After, Registers, Unregisters;
    if i :| 0 <= i < n && StillRegistered(c, h, i, id) {
      StillOneMore(c, h, i, id);
    }
    if i :| 0 <= i < |h[..n]| && StillRegistered(c, h[..n], i, id) {
      StillOneMore(c, h, i, id);
    }
  }

  /** Over every log: an id is registered if and only if something registered it and nothing
      has unregistered it since (or it was there all along). */
  lemma {:induction false} RegisteredExactly(c: Client, h: seq<Happening>, id: EntityID)
    ensures id in After(c, h).remote <==> (id in c.remote && KeptFrom(c, h, 0, id)) || Ever(c, h, id)
  {
    if h != [] {
      var n := |h| - 1;
      RegisteredExactly(c, h[..n], id);
      NextRegistered(After(c, h[..n]), h[n], id);
      hide KeptFrom, Ever, Registers, Unregisters, Next;
      KeptOneMore(c, h, 0, id);
      EverOneMore(c, h, id);
    }
  }

  // ----- whose client it is, and whether its game is loaded

  predicate Acks(e: Happening) { e.Hears? && e.msg.HandshakeAck? }

  /** The id is that of the last ack. */
  lemma {:induction false} IdOfLastAck(c: Client, h: seq<Happening>, k: nat)
    requires k < |h| && Acks(h[k]) && forall j :: k < j < |h| ==> !Acks(h[j])
    ensures After(c, h).localId == h[k].msg.playerId
  {
    if k < |h| - 1 {
      IdOfLastAck(c, h[..|h| - 1], k);
    }
  }

  /** A load screen that the client takes for a load. */
  predicate Reloads(c: Client, e: Happening) { e.SaveLoads? && (c.phase.GameReady? || c.phase.MainMenu?) }

  predicate StaysLoaded(c: Client, h: seq<Happening>, a: nat) {
    forall k :: a <= k < |h| ==> !Reloads(After(c, h[..k]), h[k])
  }

  lemma StaysMore(c: Client, h: seq<Happening>, a: nat)
    requires h != [] && a <= |h| - 1
    ensures StaysLoaded(c, h, a) <==> StaysLoaded(c, h[..|h| - 1], a) && !Reloads(After(c, h[..|h| - 1]), h[|h| - 1])
  {
    hide After, Reloads;
    var front := h[..|h| - 1];
    forall k | a <= k < |front| ensures Reloads(After(c, front[..k]), front[k]) <==> Reloads(After(c, h[..k]), h[k]) {
      assert front[..k] == h[..k];
    }
  }

  lemma NextLoaded(c: Client, e: Happening)
    ensures Next(c, e).loaded <==> e.GameLoads? || (c.loaded && !Reloads(c, e))
  {
    hide RegisterAll;
  }

  predicate LoadsAt(c: Client, h: seq<Happening>, k: nat)
    requires k < |h|
  {
    h[k].GameLoads? && StaysLoaded(c, h, k + 1)
  }

  ghost predicate EverLoads(c: Client, h: seq<Happening>) { exists k :: 0 <= k < |h| && LoadsAt(c, h, k) }

  lemma LoadsMore(c: Client, h: seq<Happening>, k: nat)
    requires h != [] && k < |h|
    ensures var n := |h| - 1;
            LoadsAt(c, h, k) <==>
            if k == n then h[n].GameLoads? else LoadsAt(c, h[..n], k) && !Reloads(After(c, h[..n]), h[n])
  {
    if k == |h| - 1 {
      assert StaysLoaded(c, h, k + 1);
    } else {
      hide StaysLoaded, After, Reloads;
      StaysMore(c, h, k + 1);
    }
  }

  lemma EverLoadsMore(c: Client, h: seq<Happening>)
    requires h != []
    ensures var n := |h| - 1;
            EverLoads(c, h) <==> h[n].GameLoads? || (EverLoads(c, h[..n]) && !Reloads(After(c, h[..n]), h[n]))
  {
    hide LoadsAt, After, Reloads;
    var n := |h| - 1;
    LoadsMore(c, h, n);
    forall k: nat | k < n ensures LoadsAt(c, h, k) <==> LoadsAt(c, h[..n], k) && !Reloads(After(c, h[..n]), h[n]) {
      LoadsMore(c, h, k);
    }
    if k :| 0 <= k < |h[..n]| && LoadsAt(c, h[..n], k) {
      assert LoadsAt(c, h, k) <==> !Reloads(After(c, h[..n]), h[n]);
    }
  }

  /** The game counts as loaded exactly from the end of a load on, until the client takes a load
      screen for another. */
  lemma {:induction false} LoadedExactly(c: Client, h: seq<Happening>)
    ensures After(c, h).loaded <==> (c.loaded && StaysLoaded(c, h, 0)) || EverLoads(c, h)
  {
    if h != [] {
      var n := |h| - 1;
      LoadedExactly(c, h[..n]);
      NextLoaded(After(c, h[..n]), h[n]);
      hide StaysLoaded, EverLoads, Reloads, Next;
      StaysMore(c, h, 0);
      EverLoadsMore(c, h);
    }
  }

  // ----- when a spawn is deferred

  predicate Postpones(c: Client, e: Happening, d: Deferred) {
    e.Hears? && e.msg.EntitySpawn? && e.msg.id == d.id && e.msg.owner == d.owner != c.localId && Defers(c)
  }

  /** Not all players have been declared ready from this point on. */
  predicate Waiting(h: seq<Happening>, a: nat) { forall k :: a <= k < |h| ==> h[k] != Hears(AllPlayersReady) }

  ghost predicate PostponedAt(c: Client, h: seq<Happening>, j: nat, d: Deferred)
    requires j < |h|
  {
    Postpones(After(c, h[..j]), h[j], d) && Waiting(h, j + 1)
  }

  ghost predicate Postponed(c: Client, h: seq<Happening>, d: Deferred) {
    exists j :: 0 <= j < |h| && PostponedAt(c, h, j, d)
  }

  lemma NextDeferred(c: Client, e: Happening, d: Deferred)
    ensures d in Next(c, e).deferred <==> e != Hears(AllPlayersReady) && (Postpones(c, e, d) || d in c.deferred)
  {
    hide RegisterAll;
  }

  lemma PostponedOneMore(c: Client, h: seq<Happening>, d: Deferred)
    requires h != []
    ensures var n := |h| - 1;
            Postponed(c, h, d) <==> Postpones(After(c, h[..n]), h[n], d) ||
                                    (Postponed(c, h[..n], d) && h[n] != Hears(AllPlayersReady))
  {
    var n := |h| - 1;
    hide After, Postpones;
    forall j | 0 <= j < n
      ensures PostponedAt(c, h, j, d) <==> PostponedAt(c, h[..n], j, d) && h[n] != Hears(AllPlayersReady)
    {
      assert h[..n][..j] == h[..j];
      assert forall k :: 0 <= k < n ==> h[..n][k] == h[k];
    }
    assert PostponedAt(c, h, n, d) <==> Postpones(After(c, h[..n]), h[n], d);
    if j :| 0 <= j < |h[..n]| && PostponedAt(c, h[..n], j, d) {
      assert PostponedAt(c, h, j, d) <==> h[n] != Hears(AllPlayersReady);
    }
  }

  /** Over every log: a spawn is deferred if and only if it arrived too early and the players
      have not been declared ready since. */
  lemma {:induction false} DeferredExactly(c: Client, h: seq<Happening>, d: Deferred)
    ensures d in After(c, h).deferred <==> (d in c.deferred && Waiting(h, 0)) || Postponed(c, h, d)
  {
    if h != [] {
      var n := |h| - 1;
      DeferredExactly(c, h[..n], d);
      NextDeferred(After(c, h[..n]), h[n], d);
      PostponedOneMore(c, h, d);
      hide Next, Postponed, Postpones;
      assert forall k :: 0 <= k < n ==> h[..n][k] == h[k];
    }
  }

  // ----- ghosts

  function DeferredIds(ds: seq<Deferred>): set<EntityID> { set k | 0 <= k < |ds| :: ds[k].id }

  /** Registered, or waiting to be. */
  function Known(c: Client): set<EntityID> { c.remote.Keys + DeferredIds(c.deferred) }

  /** What the messages of the current session say. */
  function See(v: View, e: Happening): View {
    match e
    case Hears(m) => Observe(v, m)
    case Disconnects => map[]
    case _ => v
  }

  function Seen(v: View, h: seq<Happening>): View {
    if h == [] then v else See(Seen(v, h[..|h| - 1]), h[|h| - 1])
  }

  /** A removal that reaches the client while the entity is still deferred, or registered with
      the game not loaded; or a disconnect, which leaves the deferred spawns behind. */
  predicate Missed(c: Client, e: Happening) {
    match e
    case Hears(m) =>
      (m.EntityDespawn? || m.BuildDestroyed?) && (m.id in DeferredIds(c.deferred) || (!c.loaded && m.id in c.remote))
    case Disconnects => c.deferred != []
    case _ => false
  }

  lemma DeferMore(ds: seq<Deferred>, d: Deferred)
    ensures DeferredIds(ds + [d]) == DeferredIds(ds) + {d.id}
  {
    assert (ds + [d])[|ds|] == d;
    forall x | x in DeferredIds(ds) ensures x in DeferredIds(ds + [d]) {
      var k :| 0 <= k < |ds| && ds[k].id == x;
      assert (ds + [d])[k].id == x;
    }
  }

  lemma ReadyKnown(c: Client)
    ensures Known(Hear(c, AllPlayersReady)) <= Known(c)
  {
    forall id | id in Known(Hear(c, AllPlayersReady)) ensures id in Known(c) {
      RegisterAllKeys(c.remote, c.deferred, c.localId, id);
    }
  }

  lemma HearGhosts(c: Client, m: Msg, v: View)
    requires Known(c) <= v.Keys
    ensures Known(Hear(c, m)) <= Observe(v, m).Keys <==> !Missed(c, Hears(m))
  {
    hide RegisterAll, DeferredIds;
    match m
    case EntitySpawn(id, owner, _, _, _, _, _, _, _, _) =>
      DeferMore(c.deferred, Deferred(id, owner));
    case AllPlayersReady =>
      ReadyKnown(c);
    case _ =>
  }

  lemma NoneDeferred(ds: seq<Deferred>)
    ensures DeferredIds(ds) == {} <==> ds == []
  {
    if ds != [] {
      assert ds[0].id in DeferredIds(ds);
    }
  }

  lemma NextGhosts(c: Client, e: Happening, v: View)
    requires Known(c) <= v.Keys
    ensures Known(Next(c, e)) <= See(v, e).Keys <==> !Missed(c, e)
  {
    NoneDeferred(c.deferred);
    hide Hear, DeferredIds, Observe;
    if e.Hears? {
      HearGhosts(c, e.msg, v);
    }
  }

  /** Whatever the client has registered or deferred after this log is in its view. */
  ghost predicate PointFree(c: Client, v: View, h: seq<Happening>) {
    Known(After(c, h)) <= Seen(v, h).Keys
  }

  ghost predicate GhostFree(c: Client, v: View, h: seq<Happening>) {
    forall i :: 0 <= i <= |h| ==> PointFree(c, v, h[..i])
  }

  ghost predicate NeverMissed(c: Client, h: seq<Happening>) {
    forall k :: 0 <= k < |h| ==> !Missed(After(c, h[..k]), h[k])
  }

  lemma GhostFreeFront(c: Client, v: View, h: seq<Happening>)
    requires h != []
    ensures GhostFree(c, v, h) <==> GhostFree(c, v, h[..|h| - 1]) && Known(After(c, h)) <= Seen(v, h).Keys
  {
    hide PointFree;
    var front := h[..|h| - 1];
    assert h[..|h|] == h;
    forall i | 0 <= i <= |front| ensures PointFree(c, v, front[..i]) <==> PointFree(c, v, h[..i]) {
      assert front[..i] == h[..i];
    }
    assert PointFree(c, v, h) <==> Known(After(c, h)) <= Seen(v, h).Keys by {
      PointMeans(c, v, h);
    }
    if GhostFree(c, v, h) {
      assert PointFree(c, v, h[..|h|]);
      forall i | 0 <= i <= |front| ensures PointFree(c, v, front[..i]) {
        assert PointFree(c, v, h[..i]);
      }
    }
    if GhostFree(c, v, front) && PointFree(c, v, h) {
      forall i | 0 <= i <= |h| ensures PointFree(c, v, h[..i]) {
        if i < |h| {
          assert PointFree(c, v, front[..i]);
        }
      }
    }
  }

  lemma PointMeans(c: Client, v: View, h: seq<Happening>)
    ensures PointFree(c, v, h) <==> Known(After(c, h)) <= Seen(v, h).Keys
  {}

  lemma NeverMissedFront(c: Client, h: seq<Happening>)
    requires h != []
    ensures NeverMissed(c, h) <==> NeverMissed(c, h[..|h| - 1]) && !Missed(After(c, h[..|h| - 1]), h[|h| - 1])
  {
    hide After, Missed;
    var front := h[..|h| - 1];
    assert forall i :: 0 <= i <= |front| ==> front[..i] == h[..i];
    if NeverMissed(c, h) {
      forall k | 0 <= k < |front| ensures !Missed(After(c, front[..k]), front[k]) {
        assert !Missed(After(c, h[..k]), h[k]);
      }
    }
  }

  /** Exactly when there are no ghosts: over every log, whatever the client has registered or
      deferred is in its view at every point, if and only if it missed no removal. */
  lemma {:induction false} GhostFreeIff(c: Client, v: View, h: seq<Happening>)
    requires Known(c) <= v.Keys
    ensures GhostFree(c, v, h) <==> NeverMissed(c, h)
  {
    hide Known, Missed, Next, See;
    if h == [] {
      assert h[..0] == [];
    } else {
      var front := h[..|h| - 1];
      GhostFreeIff(c, v, front);
      GhostFreeFront(c, v, h);
      NeverMissedFront(c, h);
      if GhostFree(c, v, front) {
        assert front[..|front|] == front;
        assert PointFree(c, v, front[..|front|]);
        NextGhosts(After(c, front), h[|h| - 1], Seen(v, front));
      }
    }
  }

  // ----- against the server

  function Messages(h: seq<Happening>): seq<Msg> {
    if h == [] then []
    else
      var rest, last := Messages(h[..|h| - 1]), h[|h| - 1];
      if last.Hears? then rest + [last.msg] else rest
  }

  lemma {:induction false} SeenIsObserved(v: View, h: seq<Happening>)
    requires forall k :: 0 <= k < |h| ==> !h[k].Disconnects?
    ensures Seen(v, h) == Observed(v, Messages(h))
  {
    if h != [] {
      SeenIsObserved(v, h[..|h| - 1]);
      var rest, last := Messages(h[..|h| - 1]), h[|h| - 1];
      if last.Hears? {
        assert (rest + [last.msg])[..|rest|] == rest;
      }
    }
  }

  /** Ghosts are real. While a client is still loading, another player spawns an entity and
      takes it away again; the client loads, and that player reports ready as the last one.
      The client then registers the entity, which the server no longer has. */
  lemma GhostAppears(cfg: Config, s: Server, p: PlayerID, q: PlayerID, pkt: Packet, c: Client)
    requires Inv(s) && p in s.players && q in s.players && p != q && pkt.SpawnRequest? && CanSpawn(s, pkt)
    requires !s.players[p].isReady && forall r :: r in s.players && r != p ==> s.players[r].isReady
    requires c.localId == q && !c.loaded && c.remote == map[] && c.deferred == []
    ensures var f1 := Spawn(cfg, s, p, pkt);
            var f2 := Despawn(f1.server, p, s.nextEntityId, 0);
            && p in f2.server.players
            && var f3 := MarkReady(f2.server, p);
            var h := [Hears(SpawnMsg(f1.server.entities[s.nextEntityId])), Hears(EntityDespawn(s.nextEntityId, 0)),
                      GameLoads, Hears(AllPlayersReady)];
            && MessagesFor(q, f1.sends + f2.sends + f3.sends) == Messages(h)
            && s.nextEntityId !in f3.server.entities && After(c, h).loaded && s.nextEntityId in After(c, h).remote
  {
    var id := s.nextEntityId;
    var f1 := Spawn(cfg, s, p, pkt);
    var e := f1.server.entities[id];
    var f2 := Despawn(f1.server, p, id, 0);
    var f3 := MarkReady(f2.server, p);
    assert |f2.server.players| > 1 by {
      assert {p, q} <= f2.server.players.Keys;
      TwoPlayers(f2.server.players.Keys, p, q);
    }
    assert f1.sends + f2.sends + f3.sends == [ToAll(SpawnMsg(e)), ToAll(EntityDespawn(id, 0)), ToAll(AllPlayersReady)];
    ThreeBroadcasts(q, SpawnMsg(e), EntityDespawn(id, 0), AllPlayersReady);
    GhostTrace(c, SpawnMsg(e));
  }

  lemma TwoPlayers(keys: set<PlayerID>, p: PlayerID, q: PlayerID)
    requires p in keys && q in keys && p != q
    ensures |keys| > 1
  {
    assert q in keys - {p};
    assert |keys - {p}| == |keys| - 1;
  }

  lemma ThreeBroadcasts(q: PlayerID, a: Msg, b: Msg, c: Msg)
    ensures MessagesFor(q, [ToAll(a), ToAll(b), ToAll(c)]) == [a, b, c]
  {
    MessagesForConcat(q, [ToAll(a), ToAll(b)], [ToAll(c)]);
    MessagesForConcat(q, [ToAll(a)], [ToAll(b)]);
    forall m ensures MessagesFor(q, [ToAll(m)]) == [m] {
      assert [ToAll(m)][..0] == [];
    }
    assert [ToAll(a), ToAll(b), ToAll(c)] == [ToAll(a), ToAll(b)] + [ToAll(c)];
    assert [ToAll(a), ToAll(b)] == [ToAll(a)] + [ToAll(b)];
  }

  lemma GhostTrace(c: Client, m: Msg)
    requires m.EntitySpawn? && m.owner != c.localId && !c.loaded && c.remote == map[] && c.deferred == []
    ensures var h := [Hears(m), Hears(EntityDespawn(m.id, 0)), GameLoads, Hears(AllPlayersReady)];
            && Messages(h) == [m, EntityDespawn(m.id, 0), AllPlayersReady]
            && After(c, h).loaded && m.id in After(c, h).remote
  {
    hide After, Messages, Next;
    var e1, e2, e3, e4 := Hears(m), Hears(EntityDespawn(m.id, 0)), GameLoads, Hears(AllPlayersReady);
    FourHappenings(c, e1, e2, e3, e4);
    GhostSteps(c, m);
    assert Messages([e1, e2, e3, e4]) == [m] + [EntityDespawn(m.id, 0)] + [] + [AllPlayersReady];
  }

  lemma GhostSteps(c: Client, m: Msg)
    requires m.EntitySpawn? && m.owner != c.localId && !c.loaded && c.remote == map[] && c.deferred == []
    ensures var c3 := Next(Next(Next(c, Hears(m)), Hears(EntityDespawn(m.id, 0))), GameLoads);
            Next(c3, Hears(AllPlayersReady)).loaded && m.id in Next(c3, Hears(AllPlayersReady)).remote
  {
    hide RegisterAll;
    var d := Deferred(m.id, m.owner);
    assert c.deferred + [d] == [d] && [d][0] == d;
    RegisterAllKeys(map[], [d], c.localId, m.id);
  }

  function Heard(e: Happening): seq<Msg> { if e.Hears? then [e.msg] else [] }

  lemma FourHappenings(c: Client, e1: Happening, e2: Happening, e3: Happening, e4: Happening)
    ensures After(c, [e1, e2, e3, e4]) == Next(Next(Next(Next(c, e1), e2), e3), e4)
    ensures Messages([e1, e2, e3, e4]) == Heard(e1) + Heard(e2) + Heard(e3) + Heard(e4)
  {
    hide After, Messages, Next;
    OneMore(c, [], e1);
    OneMore(c, [e1], e2);
    OneMore(c, [e1, e2], e3);
    OneMore(c, [e1, e2, e3], e4);
    assert [] + [e1] == [e1] && [e1] + [e2] == [e1, e2];
    assert [e1, e2] + [e3] == [e1, e2, e3] && [e1, e2, e3] + [e4] == [e1, e2, e3, e4];
    assert [] + Heard(e1) == Heard(e1);
  }

  lemma OneMore(c: Client, h: seq<Happening>, e: Happening)
    ensures After(c, []) == c && Messages([]) == []
    ensures After(c, h + [e]) == Next(After(c, h), e)
    ensures Messages(h + [e]) == Messages(h) + Heard(e)
  {
    hide Next;
    assert (h + [e])[..|h|] == h;
  }

  // ----- departures

  function HearAll(c: Client, log: seq<Msg>): Client {
    if log == [] then c else Hear(HearAll(c, log[..|log| - 1]), log[|log| - 1])
  }

  lemma {:induction false} HearAllConcat(c: Client, x: seq<Msg>, y: seq<Msg>)
    ensures HearAll(c, x + y) == HearAll(HearAll(c, x), y)
  {
    if y == [] {
      assert x + y == x;
    } else {
      assert (x + y)[..|x + y| - 1] == x + y[..|y| - 1];
      HearAllConcat(c, x, y[..|y| - 1]);
    }
  }

  predicate Bland(m: Msg) { m.SystemMessage? || m.HostAssignment? }

  lemma BlandHear(c: Client, m: Msg)
    requires Bland(m)
    ensures Hear(c, m) == c
  {}

  lemma {:induction false} BlandHeard(c: Client, p: PlayerID, sends: seq<Send>)
    requires forall k :: 0 <= k < |sends| ==> Bland(sends[k].msg)
    ensures HearAll(c, MessagesFor(p, sends)) == c
  {
    hide Hear, Bland;
    if sends != [] {
      BlandHeard(c, p, sends[..|sends| - 1]);
      var m, last := MessagesFor(p, sends[..|sends| - 1]), sends[|sends| - 1];
      BlandHear(c, last.msg);
      assert (m + [last.msg])[..|m|] == m;
    }
  }

  lemma FarewellRegistry(pid: PlayerID, name: string, succession: seq<Send>, p: PlayerID, c: Client)
    requires p != pid && forall k :: 0 <= k < |succession| ==> Bland(succession[k].msg)
    ensures HearAll(c, MessagesFor(p, Farewell(pid, name, succession))) == Hear(c, PlayerLeft(pid))
  {
    hide Hear;
    var left, rest := [ToOthers(pid, PlayerLeft(pid))], succession + [ToAll(SystemMessage(name + " left the game"))];
    assert Farewell(pid, name, succession) == left + rest;
    MessagesForConcat(p, left, rest);
    assert left[..0] == [] && MessagesFor(p, left) == [PlayerLeft(pid)];
    assert [PlayerLeft(pid)][..0] == [];
    HearAllConcat(c, [PlayerLeft(pid)], MessagesFor(p, rest));
    BlandHeard(Hear(c, PlayerLeft(pid)), p, rest);
  }

  /** When a player leaves, the server keeps every entity; a client forgets a registered one
      if and only if its game is loaded and it attributes the entity to the leaver. */
  lemma DepartureHides(s: Server, peer: Peer, order: seq<EntityID>, heir: PlayerID, p: PlayerID, c: Client, id: EntityID)
    requires Inv(s) && Enabled(s, Leaves(peer, order, heir)) && peer in s.peers && p != s.peers[peer]
    requires id in c.remote
    ensures Disconnect(s, peer, order, heir).server.entities.Keys == s.entities.Keys
    ensures id !in HearAll(c, MessagesFor(p, Disconnect(s, peer, order, heir).sends)).remote <==>
      c.loaded && c.remote[id] == s.peers[peer]
  {
    hide MessagesFor, HearAll;
    var pid := s.peers[peer];
    var rest := s.players - {pid};
    FarewellRegistry(pid, s.players[pid].name, [], p, c);
    if pid == s.host && rest.Keys != {} {
      FarewellRegistry(pid, s.players[pid].name, Succession(heir, rest[heir].name), p, c);
    }
  }
}
