/**
 Plugin instances over their whole life: loading, starting, stopping, switching
 user or type, deleting (maubot/instance.py), with the clients and plugins they
 depend on and the management operations that guard deletions
 (maubot/client.py, maubot/loader/abc.py, maubot/management/api).

 A field of a Python object is a map from objects to values, so that aliasing
 between caches, pointers and reference sets is explicit.  Each operation runs
 to completion; how loading and starting a plugin ends is a verdict.
 */
module Lifecycle {
  import opened Wrappers
  import opened References

  datatype Row = Row(kind: Id, enabled: bool, primaryUser: Id)

  /** How `start` goes on once the dependencies are there. */
  datatype StartVerdict =
    | Raises        // `loader.load()` or the plugin's constructor raises
    | Fails         // the database or the plugin does not start: the instance is disabled
    | Starts

  /** The responses; `Raised` is an uncaught exception from plugin code, `RowInUse` one from the database. */
  datatype Answer =
    | NotFound | InUse | Deleted | RowInUse
    | TypeRequired | UserRequired | UserNotFound | TypeNotFound
    | Created | Updated | Raised | ReloadError | Done

  /** `not value` for an optional string */
  predicate Missing(x: Option<Id>) {
    x.None? || x.value == ""
  }

  /** The objects, the caches and the database tables. */
  datatype State = State(
    next: Ref,                     // the next new object
    // instances
    cache: map<Id, Ref>,
    live: set<Ref>,                // the objects in the cache
    idOf: map<Ref, Id>,
    kind: map<Ref, Id>,            // `type`
    enabled: map<Ref, bool>,
    primaryUser: map<Ref, Id>,
    loader: map<Ref, Ref>,         // no entry: None
    client: map<Ref, Ref>,
    started: set<Ref>,
    // plugin loaders and clients, with their caches
    loaders: Owners,
    idCache: map<Id, Ref>,
    clients: Owners,
    clientCache: map<Id, Ref>,
    clientsStarted: set<Ref>,
    // tables
    clientRows: set<Id>,
    instanceRows: map<Id, Row>)

  /** Cached instances are known under their own ids, and are the live ones. */
  ghost predicate CacheOfInstances(cache: map<Id, Ref>, idOf: map<Ref, Id>, live: set<Ref>) {
    && (forall k | k in cache :: cache[k] in live && cache[k] in idOf && idOf[cache[k]] == k)
    && (forall i | i in live :: i in idOf && idOf[i] in cache && cache[idOf[i]] == i)
  }

  /** Every live instance has a row that matches it. */
  ghost predicate Saved(
    live: set<Ref>, idOf: map<Ref, Id>, kind: map<Ref, Id>, enabled: map<Ref, bool>, primaryUser: map<Ref, Id>, rows: map<Id, Row>)
  {
    forall i | i in live ::
      && i in idOf && i in kind && i in enabled && i in primaryUser
      && idOf[i] in rows && rows[idOf[i]] == Row(kind[i], enabled[i], primaryUser[i])
  }

  /** The foreign key: instance rows name clients that have rows. */
  ghost predicate ForeignKey(rows: map<Id, Row>, clientRows: set<Id>) {
    forall k | k in rows :: rows[k].primaryUser in clientRows
  }

  /** New objects are new. */
  ghost predicate Allocated(next: Ref, idOf: map<Ref, Id>, pointing: set<Ref>, owners: set<Ref>) {
    && pointing <= idOf.Keys
    && (forall r | r in idOf :: r < next)
    && (forall r | r in owners :: r < next)
  }

  ghost predicate Inv(s: State) {
    && CacheOfInstances(s.cache, s.idOf, s.live)
    && Saved(s.live, s.idOf, s.kind, s.enabled, s.primaryUser, s.instanceRows)
    && ForeignKey(s.instanceRows, s.clientRows)
    && s.clientCache.Keys <= s.clientRows
    && Allocated(s.next, s.idOf, s.loader.Keys, s.loaders.Keys)
    && Allocated(s.next, s.idOf, s.client.Keys, s.clients.Keys)
    && Links(s.loader, s.kind, s.live, s.loaders, s.idCache)
    && Links(s.client, s.primaryUser, s.live, s.clients, s.clientCache)
    && s.started <= s.live && s.started <= s.loader.Keys && s.started <= s.client.Keys
  }

  const EMPTY: State := State(
    0, map[], {}, map[], map[], map[], map[], map[], map[], {}, map[], map[], map[], map[], {}, {}, map[])

  /** The instance is in the references of a loader and a client, both cached under its type and its user. */
  predicate Anchored(s: State, i: Ref) {
    && i in s.live && i in s.loader && i in s.client && i in s.kind && i in s.primaryUser
    && Registered(s.loaders, s.idCache, s.loader[i]) && i in s.loaders[s.loader[i]].references
    && s.loaders[s.loader[i]].id == s.kind[i]
    && Registered(s.clients, s.clientCache, s.client[i]) && i in s.clients[s.client[i]].references
    && s.clients[s.client[i]].id == s.primaryUser[i]
  }

  /**
   Reference graph safety: whoever is in the references of any loader or client,
   cached or not, is live and points back, so it is in at most one set of each
   kind, and that owner is still cached; and a running instance is anchored, so
   no guarded delete can have taken its plugin or its client.
   */
  lemma {:induction false} ReferenceGraph(s: State, i: Ref)
    requires Inv(s)
    ensures forall l | l in s.loaders && i in s.loaders[l].references ::
              i in s.live && i in s.loader && s.loader[i] == l && Registered(s.loaders, s.idCache, l)
    ensures forall c | c in s.clients && i in s.clients[c].references ::
              i in s.live && i in s.client && s.client[i] == c && Registered(s.clients, s.clientCache, c)
    ensures i in s.started ==> Anchored(s, i)
  {
  }

  // ---------------------------------------------------------------------
  // Single updates
  // ---------------------------------------------------------------------

  /**
   What the fields of a live instance are good for.  Every `references.remove`
   finds its element by this, and every user its client by the foreign key.
   */
  lemma {:induction false} LiveInstance(s: State, i: Ref)
    requires Inv(s) && i in s.live
    ensures i in s.idOf && i in s.kind && i in s.primaryUser && i in s.enabled && s.primaryUser[i] in s.clientRows
    ensures i in s.loader ==> Registered(s.loaders, s.idCache, s.loader[i]) && s.loaders[s.loader[i]].id == s.kind[i]
                              && i in s.loaders[s.loader[i]].references
    ensures i in s.client ==> Registered(s.clients, s.clientCache, s.client[i]) && s.clients[s.client[i]].id == s.primaryUser[i]
                              && i in s.clients[s.client[i]].references
  {
  }

  lemma {:induction false} CachedIsRegistered(s: State, k: Id)
    requires Inv(s)
    ensures k in s.clientCache ==>
              Registered(s.clients, s.clientCache, s.clientCache[k]) && s.clients[s.clientCache[k]].id == k && k in s.clientRows
    ensures k in s.idCache ==>
              Registered(s.loaders, s.idCache, s.idCache[k]) && s.loaders[s.idCache[k]].id == k
    ensures k in s.cache ==> s.cache[k] in s.live && k in s.instanceRows && s.cache[k] in s.idOf && s.idOf[s.cache[k]] == k
  {
  }

  lemma {:induction false} CachedRow(s: State, i: Ref)
    requires Inv(s) && i in s.live
    ensures i in s.idOf && s.idOf[i] in s.instanceRows && s.idOf[i] in s.cache && s.cache[s.idOf[i]] == i
    ensures i in s.primaryUser && s.instanceRows[s.idOf[i]].primaryUser == s.primaryUser[i]
  {
  }

  /** `update()` after changing fields of one instance: writing its row matches it again. */
  lemma {:induction false} RowWritten(s: State, i: Ref, kind: map<Ref, Id>, enabled: map<Ref, bool>, user: map<Ref, Id>)
    requires CacheOfInstances(s.cache, s.idOf, s.live) && i in s.live && i in s.idOf && i in kind && i in enabled && i in user
    requires Saved(s.live, s.idOf, s.kind, s.enabled, s.primaryUser, s.instanceRows)
    requires kind == s.kind || kind == s.kind[i := kind[i]]
    requires enabled == s.enabled || enabled == s.enabled[i := enabled[i]]
    requires user == s.primaryUser || user == s.primaryUser[i := user[i]]
    ensures Saved(s.live, s.idOf, kind, enabled, user, s.instanceRows[s.idOf[i] := Row(kind[i], enabled[i], user[i])])
  {
    forall j | j in s.live && j != i
      ensures s.idOf[j] != s.idOf[i] && j in kind && kind[j] == s.kind[j] && j in enabled && enabled[j] == s.enabled[j]
              && j in user && user[j] == s.primaryUser[j]
    {
    }
  }

  // `update_enabled` with the row written
  function SetEnabled(s: State, i: Ref, b: bool): State
    requires i in s.idOf && i in s.kind && i in s.primaryUser
  {
    s.(enabled := s.enabled[i := b],
       instanceRows := s.instanceRows[s.idOf[i] := Row(s.kind[i], b, s.primaryUser[i])])
  }

  lemma {:induction false} SetEnabledKeeps(s: State, i: Ref, b: bool)
    requires Inv(s) && i in s.live && i in s.idOf && i in s.kind && i in s.primaryUser && s.primaryUser[i] in s.clientRows
    ensures Inv(SetEnabled(s, i, b))
  {
    hide Links, Allocated, CacheOfInstances, Saved;
    RowWritten(s, i, s.kind, s.enabled[i := b], s.primaryUser);
  }

  // `self.loader.references.add(self)` and `self.client.references.add(self)`
  function Attach(s: State, i: Ref, l: Ref, c: Ref): State
    requires l in s.loaders && c in s.clients
  {
    s.(loader := s.loader[i := l], loaders := Add(s.loaders, l, i),
       client := s.client[i := c], clients := Add(s.clients, c, i))
  }

  lemma {:induction false} AttachInv(s: State, i: Ref, l: Ref, c: Ref)
    requires Inv(s) && i in s.live && i in s.kind && i in s.primaryUser
    requires Registered(s.loaders, s.idCache, l) && s.loaders[l].id == s.kind[i] && (i in s.loader ==> s.loader[i] == l)
    requires Registered(s.clients, s.clientCache, c) && s.clients[c].id == s.primaryUser[i] && (i in s.client ==> s.client[i] == c)
    ensures Inv(Attach(s, i, l, c))
  {
    hide Links, CacheOfInstances, Saved, ForeignKey;
    LiveInstance(s, i);
    AttachKeeps(s.loader, s.kind, s.live, s.loaders, s.idCache, i, l);
    AttachKeeps(s.client, s.primaryUser, s.live, s.clients, s.clientCache, i, c);
  }

  // The middle of `update_primary_user`: leave the old client, join the new one, save
  function SwitchClient(s: State, i: Ref, c: Ref): State
    requires i in s.idOf && i in s.kind && i in s.enabled && c in s.clients
    requires i in s.client ==> s.client[i] in s.clients && i in s.clients[s.client[i]].references
  {
    var uid := s.clients[c].id;
    s.(primaryUser := s.primaryUser[i := uid],
       clients := Add(RemoveFrom(s.clients, s.client, i), c, i),
       client := s.client[i := c],
       instanceRows := s.instanceRows[s.idOf[i] := Row(s.kind[i], s.enabled[i], uid)])
  }

  lemma {:induction false} SwitchClientInv(s: State, i: Ref, c: Ref)
    requires Inv(s) && i in s.live && i !in s.started && Registered(s.clients, s.clientCache, c)
    requires SwitchClient.requires(s, i, c)
    ensures Inv(SwitchClient(s, i, c))
  {
    hide Links, Add, RemoveFrom, CacheOfInstances, Saved;
    CachedIsRegistered(s, s.clients[c].id);
    SwitchKeeps(s.client, s.primaryUser, s.live, s.clients, s.clientCache, i, c);
    RowWritten(s, i, s.kind, s.enabled, s.primaryUser[i := s.clients[c].id]);
  }

  // The middle of `update_type`
  function SwitchLoader(s: State, i: Ref, l: Ref): State
    requires i in s.idOf && i in s.primaryUser && i in s.enabled && l in s.loaders
    requires i in s.loader ==> s.loader[i] in s.loaders && i in s.loaders[s.loader[i]].references
  {
    var k := s.loaders[l].id;
    s.(kind := s.kind[i := k],
       loaders := Add(RemoveFrom(s.loaders, s.loader, i), l, i),
       loader := s.loader[i := l],
       instanceRows := s.instanceRows[s.idOf[i] := Row(k, s.enabled[i], s.primaryUser[i])])
  }

  lemma {:induction false} SwitchLoaderInv(s: State, i: Ref, l: Ref)
    requires Inv(s) && i in s.live && i !in s.started && Registered(s.loaders, s.idCache, l)
    requires SwitchLoader.requires(s, i, l)
    ensures Inv(SwitchLoader(s, i, l))
  {
    hide Links, Add, RemoveFrom, CacheOfInstances, Saved;
    LiveInstance(s, i);
    SwitchKeeps(s.loader, s.kind, s.live, s.loaders, s.idCache, i, l);
    RowWritten(s, i, s.kind[i := s.loaders[l].id], s.enabled, s.primaryUser);
  }

  // The constructor and `postinit`: a new instance object for a row
  function Postinit(s: State, k: Id, row: Row): State {
    s.(next := s.next + 1, live := s.live + {s.next}, idOf := s.idOf[s.next := k], cache := s.cache[k := s.next],
       kind := s.kind[s.next := row.kind], enabled := s.enabled[s.next := row.enabled],
       primaryUser := s.primaryUser[s.next := row.primaryUser])
  }

  lemma {:induction false} PostinitIds(s: State, k: Id)
    requires Inv(s) && k !in s.cache
    ensures s.next !in s.idOf && s.next !in s.live && s.next !in s.loader && s.next !in s.client && s.next !in s.started
    ensures CacheOfInstances(s.cache[k := s.next], s.idOf[s.next := k], s.live + {s.next})
  {
    hide Links, ForeignKey, Saved;
  }

  lemma {:induction false} PostinitSaved(s: State, k: Id)
    requires s.next !in s.live && k in s.instanceRows
    requires Saved(s.live, s.idOf, s.kind, s.enabled, s.primaryUser, s.instanceRows)
    ensures var t := Postinit(s, k, s.instanceRows[k]);
            Saved(t.live, t.idOf, t.kind, t.enabled, t.primaryUser, t.instanceRows)
  {
  }

  lemma {:induction false} PostinitInv(s: State, k: Id)
    requires Inv(s) && k !in s.cache && k in s.instanceRows
    ensures Inv(Postinit(s, k, s.instanceRows[k]))
  {
    hide Links, ForeignKey, Saved, CacheOfInstances;
    var row := s.instanceRows[k];
    PostinitIds(s, k);
    PostinitSaved(s, k);
    BirthKeeps(s.loader, s.kind, s.live, s.loaders, s.idCache, s.next, row.kind);
    BirthKeeps(s.client, s.primaryUser, s.live, s.clients, s.clientCache, s.next, row.primaryUser);
  }

  // `insert`: the foreign key accepts only users with a client row
  lemma {:induction false} InsertInv(s: State, k: Id, row: Row)
    requires Inv(s) && k !in s.instanceRows && row.primaryUser in s.clientRows
    ensures Inv(s.(instanceRows := s.instanceRows[k := row]))
  {
    hide Links, Allocated, CacheOfInstances;
  }

  // `PluginInstance.delete`
  function DeleteInstance(s: State, i: Ref): State
    requires i in s.idOf
    requires i in s.loader ==> s.loader[i] in s.loaders && i in s.loaders[s.loader[i]].references
    requires i in s.client ==> s.client[i] in s.clients && i in s.clients[s.client[i]].references
  {
    s.(loaders := RemoveFrom(s.loaders, s.loader, i), clients := RemoveFrom(s.clients, s.client, i),
       live := s.live - {i}, cache := s.cache - {s.idOf[i]}, instanceRows := s.instanceRows - {s.idOf[i]})
  }

  lemma {:induction false} DeleteInstanceInv(s: State, i: Ref)
    requires Inv(s) && i in s.live && i !in s.started
    requires DeleteInstance.requires(s, i)
    ensures Inv(DeleteInstance(s, i))
  {
    hide Links;
    DeathKeeps(s.loader, s.kind, s.live, s.loaders, s.idCache, i);
    DeathKeeps(s.client, s.primaryUser, s.live, s.clients, s.clientCache, i);
  }

  // A client object for a row, or a new client with its row
  function NewClient(s: State, uid: Id): State {
    s.(next := s.next + 1, clients := s.clients[s.next := Owner(uid, {})], clientCache := s.clientCache[uid := s.next],
       clientRows := s.clientRows + {uid})
  }

  lemma {:induction false} NewClientInv(s: State, uid: Id)
    requires Inv(s) && uid !in s.clientCache
    ensures Inv(NewClient(s, uid))
    ensures Registered(NewClient(s, uid).clients, NewClient(s, uid).clientCache, s.next)
  {
    hide Links, CacheOfInstances, Saved;
    NewOwnerKeeps(s.client, s.primaryUser, s.live, s.clients, s.clientCache, s.next, uid);
  }

  // A plugin that has just been preloaded
  function NewLoader(s: State, k: Id): State {
    s.(next := s.next + 1, loaders := s.loaders[s.next := Owner(k, {})], idCache := s.idCache[k := s.next])
  }

  lemma {:induction false} NewLoaderInv(s: State, k: Id)
    requires Inv(s) && k !in s.idCache
    ensures Inv(NewLoader(s, k))
  {
    hide Links, CacheOfInstances, Saved, ForeignKey;
    NewOwnerKeeps(s.loader, s.kind, s.live, s.loaders, s.idCache, s.next, k);
  }

  lemma {:induction false} DropLoaderInv(s: State, l: Ref)
    requires Inv(s) && Registered(s.loaders, s.idCache, l) && s.loaders[l].references == {}
    ensures Inv(s.(idCache := s.idCache - {s.loaders[l].id}))
  {
    hide Links, CacheOfInstances, Saved, ForeignKey, Allocated;
    DropOwnerKeeps(s.loader, s.kind, s.live, s.loaders, s.idCache, l);
  }

  /** The row of a deleted client goes unless an instance row names it. */
  function ClientRowsAfterDelete(s: State, uid: Id): set<Id> {
    if exists k :: k in s.instanceRows && s.instanceRows[k].primaryUser == uid then s.clientRows
    else s.clientRows - {uid}
  }

  lemma {:induction false} DropClientInv(s: State, c: Ref)
    requires Inv(s) && Registered(s.clients, s.clientCache, c) && s.clients[c].references == {}
    ensures var uid := s.clients[c].id;
            Inv(s.(clientCache := s.clientCache - {uid}, clientRows := ClientRowsAfterDelete(s, uid)))
  {
    hide Links, CacheOfInstances, Saved, Allocated;
    DropOwnerKeeps(s.client, s.primaryUser, s.live, s.clients, s.clientCache, c);
  }

  lemma {:induction false} StartedInv(s: State, i: Ref)
    requires Inv(s) && i in s.live
    ensures i in s.loader && i in s.client ==> Inv(s.(started := s.started + {i}))
    ensures Inv(s.(started := s.started - {i}))
  {
    hide Links, CacheOfInstances, Saved, Allocated, ForeignKey;
  }

  // ---------------------------------------------------------------------
  // What operations leave alone
  // ---------------------------------------------------------------------

  function At<T>(m: map<Ref, T>, j: Ref): Option<T> {
    if j in m then Some(m[j]) else None
  }

  /** All there is to see of one instance. */
  datatype View = View(
    kind: Option<Id>, primaryUser: Option<Id>, enabled: Option<bool>, loader: Option<Ref>, client: Option<Ref>, started: bool)

  function ViewOf(s: State, j: Ref): View {
    View(At(s.kind, j), At(s.primaryUser, j), At(s.enabled, j), At(s.loader, j), At(s.client, j), j in s.started)
  }

  /** No instance, plugin or client row comes or goes; clients may get objects. */
  ghost predicate Steady(s: State, t: State) {
    && t.live == s.live && t.cache == s.cache && t.idOf == s.idOf && t.idCache == s.idCache
    && t.clientRows == s.clientRows && t.clientsStarted == s.clientsStarted && t.instanceRows.Keys == s.instanceRows.Keys
  }

  /** Instances outside `todo` look the same. */
  ghost predicate OthersKept(s: State, t: State, todo: set<Ref>) {
    forall j | j !in todo :: ViewOf(t, j) == ViewOf(s, j)
  }

  lemma {:induction false} AttachFrame(s: State, t: State, i: Ref, l: Ref, c: Ref)
    requires t == s.(next := t.next, clients := t.clients, clientCache := t.clientCache) && l in t.loaders && c in t.clients
    ensures Steady(s, Attach(t, i, l, c)) && OthersKept(s, Attach(t, i, l, c), {i})
    ensures ViewOf(Attach(t, i, l, c), i) == ViewOf(s, i).(loader := Some(l), client := Some(c))
  {
  }

  lemma {:induction false} OthersKeptTwice(s: State, t: State, u: State, a: set<Ref>, b: set<Ref>)
    requires OthersKept(s, t, a) && OthersKept(t, u, b)
    ensures OthersKept(s, u, a + b)
  {
    forall j | j !in a + b
      ensures ViewOf(u, j) == ViewOf(s, j)
    {
      assert ViewOf(t, j) == ViewOf(s, j);
    }
  }

  lemma {:induction false} SwitchClientFrame(s: State, t: State, i: Ref, c: Ref)
    requires t == s.(next := t.next, clients := t.clients, clientCache := t.clientCache, started := s.started - {i})
    requires SwitchClient.requires(t, i, c) && s.idOf[i] in s.instanceRows
    ensures var u := SwitchClient(t, i, c);
            Steady(s, u) && OthersKept(s, u, {i})
            && ViewOf(u, i) == ViewOf(s, i).(primaryUser := Some(t.clients[c].id), client := Some(c), started := false)
  {
  }

  lemma {:induction false} SwitchLoaderFrame(s: State, t: State, i: Ref, l: Ref)
    requires t == s.(started := s.started - {i})
    requires SwitchLoader.requires(t, i, l) && s.idOf[i] in s.instanceRows
    ensures var u := SwitchLoader(t, i, l);
            Steady(s, u) && OthersKept(s, u, {i})
            && ViewOf(u, i) == ViewOf(s, i).(kind := Some(t.loaders[l].id), loader := Some(l), started := false)
  {
  }

  // ---------------------------------------------------------------------
  // Starts and updates, as functions of what the owner of an instance sees of it
  // ---------------------------------------------------------------------

  datatype Status = Status(kind: Option<Id>, user: Option<Id>, enabled: bool, started: bool)

  /** Where a request has got to, and whether plugin code has ended it with an exception. */
  datatype Progress = Progress(status: Status, raised: bool)

  function StatusOf(w: View): Status {
    Status(w.kind, w.primaryUser, w.enabled.Some? && w.enabled.value, w.started)
  }

  predicate Known(ids: map<Id, Ref>, kind: Option<Id>) {
    kind.Some? && kind.value in ids
  }

  /** `start`: a disabled or running instance is left alone, one without a plugin is disabled. */
  function StartStage(ids: map<Id, Ref>, st: Status, v: StartVerdict): Progress {
    if st.started || !st.enabled then Progress(st, false)
    else if !Known(ids, st.kind) || v.Fails? then Progress(st.(enabled := false), false)
    else Progress(st.(started := v.Starts?), v.Raises?)
  }

  /** What comes of a start, field by field. */
  lemma {:induction false} StartExactly(ids: map<Id, Ref>, st: Status, v: StartVerdict)
    ensures var r := StartStage(ids, st, v);
            && r.status.kind == st.kind && r.status.user == st.user
            && (r.status.started <==> st.started || (st.enabled && Known(ids, st.kind) && v.Starts?))
            && (r.status.enabled <==> st.enabled && (st.started || (Known(ids, st.kind) && !v.Fails?)))
            && (r.raised <==> !st.started && st.enabled && Known(ids, st.kind) && v.Raises?)
  {
  }

  function UserStage(ids: map<Id, Ref>, st: Status, user: Option<Id>, v: StartVerdict): Progress {
    if user.None? || user == st.user then Progress(st, false)
    else StartStage(ids, st.(user := user, started := false), v)
  }

  function StartedStage(ids: map<Id, Ref>, st: Status, started: Option<bool>, v: StartVerdict): Progress {
    if started.None? then Progress(st, false)
    else if started.value then StartStage(ids, st, v)
    else Progress(st.(started := false), false)
  }

  /** A type that no plugin has is passed over in silence. */
  function KindStage(ids: map<Id, Ref>, st: Status, kind: Option<Id>, v: StartVerdict): Progress {
    if kind == st.kind || !Known(ids, kind) then Progress(st, false)
    else StartStage(ids, st.(kind := kind, started := false), v)
  }

  /** `start` gets as far as running plugin code. */
  predicate Ready(ids: map<Id, Ref>, st: Status) {
    !st.started && st.enabled && Known(ids, st.kind)
  }

  /** What `start` does to the pointers: those that are there stay, and both are there before plugin code runs. */
  predicate PointersAfter(ids: map<Id, Ref>, w: View, w': View) {
    && (w.loader.Some? ==> w'.loader == w.loader) && (w.client.Some? ==> w'.client == w.client)
    && (Ready(ids, StatusOf(w)) ==> w'.loader.Some? && w'.client.Some?)
  }

  /** What `start` makes of an instance. */
  predicate AfterStart(ids: map<Id, Ref>, w: View, w': View, v: StartVerdict) {
    StatusOf(w') == StartStage(ids, StatusOf(w), v).status && PointersAfter(ids, w, w')
  }

  lemma {:induction false} UserSwitched(
    ids: map<Id, Ref>, w: View, w1: View, w2: View, user: Option<Id>, c: Ref, raised: bool, v: StartVerdict)
    requires user.Some? && user != w.primaryUser && w1 == w.(primaryUser := user, client := Some(c), started := false)
    requires Progress(StatusOf(w2), raised) == StartStage(ids, StatusOf(w1), v) && PointersAfter(ids, w1, w2)
    ensures w2.client == Some(c) && w1 == w.(primaryUser := user, client := w2.client, started := false)
    ensures Progress(StatusOf(w2), raised) == UserStage(ids, StatusOf(w), user, v)
  {
    hide StartStage, Ready;
  }

  lemma {:induction false} UserKept(ids: map<Id, Ref>, w: View, user: Option<Id>, v: StartVerdict)
    requires user.None? || user == w.primaryUser
    ensures Progress(StatusOf(w), false) == UserStage(ids, StatusOf(w), user, v)
  {
  }

  lemma {:induction false} KindSwitched(
    ids: map<Id, Ref>, w: View, w1: View, w2: View, kind: Option<Id>, l: Ref, raised: bool, v: StartVerdict)
    requires Known(ids, kind) && kind != w.kind && w1 == w.(kind := kind, loader := Some(l), started := false)
    requires Progress(StatusOf(w2), raised) == StartStage(ids, StatusOf(w1), v)
    ensures Progress(StatusOf(w2), raised) == KindStage(ids, StatusOf(w), kind, v)
  {
    hide StartStage;
  }

  lemma {:induction false} KindKept(ids: map<Id, Ref>, w: View, kind: Option<Id>, v: StartVerdict)
    requires kind == w.kind || !Known(ids, kind)
    ensures Progress(StatusOf(w), false) == KindStage(ids, StatusOf(w), kind, v)
  {
  }

  /** `start` on an instance that runs, is disabled, or has no plugin. */
  lemma {:induction false} StartsNothing(ids: map<Id, Ref>, w: View, v: StartVerdict)
    requires w.enabled.Some?
    ensures w.started || !w.enabled.value ==>
              Progress(StatusOf(w), false) == StartStage(ids, StatusOf(w), v) && PointersAfter(ids, w, w)
    ensures !w.started && w.enabled.value && !Known(ids, w.kind) ==>
              var w' := w.(enabled := Some(false));
              Progress(StatusOf(w'), false) == StartStage(ids, StatusOf(w), v) && PointersAfter(ids, w, w')
  {
  }

  /** `start` on an instance whose dependencies are there: `w1` is what loading has made of `w`. */
  lemma {:induction false} StartsLoaded(ids: map<Id, Ref>, w: View, w1: View, v: StartVerdict)
    requires Ready(ids, StatusOf(w)) && w1 == w.(loader := w1.loader, client := w1.client)
    requires w1.loader.Some? && w1.client.Some? && (w.loader.Some? ==> w1.loader == w.loader) && (w.client.Some? ==> w1.client == w.client)
    ensures var w2 := match v case Raises => w1 case Fails => w1.(enabled := Some(false)) case Starts => w1.(started := true);
            Progress(StatusOf(w2), v.Raises?) == StartStage(ids, StatusOf(w), v) && PointersAfter(ids, w, w2)
  {
  }

  /** Starting what runs already does nothing. */
  lemma {:induction false} StartsOnce(ids: map<Id, Ref>, w: View, v: StartVerdict)
    ensures w.started ==> StartStage(ids, StatusOf(w), v) == Progress(StatusOf(w), false) && PointersAfter(ids, w, w)
  {
  }

  lemma {:induction false} KeptAsItIs(s: State)
    ensures Steady(s, s)
    ensures forall todo :: OthersKept(s, s, todo)
  {
  }

  lemma {:induction false} SteadyLive(s: State, t: State)
    requires Steady(s, t)
    ensures s.live == t.live && s.idCache == t.idCache
  {
  }

  lemma {:induction false} ThenKept(s: State, t: State, u: State, i: Ref)
    requires Steady(s, t) && OthersKept(s, t, {i}) && Steady(t, u) && OthersKept(t, u, {i})
    ensures Steady(s, u) && OthersKept(s, u, {i}) && s.idCache == t.idCache == u.idCache && s.live == u.live
  {
    OthersKeptTwice(s, t, u, {i}, {i});
    assert {i} + {i} == {i};
  }

  lemma {:induction false} StartedFrame(s: State, i: Ref)
    ensures var t := s.(started := s.started + {i});
            Steady(s, t) && OthersKept(s, t, {i}) && ViewOf(t, i) == ViewOf(s, i).(started := true)
    ensures var t := s.(started := s.started - {i});
            Steady(s, t) && OthersKept(s, t, {i}) && ViewOf(t, i) == ViewOf(s, i).(started := false)
    ensures ViewOf(s, i).started == (i in s.started)
  {
  }

  lemma {:induction false} InsertPostinit(s: State, k: Id, row: Row)
    requires Inv(s) && k !in s.instanceRows && row.primaryUser in s.clientRows
    ensures Inv(Postinit(s.(instanceRows := s.instanceRows[k := row]), k, row))
    ensures k !in s.cache && s.next !in s.live && s.next !in s.loader && s.next !in s.client && s.next !in s.started
  {
    hide Links, Saved, ForeignKey;
    InsertInv(s, k, row);
    CachedIsRegistered(s, k);
    PostinitIds(s, k);
    PostinitInv(s.(instanceRows := s.instanceRows[k := row]), k);
  }

  lemma {:induction false} InsertFrame(s: State, t: State, k: Id, row: Row)
    requires t == Postinit(s.(instanceRows := s.instanceRows[k := row]), k, row)
    ensures OthersKept(s, t, {s.next})
  {
  }

  /** Which answer a request for a new instance gets. */
  function CreationAnswer(s: State, kind: Option<Id>, user: Option<Id>, enabled: bool, v: StartVerdict): Answer {
    if Missing(kind) then TypeRequired
    else if Missing(user) then UserRequired
    else if user.value !in s.clientRows then UserNotFound
    else if kind.value !in s.idCache then TypeNotFound
    else if enabled && v.Raises? then Raised
    else Created
  }

  /** The same, answer by answer. */
  lemma {:induction false} CreationAnswers(s: State, kind: Option<Id>, user: Option<Id>, enabled: bool, v: StartVerdict)
    ensures var a := CreationAnswer(s, kind, user, enabled, v);
            var given := kind.Some? && kind.value != "" && user.Some? && user.value != "";
            && (a.TypeRequired? <==> kind.None? || kind.value == "")
            && (a.UserRequired? <==> kind.Some? && kind.value != "" && (user.None? || user.value == ""))
            && (a.UserNotFound? <==> given && user.value !in s.clientRows)
            && (a.TypeNotFound? <==> given && user.value in s.clientRows && kind.value !in s.idCache)
            && (a.Raised? <==> given && user.value in s.clientRows && kind.value in s.idCache && enabled && v == Raises)
            && (a.Created? <==> given && user.value in s.clientRows && kind.value in s.idCache && !(enabled && v == Raises))
  {
  }

  /** What `get` will show of a saved instance: the cached object, or a new one made from its row. */
  function Before(s: State, k: Id): View
    requires k in s.instanceRows
  {
    if k in s.cache then ViewOf(s, s.cache[k])
    else
      var row := s.instanceRows[k];
      View(Some(row.kind), Some(row.primaryUser), Some(row.enabled), None, None, false)
  }

  /** A new instance object, before anything is looked up. */
  function Fresh(kind: Option<Id>, user: Option<Id>): View {
    View(kind, user, Some(true), None, None, false)
  }

  /** From a fresh instance to one with both references, running if it is to be. */
  predicate BroughtUp(ids: map<Id, Ref>, w: View, w': View, enabled: bool, v: StartVerdict) {
    && w'.kind == w.kind && w'.primaryUser == w.primaryUser && w'.client.Some?
    && w.kind.Some? && w.kind.value in ids && w'.loader == Some(ids[w.kind.value])
    && w'.enabled == Some(enabled && !v.Fails?) && w'.started == (enabled && v.Starts?)
  }

  ghost predicate NewInstance(s: State, t: State, k: Id, w: View, enabled: bool, v: StartVerdict) {
    && k !in s.cache && k in t.cache && t.cache == s.cache[k := t.cache[k]]
    && t.cache[k] !in s.live && t.live == s.live + {t.cache[k]} && OthersKept(s, t, {t.cache[k]})
    && BroughtUp(t.idCache, w, ViewOf(t, t.cache[k]), enabled, v)
  }

  lemma {:induction false} NewInstanceSince(s: State, t: State, u: State, k: Id, w: View, enabled: bool, v: StartVerdict)
    requires t == s.(next := t.next, clients := t.clients, clientCache := t.clientCache) && NewInstance(t, u, k, w, enabled, v)
    ensures NewInstance(s, u, k, w, enabled, v)
  {
    forall j
      ensures ViewOf(s, j) == ViewOf(t, j)
    {
    }
  }

  lemma {:induction false} ThenBroughtUp(s: State, t: State, u: State, i: Ref)
    requires OthersKept(s, t, {i}) && Steady(t, u) && OthersKept(t, u, {i})
    ensures OthersKept(s, u, {i}) && t.live == u.live && t.cache == u.cache && t.idCache == u.idCache
  {
    OthersKeptTwice(s, t, u, {i}, {i});
    assert {i} + {i} == {i};
  }

  lemma {:induction false} GetKeepsOthers(s: State, t: State, k: Id, i: Ref)
    requires k in s.instanceRows && (t == s || (i == s.next && t == Postinit(s, k, s.instanceRows[k])))
    ensures OthersKept(s, t, {i}) && t.idCache == s.idCache && t.clientRows == s.clientRows
  {
  }

  /** The instance cached under an id, if any. */
  function Cached(s: State, k: Id): set<Ref> {
    if k in s.cache then {s.cache[k]} else {}
  }

  /** The body of an update request; `newConfig`: it has a configuration text that differs from the saved one. */
  datatype Data = Data(
    user: Option<Id>, enabled: Option<bool>, newConfig: bool, started: Option<bool>, kind: Option<Id>)

  /** How the plugin behaves at each turn; `configRaises`: its handler of a new configuration raises. */
  datatype Verdicts = Verdicts(user: StartVerdict, configRaises: bool, started: StartVerdict, kind: StartVerdict)

  /** `update_config`: a running plugin is told about its new configuration. */
  predicate ConfigRaises(st: Status, d: Data, v: Verdicts) {
    d.newConfig && st.started && v.configRaises
  }

  /** User, enabled flag and configuration. */
  function FirstUpdates(ids: map<Id, Ref>, st: Status, d: Data, v: Verdicts): Progress {
    var first := UserStage(ids, st, d.user, v.user);
    if first.raised then first
    else
      var saved := if d.enabled.Some? then first.status.(enabled := d.enabled.value) else first.status;
      Progress(saved, ConfigRaises(saved, d, v))
  }

  /** Started flag and type. */
  function LastUpdates(ids: map<Id, Ref>, st: Status, d: Data, v: Verdicts): Progress {
    var first := StartedStage(ids, st, d.started, v.started);
    if first.raised then first else KindStage(ids, first.status, d.kind, v.kind)
  }

  /** `_update_instance` for a user that has a client: stage by stage, the first exception ends it. */
  function UpdateOf(ids: map<Id, Ref>, st: Status, d: Data, v: Verdicts): Progress {
    var first := FirstUpdates(ids, st, d, v);
    if first.raised then first else LastUpdates(ids, first.status, d, v)
  }

  /** The user asked for is another one, so that the instance is stopped and started again. */
  predicate SwitchesUser(st: Status, d: Data) {
    d.user.Some? && d.user != st.user
  }

  /** The instance runs once its user is settled. */
  predicate RunsAsUser(ids: map<Id, Ref>, st: Status, d: Data, v: Verdicts) {
    if SwitchesUser(st, d) then st.enabled && Known(ids, st.kind) && v.user.Starts? else st.started
  }

  /** The enabled flag once it has been written. */
  predicate EnabledAsAsked(ids: map<Id, Ref>, st: Status, d: Data, v: Verdicts) {
    if d.enabled.Some? then d.enabled.value
    else st.enabled && !(SwitchesUser(st, d) && (!Known(ids, st.kind) || v.user.Fails?))
  }

  /** The instance is asked to start and does not run. */
  predicate StartsExplicitly(ids: map<Id, Ref>, st: Status, d: Data, v: Verdicts) {
    d.started.Some? && d.started.value && !RunsAsUser(ids, st, d, v)
  }

  /** The enabled flag once the instance has been started, if that was asked for. */
  predicate EnabledAfterStart(ids: map<Id, Ref>, st: Status, d: Data, v: Verdicts) {
    && EnabledAsAsked(ids, st, d, v)
    && !(StartsExplicitly(ids, st, d, v) && (!Known(ids, st.kind) || v.started.Fails?))
  }

  predicate SwitchesKind(ids: map<Id, Ref>, st: Status, d: Data) {
    d.kind != st.kind && Known(ids, d.kind)
  }

  /**
   What a completed update leaves, field by field.  The user is the one asked for,
   the type too if there is such a plugin and otherwise the old one.  Enabled is
   what was asked for, or else what the switch of user left of it, unless one of
   the later starts finds no plugin or fails.  Running is what the last of the
   steps that stop or start the instance makes of it.
   */
  lemma {:induction false} UpdateHonoured(ids: map<Id, Ref>, st: Status, d: Data, v: Verdicts)
    requires !UpdateOf(ids, st, d, v).raised
    ensures var r := UpdateOf(ids, st, d, v).status;
            && r.user == (if d.user.Some? then d.user else st.user)
            && r.kind == (if Known(ids, d.kind) then d.kind else st.kind)
            && (r.enabled <==>
                  EnabledAfterStart(ids, st, d, v) && !(SwitchesKind(ids, st, d) && v.kind.Fails?))
            && (r.started <==>
                  if SwitchesKind(ids, st, d) then EnabledAfterStart(ids, st, d, v) && v.kind.Starts?
                  else if d.started.None? then RunsAsUser(ids, st, d, v)
                  else d.started.value &&
                       (RunsAsUser(ids, st, d, v) || (EnabledAsAsked(ids, st, d, v) && Known(ids, st.kind) && v.started.Starts?)))
  {
  }

  /** Exactly when plugin code ends an update with an exception: at one of its three starts or at its new configuration. */
  lemma {:induction false} UpdateRaises(ids: map<Id, Ref>, st: Status, d: Data, v: Verdicts)
    ensures UpdateOf(ids, st, d, v).raised <==>
              || (SwitchesUser(st, d) && st.enabled && Known(ids, st.kind) && v.user.Raises?)
              || (d.newConfig && RunsAsUser(ids, st, d, v) && v.configRaises)
              || (StartsExplicitly(ids, st, d, v) && EnabledAsAsked(ids, st, d, v) && Known(ids, st.kind) && v.started.Raises?)
              || (SwitchesKind(ids, st, d) && EnabledAfterStart(ids, st, d, v) && v.kind.Raises?)
  {
  }

  /** A request for nothing but the enabled flag sets it, either way. */
  lemma {:induction false} EnabledAsRequested(ids: map<Id, Ref>, st: Status, b: bool, v: Verdicts)
    ensures UpdateOf(ids, st, Data(None, Some(b), false, None, None), v) == Progress(st.(enabled := b), false)
  {
  }

  /** A request for nothing but `started: true` starts a stopped, enabled instance whose plugin is there and starts. */
  lemma {:induction false} StartedAsRequested(ids: map<Id, Ref>, st: Status, v: Verdicts)
    ensures UpdateOf(ids, st, Data(None, None, false, Some(true), None), v).status.started <==>
              st.started || (st.enabled && Known(ids, st.kind) && v.started.Starts?)
    ensures !UpdateOf(ids, st, Data(None, None, false, Some(false), None), v).status.started
  {
  }

  /**
   When an instance that an update disables runs on: it must be running once its
   user is settled (a switch of user restarts it while it is still enabled), and
   neither be stopped explicitly nor change to a known type.
   */
  lemma {:induction false} DisabledRunsOn(ids: map<Id, Ref>, st: Status, d: Data, v: Verdicts)
    requires d.enabled == Some(false)
    ensures UpdateOf(ids, st, d, v).raised <==>
              || (SwitchesUser(st, d) && st.enabled && Known(ids, st.kind) && v.user.Raises?)
              || (d.newConfig && v.configRaises && RunsAsUser(ids, st, d, v))
    ensures !UpdateOf(ids, st, d, v).raised ==>
              (UpdateOf(ids, st, d, v).status.started <==>
                 RunsAsUser(ids, st, d, v) && d.started != Some(false) && !SwitchesKind(ids, st, d))
  {
  }

  /** At a running instance with nothing but `enabled: false`: disabled, and still running. */
  lemma {:induction false} DisablingDoesNotStop(ids: map<Id, Ref>, st: Status, v: Verdicts)
    requires st.started
    ensures UpdateOf(ids, st, Data(None, Some(false), false, None, None), v) == Progress(st.(enabled := false), false)
  {
  }

  /** Asking for nothing but a type changes nothing and is still answered as an update iff there is no such plugin. */
  lemma {:induction false} UnknownTypeIsIgnored(ids: map<Id, Ref>, st: Status, kind: Id, v: Verdicts)
    requires st.kind != Some(kind)
    ensures UpdateOf(ids, st, Data(None, None, false, None, Some(kind)), v) == Progress(st, false) <==> kind !in ids
  {
  }

  ghost predicate AllStarted(s: State, t: State, instances: set<Ref>, v: Ref -> StartVerdict) {
    forall i | i in instances :: AfterStart(s.idCache, ViewOf(s, i), ViewOf(t, i), v(i))
  }

  /** The instances whose start ends in an exception. */
  function Raisers(s: State, instances: set<Ref>, v: Ref -> StartVerdict): set<Ref> {
    set i | i in instances && StartStage(s.idCache, StatusOf(ViewOf(s, i)), v(i)).raised
  }

  lemma {:induction false} NoneStarted(s: State, v: Ref -> StartVerdict)
    ensures AllStarted(s, s, {}, v) && Raisers(s, {}, v) == {}
  {
  }

  lemma {:induction false} OneMoreRaiser(s: State, t: State, done: set<Ref>, i: Ref, v: Ref -> StartVerdict)
    requires Steady(s, t) && OthersKept(s, t, done) && i !in done
    ensures var raises := StartStage(t.idCache, StatusOf(ViewOf(t, i)), v(i)).raised;
            Raisers(s, done + {i}, v) == Raisers(s, done, v) + (if raises then {i} else {})
  {
    hide StartStage, ViewOf;
    assert ViewOf(t, i) == ViewOf(s, i);
  }

  lemma {:induction false} OneMoreStarted(s: State, t: State, u: State, done: set<Ref>, i: Ref, v: Ref -> StartVerdict)
    requires Steady(s, t) && OthersKept(s, t, done) && AllStarted(s, t, done, v) && i !in done
    requires Steady(t, u) && OthersKept(t, u, {i}) && AfterStart(u.idCache, ViewOf(t, i), ViewOf(u, i), v(i))
    ensures Steady(s, u) && OthersKept(s, u, done + {i}) && AllStarted(s, u, done + {i}, v)
  {
    hide AfterStart, ViewOf;
    OthersKeptTwice(s, t, u, done, {i});
    assert ViewOf(t, i) == ViewOf(s, i);
    forall j | j in done
      ensures ViewOf(u, j) == ViewOf(t, j)
    {
    }
  }

  /** Clients that start or stop are no part of how instances look. */
  lemma {:induction false} SameViews(s: State, t: State, u: State, instances: set<Ref>, v: Ref -> StartVerdict)
    requires t == s.(clientsStarted := t.clientsStarted)
    requires OthersKept(t, u, instances) && AllStarted(t, u, instances, v)
    ensures OthersKept(s, u, instances) && AllStarted(s, u, instances, v)
  {
    hide AfterStart;
    forall j
      ensures ViewOf(s, j) == ViewOf(t, j)
    {
    }
  }

  lemma {:induction false} ClientsStartedInv(s: State, started: set<Ref>)
    requires Inv(s)
    ensures Inv(s.(clientsStarted := started))
  {
  }

  /** The references of a plugin are the instances that point at it. */
  lemma {:induction false} ReferencesArePointers(s: State, l: Ref)
    requires Inv(s) && Registered(s.loaders, s.idCache, l)
    ensures forall i :: i in s.loaders[l].references <==> i in s.live && i in s.loader && s.loader[i] == l
  {
  }

  function EnabledIn(enabled: map<Ref, bool>, instances: set<Ref>): set<Ref> {
    set i | i in instances && i in enabled && enabled[i]
  }

  /** The instances in a plugin's references. */
  function UsersOf(s: State, k: Id): set<Ref> {
    if k in s.idCache && s.idCache[k] in s.loaders then s.loaders[s.idCache[k]].references else {}
  }

  lemma {:induction false} UsersAreKnown(s: State, k: Id)
    requires Inv(s) && k in s.idCache
    ensures forall i | i in UsersOf(s, k) :: i in s.kind && s.kind[i] == k
  {
  }

  /** Once stopped, every enabled user of a plugin gets as far as its own code. */
  lemma {:induction false} RaisingUsers(s: State, t: State, k: Id, v: Ref -> StartVerdict)
    requires t == s.(started := s.started - UsersOf(s, k))
    requires forall i | i in UsersOf(s, k) :: Known(s.idCache, At(s.kind, i))
    ensures Raisers(t, EnabledIn(s.enabled, UsersOf(s, k)), v) != {}
            <==> exists i :: i in EnabledIn(s.enabled, UsersOf(s, k)) && v(i).Raises?
  {
    var enabled := EnabledIn(s.enabled, UsersOf(s, k));
    if i :| i in enabled && v(i).Raises? {
      assert i in Raisers(t, enabled, v);
    }
  }

  lemma {:induction false} RestartedUsers(s: State, t: State, u: State, k: Id, v: Ref -> StartVerdict)
    requires t == s.(started := s.started - UsersOf(s, k))
    requires forall i | i in UsersOf(s, k) :: Known(s.idCache, At(s.kind, i))
    requires var enabled := EnabledIn(s.enabled, UsersOf(s, k));
             Steady(t, u) && OthersKept(t, u, enabled) && AllStarted(t, u, enabled, v)
    ensures Steady(s, u) && OthersKept(s, u, UsersOf(s, k))
    ensures forall i | i in UsersOf(s, k) :: i in u.started <==> i in EnabledIn(s.enabled, UsersOf(s, k)) && v(i).Starts?
  {
    var users := UsersOf(s, k);
    forall j | j !in users
      ensures ViewOf(u, j) == ViewOf(s, j)
    {
      assert ViewOf(u, j) == ViewOf(t, j);
    }
    forall i | i in users
      ensures i in u.started <==> i in EnabledIn(s.enabled, UsersOf(s, k)) && v(i).Starts?
    {
      if i !in EnabledIn(s.enabled, users) {
        assert ViewOf(u, i) == ViewOf(t, i);
      }
    }
  }

  /** What loading makes of an instance: both references and nothing else, or disabled for want of a plugin. */
  predicate IsSettled(ids: map<Id, Ref>, was: View, now: View) {
    if Known(ids, was.kind) then
      && now == was.(loader := now.loader, client := now.client) && now.loader.Some? && now.client.Some?
      && (was.loader.Some? ==> now.loader == was.loader) && (was.client.Some? ==> now.client == was.client)
    else now == was.(enabled := Some(false))
  }

  /** How every saved instance looks. */
  ghost function Saves(s: State): map<Id, View> {
    map k | k in s.instanceRows :: Before(s, k)
  }

  /** Those in `done` are settled, the others as they were. */
  ghost predicate Settling(s: State, was: map<Id, View>, done: set<Id>) {
    && s.instanceRows.Keys == was.Keys
    && (forall k | k in was && k in done :: k in s.cache && IsSettled(s.idCache, was[k], Before(s, k)))
    && (forall k | k in was && k !in done :: Before(s, k) == was[k])
  }

  lemma {:induction false} NoneSettled(s: State)
    ensures Settling(s, Saves(s), {})
  {
  }

  lemma {:induction false} AllAreSettled(s: State, was: map<Id, View>)
    requires Inv(s) && Settling(s, was, was.Keys)
    ensures s.cache.Keys == s.instanceRows.Keys
    ensures forall k | k in was :: k in s.cache && IsSettled(s.idCache, was[k], ViewOf(s, s.cache[k]))
  {
    hide Inv, IsSettled, ViewOf;
    forall k | k in s.cache
      ensures k in s.instanceRows
    {
      CachedIsRegistered(s, k);
    }
  }

  lemma {:induction false} PostinitSettles(s: State, was: map<Id, View>, done: set<Id>, k: Id)
    requires Inv(s) && Settling(s, was, done) && k !in s.cache && k in s.instanceRows && k !in done
    ensures Settling(Postinit(s, k, s.instanceRows[k]), was, done)
  {
    hide Inv, IsSettled;
    PostinitIds(s, k);
    var t := Postinit(s, k, s.instanceRows[k]);
    forall j | j in was
      ensures Before(t, j) == Before(s, j) && (j in s.cache ==> j in t.cache)
    {
      CachedIsRegistered(s, j);
    }
  }

  lemma {:induction false} SettlingRows(s: State, was: map<Id, View>, done: set<Id>)
    requires Settling(s, was, done)
    ensures s.instanceRows.Keys == was.Keys
  {
  }

  lemma {:induction false} PostinitKeepsIds(s: State, k: Id, row: Row)
    ensures Postinit(s, k, row).idCache == s.idCache
  {
  }

  lemma {:induction false} LoadSettles(ids: map<Id, Ref>, was: View, now: View, ok: bool)
    requires ok == Known(ids, was.kind)
    requires ok ==> now.loader.Some? && now.client.Some? && now == was.(loader := now.loader, client := now.client)
                    && (was.loader.Some? ==> now.loader == was.loader) && (was.client.Some? ==> now.client == was.client)
    requires !ok ==> now == was.(enabled := Some(false))
    ensures IsSettled(ids, was, now)
  {
  }

  /** Rows of other instances stay. */
  ghost predicate RowsKept(s: State, t: State, i: Ref) {
    forall k | k in s.instanceRows && !(k in s.cache && s.cache[k] == i) ::
      k in t.instanceRows && t.instanceRows[k] == s.instanceRows[k]
  }

  lemma {:induction false} OneMoreSettled(s: State, t: State, was: map<Id, View>, done: set<Id>, k: Id)
    requires Inv(s) && Settling(s, was, done) && k in s.cache && k in was && k !in done
    requires Steady(s, t) && OthersKept(s, t, {s.cache[k]}) && RowsKept(s, t, s.cache[k])
    requires IsSettled(t.idCache, ViewOf(s, s.cache[k]), ViewOf(t, s.cache[k]))
    ensures Settling(t, was, done + {k})
  {
    hide Inv, IsSettled, ViewOf;
    CachedIsRegistered(s, k);
    forall j | j in was && j != k
      ensures Before(t, j) == Before(s, j)
    {
      CachedIsRegistered(s, j);
    }
  }

  lemma {:induction false} RemovingTheRunning(users: set<Ref>, started: set<Ref>)
    ensures started - users * started == started - users
  {
  }

  /** Everything that happens to instances, clients and plugins, with how plugin code behaves. */
  datatype Op =
    | Put(k: Id, d: Data, v: Verdicts)
    | Remove(k: Id)
    | LoadAll
    | NewUser(uid: Id, ok: bool)
    | StartUser(uid: Id, ok: bool, starts: Ref -> StartVerdict)
    | StopUser(uid: Id)
    | DeleteUser(uid: Id)
    | Upload(k: Id)
    | Discard(k: Id)
    | Reload(k: Id, ok: bool, starts: Ref -> StartVerdict)

  class Maubot {
    var s: State

    /** The database as it was left: its instance rows name existing clients. */
    constructor (clientRows: set<Id>, instanceRows: map<Id, Row>)
      requires ForeignKey(instanceRows, clientRows)
      ensures Inv(s) && s == EMPTY.(clientRows := clientRows, instanceRows := instanceRows)
    {
      s := EMPTY.(clientRows := clientRows, instanceRows := instanceRows);
    }

    /** `Client.get` without access details */
    method GetClient(uid: Id) returns (r: Option<Ref>)
      requires Inv(s)
      modifies this
      ensures Inv(s) && s == old(s).(next := s.next, clients := s.clients, clientCache := s.clientCache)
      ensures r.None? <==> uid !in old(s).clientRows
      ensures r.None? || uid in old(s).clientCache ==> s == old(s)
      ensures r.Some? && uid !in old(s).clientCache ==>
                s.clients == old(s).clients[r.value := Owner(uid, {})] && s.clientCache == old(s).clientCache[uid := r.value]
      ensures r.Some? ==> Registered(s.clients, s.clientCache, r.value) && s.clients[r.value].id == uid
    {
      hide Inv;
      CachedIsRegistered(s, uid);
      if uid in s.clientCache {
        return Some(s.clientCache[uid]);
      }
      if uid !in s.clientRows {
        return None;
      }
      NewClientInv(s, uid);
      r := Some(s.next);
      assert s.clientRows + {uid} == s.clientRows;
      s := NewClient(s, uid);
    }

    /** `PluginInstance.update_enabled` */
    method UpdateEnabled(i: Ref, b: bool)
      requires Inv(s) && i in s.live
      modifies this
      ensures Inv(s) && Steady(old(s), s) && OthersKept(old(s), s, {i}) && RowsKept(old(s), s, i)
      ensures ViewOf(s, i) == ViewOf(old(s), i).(enabled := Some(b))
    {
      hide Inv;
      LiveInstance(s, i);
      if b != s.enabled[i] {
        SetEnabledKeeps(s, i, b);
        CachedRow(s, i);
        s := SetEnabled(s, i, b);
      }
    }

    /**
     `PluginInstance.load`.  The foreign key is why a client is always found, and
     hence why no loader is kept without the reference that belongs to it.
     */
    method Load(i: Ref) returns (ok: bool)
      requires Inv(s) && i in s.live
      modifies this
      ensures Inv(s) && Steady(old(s), s) && OthersKept(old(s), s, {i}) && RowsKept(old(s), s, i)
      ensures ok == Known(old(s).idCache, ViewOf(old(s), i).kind)
      ensures ok ==> i in s.loader && i in s.client
                     && ViewOf(s, i) == ViewOf(old(s), i).(loader := Some(s.loader[i]), client := Some(s.client[i]))
                     && (i in old(s).loader ==> s.loader[i] == old(s).loader[i])
                     && (i in old(s).client ==> s.client[i] == old(s).client[i])
      ensures !ok ==> ViewOf(s, i) == ViewOf(old(s), i).(enabled := Some(false))
    {
      hide Inv, Steady, OthersKept;
      LiveInstance(s, i);
      if i !in s.loader && s.kind[i] !in s.idCache {
        UpdateEnabled(i, false);
        return false;
      }
      CachedIsRegistered(s, s.kind[i]);
      var l := if i in s.loader then s.loader[i] else s.idCache[s.kind[i]];
      var c;
      if i in s.client {
        c := s.client[i];
      } else {
        var found := GetClient(s.primaryUser[i]);
        c := found.value;
        LiveInstance(s, i);
      }
      AttachInv(s, i, l, c);
      AttachFrame(old(s), s, i, l, c);
      s := Attach(s, i, l, c);
      return true;
    }

    /** `PluginInstance.start`; `v` is how the plugin's own code behaves. */
    method Start(i: Ref, v: StartVerdict) returns (raised: bool)
      requires Inv(s) && i in s.live
      modifies this
      ensures Inv(s) && Steady(old(s), s) && OthersKept(old(s), s, {i})
      ensures Progress(StatusOf(ViewOf(s, i)), raised) == StartStage(s.idCache, StatusOf(ViewOf(old(s), i)), v)
      ensures PointersAfter(s.idCache, ViewOf(old(s), i), ViewOf(s, i))
    {
      hide Inv, Steady, OthersKept, PointersAfter, StartStage;
      LiveInstance(s, i);
      KeptAsItIs(s);
      StartsNothing(s.idCache, ViewOf(s, i), v);
      raised := false;
      if i in s.started || !s.enabled[i] {
        return;
      }
      if i !in s.client || i !in s.loader {
        var ok := Load(i);
        SteadyLive(old(s), s);
        if !ok {
          return;
        }
      }
      ghost var loaded := s;
      StartsLoaded(s.idCache, ViewOf(old(s), i), ViewOf(s, i), v);
      match v {
        case Raises =>
          raised := true;
        case Fails =>
          UpdateEnabled(i, false);
          ThenKept(old(s), loaded, s, i);
        case Starts =>
          StartedInv(s, i);
          StartedFrame(s, i);
          s := s.(started := s.started + {i});
          ThenKept(old(s), loaded, s, i);
      }
    }

    /** `PluginInstance.stop`; an exception from the plugin is only logged. */
    method Stop(i: Ref)
      requires Inv(s) && i in s.live
      modifies this
      ensures Inv(s) && s == old(s).(started := old(s).started - {i})
    {
      hide Inv;
      if i !in s.started {
        assert s.started - {i} == s.started;
        return;
      }
      StartedInv(s, i);
      s := s.(started := s.started - {i});
    }

    /** `PluginInstance.update_primary_user` */
    method UpdatePrimaryUser(i: Ref, user: Option<Id>, v: StartVerdict) returns (found: bool, raised: bool)
      requires Inv(s) && i in s.live
      modifies this
      ensures Inv(s) && Steady(old(s), s) && OthersKept(old(s), s, {i})
      ensures found ==> Progress(StatusOf(ViewOf(s, i)), raised) == UserStage(s.idCache, StatusOf(ViewOf(old(s), i)), user, v)
      ensures found <==> (user.Some? ==> user.value in old(s).clientRows)
      ensures !found || user.None? || user == ViewOf(old(s), i).primaryUser ==> s == old(s) && !raised
      ensures found && user.Some? && user != ViewOf(old(s), i).primaryUser ==>
                var w := ViewOf(old(s), i).(primaryUser := user, client := ViewOf(s, i).client, started := false);
                w.client.Some? && PointersAfter(s.idCache, w, ViewOf(s, i))
    {
      hide Inv, Steady, OthersKept, PointersAfter, StartStage, StatusOf, UserStage;
      LiveInstance(s, i);
      CachedRow(s, i);
      if user.None? || user.value == s.primaryUser[i] {
        KeptAsItIs(s);
        UserKept(s.idCache, ViewOf(s, i), user, v);
        return true, false;
      }
      var c := GetClient(user.value);
      if c.None? {
        KeptAsItIs(s);
        return false, false;
      }
      Stop(i);
      LiveInstance(s, i);
      SwitchClientInv(s, i, c.value);
      SwitchClientFrame(old(s), s, i, c.value);
      s := SwitchClient(s, i, c.value);
      ghost var switched := s;
      raised := Start(i, v);
      found := true;
      ThenKept(old(s), switched, s, i);
      UserSwitched(s.idCache, ViewOf(old(s), i), ViewOf(switched, i), ViewOf(s, i), user, c.value, raised, v);
    }

    /** `PluginInstance.update_type` */
    method UpdateType(i: Ref, kind: Option<Id>, v: StartVerdict) returns (found: bool, raised: bool)
      requires Inv(s) && i in s.live
      modifies this
      ensures Inv(s) && Steady(old(s), s) && OthersKept(old(s), s, {i})
      ensures Progress(StatusOf(ViewOf(s, i)), raised) == KindStage(s.idCache, StatusOf(ViewOf(old(s), i)), kind, v)
      ensures found <==> kind.None? || kind == ViewOf(old(s), i).kind || kind.value in old(s).idCache
      ensures !found || kind.None? || kind == ViewOf(old(s), i).kind ==> s == old(s) && !raised
      ensures found && kind.Some? && kind != ViewOf(old(s), i).kind ==>
                var w := ViewOf(old(s), i).(kind := kind, loader := Some(s.idCache[kind.value]), started := false);
                PointersAfter(s.idCache, w, ViewOf(s, i))
    {
      hide Inv, Steady, OthersKept, PointersAfter, StartStage, StatusOf, KindStage;
      LiveInstance(s, i);
      CachedRow(s, i);
      if kind.None? || kind.value == s.kind[i] {
        KeptAsItIs(s);
        KindKept(s.idCache, ViewOf(s, i), kind, v);
        return true, false;
      }
      if kind.value !in s.idCache {
        KeptAsItIs(s);
        KindKept(s.idCache, ViewOf(s, i), kind, v);
        return false, false;
      }
      var l := s.idCache[kind.value];
      CachedIsRegistered(s, kind.value);
      Stop(i);
      LiveInstance(s, i);
      SwitchLoaderInv(s, i, l);
      SwitchLoaderFrame(old(s), s, i, l);
      s := SwitchLoader(s, i, l);
      ghost var switched := s;
      raised := Start(i, v);
      found := true;
      ThenKept(old(s), switched, s, i);
      KindSwitched(s.idCache, ViewOf(old(s), i), ViewOf(switched, i), ViewOf(s, i), kind, l, raised, v);
    }

    /** `PluginInstance.update_started` */
    method UpdateStarted(i: Ref, started: Option<bool>, v: StartVerdict) returns (raised: bool)
      requires Inv(s) && i in s.live
      modifies this
      ensures Inv(s) && Steady(old(s), s) && OthersKept(old(s), s, {i})
      ensures Progress(StatusOf(ViewOf(s, i)), raised) == StartedStage(s.idCache, StatusOf(ViewOf(old(s), i)), started, v)
      ensures started.None? ==> s == old(s) && !raised
      ensures started.Some? && !started.value ==>
                s == old(s).(started := old(s).started - {i}) && !raised
      ensures started.Some? && started.value ==> PointersAfter(s.idCache, ViewOf(old(s), i), ViewOf(s, i))
    {
      hide Inv, Steady, OthersKept, PointersAfter, StartStage, ViewOf;
      KeptAsItIs(s);
      StartedFrame(s, i);
      StartsOnce(s.idCache, ViewOf(s, i), v);
      raised := false;
      if started.Some? && started.value != (i in s.started) {
        if started.value {
          raised := Start(i, v);
        } else {
          Stop(i);
        }
      } else if started.Some? && !started.value {
        assert s.started - {i} == s.started;
      }
    }

    /** `PluginInstance.get` */
    method GetInstance(k: Id) returns (r: Option<Ref>)
      requires Inv(s)
      modifies this
      ensures Inv(s)
      ensures r.None? <==> k !in old(s).instanceRows
      ensures r.Some? ==> k in s.cache && s.cache[k] == r.value && r.value in s.live && ViewOf(s, r.value) == Before(old(s), k)
      ensures k in old(s).cache || k !in old(s).instanceRows ==> s == old(s)
      ensures k !in old(s).cache && k in old(s).instanceRows ==>
                && s == Postinit(old(s), k, old(s).instanceRows[k]) && r == Some(old(s).next)
                && r.value !in old(s).live && r.value !in old(s).started
    {
      hide Inv;
      CachedIsRegistered(s, k);
      if k in s.cache {
        return Some(s.cache[k]);
      }
      if k !in s.instanceRows {
        return None;
      }
      PostinitIds(s, k);
      PostinitInv(s, k);
      r := Some(s.next);
      s := Postinit(s, k, s.instanceRows[k]);
    }

    /** The end of `_create_instance`: save, load, start the new object. */
    method BringUp(i: Ref, enabled: bool, v: StartVerdict) returns (raised: bool)
      requires Inv(s) && i in s.live && ViewOf(s, i).kind.Some? && ViewOf(s, i).kind.value in s.idCache
      requires i !in s.started && i !in s.loader
      modifies this
      ensures Inv(s) && Steady(old(s), s) && OthersKept(old(s), s, {i})
      ensures BroughtUp(s.idCache, ViewOf(old(s), i), ViewOf(s, i), enabled, v)
      ensures raised <==> enabled && v.Raises?
    {
      hide Inv, Steady, OthersKept;
      UpdateEnabled(i, enabled);
      SteadyLive(old(s), s);
      ghost var written := s;
      var ok := Load(i);
      ThenKept(old(s), written, s, i);
      ghost var loaded := s;
      LiveInstance(s, i);
      raised := Start(i, v);
      ThenKept(old(s), loaded, s, i);
      LiveInstance(s, i);
    }

    /** `PluginInstance.get` for an id without a row, and the rest of `_create_instance`. */
    method CreateNew(k: Id, row: Row, enabled: bool, v: StartVerdict) returns (raised: bool)
      requires Inv(s) && k !in s.instanceRows && row.primaryUser in s.clientRows && row.kind in s.idCache && row.enabled
      modifies this
      ensures Inv(s) && s.idCache == old(s).idCache
      ensures NewInstance(old(s), s, k, Fresh(Some(row.kind), Some(row.primaryUser)), enabled, v)
      ensures raised <==> enabled && v.Raises?
    {
      hide Inv, OthersKept, BroughtUp, Steady;
      var i := s.next;
      InsertPostinit(s, k, row);
      s := s.(instanceRows := s.instanceRows[k := row]);
      s := Postinit(s, k, row);
      InsertFrame(old(s), s, k, row);
      ghost var created := s;
      raised := BringUp(i, enabled, v);
      ThenBroughtUp(old(s), created, s, i);
    }

    /** `_create_instance`, called when `get` found nothing. */
    method CreateInstance(k: Id, kind: Option<Id>, user: Option<Id>, enabled: bool, v: StartVerdict) returns (a: Answer)
      requires Inv(s) && k !in s.instanceRows
      modifies this
      ensures Inv(s) && s.idCache == old(s).idCache
      ensures a == CreationAnswer(old(s), kind, user, enabled, v)
      ensures a.TypeRequired? || a.UserRequired? || a.UserNotFound? ==> s == old(s)
      ensures a.TypeNotFound? ==> s == old(s).(next := s.next, clients := s.clients, clientCache := s.clientCache)
      ensures a.Created? || a.Raised? ==> NewInstance(old(s), s, k, Fresh(kind, user), enabled, v)
    {
      hide Inv, NewInstance;
      if Missing(kind) {
        return TypeRequired;
      } else if Missing(user) {
        return UserRequired;
      }
      var c := GetClient(user.value);
      if c.None? {
        return UserNotFound;
      } else if kind.value !in s.idCache {
        return TypeNotFound;
      }
      ghost var t := s;
      var raised := CreateNew(k, Row(kind.value, true, user.value), enabled, v);
      NewInstanceSince(old(s), t, s, k, Fresh(kind, user), enabled, v);
      a := if raised then Raised else Created;
    }

    /** The first three steps of `_update_instance`. */
    method UpdateFirst(i: Ref, d: Data, v: Verdicts) returns (found: bool, raised: bool)
      requires Inv(s) && i in s.live
      modifies this
      ensures Inv(s) && Steady(old(s), s) && OthersKept(old(s), s, {i})
      ensures found <==> (d.user.Some? ==> d.user.value in old(s).clientRows)
      ensures !found ==> s == old(s)
      ensures found ==> Progress(StatusOf(ViewOf(s, i)), raised) == FirstUpdates(s.idCache, StatusOf(ViewOf(old(s), i)), d, v)
    {
      hide Inv, Steady, OthersKept, ViewOf, PointersAfter, Ready, UserStage;
      KeptAsItIs(s);
      found, raised := UpdatePrimaryUser(i, d.user, v.user);
      SteadyLive(old(s), s);
      if !found || raised {
        return;
      }
      ghost var t := s;
      if d.enabled.Some? {
        UpdateEnabled(i, d.enabled.value);
        ThenKept(old(s), t, s, i);
      }
      StartedFrame(s, i);
      raised := d.newConfig && i in s.started && v.configRaises;
    }

    /** The last two. */
    method UpdateLast(i: Ref, d: Data, v: Verdicts) returns (raised: bool)
      requires Inv(s) && i in s.live
      modifies this
      ensures Inv(s) && Steady(old(s), s) && OthersKept(old(s), s, {i})
      ensures Progress(StatusOf(ViewOf(s, i)), raised) == LastUpdates(s.idCache, StatusOf(ViewOf(old(s), i)), d, v)
    {
      hide Inv, Steady, OthersKept, ViewOf, StatusOf, PointersAfter, Ready, StartedStage, KindStage;
      raised := UpdateStarted(i, d.started, v.started);
      SteadyLive(old(s), s);
      if raised {
        return;
      }
      ghost var t := s;
      var _, again := UpdateType(i, d.kind, v.kind);
      raised := again;
      ThenKept(old(s), t, s, i);
    }

    /** `_update_instance`; an exception from plugin code ends the request. */
    method UpdateInstance(i: Ref, d: Data, v: Verdicts) returns (a: Answer)
      requires Inv(s) && i in s.live
      modifies this
      ensures Inv(s) && Steady(old(s), s) && OthersKept(old(s), s, {i})
      ensures a.UserNotFound? <==> d.user.Some? && d.user.value !in old(s).clientRows
      ensures a.UserNotFound? ==> s == old(s)
      ensures !a.UserNotFound? ==>
                var r := UpdateOf(s.idCache, StatusOf(ViewOf(old(s), i)), d, v);
                a == (if r.raised then Raised else Updated) && StatusOf(ViewOf(s, i)) == r.status
    {
      hide Inv, Steady, OthersKept, ViewOf, StatusOf, FirstUpdates, LastUpdates;
      var found, raised := UpdateFirst(i, d, v);
      SteadyLive(old(s), s);
      if !found {
        return UserNotFound;
      } else if raised {
        return Raised;
      }
      ghost var t := s;
      raised := UpdateLast(i, d, v);
      ThenKept(old(s), t, s, i);
      return if raised then Raised else Updated;
    }

    /** `delete_instance` */
    method RemoveInstance(k: Id) returns (a: Answer)
      requires Inv(s)
      modifies this
      ensures Inv(s)
      ensures a == if k in old(s).instanceRows then Deleted else NotFound
      ensures a.NotFound? ==> s == old(s)
      ensures s.instanceRows == old(s).instanceRows - {k} && s.cache == old(s).cache - {k}
      ensures s.live == old(s).live - Cached(old(s), k) && s.started == old(s).started - Cached(old(s), k)
    {
      hide Inv;
      CachedIsRegistered(s, k);
      var r := GetInstance(k);
      if r.None? {
        return NotFound;
      }
      var i := r.value;
      CachedIsRegistered(s, k);
      if i in s.started {
        Stop(i);
      }
      assert s.started == old(s).started - Cached(old(s), k);
      assert s.live - {i} == old(s).live - Cached(old(s), k);
      assert s.cache - {k} == old(s).cache - {k};
      assert s.instanceRows == old(s).instanceRows;
      LiveInstance(s, i);
      DeleteInstanceInv(s, i);
      s := DeleteInstance(s, i);
      return Deleted;
    }

    /** Stopping several instances, one after the other. */
    method StopMany(instances: set<Ref>)
      requires Inv(s) && instances <= s.live
      modifies this
      ensures Inv(s) && s == old(s).(started := old(s).started - instances)
    {
      hide Inv;
      var todo := instances;
      while todo != {}
        invariant Inv(s) && todo <= instances
        invariant s == old(s).(started := old(s).started - (instances - todo))
      {
        var i :| i in todo;
        Stop(i);
        assert old(s).started - (instances - todo) - {i} == old(s).started - (instances - (todo - {i}));
        todo := todo - {i};
      }
      assert instances - todo == instances;
    }

    /** Starting several instances; `gather` lets every one of them run to its end. */
    method StartMany(instances: set<Ref>, v: Ref -> StartVerdict) returns (raised: bool)
      requires Inv(s) && instances <= s.live
      modifies this
      ensures raised <==> Raisers(old(s), instances, v) != {}
      ensures Inv(s) && Steady(old(s), s) && OthersKept(old(s), s, instances)
      ensures AllStarted(old(s), s, instances, v)
    {
      hide Inv, Steady, OthersKept, AllStarted, Raisers, StartStage, PointersAfter;
      raised := false;
      KeptAsItIs(s);
      var todo := instances;
      NoneStarted(s, v);
      assert instances - todo == {};
      while todo != {}
        invariant Inv(s) && todo <= instances && Steady(old(s), s)
        invariant raised <==> Raisers(old(s), instances - todo, v) != {}
        invariant OthersKept(old(s), s, instances - todo) && AllStarted(old(s), s, instances - todo, v)
      {
        var i :| i in todo;
        ghost var t := s;
        SteadyLive(old(s), s);
        OneMoreRaiser(old(s), s, instances - todo, i, v);
        var raises := Start(i, v(i));
        SteadyLive(t, s);
        raised := raised || raises;
        OneMoreStarted(old(s), t, s, instances - todo, i, v);
        assert instances - todo + {i} == instances - (todo - {i});
        todo := todo - {i};
      }
      assert instances - todo == instances;
    }

    /** `Client.start`: once the homeserver answers, the client runs and its plugins are started. */
    method StartClient(c: Ref, ok: bool, v: Ref -> StartVerdict)
      requires Inv(s) && Registered(s.clients, s.clientCache, c)
      modifies this
      ensures Inv(s)
      ensures !ok || c in old(s).clientsStarted ==> s == old(s)
      ensures ok && c !in old(s).clientsStarted ==>
                && s.clientsStarted == old(s).clientsStarted + {c}
                && s.live == old(s).live && OthersKept(old(s), s, old(s).clients[c].references)
                && AllStarted(old(s), s, old(s).clients[c].references, v)
    {
      if !ok || c in s.clientsStarted {
        return;
      }
      s := s.(clientsStarted := s.clientsStarted + {c});
      ghost var t := s;
      var _ := StartMany(s.clients[c].references, v);
      SameViews(old(s), t, s, old(s).clients[c].references, v);
    }

    /** `Client.stop` */
    method StopClient(c: Ref)
      requires Inv(s) && Registered(s.clients, s.clientCache, c)
      modifies this
      ensures Inv(s)
      ensures c !in old(s).clientsStarted ==> s == old(s)
      ensures c in old(s).clientsStarted ==>
                s == old(s).(clientsStarted := old(s).clientsStarted - {c},
                             started := old(s).started - old(s).clients[c].references)
    {
      if c in s.clientsStarted {
        s := s.(clientsStarted := s.clientsStarted - {c});
        StopMany(s.clients[c].references);
      }
    }

    /** `delete_client`: no running instance is ever left without its client. */
    method DeleteClient(uid: Id) returns (a: Answer)
      requires Inv(s)
      modifies this
      ensures Inv(s) && s.started == old(s).started && s.live == old(s).live && OthersKept(old(s), s, {})
      ensures s.instanceRows == old(s).instanceRows && s.cache == old(s).cache
      ensures a.NotFound? <==> uid !in old(s).clientRows
      ensures a.InUse? <==> uid in old(s).clientCache && old(s).clients[old(s).clientCache[uid]].references != {}
      ensures a.NotFound? || a.InUse? ==> s == old(s)
      ensures a.Deleted? ==> s.clientRows == old(s).clientRows - {uid}
      ensures a.RowInUse? ==> s.clientRows == old(s).clientRows
      ensures a.RowInUse? <==>
                && uid in old(s).clientRows
                && (uid in old(s).clientCache ==> old(s).clients[old(s).clientCache[uid]].references == {})
                && exists k :: k in old(s).instanceRows && old(s).instanceRows[k].primaryUser == uid
      ensures a.Deleted? || a.RowInUse? ==> s.clientCache == old(s).clientCache - {uid} && uid in old(s).clientRows
      ensures a.NotFound? || a.InUse? || a.Deleted? || a.RowInUse?
    {
      hide Inv;
      CachedIsRegistered(s, uid);
      var r := GetClient(uid);
      if r.None? {
        return NotFound;
      }
      var c := r.value;
      if s.clients[c].references != {} {
        return InUse;
      }
      if c in s.clientsStarted {
        StopClient(c);
        assert s.started == old(s).started;
      }
      var rows := ClientRowsAfterDelete(s, uid);
      a := if rows == s.clientRows then RowInUse else Deleted;
      assert uid in s.clientRows;
      DropClientInv(s, c);
      s := s.(clientCache := s.clientCache - {uid}, clientRows := rows);
    }

    /** A new client is saved, cached and started; there is nothing it could start yet. */
    method CreateClient(uid: Id, ok: bool) returns (c: Option<Ref>)
      requires Inv(s)
      modifies this
      ensures Inv(s) && OthersKept(old(s), s, {}) && s.live == old(s).live
      ensures c.Some? <==> uid !in old(s).clientRows
      ensures c.Some? ==> Registered(s.clients, s.clientCache, c.value) && s.clients[c.value] == Owner(uid, {})
                          && s.clientRows == old(s).clientRows + {uid}
                          && s.clientsStarted == old(s).clientsStarted + (if ok then {c.value} else {})
    {
      hide Inv;
      CachedIsRegistered(s, uid);
      if uid in s.clientRows {
        var _ := GetClient(uid);
        return None;
      }
      c := Some(s.next);
      NewClientInv(s, uid);
      s := NewClient(s, uid);
      if ok {
        ClientsStartedInv(s, s.clientsStarted + {c.value});
        s := s.(clientsStarted := s.clientsStarted + {c.value});
      }
    }

    /** A plugin that was just uploaded or found on disk. */
    method AddPlugin(k: Id) returns (ok: bool)
      requires Inv(s)
      modifies this
      ensures Inv(s) && ok == (k !in old(s).idCache)
      ensures !ok ==> s == old(s)
      ensures ok ==> s == NewLoader(old(s), k)
    {
      hide Inv;
      ok := k !in s.idCache;
      if ok {
        NewLoaderInv(s, k);
        s := NewLoader(s, k);
      }
    }

    /** `delete_plugin`: no running instance is ever left without its plugin. */
    method DeletePlugin(k: Id) returns (a: Answer)
      requires Inv(s)
      modifies this
      ensures Inv(s) && s == old(s).(idCache := s.idCache)
      ensures a == (if k !in old(s).idCache then NotFound
                    else if exists i :: i in s.live && i in s.loader && s.loader[i] == old(s).idCache[k] then InUse else Deleted)
      ensures s.idCache == if a.Deleted? then old(s).idCache - {k} else old(s).idCache
    {
      hide Inv;
      if k !in s.idCache {
        return NotFound;
      }
      var l := s.idCache[k];
      CachedIsRegistered(s, k);
      ReferencesArePointers(s, l);
      if s.loaders[l].references != {} {
        var i :| i in s.loaders[l].references;
        assert i in s.live && i in s.loader && s.loader[i] == l;
        return InUse;
      }
      DropLoaderInv(s, l);
      s := s.(idCache := s.idCache - {k});
      return Deleted;
    }

    /** `PluginLoader.stop_instances` */
    method StopInstances(l: Ref)
      requires Inv(s) && Registered(s.loaders, s.idCache, l)
      modifies this
      ensures Inv(s) && s == old(s).(started := old(s).started - old(s).loaders[l].references)
    {
      hide Inv;
      ReferencesArePointers(s, l);
      var users := s.loaders[l].references;
      RemovingTheRunning(users, s.started);
      StopMany(users * s.started);
    }

    /** `PluginLoader.start_instances` */
    method StartInstances(l: Ref, v: Ref -> StartVerdict) returns (raised: bool)
      requires Inv(s) && Registered(s.loaders, s.idCache, l)
      modifies this
      ensures Inv(s) && Steady(old(s), s) && OthersKept(old(s), s, EnabledIn(old(s).enabled, old(s).loaders[l].references))
      ensures raised <==> Raisers(old(s), EnabledIn(old(s).enabled, old(s).loaders[l].references), v) != {}
      ensures AllStarted(old(s), s, EnabledIn(old(s).enabled, old(s).loaders[l].references), v)
    {
      hide Inv, Steady, OthersKept, AllStarted, Raisers;
      ReferencesArePointers(s, l);
      raised := StartMany(EnabledIn(s.enabled, s.loaders[l].references), v);
    }

    /**
     `reload_plugin`: its instances stop; if the new code loads, the enabled ones
     start again, otherwise they all stay stopped.  An exception from one of them
     ends the request after all have had their turn.
     */
    method ReloadPlugin(k: Id, ok: bool, v: Ref -> StartVerdict) returns (a: Answer)
      requires Inv(s)
      modifies this
      ensures Inv(s)
      ensures a == (if k !in old(s).idCache then NotFound else if !ok then ReloadError
                    else if exists i :: i in EnabledIn(old(s).enabled, UsersOf(old(s), k)) && v(i).Raises? then Raised else Done)
      ensures a.NotFound? ==> s == old(s)
      ensures a.ReloadError? ==> s == old(s).(started := old(s).started - UsersOf(old(s), k))
      ensures a.Done? || a.Raised? ==>
                && Steady(old(s), s) && OthersKept(old(s), s, UsersOf(old(s), k))
                && forall i | i in UsersOf(old(s), k) ::
                     i in s.started <==> i in EnabledIn(old(s).enabled, UsersOf(old(s), k)) && v(i).Starts?
    {
      hide Inv, Steady, OthersKept, AllStarted, EnabledIn, Raisers;
      if k !in s.idCache {
        return NotFound;
      }
      var l := s.idCache[k];
      CachedIsRegistered(s, k);
      ReferencesArePointers(s, l);
      StopInstances(l);
      if !ok {
        return ReloadError;
      }
      ghost var t := s;
      var raised := StartInstances(l, v);
      UsersAreKnown(old(s), k);
      RaisingUsers(old(s), t, k, v);
      RestartedUsers(old(s), t, s, k, v);
      return if raised then Raised else Done;
    }

    /**
     The start of the program: every instance in the database is loaded.  Those
     whose plugin is known end up in its references and in those of their client and
     are otherwise as they were saved; the others are disabled.
     */
    method LoadInstances()
      requires Inv(s)
      modifies this
      ensures Inv(s) && s.idCache == old(s).idCache
      ensures s.instanceRows.Keys == old(s).instanceRows.Keys && s.cache.Keys == s.instanceRows.Keys
      ensures forall k | k in old(s).instanceRows ::
                k in s.cache && IsSettled(s.idCache, Before(old(s), k), ViewOf(s, s.cache[k]))
    {
      hide Inv, Settling, Postinit, Steady, OthersKept, RowsKept, IsSettled;
      var todo := s.instanceRows.Keys;
      ghost var was := Saves(s);
      NoneSettled(s);
      assert was.Keys - todo == {};
      while todo != {}
        invariant Inv(s) && todo <= was.Keys && s.idCache == old(s).idCache && Settling(s, was, was.Keys - todo)
      {
        var k :| k in todo;
        ghost var done, t := was.Keys - todo, s;
        SettlingRows(s, was, done);
        var r := GetInstance(k);
        if k !in t.cache {
          PostinitSettles(t, was, done, k);
          PostinitKeepsIds(t, k, t.instanceRows[k]);
        }
        ghost var u := s;
        var ok := Load(r.value);
        LoadSettles(u.idCache, ViewOf(u, r.value), ViewOf(s, r.value), ok);
        SteadyLive(u, s);
        OneMoreSettled(u, s, was, done, k);
        assert was.Keys - (todo - {k}) == done + {k};
        todo := todo - {k};
      }
      assert was.Keys - todo == was.Keys;
      SettlingRows(s, was, was.Keys);
      AllAreSettled(s, was);
    }

    /** `update_instance`: creates what `get` does not find, updates what it finds. */
    method PutInstance(k: Id, d: Data, v: Verdicts) returns (a: Answer)
      requires Inv(s)
      modifies this
      ensures Inv(s) && s.idCache == old(s).idCache
      ensures k in old(s).instanceRows ==>
                && (a.UserNotFound? <==> d.user.Some? && d.user.value !in old(s).clientRows)
                && k in s.cache && s.cache[k] in s.live && OthersKept(old(s), s, {s.cache[k]})
                && (a.UserNotFound? ==> ViewOf(s, s.cache[k]) == Before(old(s), k))
                && var r := UpdateOf(s.idCache, StatusOf(Before(old(s), k)), d, v);
                   !a.UserNotFound? ==>
                     a == (if r.raised then Raised else Updated) && StatusOf(ViewOf(s, s.cache[k])) == r.status
      ensures k !in old(s).instanceRows ==>
                var enabled := if d.enabled.Some? then d.enabled.value else true;
                && a == CreationAnswer(old(s), d.kind, d.user, enabled, v.started)
                && (a.Created? || a.Raised? ==> NewInstance(old(s), s, k, Fresh(d.kind, d.user), enabled, v.started))
    {
      hide Inv, OthersKept, BroughtUp, NewInstance, UpdateOf, StatusOf, ViewOf, CreationAnswer, Steady;
      var r := GetInstance(k);
      if r.None? {
        a := CreateInstance(k, d.kind, d.user, if d.enabled.Some? then d.enabled.value else true, v.started);
      } else {
        ghost var t := s;
        GetKeepsOthers(old(s), s, k, r.value);
        a := UpdateInstance(r.value, d, v);
        ThenBroughtUp(old(s), t, s, r.value);
      }
    }

    /** One operation. */
    method Perform(op: Op)
      requires Inv(s)
      modifies this
      ensures Inv(s)
    {
      hide *;
      match op {
        case Put(k, d, v) => var _ := PutInstance(k, d, v);
        case Remove(k) => var _ := RemoveInstance(k);
        case LoadAll => LoadInstances();
        case NewUser(uid, ok) => var _ := CreateClient(uid, ok);
        case StartUser(uid, ok, v) =>
          var c := GetClient(uid);
          if c.Some? {
            StartClient(c.value, ok, v);
          }
        case StopUser(uid) =>
          var c := GetClient(uid);
          if c.Some? {
            StopClient(c.value);
          }
        case DeleteUser(uid) => var _ := DeleteClient(uid);
        case Upload(k) => var _ := AddPlugin(k);
        case Discard(k) => var _ := DeletePlugin(k);
        case Reload(k, ok, v) => var _ := ReloadPlugin(k, ok, v);
      }
    }

    /** Over every run, whatever plugins do, running instances stay anchored. */
    method Run(ops: seq<Op>)
      requires Inv(s)
      modifies this
      ensures Inv(s) && forall i | i in s.started :: Anchored(s, i)
    {
      hide *;
      for n := 0 to |ops|
        invariant Inv(s)
      {
        Perform(ops[n]);
      }
      forall i | i in s.started
        ensures Anchored(s, i)
      {
        ReferenceGraph(s, i);
      }
    }
  }

  /**
   A delete that the database refuses, in a state that a restart leads to: the
   only instance of a client is disabled because its plugin is gone, so the client
   has no references.  Afterwards the row is there and the client is not cached.
   */
  method RefusedDelete(uid: Id, k: Id, kind: Id) returns (m: Maubot, a: Answer)
    ensures fresh(m) && Inv(m.s) && a.RowInUse?
    ensures uid in m.s.clientRows && uid !in m.s.clientCache
    ensures k in m.s.cache && m.s.cache[k] in m.s.live && ViewOf(m.s, m.s.cache[k]).enabled == Some(false)
  {
    hide Inv;
    m := new Maubot({uid}, map[k := Row(kind, true, uid)]);
    var i := m.GetInstance(k);
    var ok := m.Load(i.value);
    CachedRow(m.s, i.value);
    assert m.s.live == {i.value};
    NobodyPoints(m.s, uid);
    assert m.s.instanceRows[k].primaryUser == uid;
    a := m.DeleteClient(uid);
  }

  lemma {:induction false} ReferencesAreClients(s: State, c: Ref)
    requires Inv(s) && Registered(s.clients, s.clientCache, c)
    ensures forall i :: i in s.clients[c].references <==> i in s.live && i in s.client && s.client[i] == c
  {
  }

  lemma {:induction false} NobodyPoints(s: State, uid: Id)
    requires Inv(s) && forall i | i in s.live :: ViewOf(s, i).client == None
    ensures uid in s.clientCache ==> s.clientCache[uid] in s.clients && s.clients[s.clientCache[uid]].references == {}
  {
    hide Inv;
    assert forall i | i in s.live :: i !in s.client by {
      assert forall i | i in s.live :: ViewOf(s, i).client == At(s.client, i);
    }
    CachedIsRegistered(s, uid);
    if uid in s.clientCache {
      ReferencesAreClients(s, s.clientCache[uid]);
      assert s.clients[s.clientCache[uid]].references == {};
    }
  }
}
