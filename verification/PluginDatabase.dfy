/**
 Plugins sharing one Postgres pool (maubot/lib/plugin_db.py), as interleaved
 atomic steps of any number of tasks over any number of proxies.

 Between two awaits a task runs alone, so each step below is what one task, one
 drain of `stop`, or the pool does in one go.
 */
module PluginDatabase {
  import opened Wrappers

  type SearchPath = string

  datatype Holder = Plugin(task: nat) | OtherUser

  datatype Connection = Connection(open: bool, path: SearchPath, holder: Option<Holder>)

  /** Where a task is inside `acquire_direct`. */
  datatype Pc =
    | Waiting                             // for a permit of the semaphore
    | Permitted                           // has a permit, waits for a connection
    | Connected(conn: nat)                // about to set the search path
    | Body(conn: nat)                     // the plugin's code
    | Leaving(conn: nat)                  // about to give the connection back
    | Releasing                           // about to give the permit back
    | Finished
  {
    predicate HasPermit() {
      !Waiting? && !Finished?
    }

    function Uses(): Option<nat> {
      match this
      case Connected(c) => Some(c)
      case Body(c) => Some(c)
      case Leaving(c) => Some(c)
      case _ => None
    }
  }

  /** `early`: it came in before its proxy knew the server's default path. */
  datatype Task = Task(proxy: nat, early: bool, pc: Pc)

  /** One ProxyPostgresDatabase: its semaphore, and who holds its permits. */
  datatype Proxy = Proxy(
    schema: SearchPath, defaultPath: SearchPath, started: bool,
    maxConns: nat, free: nat, drained: nat, holders: set<nat>)

  datatype State = State(
    serverDefault: SearchPath, conns: map<nat, Connection>, proxies: map<nat, Proxy>, tasks: map<nat, Task>)

  /** What a proxy takes for the default until `start` has asked the server. */
  const ASSUMED_DEFAULT: SearchPath := "\"$user\", public"

  function Init(serverDefault: SearchPath): State {
    State(serverDefault, map[], map[], map[])
  }

  /** What the pool, or its users that are not plugins, can do to a connection. */
  datatype PoolStep =
    | Opens
    | Closes              // by anyone, the plugin's body included
    | Reconnects
    | OtherTakes
    | OtherReturns

  datatype ProxyStep =
    | Create(schema: SearchPath, maxConns: nat)
    | Start(c: nat)       // `SHOW search_path` on a connection of the pool
    | Spawn(t: nat)       // a task enters `acquire_direct`
    | Drain               // one turn of the loop in `stop`

  datatype PermitStep =
    | Take
    | Refused             // the pool raised instead of giving a connection
    | Release

  datatype ConnStep =
    | Get(c: nat)
    | SetPath
    | SetPathFails
    | BodySets(path: SearchPath)
    | Reset               // the body ends and the path is reset ...
    | ResetFails          // ... or that fails and the connection is closed ...
    | SkipReset           // ... or it was closed already
    | GiveBack

  datatype Step =
    | Pool(c: nat, pool: PoolStep)
    | Proxying(p: nat, proxying: ProxyStep)
    | Permit(t: nat, permit: PermitStep)
    | Conn(t: nat, conn: ConnStep)

  predicate PoolEnabled(s: State, c: nat, step: PoolStep) {
    if step.Opens? then c !in s.conns
    else
      && c in s.conns
      && match step
         case Closes => true
         case Reconnects => !s.conns[c].open && s.conns[c].holder.None?
         case OtherTakes => s.conns[c].open && s.conns[c].holder.None?
         case OtherReturns => s.conns[c].holder == Some(OtherUser)
         case Opens => false
  }

  predicate ProxyEnabled(s: State, p: nat, step: ProxyStep) {
    if step.Create? then p !in s.proxies
    else
      && p in s.proxies
      && match step
         case Start(c) => c in s.conns && s.conns[c].open && s.conns[c].holder == Some(OtherUser)
         case Spawn(t) => t !in s.tasks
         case Drain => s.proxies[p].free > 0
         case Create(_, _) => false
  }

  predicate PermitEnabled(s: State, t: nat, step: PermitStep) {
    && t in s.tasks && s.tasks[t].proxy in s.proxies
    && match step
       case Take => s.tasks[t].pc.Waiting? && s.proxies[s.tasks[t].proxy].free > 0
       case Refused => s.tasks[t].pc.Permitted?
       case Release => s.tasks[t].pc.Releasing?
  }

  predicate ConnEnabled(s: State, t: nat, step: ConnStep) {
    && t in s.tasks && s.tasks[t].proxy in s.proxies
    && var pc := s.tasks[t].pc;
    if step.Get? then pc.Permitted? && step.c in s.conns && s.conns[step.c].open && s.conns[step.c].holder.None?
    else
      && pc.Uses().Some? && pc.conn in s.conns
      && var open := s.conns[pc.conn].open;
      match step
      case SetPath => pc.Connected? && open
      case SetPathFails => pc.Connected?
      case BodySets(_) => pc.Body? && open
      case Reset => pc.Body? && open
      case ResetFails => pc.Body? && open
      case SkipReset => pc.Body? && !open
      case GiveBack => pc.Leaving?
      case Get(_) => false
  }

  predicate Enabled(s: State, step: Step) {
    match step
    case Pool(c, pool) => PoolEnabled(s, c, pool)
    case Proxying(p, proxying) => ProxyEnabled(s, p, proxying)
    case Permit(t, permit) => PermitEnabled(s, t, permit)
    case Conn(t, conn) => ConnEnabled(s, t, conn)
  }

  function ApplyPool(s: State, c: nat, step: PoolStep): State
    requires PoolEnabled(s, c, step)
  {
    var conn := match step
      case Opens => Connection(true, s.serverDefault, None)
      case Closes => s.conns[c].(open := false)
      case Reconnects => Connection(true, s.serverDefault, None)
      case OtherTakes => s.conns[c].(holder := Some(OtherUser))
      case OtherReturns => s.conns[c].(holder := None);
    s.(conns := s.conns[c := conn])
  }

  function ApplyProxy(s: State, p: nat, step: ProxyStep): State
    requires ProxyEnabled(s, p, step)
  {
    match step
    case Create(schema, max) =>
      s.(proxies := s.proxies[p := Proxy(schema, ASSUMED_DEFAULT, false, max, max, 0, {})])
    case Start(c) =>
      s.(proxies := s.proxies[p := s.proxies[p].(defaultPath := s.conns[c].path, started := true)])
    case Spawn(t) => s.(tasks := s.tasks[t := Task(p, s.proxies[p].defaultPath != s.serverDefault, Waiting)])
    case Drain =>
      s.(proxies := s.proxies[p := s.proxies[p].(free := s.proxies[p].free - 1, drained := s.proxies[p].drained + 1)])
  }

  function ApplyPermit(s: State, t: nat, step: PermitStep): State
    requires PermitEnabled(s, t, step)
  {
    var p := s.tasks[t].proxy;
    var proxy := s.proxies[p];
    match step
    case Take =>
      State(s.serverDefault, s.conns, s.proxies[p := proxy.(free := proxy.free - 1, holders := proxy.holders + {t})],
            s.tasks[t := s.tasks[t].(pc := Permitted)])
    case Refused => s.(tasks := s.tasks[t := s.tasks[t].(pc := Releasing)])
    case Release =>
      State(s.serverDefault, s.conns, s.proxies[p := proxy.(free := proxy.free + 1, holders := proxy.holders - {t})],
            s.tasks[t := s.tasks[t].(pc := Finished)])
  }

  function ApplyConn(s: State, t: nat, step: ConnStep): State
    requires ConnEnabled(s, t, step)
  {
    var Task(p, _, pc) := s.tasks[t];
    var c := if step.Get? then step.c else pc.conn;
    var conn := s.conns[c];
    var (conn', pc') := match step
      case Get(_) => (conn.(holder := Some(Plugin(t))), Connected(c))
      case SetPath => (conn.(path := s.proxies[p].schema), Body(c))
      case SetPathFails => (conn, Leaving(c))
      case BodySets(path) => (conn.(path := path), Body(c))
      case Reset => (conn.(path := s.proxies[p].defaultPath), Leaving(c))
      case ResetFails => (conn.(open := false), Leaving(c))
      case SkipReset => (conn, Leaving(c))
      case GiveBack => (conn.(holder := None), Releasing);
    s.(conns := s.conns[c := conn'], tasks := s.tasks[t := s.tasks[t].(pc := pc')])
  }

  function Apply(s: State, step: Step): State
    requires Enabled(s, step)
  {
    match step
    case Pool(c, pool) => ApplyPool(s, c, pool)
    case Proxying(p, proxying) => ApplyProxy(s, p, proxying)
    case Permit(t, permit) => ApplyPermit(s, t, permit)
    case Conn(t, conn) => ApplyConn(s, t, conn)
  }

  // ---------------------------------------------------------------------
  // What every step keeps
  // ---------------------------------------------------------------------

  /** No permit is made or lost: free, held and drained ones add up to the bound. */
  predicate PermitsConserved(s: State) {
    forall p | p in s.proxies :: s.proxies[p].free + |s.proxies[p].holders| + s.proxies[p].drained == s.proxies[p].maxConns
  }

  /** Holders are the tasks that are between taking and releasing a permit. */
  ghost predicate HoldersAreTasks(s: State) {
    && (forall t | t in s.tasks :: s.tasks[t].proxy in s.proxies)
    && (forall p, t | p in s.proxies ::
          t in s.proxies[p].holders <==> t in s.tasks && s.tasks[t].proxy == p && s.tasks[t].pc.HasPermit())
  }

  /** A connection is marked as held by the task that uses it, and by no other. */
  ghost predicate ConnectionsOwned(s: State) {
    && (forall t | t in s.tasks && s.tasks[t].pc.Uses().Some? ::
          var c := s.tasks[t].pc.Uses().value;
          c in s.conns && s.conns[c].holder == Some(Plugin(t)))
    && (forall c | c in s.conns && s.conns[c].holder.Some? && s.conns[c].holder.value.Plugin? ::
          var t := s.conns[c].holder.value.task;
          t in s.tasks && s.tasks[t].pc.Uses() == Some(c))
  }

  /** No task has come in early. */
  ghost predicate NoneEarly(s: State) {
    forall t | t in s.tasks :: !s.tasks[t].early
  }

  /** The proxies of all tasks know the server's default path. */
  ghost predicate TasksKnow(s: State) {
    forall t | t in s.tasks ::
      s.tasks[t].proxy in s.proxies && s.proxies[s.tasks[t].proxy].defaultPath == s.serverDefault
  }

  /** Outside plugin code, search paths are the server's default. */
  ghost predicate PathsIsolated(s: State) {
    && (forall p | p in s.proxies && s.proxies[p].started :: s.proxies[p].defaultPath == s.serverDefault)
    && (forall c | c in s.conns && s.conns[c].open && (s.conns[c].holder.None? || s.conns[c].holder.value.OtherUser?) ::
          s.conns[c].path == s.serverDefault)
    && (forall t | t in s.tasks && (s.tasks[t].pc.Connected? || s.tasks[t].pc.Leaving?) ::
          var c := s.tasks[t].pc.conn;
          c in s.conns && s.conns[c].open ==> s.conns[c].path == s.serverDefault)
  }

  ghost predicate Inv(s: State) {
    && PermitsConserved(s) && HoldersAreTasks(s) && ConnectionsOwned(s)
    && (NoneEarly(s) ==> PathsIsolated(s) && TasksKnow(s))
  }

  lemma {:induction false} PoolKeepsPermits(s: State, c: nat, step: PoolStep)
    requires PermitsConserved(s) && PoolEnabled(s, c, step)
    ensures PermitsConserved(ApplyPool(s, c, step))
  {
  }

  lemma {:induction false} PoolKeepsHolders(s: State, c: nat, step: PoolStep)
    requires HoldersAreTasks(s) && PoolEnabled(s, c, step)
    ensures HoldersAreTasks(ApplyPool(s, c, step))
  {
  }

  lemma {:induction false} PoolKeepsOwners(s: State, c: nat, step: PoolStep)
    requires ConnectionsOwned(s) && PoolEnabled(s, c, step)
    ensures ConnectionsOwned(ApplyPool(s, c, step))
  {
  }

  lemma {:induction false} PoolKeepsPaths(s: State, c: nat, step: PoolStep)
    requires PathsIsolated(s) && ConnectionsOwned(s) && PoolEnabled(s, c, step)
    ensures PathsIsolated(ApplyPool(s, c, step))
  {
  }

  lemma {:induction false} ProxyKeepsPermits(s: State, p: nat, step: ProxyStep)
    requires PermitsConserved(s) && ProxyEnabled(s, p, step)
    ensures PermitsConserved(ApplyProxy(s, p, step))
  {
  }

  lemma {:induction false} ProxyKeepsHolders(s: State, p: nat, step: ProxyStep)
    requires HoldersAreTasks(s) && ProxyEnabled(s, p, step)
    ensures HoldersAreTasks(ApplyProxy(s, p, step))
  {
  }

  lemma {:induction false} ProxyKeepsOwners(s: State, p: nat, step: ProxyStep)
    requires ConnectionsOwned(s) && ProxyEnabled(s, p, step)
    ensures ConnectionsOwned(ApplyProxy(s, p, step))
  {
  }

  lemma {:induction false} ProxyKeepsPaths(s: State, p: nat, step: ProxyStep)
    requires PathsIsolated(s) && HoldersAreTasks(s) && ProxyEnabled(s, p, step)
    ensures PathsIsolated(ApplyProxy(s, p, step))
  {
  }

  lemma {:induction false} PermitKeepsPermits(s: State, t: nat, step: PermitStep)
    requires PermitsConserved(s) && HoldersAreTasks(s) && PermitEnabled(s, t, step)
    ensures PermitsConserved(ApplyPermit(s, t, step))
  {
    assert step.Take? ==> t !in s.proxies[s.tasks[t].proxy].holders;
    assert step.Release? ==> t in s.proxies[s.tasks[t].proxy].holders;
  }

  lemma {:induction false} PermitKeepsHolders(s: State, t: nat, step: PermitStep)
    requires HoldersAreTasks(s) && PermitEnabled(s, t, step)
    ensures HoldersAreTasks(ApplyPermit(s, t, step))
  {
  }

  lemma {:induction false} PermitKeepsOwners(s: State, t: nat, step: PermitStep)
    requires ConnectionsOwned(s) && PermitEnabled(s, t, step)
    ensures ConnectionsOwned(ApplyPermit(s, t, step))
  {
  }

  lemma {:induction false} PermitKeepsPaths(s: State, t: nat, step: PermitStep)
    requires PathsIsolated(s) && HoldersAreTasks(s) && PermitEnabled(s, t, step)
    ensures PathsIsolated(ApplyPermit(s, t, step))
  {
  }

  lemma {:induction false} ConnKeepsPermits(s: State, t: nat, step: ConnStep)
    requires PermitsConserved(s) && ConnEnabled(s, t, step)
    ensures PermitsConserved(ApplyConn(s, t, step))
  {
  }

  lemma {:induction false} ConnKeepsHolders(s: State, t: nat, step: ConnStep)
    requires HoldersAreTasks(s) && ConnEnabled(s, t, step)
    ensures HoldersAreTasks(ApplyConn(s, t, step))
  {
  }

  lemma {:induction false} ConnKeepsOwners(s: State, t: nat, step: ConnStep)
    requires ConnectionsOwned(s) && ConnEnabled(s, t, step)
    ensures ConnectionsOwned(ApplyConn(s, t, step))
  {
  }

  lemma {:induction false} ConnKeepsPaths(s: State, t: nat, step: ConnStep)
    requires PathsIsolated(s) && TasksKnow(s) && ConnectionsOwned(s) && ConnEnabled(s, t, step)
    ensures PathsIsolated(ApplyConn(s, t, step))
  {
  }

  lemma {:induction false} PoolStaysEarly(s: State, c: nat, step: PoolStep)
    requires PoolEnabled(s, c, step)
    ensures NoneEarly(ApplyPool(s, c, step)) ==> NoneEarly(s)
  {
    var next := ApplyPool(s, c, step);
    if NoneEarly(next) {
      forall u | u in s.tasks
        ensures !s.tasks[u].early
      {
        assert u in next.tasks && next.tasks[u].early == s.tasks[u].early;
      }
    }
  }

  lemma {:induction false} PoolKeepsKnowing(s: State, c: nat, step: PoolStep)
    requires TasksKnow(s) && PoolEnabled(s, c, step)
    ensures TasksKnow(ApplyPool(s, c, step))
  {
  }

  lemma {:induction false} PoolKeepsInv(s: State, c: nat, step: PoolStep)
    requires Inv(s) && PoolEnabled(s, c, step)
    ensures Inv(ApplyPool(s, c, step))
  {
    hide ApplyPool, PoolEnabled, PermitsConserved, HoldersAreTasks, ConnectionsOwned, PathsIsolated, NoneEarly, TasksKnow;
    PoolKeepsPermits(s, c, step);
    PoolKeepsHolders(s, c, step);
    PoolKeepsOwners(s, c, step);
    PoolStaysEarly(s, c, step);
    if NoneEarly(ApplyPool(s, c, step)) {
      PoolKeepsPaths(s, c, step);
      PoolKeepsKnowing(s, c, step);
    }
  }

  lemma {:induction false} ProxyStaysEarly(s: State, p: nat, step: ProxyStep)
    requires ProxyEnabled(s, p, step)
    ensures NoneEarly(ApplyProxy(s, p, step)) ==> NoneEarly(s)
  {
    var next := ApplyProxy(s, p, step);
    if NoneEarly(next) {
      forall u | u in s.tasks
        ensures !s.tasks[u].early
      {
        assert u in next.tasks && next.tasks[u].early == s.tasks[u].early;
      }
    }
  }

  lemma {:induction false} ProxyKeepsKnowing(s: State, p: nat, step: ProxyStep)
    requires TasksKnow(s) && PathsIsolated(s) && ProxyEnabled(s, p, step) && NoneEarly(ApplyProxy(s, p, step))
    ensures TasksKnow(ApplyProxy(s, p, step))
  {
  }

  lemma {:induction false} ProxyKeepsInv(s: State, p: nat, step: ProxyStep)
    requires Inv(s) && ProxyEnabled(s, p, step)
    ensures Inv(ApplyProxy(s, p, step))
  {
    hide ApplyProxy, ProxyEnabled, PermitsConserved, HoldersAreTasks, ConnectionsOwned, PathsIsolated, NoneEarly, TasksKnow;
    ProxyKeepsPermits(s, p, step);
    ProxyKeepsHolders(s, p, step);
    ProxyKeepsOwners(s, p, step);
    ProxyStaysEarly(s, p, step);
    if NoneEarly(ApplyProxy(s, p, step)) {
      ProxyKeepsPaths(s, p, step);
      ProxyKeepsKnowing(s, p, step);
    }
  }

  lemma {:induction false} PermitStaysEarly(s: State, t: nat, step: PermitStep)
    requires PermitEnabled(s, t, step)
    ensures NoneEarly(ApplyPermit(s, t, step)) ==> NoneEarly(s)
  {
    var next := ApplyPermit(s, t, step);
    if NoneEarly(next) {
      forall u | u in s.tasks
        ensures !s.tasks[u].early
      {
        assert u in next.tasks && next.tasks[u].early == s.tasks[u].early;
      }
    }
  }

  lemma {:induction false} PermitKeepsKnowing(s: State, t: nat, step: PermitStep)
    requires TasksKnow(s) && PermitEnabled(s, t, step)
    ensures TasksKnow(ApplyPermit(s, t, step))
  {
  }

  lemma {:induction false} PermitKeepsInv(s: State, t: nat, step: PermitStep)
    requires Inv(s) && PermitEnabled(s, t, step)
    ensures Inv(ApplyPermit(s, t, step))
  {
    hide ApplyPermit, PermitEnabled, PermitsConserved, HoldersAreTasks, ConnectionsOwned, PathsIsolated, NoneEarly, TasksKnow;
    PermitKeepsPermits(s, t, step);
    PermitKeepsHolders(s, t, step);
    PermitKeepsOwners(s, t, step);
    PermitStaysEarly(s, t, step);
    if NoneEarly(ApplyPermit(s, t, step)) {
      PermitKeepsPaths(s, t, step);
      PermitKeepsKnowing(s, t, step);
    }
  }

  lemma {:induction false} ConnStaysEarly(s: State, t: nat, step: ConnStep)
    requires ConnEnabled(s, t, step)
    ensures NoneEarly(ApplyConn(s, t, step)) ==> NoneEarly(s)
  {
    var next := ApplyConn(s, t, step);
    if NoneEarly(next) {
      forall u | u in s.tasks
        ensures !s.tasks[u].early
      {
        assert u in next.tasks && next.tasks[u].early == s.tasks[u].early;
      }
    }
  }

  lemma {:induction false} ConnKeepsKnowing(s: State, t: nat, step: ConnStep)
    requires TasksKnow(s) && ConnEnabled(s, t, step)
    ensures TasksKnow(ApplyConn(s, t, step))
  {
  }

  lemma {:induction false} ConnKeepsInv(s: State, t: nat, step: ConnStep)
    requires Inv(s) && ConnEnabled(s, t, step)
    ensures Inv(ApplyConn(s, t, step))
  {
    hide ApplyConn, ConnEnabled, PermitsConserved, HoldersAreTasks, ConnectionsOwned, PathsIsolated, NoneEarly, TasksKnow;
    ConnKeepsPermits(s, t, step);
    ConnKeepsHolders(s, t, step);
    ConnKeepsOwners(s, t, step);
    ConnStaysEarly(s, t, step);
    if NoneEarly(ApplyConn(s, t, step)) {
      ConnKeepsPaths(s, t, step);
      ConnKeepsKnowing(s, t, step);
    }
  }

  lemma {:induction false} StepKeepsInv(s: State, step: Step)
    requires Inv(s) && Enabled(s, step)
    ensures Inv(Apply(s, step))
  {
    hide Inv;
    match step
    case Pool(c, pool) => PoolKeepsInv(s, c, pool);
    case Proxying(p, proxying) => ProxyKeepsInv(s, p, proxying);
    case Permit(t, permit) => PermitKeepsInv(s, t, permit);
    case Conn(t, conn) => ConnKeepsInv(s, t, conn);
  }

  // ---------------------------------------------------------------------
  // Runs
  // ---------------------------------------------------------------------

  /** Every step of the run is enabled when its turn comes. */
  predicate IsRun(s: State, steps: seq<Step>)
    decreases |steps|
  {
    steps != [] ==> Enabled(s, steps[0]) && IsRun(Apply(s, steps[0]), steps[1..])
  }

  function After(s: State, steps: seq<Step>): State
    requires IsRun(s, steps)
    decreases |steps|
  {
    if steps == [] then s else After(Apply(s, steps[0]), steps[1..])
  }

  lemma {:induction false} RunKeepsInv(s: State, steps: seq<Step>)
    requires Inv(s) && IsRun(s, steps)
    ensures Inv(After(s, steps))
    decreases |steps|
  {
    hide Inv, Apply, Enabled;
    if steps != [] {
      StepKeepsInv(s, steps[0]);
      RunKeepsInv(Apply(s, steps[0]), steps[1..]);
    }
  }

  lemma {:induction false} InitInv(serverDefault: SearchPath)
    ensures Inv(Init(serverDefault))
  {
  }

  /** Every open connection that no plugin holds has the server's default path. */
  ghost predicate Isolated(s: State) {
    forall c | c in s.conns && s.conns[c].open && (s.conns[c].holder.None? || s.conns[c].holder.value.OtherUser?) ::
      s.conns[c].path == s.serverDefault
  }

  /** The path that a task was last seen to set for itself, going through the steps of a run. */
  function LastSet(t: nat, seen: Option<SearchPath>, steps: seq<Step>): Option<SearchPath>
    decreases |steps|
  {
    if steps == [] then seen
    else
      LastSet(t, if steps[0].Conn? && steps[0].t == t && steps[0].conn.BodySets? then Some(steps[0].conn.path) else seen, steps[1..])
  }

  /** The body of the task sees what it set last, or else the schema of its plugin; before the body it has set nothing. */
  ghost predicate SeesItsOwn(s: State, t: nat, seen: Option<SearchPath>) {
    && (t !in s.tasks || s.tasks[t].pc.Waiting? || s.tasks[t].pc.Permitted? || s.tasks[t].pc.Connected? ==> seen.None?)
    && (t in s.tasks && s.tasks[t].pc.Body? ==>
          && s.tasks[t].pc.conn in s.conns && s.tasks[t].proxy in s.proxies
          && (s.conns[s.tasks[t].pc.conn].open ==>
                s.conns[s.tasks[t].pc.conn].path == if seen.Some? then seen.value else s.proxies[s.tasks[t].proxy].schema))
  }

  lemma {:induction false} ConnKeepsSeeing(s: State, u: nat, step: ConnStep, t: nat, seen: Option<SearchPath>)
    requires ConnectionsOwned(s) && ConnEnabled(s, u, step) && SeesItsOwn(s, t, seen)
    ensures SeesItsOwn(ApplyConn(s, u, step), t, if u == t && step.BodySets? then Some(step.path) else seen)
  {
  }

  lemma {:induction false} PermitKeepsSeeing(s: State, u: nat, step: PermitStep, t: nat, seen: Option<SearchPath>)
    requires PermitEnabled(s, u, step) && SeesItsOwn(s, t, seen)
    ensures SeesItsOwn(ApplyPermit(s, u, step), t, seen)
  {
  }

  lemma {:induction false} ProxyKeepsSeeing(s: State, p: nat, step: ProxyStep, t: nat, seen: Option<SearchPath>)
    requires ProxyEnabled(s, p, step) && SeesItsOwn(s, t, seen)
    ensures SeesItsOwn(ApplyProxy(s, p, step), t, seen)
  {
  }

  lemma {:induction false} PoolKeepsSeeing(s: State, c: nat, step: PoolStep, t: nat, seen: Option<SearchPath>)
    requires ConnectionsOwned(s) && PoolEnabled(s, c, step) && SeesItsOwn(s, t, seen)
    ensures SeesItsOwn(ApplyPool(s, c, step), t, seen)
  {
  }

  lemma {:induction false} RunKeepsSeeing(s: State, steps: seq<Step>, t: nat, seen: Option<SearchPath>)
    requires Inv(s) && IsRun(s, steps) && SeesItsOwn(s, t, seen)
    ensures SeesItsOwn(After(s, steps), t, LastSet(t, seen, steps))
    decreases |steps|
  {
    hide PermitsConserved, HoldersAreTasks, ConnectionsOwned, PathsIsolated, TasksKnow, NoneEarly, SeesItsOwn,
         ApplyConn, ApplyPermit, ApplyProxy, ApplyPool, ConnEnabled, PermitEnabled, ProxyEnabled, PoolEnabled;
    if steps != [] {
      StepKeepsInv(s, steps[0]);
      match steps[0] {
        case Pool(c, pool) => PoolKeepsSeeing(s, c, pool, t, seen);
        case Proxying(p, proxying) => ProxyKeepsSeeing(s, p, proxying, t, seen);
        case Permit(u, permit) => PermitKeepsSeeing(s, u, permit, t, seen);
        case Conn(u, conn) => ConnKeepsSeeing(s, u, conn, t, seen);
      }
      RunKeepsSeeing(Apply(s, steps[0]), steps[1..], t,
                     if steps[0].Conn? && steps[0].t == t && steps[0].conn.BodySets? then Some(steps[0].conn.path) else seen);
    }
  }

  /**
   What a body sees, after any interleaving: as long as its connection is open,
   the path there is the one the task itself set last, and the schema of its own
   plugin if it has set none; so every body begins with its own schema, whatever
   path an earlier body on that connection left.
   */
  lemma {:induction false} BodySeesItsOwn(serverDefault: SearchPath, steps: seq<Step>, t: nat)
    requires IsRun(Init(serverDefault), steps)
    ensures var s := After(Init(serverDefault), steps);
            t in s.tasks && s.tasks[t].pc.Body? ==>
              && s.tasks[t].pc.conn in s.conns && s.tasks[t].proxy in s.proxies
              && (s.conns[s.tasks[t].pc.conn].open ==>
                    var own := LastSet(t, None, steps);
                    s.conns[s.tasks[t].pc.conn].path ==
                    if own.Some? then own.value else s.proxies[s.tasks[t].proxy].schema)
  {
    hide Apply, Enabled, IsRun, After, LastSet;
    InitInv(serverDefault);
    RunKeepsSeeing(Init(serverDefault), steps, t, None);
  }

  /** The proxy as its constructor was called, going through the steps of a run. */
  function CreatedAs(p: nat, seen: Option<(SearchPath, nat)>, steps: seq<Step>): Option<(SearchPath, nat)>
    decreases |steps|
  {
    if steps == [] then seen
    else
      var step := steps[0];
      CreatedAs(p, if step.Proxying? && step.p == p && step.proxying.Create?
                   then Some((step.proxying.schema, step.proxying.maxConns)) else seen, steps[1..])
  }

  ghost predicate IsAsCreated(s: State, p: nat, seen: Option<(SearchPath, nat)>) {
    seen == if p in s.proxies then Some((s.proxies[p].schema, s.proxies[p].maxConns)) else None
  }

  /** Schema and bound of a proxy are those it was created with, after any interleaving. */
  lemma {:induction false} ProxiesStayAsCreated(s: State, steps: seq<Step>, p: nat, seen: Option<(SearchPath, nat)>)
    requires IsRun(s, steps) && IsAsCreated(s, p, seen)
    ensures IsAsCreated(After(s, steps), p, CreatedAs(p, seen, steps))
    decreases |steps|
  {
    if steps != [] {
      var step := steps[0];
      var now := if step.Proxying? && step.p == p && step.proxying.Create?
                 then Some((step.proxying.schema, step.proxying.maxConns)) else seen;
      StepKeepsCreation(s, step, p, seen, now);
      ProxiesStayAsCreated(Apply(s, step), steps[1..], p, now);
    }
  }

  lemma {:induction false} StepKeepsCreation(
    s: State, step: Step, p: nat, seen: Option<(SearchPath, nat)>, now: Option<(SearchPath, nat)>)
    requires Enabled(s, step) && IsAsCreated(s, p, seen)
    requires now == if step.Proxying? && step.p == p && step.proxying.Create?
                    then Some((step.proxying.schema, step.proxying.maxConns)) else seen
    ensures IsAsCreated(Apply(s, step), p, now)
  {
  }

  /**
   Schema isolation: after any interleaving no two tasks use one connection; and
   if no task came in before its proxy knew the default path, every open
   connection that no plugin holds has the server's default path, whatever bodies
   have done to theirs.
   */
  lemma {:induction false} SchemaIsolation(serverDefault: SearchPath, steps: seq<Step>)
    requires IsRun(Init(serverDefault), steps)
    ensures var s := After(Init(serverDefault), steps);
            && (NoneEarly(s) ==> Isolated(s))
            && (forall t, u | t in s.tasks && u in s.tasks && s.tasks[t].pc.Uses().Some? ::
                  s.tasks[t].pc.Uses() == s.tasks[u].pc.Uses() ==> t == u)
  {
    hide Apply, Enabled, PermitsConserved, HoldersAreTasks, IsRun, After, NoneEarly, TasksKnow;
    InitInv(serverDefault);
    RunKeepsInv(Init(serverDefault), steps);
  }

  /** Every task comes in when its proxy has been started. */
  predicate StartedFirst(s: State, steps: seq<Step>)
    requires IsRun(s, steps)
    decreases |steps|
  {
    steps != [] ==>
      && (steps[0].Proxying? && steps[0].proxying.Spawn? ==> s.proxies[steps[0].p].started)
      && StartedFirst(Apply(s, steps[0]), steps[1..])
  }

  lemma {:induction false} StartedIsNotEarly(s: State, step: Step)
    requires NoneEarly(s) && PathsIsolated(s) && Enabled(s, step)
    requires step.Proxying? && step.proxying.Spawn? ==> s.proxies[step.p].started
    ensures NoneEarly(Apply(s, step))
  {
  }

  lemma {:induction false} RunStaysTimely(s: State, steps: seq<Step>)
    requires Inv(s) && NoneEarly(s) && IsRun(s, steps) && StartedFirst(s, steps)
    ensures NoneEarly(After(s, steps))
    decreases |steps|
  {
    hide Apply, NoneEarly, PathsIsolated, PermitsConserved, HoldersAreTasks, ConnectionsOwned, TasksKnow;
    if steps != [] {
      StepKeepsInv(s, steps[0]);
      StartedIsNotEarly(s, steps[0]);
      RunStaysTimely(Apply(s, steps[0]), steps[1..]);
    }
  }

  /** Isolation for callers that start a proxy before they use it, on any server. */
  lemma {:induction false} IsolatedAfterStart(serverDefault: SearchPath, steps: seq<Step>)
    requires IsRun(Init(serverDefault), steps) && StartedFirst(Init(serverDefault), steps)
    ensures Isolated(After(Init(serverDefault), steps))
  {
    hide Apply, Enabled, IsRun, After, Isolated, PathsIsolated, PermitsConserved, HoldersAreTasks, StartedFirst;
    InitInv(serverDefault);
    RunStaysTimely(Init(serverDefault), steps);
    SchemaIsolation(serverDefault, steps);
  }

  /** On a server whose default is the assumed one, every proxy knows it from the beginning. */
  ghost predicate AllAssumeRightly(s: State) {
    s.serverDefault == ASSUMED_DEFAULT && NoneEarly(s)
    && forall p | p in s.proxies :: s.proxies[p].defaultPath == s.serverDefault
  }

  lemma {:induction false} StepKeepsAssuming(s: State, step: Step)
    requires AllAssumeRightly(s) && Isolated(s) && Enabled(s, step)
    ensures AllAssumeRightly(Apply(s, step))
  {
  }

  lemma {:induction false} RunKeepsAssuming(s: State, steps: seq<Step>)
    requires Inv(s) && AllAssumeRightly(s) && IsRun(s, steps)
    ensures AllAssumeRightly(After(s, steps))
    decreases |steps|
  {
    hide Apply, Enabled, PermitsConserved, HoldersAreTasks, ConnectionsOwned, TasksKnow;
    if steps != [] {
      StepKeepsInv(s, steps[0]);
      StepKeepsAssuming(s, steps[0]);
      RunKeepsAssuming(Apply(s, steps[0]), steps[1..]);
    }
  }

  lemma {:induction false} ThenRun(s: State, step: Step, next: State, rest: seq<Step>)
    requires Enabled(s, step) && next == Apply(s, step) && IsRun(next, rest)
    ensures IsRun(s, [step] + rest) && After(s, [step] + rest) == After(next, rest)
  {
    hide Enabled, Apply;
    assert ([step] + rest)[1..] == rest;
  }

  /** What a task that waits for a permit, and a free connection, look like. */
  ghost predicate CanEnter(s: State, t: nat, c: nat) {
    && t in s.tasks && s.tasks[t].pc.Waiting? && s.tasks[t].proxy in s.proxies && s.proxies[s.tasks[t].proxy].free > 0
    && c in s.conns && s.conns[c].open && s.conns[c].holder.None?
  }

  /** The task goes through `acquire_direct` undisturbed; the connection comes back with the path its proxy takes for the default. */
  lemma {:induction false} OneAcquire(s: State, t: nat, c: nat) returns (steps: seq<Step>)
    requires CanEnter(s, t, c)
    ensures IsRun(s, steps)
    ensures var r := After(s, steps);
            && r.serverDefault == s.serverDefault && c in r.conns
            && r.conns[c] == Connection(true, s.proxies[s.tasks[t].proxy].defaultPath, None)
  {
    hide IsRun, After;
    var p := s.tasks[t].proxy;
    var a := Apply(s, Permit(t, Take));
    assert a.tasks[t] == s.tasks[t].(pc := Permitted) && a.conns == s.conns && a.proxies[p].defaultPath == s.proxies[p].defaultPath;
    var b := Apply(a, Conn(t, Get(c)));
    assert b.tasks[t] == s.tasks[t].(pc := Connected(c)) && b.conns[c].open && b.proxies == a.proxies;
    var d := Apply(b, Conn(t, SetPath));
    assert d.tasks[t] == s.tasks[t].(pc := Body(c)) && d.conns[c].open && d.proxies == a.proxies;
    var e := Apply(d, Conn(t, Reset));
    assert e.tasks[t] == s.tasks[t].(pc := Leaving(c)) && e.conns[c].open && e.conns[c].path == s.proxies[p].defaultPath;
    var f := Apply(e, Conn(t, GiveBack));
    NoSteps(f);
    steps := [];
    ThenRun(e, Conn(t, GiveBack), f, steps);
    steps := [Conn(t, GiveBack)] + steps;
    ThenRun(d, Conn(t, Reset), e, steps);
    steps := [Conn(t, Reset)] + steps;
    ThenRun(b, Conn(t, SetPath), d, steps);
    steps := [Conn(t, SetPath)] + steps;
    ThenRun(a, Conn(t, Get(c)), b, steps);
    steps := [Conn(t, Get(c))] + steps;
    ThenRun(s, Permit(t, Take), a, steps);
    steps := [Permit(t, Take)] + steps;
  }

  lemma {:induction false} NoSteps(s: State)
    ensures IsRun(s, []) && After(s, []) == s
  {
  }

  /** A task that gets a connection before `start` gives it back with the assumed path. */
  lemma {:induction false} EarlyTaskLeaks(serverDefault: SearchPath, schema: SearchPath) returns (steps: seq<Step>)
    requires serverDefault != ASSUMED_DEFAULT
    ensures IsRun(Init(serverDefault), steps) && !Isolated(After(Init(serverDefault), steps))
  {
    hide IsRun, After;
    var s0 := Init(serverDefault);
    var s1 := Apply(s0, Proxying(0, Create(schema, 1)));
    var s2 := Apply(s1, Proxying(0, Spawn(0)));
    var s3 := Apply(s2, Pool(0, Opens));
    assert CanEnter(s3, 0, 0) && s3.proxies[0].defaultPath == ASSUMED_DEFAULT && s3.serverDefault == serverDefault;
    steps := OneAcquire(s3, 0, 0);
    ThenRun(s2, Pool(0, Opens), s3, steps);
    steps := [Pool(0, Opens)] + steps;
    ThenRun(s1, Proxying(0, Spawn(0)), s2, steps);
    steps := [Proxying(0, Spawn(0))] + steps;
    ThenRun(s0, Proxying(0, Create(schema, 1)), s1, steps);
    steps := [Proxying(0, Create(schema, 1))] + steps;
  }

  /** Without waiting for `start`, connections are isolated in every run exactly on servers with the assumed default. */
  lemma {:induction false} IsolatedWithoutStart(serverDefault: SearchPath)
    ensures (forall steps | IsRun(Init(serverDefault), steps) :: Isolated(After(Init(serverDefault), steps)))
            <==> serverDefault == "\"$user\", public"
  {
    hide Apply, Enabled, IsRun, After, Isolated, PathsIsolated, PermitsConserved, HoldersAreTasks;
    if serverDefault == ASSUMED_DEFAULT {
      forall steps | IsRun(Init(serverDefault), steps)
        ensures Isolated(After(Init(serverDefault), steps))
      {
        InitInv(serverDefault);
        RunKeepsAssuming(Init(serverDefault), steps);
        SchemaIsolation(serverDefault, steps);
      }
    } else {
      var steps := EarlyTaskLeaks(serverDefault, "");
    }
  }

  /**
   No task is stuck, whatever goes wrong: outside the waits for a permit and for a
   connection each has a step to take, both when its connection is open and when it
   has been closed, and a body may do what it likes with its path.
   */
  lemma {:induction false} NoTaskIsStuck(s: State, t: nat)
    requires Inv(s) && t in s.tasks
    ensures var pc, p := s.tasks[t].pc, s.tasks[t].proxy;
            && p in s.proxies
            && (pc.Waiting? && s.proxies[p].free > 0 ==> Enabled(s, Permit(t, Take)))
            && (pc.Permitted? ==> Enabled(s, Permit(t, Refused)))
            && (pc.Permitted? ==> forall c | c in s.conns && s.conns[c].open && s.conns[c].holder.None? :: Enabled(s, Conn(t, Get(c))))
            && (pc.Connected? ==> Enabled(s, Conn(t, SetPathFails)))
            && (pc.Connected? && s.conns[pc.conn].open ==> Enabled(s, Conn(t, SetPath)))
            && (pc.Body? ==>
                  if s.conns[pc.conn].open
                  then Enabled(s, Conn(t, Reset)) && Enabled(s, Conn(t, ResetFails)) && forall q :: Enabled(s, Conn(t, BodySets(q)))
                  else Enabled(s, Conn(t, SkipReset)))
            && (pc.Leaving? ==> Enabled(s, Conn(t, GiveBack)))
            && (pc.Releasing? ==> Enabled(s, Permit(t, Release)))
  {
    hide PermitsConserved, PathsIsolated, TasksKnow, NoneEarly;
  }

  /** What may happen to a connection, and when proxies and tasks may come. */
  lemma {:induction false} PoolIsFree(s: State, c: nat, p: nat, t: nat, schema: SearchPath, maxConns: nat)
    ensures c !in s.conns ==> Enabled(s, Pool(c, Opens))
    ensures c in s.conns ==> Enabled(s, Pool(c, Closes))
    ensures c in s.conns && s.conns[c].holder.None? ==> Enabled(s, Pool(c, if s.conns[c].open then OtherTakes else Reconnects))
    ensures c in s.conns && s.conns[c].holder == Some(OtherUser) ==>
              Enabled(s, Pool(c, OtherReturns)) && (p in s.proxies && s.conns[c].open ==> Enabled(s, Proxying(p, Start(c))))
    ensures p !in s.proxies ==> Enabled(s, Proxying(p, Create(schema, maxConns)))
    ensures p in s.proxies && t !in s.tasks ==> Enabled(s, Proxying(p, Spawn(t)))
  {
  }

  /**
   Permit conservation: after any interleaving the permits of every proxy add up
   to its bound, and releasing one never exceeds it (a BoundedSemaphore would
   raise).
   */
  lemma {:induction false} PermitConservation(serverDefault: SearchPath, steps: seq<Step>)
    requires IsRun(Init(serverDefault), steps)
    ensures var s := After(Init(serverDefault), steps);
            && (forall p | p in s.proxies ::
                  s.proxies[p].free + |s.proxies[p].holders| + s.proxies[p].drained == s.proxies[p].maxConns)
            && (forall t | PermitEnabled(s, t, Release) ::
                  s.proxies[s.tasks[t].proxy].free < s.proxies[s.tasks[t].proxy].maxConns)
  {
    hide Apply, Enabled, ConnectionsOwned, PathsIsolated, IsRun, After;
    InitInv(serverDefault);
    RunKeepsInv(Init(serverDefault), steps);
    var s := After(Init(serverDefault), steps);
    forall t | PermitEnabled(s, t, Release)
      ensures s.proxies[s.tasks[t].proxy].free < s.proxies[s.tasks[t].proxy].maxConns
    {
      assert t in s.proxies[s.tasks[t].proxy].holders;
    }
  }

  /** `stop` has taken every permit of the proxy. */
  predicate FullyDrained(s: State, p: nat) {
    p in s.proxies && s.proxies[p].drained == s.proxies[p].maxConns
  }

  lemma {:induction false} DrainedStep(s: State, p: nat, step: Step)
    requires Inv(s) && FullyDrained(s, p) && Enabled(s, step)
    ensures FullyDrained(Apply(s, step), p)
  {
    hide HoldersAreTasks, ConnectionsOwned, PathsIsolated;
  }

  lemma {:induction false} DrainedRun(s: State, p: nat, steps: seq<Step>)
    requires Inv(s) && FullyDrained(s, p) && IsRun(s, steps)
    ensures FullyDrained(After(s, steps), p)
    decreases |steps|
  {
    hide Inv, Apply, Enabled, FullyDrained;
    if steps != [] {
      StepKeepsInv(s, steps[0]);
      DrainedStep(s, p, steps[0]);
      DrainedRun(Apply(s, steps[0]), p, steps[1..]);
    }
  }

  /**
   Final drain: once `stop` holds all permits of a proxy, no task of that proxy
   is in its body, or anywhere between permit and release, now or after any
   further steps.
   */
  lemma {:induction false} FinalDrain(serverDefault: SearchPath, steps: seq<Step>, p: nat, later: seq<Step>)
    requires IsRun(Init(serverDefault), steps)
    requires FullyDrained(After(Init(serverDefault), steps), p)
    requires IsRun(After(Init(serverDefault), steps), later)
    ensures var s := After(After(Init(serverDefault), steps), later);
            forall t | t in s.tasks && s.tasks[t].proxy == p :: !s.tasks[t].pc.HasPermit()
  {
    hide Apply, Enabled, ConnectionsOwned, PathsIsolated, IsRun, After;
    InitInv(serverDefault);
    var drained := After(Init(serverDefault), steps);
    RunKeepsInv(Init(serverDefault), steps);
    RunKeepsInv(drained, later);
    DrainedRun(drained, p, later);
    var s := After(drained, later);
    assert |s.proxies[p].holders| == 0;
  }

  /** A proxy stays what it is and never gets drained permits back. */
  ghost predicate Persists(s: State, t: State, p: nat) {
    p in s.proxies ==>
      p in t.proxies && t.proxies[p].maxConns == s.proxies[p].maxConns && t.proxies[p].drained >= s.proxies[p].drained
  }

  lemma {:induction false} RunPersists(s: State, steps: seq<Step>, p: nat)
    requires IsRun(s, steps)
    ensures Persists(s, After(s, steps), p)
    decreases |steps|
  {
    if steps != [] {
      StepPersists(s, steps[0], p);
      RunPersists(Apply(s, steps[0]), steps[1..], p);
    }
  }

  lemma {:induction false} StepPersists(s: State, step: Step, p: nat)
    requires Enabled(s, step)
    ensures Persists(s, Apply(s, step), p)
  {
  }

  /**
   `stop`: up to `maxConns` permits are taken one by one, and everything else goes
   on in between (`others`, any steps at all).  It gives up when no permit comes.
   If it does not, the proxy is drained for good (see FinalDrain).
   */
  method Stop(start: State, p: nat, others: (nat, State) -> seq<Step>) returns (s: State, gaveUp: bool)
    requires Inv(start) && p in start.proxies && forall k, t :: IsRun(t, others(k, t))
    ensures Inv(s) && Persists(start, s, p)
    ensures if gaveUp then p in s.proxies && s.proxies[p].free == 0 else FullyDrained(s, p)
  {
    hide Inv, Apply, Enabled, IsRun, After;
    s := start;
    for k := 0 to start.proxies[p].maxConns
      invariant Inv(s) && Persists(start, s, p) && s.proxies[p].drained >= k
    {
      RunKeepsInv(s, others(k, s));
      RunPersists(s, others(k, s), p);
      s := After(s, others(k, s));
      DrainsWhenFree(s, p);
      if !Enabled(s, Proxying(p, Drain)) {
        return s, true;
      }
      StepKeepsInv(s, Proxying(p, Drain));
      DrainTakesOne(s, p);
      s := Apply(s, Proxying(p, Drain));
    }
    DrainedWithinBound(s, p);
    return s, false;
  }

  lemma {:induction false} DrainsWhenFree(s: State, p: nat)
    ensures Enabled(s, Proxying(p, Drain)) <==> p in s.proxies && s.proxies[p].free > 0
  {
  }

  lemma {:induction false} DrainTakesOne(s: State, p: nat)
    requires Enabled(s, Proxying(p, Drain))
    ensures Persists(s, Apply(s, Proxying(p, Drain)), p)
    ensures p in s.proxies && Apply(s, Proxying(p, Drain)).proxies[p].drained == s.proxies[p].drained + 1
  {
  }

  lemma {:induction false} DrainedWithinBound(s: State, p: nat)
    requires Inv(s) && p in s.proxies
    ensures s.proxies[p].drained <= s.proxies[p].maxConns
  {
  }
}
