/**
Migrating IPC calls and returns (`connection.c`, without exiting threads) as a state machine over
any number of threads and connections.

A connection has one fixed handler thread; a handler may serve several connections, one at a time.
Calls are cut at the lock operations and at the switch itself, so a handler that has released its
locks but still runs on its kernel stack (`Back`) can meet the next caller (`Calling`).
*/
module IpcModel {

  datatype Status =
    | Run                // running or ready
    | Own(c: int)        // holds the ownership lock of the connection
    | Hold(c: int)       // ... and the ipc lock of its handler
    | Calling(c: int)    // has migrated, waits for the handler's kernel stack: TS_WAITING
    | Await(c: int)      // waits for the return: TS_WAITING
    | Parked             // a handler with nothing to do: TS_WAITING
    | Back(t: int)       // a handler on its way back to its client: TS_WAITING

  datatype Ipc = Ipc(
    handler: seq<int>,     // per connection: server_handler_thread
    own: seq<int>,         // per connection: who locked its ownership
    client: seq<int>,      // per connection: current_client_thread
    isHandler: seq<bool>,  // per thread
    st: seq<Status>,       // per thread
    lock: seq<int>,        // per thread: the connection for which its ipc_lock is held
    active: seq<int>,      // per thread: active_conn
    sc: seq<int>,          // per thread: scheduling context
    depth: seq<nat>)       // per thread: nesting of calls

  const NONE := -1

  ghost predicate T(s: Ipc, t: int) { 0 <= t < |s.st| }

  ghost predicate C(s: Ipc, c: int) { 0 <= c < |s.handler| }

  predicate HasConn(x: Status) { x.Own? || x.Hold? || x.Calling? || x.Await? }

  ghost predicate Shaped(s: Ipc) {
    && |s.handler| == |s.own| == |s.client|
    && |s.st| == |s.isHandler| == |s.lock| == |s.active| == |s.sc| == |s.depth|
    && (forall c :: 0 <= c < |s.handler| ==> 0 <= s.handler[c] < |s.st|)
  }

  // ---- the invariant, thread by thread and connection by connection ----

  /** Not on the way into or out of a call: for a handler, it serves one. */
  predicate Busy(x: Status) { x != Parked && !x.Back? }

  /** The handler `h` serves connection `c` for thread `t`. */
  ghost predicate Serves(s: Ipc, h: int, c: int, t: int)
    requires Shaped(s) && C(s, c) && T(s, h)
  {
    s.active[h] == c && s.client[c] == t && s.own[c] == t && s.lock[h] == c
  }

  /** What a thread's status means for the locks it holds and the handler it deals with. */
  ghost predicate ThreadOk(s: Ipc, t: int)
    requires Shaped(s) && T(s, t)
  {
    match s.st[t]
    case Run => true
    case Own(c) => C(s, c) && s.own[c] == t
    case Hold(c) => C(s, c) && s.own[c] == t && s.lock[s.handler[c]] == c && s.active[s.handler[c]] == NONE
    case Calling(c) => C(s, c) && Serves(s, s.handler[c], c, t) && !Busy(s.st[s.handler[c]])
    case Await(c) =>
      && C(s, c) && s.depth[s.handler[c]] == s.depth[t] + 1
      && ((Serves(s, s.handler[c], c, t) && Busy(s.st[s.handler[c]])) || s.st[s.handler[c]] == Back(t))
    case Parked => s.isHandler[t]
    case Back(u) =>
      && s.isHandler[t] && T(s, u) && s.st[u].Await? && C(s, s.st[u].c) && s.handler[s.st[u].c] == t
      && (s.active[t] == NONE || (C(s, s.active[t]) && s.client[s.active[t]] != u))
  }

  /** An ownership lock is held by a thread that calls, or by the caller waiting for its return. */
  ghost predicate ConnOk(s: Ipc, c: int)
    requires Shaped(s) && C(s, c)
  {
    && s.isHandler[s.handler[c]]
    && (s.own[c] != NONE ==>
      && T(s, s.own[c]) && HasConn(s.st[s.own[c]]) && s.st[s.own[c]].c == c
      && (s.st[s.own[c]].Await? ==> Serves(s, s.handler[c], c, s.own[c])))
  }

  /** An ipc lock is held for one connection, and a handler runs exactly while it serves. */
  ghost predicate HandlerOk(s: Ipc, h: int)
    requires Shaped(s) && T(s, h)
  {
    && (s.lock[h] != NONE ==>
      && C(s, s.lock[h]) && s.handler[s.lock[h]] == h && T(s, s.own[s.lock[h]]) && s.own[s.lock[h]] != NONE
      && HasConn(s.st[s.own[s.lock[h]]]) && !s.st[s.own[s.lock[h]]].Own?)
    && (s.active[h] != NONE ==>
       s.active[h] == s.lock[h] && !s.st[s.own[s.lock[h]]].Hold? && s.client[s.lock[h]] == s.own[s.lock[h]])
    && (s.active[h] == NONE && s.lock[h] != NONE ==> s.st[s.own[s.lock[h]]].Hold?)
    && (s.isHandler[h] && Busy(s.st[h]) ==> s.active[h] != NONE && s.st[s.own[s.lock[h]]].Await?)
  }

  /** A handler has its caller's scheduling context while it serves, and none otherwise. */
  ghost predicate ContextOk(s: Ipc, t: int)
    requires Shaped(s) && T(s, t)
  {
    && (!s.isHandler[t] ==> s.sc[t] != NONE)
    && (s.isHandler[t] && s.active[t] == NONE ==> s.sc[t] == NONE)
    && (s.active[t] != NONE ==>
       C(s, s.active[t]) && T(s, s.client[s.active[t]]) && s.sc[t] == s.sc[s.client[s.active[t]]] && s.sc[t] != NONE)
  }

  /** The scheduling context that a thread is running on or is about to hand over. */
  ghost function Token(s: Ipc, t: int): int
    requires Shaped(s) && T(s, t)
  {
    match s.st[t]
    case Run => s.sc[t]
    case Own(_) => s.sc[t]
    case Hold(_) => s.sc[t]
    case Calling(_) => s.sc[t]
    case Await(_) => NONE
    case Parked => NONE
    case Back(u) => if T(s, u) then s.sc[u] else NONE
  }

  /** A scheduling context is in one place. */
  ghost predicate Apart(s: Ipc, t: int, u: int)
    requires Shaped(s) && T(s, t) && T(s, u)
  {
    t != u ==> Token(s, t) == NONE || Token(s, t) != Token(s, u)
  }

  ghost predicate Inv(s: Ipc) {
    && Shaped(s)
    && (forall t {:trigger ThreadOk(s, t)} :: T(s, t) ==> ThreadOk(s, t))
    && (forall c {:trigger ConnOk(s, c)} :: C(s, c) ==> ConnOk(s, c))
    && (forall h {:trigger HandlerOk(s, h)} :: T(s, h) ==> HandlerOk(s, h))
    && (forall t {:trigger ContextOk(s, t)} :: T(s, t) ==> ContextOk(s, t))
    && (forall t, u {:trigger Apart(s, t, u)} :: T(s, t) && T(s, u) ==> Apart(s, t, u))
  }

  // ---- steps ----

  /** `try_lock` of the connection in `sys_ipc_call`: -EIPCRETRY when it is taken */
  function TryOwn(s: Ipc, t: int, c: int): Ipc
    requires 0 <= t < |s.st| && 0 <= c < |s.own|
  {
    if s.own[c] != NONE then s else s.(own := s.own[c := t], st := s.st[t := Own(c)])
  }

  /** `grab_ipc_lock`: -EIPCRETRY when the handler is busy */
  function TryLock(s: Ipc, t: int): Ipc
    requires 0 <= t < |s.st| && s.st[t].Own? && 0 <= s.st[t].c < |s.own| == |s.handler|
      && 0 <= s.handler[s.st[t].c] < |s.lock|
  {
    if s.lock[s.handler[s.st[t].c]] != NONE then Disown(s, t) else Grab(s, t)
  }

  function Grab(s: Ipc, t: int): Ipc
    requires 0 <= t < |s.st| && s.st[t].Own? && 0 <= s.st[t].c < |s.handler| && 0 <= s.handler[s.st[t].c] < |s.lock|
  {
    var c := s.st[t].c;
    s.(lock := s.lock[s.handler[c] := c], st := s.st[t := Hold(c)])
  }

  function Disown(s: Ipc, t: int): Ipc
    requires 0 <= t < |s.st| && s.st[t].Own? && 0 <= s.st[t].c < |s.own|
  {
    s.(own := s.own[s.st[t].c := NONE], st := s.st[t := Run])
  }

  /** `release_ipc_lock` */
  function Ungrab(s: Ipc, t: int): Ipc
    requires 0 <= t < |s.st| && s.st[t].Hold? && 0 <= s.st[t].c < |s.handler| && 0 <= s.handler[s.st[t].c] < |s.lock|
  {
    var c := s.st[t].c;
    s.(lock := s.lock[s.handler[c] := NONE], st := s.st[t := Own(c)])
  }

  /** `thread_migrate_to_server`, up to the wait for the handler's kernel stack */
  function Migrate(s: Ipc, t: int): Ipc
    requires 0 <= t < |s.st| == |s.sc| && s.st[t].Hold? && 0 <= s.st[t].c < |s.client| == |s.handler|
    requires 0 <= s.handler[s.st[t].c] < |s.active| == |s.sc|
  {
    var c := s.st[t].c;
    var h := s.handler[c];
    s.(active := s.active[h := c], client := s.client[c := t], sc := s.sc[h := s.sc[t]], st := s.st[t := Calling(c)])
  }

  /** `sched_to_thread`: the switch to the handler */
  function Enter(s: Ipc, t: int): Ipc
    requires 0 <= t < |s.st| == |s.depth| && s.st[t].Calling? && 0 <= s.st[t].c < |s.handler|
      && 0 <= s.handler[s.st[t].c] < |s.st|
  {
    var c := s.st[t].c;
    var h := s.handler[c];
    s.(st := s.st[h := Run][t := Await(c)], depth := s.depth[h := s.depth[t] + 1])
  }

  /** `sys_ipc_return`, up to the switch */
  function Return(s: Ipc, h: int): Ipc
    requires 0 <= h < |s.st| == |s.active| == |s.sc| == |s.lock| && 0 <= s.active[h] < |s.own| == |s.client|
  {
    var c := s.active[h];
    s.(active := s.active[h := NONE], sc := s.sc[h := NONE], lock := s.lock[h := NONE], own := s.own[c := NONE],
      st := s.st[h := Back(s.client[c])])
  }

  /** `thread_migrate_to_client`: the switch back */
  function Resume(s: Ipc, h: int): Ipc
    requires 0 <= h < |s.st| && s.st[h].Back? && 0 <= s.st[h].t < |s.st|
  {
    s.(st := s.st[h := Parked][s.st[h].t := Run])
  }
}
