/** Every step of the IPC protocol keeps its invariant, in every run. */
module IpcProof {
  import opened IpcModel

  // ---- one move keeps the invariant ----

  /** The changes of state that the steps are made of. */
  datatype Move =
    | MOwn(t: int, c: int)
    | MDisown(t: int)
    | MGrab(t: int)
    | MUngrab(t: int)
    | MMigrate(t: int)
    | MEnter(t: int)
    | MReturn(t: int)
    | MResume(t: int)

  /** The connection that a move is about. */
  ghost function Conn(s: Ipc, m: Move): int
    requires Shaped(s) && T(s, m.t)
  {
    match m
    case MOwn(_, c) => c
    case MReturn(t) => s.active[t]
    case MResume(t) => if s.st[t].Back? && T(s, s.st[t].t) && HasConn(s.st[s.st[t].t]) then s.st[s.st[t].t].c else NONE
    case _ => if HasConn(s.st[m.t]) then s.st[m.t].c else NONE
  }

  ghost predicate Movable(s: Ipc, m: Move)
    requires Shaped(s)
  {
    && T(s, m.t) && C(s, Conn(s, m))
    && match m
       case MOwn(t, c) => s.st[t] == Run && s.own[c] == NONE
       case MDisown(t) => s.st[t].Own?
       case MGrab(t) => s.st[t].Own? && s.lock[s.handler[s.st[t].c]] == NONE
       case MUngrab(t) => s.st[t].Hold?
       case MMigrate(t) => s.st[t].Hold?
       case MEnter(t) => s.st[t].Calling? && s.st[s.handler[s.st[t].c]] == Parked
       case MReturn(t) => s.isHandler[t] && s.st[t] == Run
       case MResume(t) => s.st[t].Back? && T(s, s.st[t].t)
  }

  ghost function Moved(s: Ipc, m: Move): (r: Ipc)
    requires Shaped(s) && Movable(s, m)
    ensures Shaped(r) && |r.st| == |s.st| && r.handler == s.handler && r.isHandler == s.isHandler
  {
    match m
    case MOwn(t, c) => TryOwn(s, t, c)
    case MDisown(t) => Disown(s, t)
    case MGrab(t) => Grab(s, t)
    case MUngrab(t) => Ungrab(s, t)
    case MMigrate(t) => Migrate(s, t)
    case MEnter(t) => Enter(s, t)
    case MReturn(t) => Return(s, t)
    case MResume(t) => Resume(s, t)
  }

  /** What the invariant says about the threads and the connection that a move is about. */
  lemma Nearby(s: Ipc, m: Move)
    requires Inv(s) && Movable(s, m)
    ensures ThreadOk(s, m.t) && HandlerOk(s, m.t) && ContextOk(s, m.t)
    ensures ConnOk(s, Conn(s, m)) && HandlerOk(s, s.handler[Conn(s, m)]) && ContextOk(s, s.handler[Conn(s, m)])
    ensures m.MResume? ==> ThreadOk(s, s.st[m.t].t)
  {
    hide ThreadOk, ConnOk, HandlerOk, ContextOk;
  }

  lemma OkAt(s: Ipc, x: int)
    requires Inv(s) && T(s, x)
    ensures Shaped(s) && ThreadOk(s, x) && HandlerOk(s, x) && ContextOk(s, x)
  {
    hide ThreadOk, ConnOk, HandlerOk, ContextOk;
  }

  lemma OwnThread(s: Ipc, m: Move, x: int)
    requires Inv(s) && Movable(s, m) && T(s, x) && (m.MOwn? || m.MDisown?)
    ensures ThreadOk(Moved(s, m), x)
  {
    hide Inv, ContextOk, Apart;
    OkAt(s, x);
    Nearby(s, m);
  }

  lemma HoldThread(s: Ipc, m: Move, x: int)
    requires Inv(s) && Movable(s, m) && T(s, x) && (m.MGrab? || m.MUngrab?)
    ensures ThreadOk(Moved(s, m), x)
  {
    hide Inv, ContextOk, Apart;
    OkAt(s, x);
    Nearby(s, m);
  }

  lemma MigrateThread(s: Ipc, m: Move, x: int)
    requires Inv(s) && Movable(s, m) && T(s, x) && m.MMigrate?
    ensures ThreadOk(Moved(s, m), x)
  {
    hide Inv, ContextOk, Apart;
    OkAt(s, x);
    Nearby(s, m);
  }

  lemma EnterThread(s: Ipc, m: Move, x: int)
    requires Inv(s) && Movable(s, m) && T(s, x) && m.MEnter?
    ensures ThreadOk(Moved(s, m), x)
  {
    hide Inv, ContextOk, Apart;
    OkAt(s, x);
    Nearby(s, m);
  }

  lemma BackThread(s: Ipc, m: Move, x: int)
    requires Inv(s) && Movable(s, m) && T(s, x) && (m.MReturn? || m.MResume?)
    ensures ThreadOk(Moved(s, m), x)
  {
    hide Inv, ContextOk, Apart;
    OkAt(s, x);
    Nearby(s, m);
  }

  lemma MoveConn(s: Ipc, m: Move, x: int)
    requires Inv(s) && Movable(s, m) && C(s, x)
    ensures ConnOk(Moved(s, m), x)
  {
    hide ContextOk, Apart;
    Nearby(s, m);
    assert ConnOk(s, x);
  }

  lemma MoveHandler(s: Ipc, m: Move, x: int)
    requires Inv(s) && Movable(s, m) && T(s, x)
    ensures HandlerOk(Moved(s, m), x)
  {
    hide ContextOk, Apart;
    Nearby(s, m);
    assert HandlerOk(s, x);
    if s.lock[x] != NONE { assert ConnOk(s, s.lock[x]); }
  }

  lemma MoveContext(s: Ipc, m: Move, x: int)
    requires Inv(s) && Movable(s, m) && T(s, x)
    ensures ContextOk(Moved(s, m), x)
  {
    hide Apart;
    Nearby(s, m);
    assert HandlerOk(s, x) && ContextOk(s, x);
  }

  /** The thread that the mover exchanges its scheduling context with. */
  ghost function Other(s: Ipc, m: Move): int
    requires Shaped(s) && Movable(s, m)
  {
    if m.MEnter? then s.handler[s.st[m.t].c] else if m.MResume? then s.st[m.t].t else m.t
  }

  ghost function Swap(a: int, b: int, x: int): int { if x == a then b else if x == b then a else x }

  /** A switch takes the scheduling context along; the other moves leave it where it is. */
  lemma MoveToken(s: Ipc, m: Move, x: int)
    requires Inv(s) && Movable(s, m) && T(s, x)
    ensures T(s, Other(s, m)) && Token(Moved(s, m), x) == Token(s, Swap(m.t, Other(s, m), x))
  {
    hide Inv, Apart, Moved, ThreadOk, ConnOk, HandlerOk, ContextOk, Token;
    OkAt(s, x);
    if m.MEnter? || m.MResume? { SwitchToken(s, m, x); } else { StayToken(s, m, x); }
  }

  lemma SwitchToken(s: Ipc, m: Move, x: int)
    requires Inv(s) && Movable(s, m) && T(s, x) && (m.MEnter? || m.MResume?)
    ensures T(s, Other(s, m)) && Token(Moved(s, m), x) == Token(s, Swap(m.t, Other(s, m), x))
  {
    hide Inv, Apart;
    OkAt(s, x);
    Nearby(s, m);
  }

  lemma StayToken(s: Ipc, m: Move, x: int)
    requires Inv(s) && Movable(s, m) && T(s, x) && !m.MEnter? && !m.MResume?
    ensures Token(Moved(s, m), x) == Token(s, x)
  {
    hide Inv, Apart;
    OkAt(s, x);
    Nearby(s, m);
  }

  lemma MoveApart(s: Ipc, m: Move, x: int, y: int)
    requires Inv(s) && Movable(s, m) && T(s, x) && T(s, y)
    ensures Apart(Moved(s, m), x, y)
  {
    hide ThreadOk, ConnOk, HandlerOk, ContextOk, Token, Moved;
    MoveToken(s, m, x);
    MoveToken(s, m, y);
    assert Apart(s, Swap(m.t, Other(s, m), x), Swap(m.t, Other(s, m), y));
  }

  lemma MoveKeeps(s: Ipc, m: Move)
    requires Inv(s) && Movable(s, m)
    ensures Inv(Moved(s, m))
  {
    hide ThreadOk, ConnOk, HandlerOk, ContextOk, Apart, Moved;
    var r := Moved(s, m);
    forall x | T(s, x) ensures ThreadOk(r, x) && HandlerOk(r, x) && ContextOk(r, x) {
      if m.MOwn? || m.MDisown? { OwnThread(s, m, x); }
      else if m.MMigrate? { MigrateThread(s, m, x); }
      else if m.MEnter? { EnterThread(s, m, x); }
      else if m.MReturn? || m.MResume? { BackThread(s, m, x); }
      else { HoldThread(s, m, x); }
      MoveHandler(s, m, x);
      MoveContext(s, m, x);
    }
    forall x | C(s, x) ensures ConnOk(r, x) { MoveConn(s, m, x); }
    forall x, y | T(s, x) && T(s, y) ensures Apart(r, x, y) { MoveApart(s, m, x, y); }
  }

  // ---- whole runs ----

  datatype Event =
    | DoTryOwn(t: int, c: int)
    | DoTryLock(t: int)
    | DoRefuse(t: int)
    | DoMigrate(t: int)
    | DoEnter(t: int)
    | DoReturn(h: int)
    | DoResume(h: int)

  ghost predicate Can(s: Ipc, e: Event)
    requires Shaped(s)
  {
    match e
    case DoTryOwn(t, c) => T(s, t) && C(s, c) && s.st[t] == Run
    case DoTryLock(t) => T(s, t) && s.st[t].Own? && C(s, s.st[t].c)
    case DoRefuse(t) => T(s, t) && s.st[t].Hold? && C(s, s.st[t].c)
    case DoMigrate(t) => T(s, t) && s.st[t].Hold? && C(s, s.st[t].c)
    case DoEnter(t) => T(s, t) && s.st[t].Calling? && C(s, s.st[t].c) && s.st[s.handler[s.st[t].c]] == Parked
    case DoReturn(h) => T(s, h) && s.isHandler[h] && s.st[h] == Run && C(s, s.active[h])
    case DoResume(h) => T(s, h) && s.st[h].Back? && T(s, s.st[h].t)
  }

  ghost function Do(s: Ipc, e: Event): Ipc
    requires Shaped(s) && Can(s, e)
  {
    match e
    case DoTryOwn(t, c) => TryOwn(s, t, c)
    case DoTryLock(t) => TryLock(s, t)
    case DoRefuse(t) => Disown(Ungrab(s, t), t)
    case DoMigrate(t) => Migrate(s, t)
    case DoEnter(t) => Enter(s, t)
    case DoReturn(h) => Return(s, h)
    case DoResume(h) => Resume(s, h)
  }

  lemma StepKeeps(s: Ipc, e: Event)
    requires Inv(s) && Can(s, e)
    ensures Inv(Do(s, e))
  {
    hide ThreadOk, ConnOk, HandlerOk, ContextOk, Apart;
    match e {
      case DoTryOwn(t, c) => if s.own[c] == NONE { MoveKeeps(s, MOwn(t, c)); }
      case DoTryLock(t) =>
        MoveKeeps(s, if s.lock[s.handler[s.st[t].c]] != NONE then MDisown(t) else MGrab(t));
      case DoRefuse(t) => MoveKeeps(s, MUngrab(t)); MoveKeeps(Ungrab(s, t), MDisown(t));
      case DoMigrate(t) => MoveKeeps(s, MMigrate(t));
      case DoEnter(t) => MoveKeeps(s, MEnter(t));
      case DoReturn(h) => MoveKeeps(s, MReturn(h));
      case DoResume(h) => BackConn(s, h); MoveKeeps(s, MResume(h));
    }
  }

  lemma BackConn(s: Ipc, h: int)
    requires Inv(s) && T(s, h) && s.st[h].Back?
    ensures T(s, s.st[h].t) && HasConn(s.st[s.st[h].t]) && C(s, s.st[s.st[h].t].c)
  {
    hide ConnOk, HandlerOk, ContextOk, Apart;
    assert ThreadOk(s, h);
  }

  ghost predicate Start(s: Ipc) {
    && Shaped(s)
    && (forall c :: C(s, c) ==> s.own[c] == NONE && s.isHandler[s.handler[c]])
    && (forall t :: T(s, t) ==> s.st[t] == (if s.isHandler[t] then Parked else Run))
    && (forall t :: T(s, t) ==> s.lock[t] == s.active[t] == NONE && s.sc[t] == if s.isHandler[t] then NONE else t)
  }

  ghost function Boot(isHandler: seq<bool>, handler: seq<int>): (s: Ipc)
    requires forall c :: 0 <= c < |handler| ==> 0 <= handler[c] < |isHandler| && isHandler[handler[c]]
    ensures Start(s) && s.isHandler == isHandler && s.handler == handler
  {
    var n, k := |isHandler|, |handler|;
    Ipc(handler, seq(k, _ => NONE), seq(k, _ => NONE), isHandler,
      seq(n, t requires 0 <= t < n => if isHandler[t] then Parked else Run), seq(n, _ => NONE), seq(n, _ => NONE),
      seq(n, t requires 0 <= t < n => if isHandler[t] then NONE else t), seq(n, _ => 0))
  }

  lemma StartInv(s: Ipc)
    requires Start(s)
    ensures Inv(s)
  {
  }

  ghost predicate Reaches(s: Ipc, es: seq<Event>, r: Ipc) {
    if es == [] then r == s
    else exists q :: Reaches(s, es[..|es| - 1], q) && Shaped(q) && Can(q, es[|es| - 1]) && r == Do(q, es[|es| - 1])
  }

  lemma {:induction false} EveryRun(s: Ipc, es: seq<Event>, r: Ipc)
    requires Start(s) && Reaches(s, es, r)
    ensures Inv(r)
    decreases |es|
  {
    hide Inv, Can, Do, Shaped;
    if es == [] {
      StartInv(s);
    } else {
      var q :| Reaches(s, es[..|es| - 1], q) && Shaped(q) && Can(q, es[|es| - 1]) && r == Do(q, es[|es| - 1]);
      EveryRun(s, es[..|es| - 1], q);
      StepKeeps(q, es[|es| - 1]);
    }
  }

  // ---- what the invariant means ----

  /** `t` waits for thread `u`. */
  ghost predicate WaitsFor(s: Ipc, t: int, u: int)
    requires Shaped(s)
  {
    T(s, t) && s.st[t].Await? && C(s, s.st[t].c) && s.handler[s.st[t].c] == u
  }

  ghost predicate Chain(s: Ipc, ts: seq<int>)
    requires Shaped(s)
  {
    forall i :: 0 <= i < |ts| - 1 ==> WaitsFor(s, ts[i], ts[i + 1])
  }

  lemma {:induction false} ChainDeepens(s: Ipc, ts: seq<int>)
    requires Inv(s) && Chain(s, ts) && |ts| >= 2
    ensures T(s, ts[0]) && T(s, ts[|ts| - 1]) && s.depth[ts[|ts| - 1]] > s.depth[ts[0]]
    decreases |ts|
  {
    hide ConnOk, HandlerOk, ContextOk, Apart;
    assert WaitsFor(s, ts[0], ts[1]) && ThreadOk(s, ts[0]);
    if |ts| > 2 {
      var r := ts[1..];
      forall i | 0 <= i < |r| - 1 ensures WaitsFor(s, r[i], r[i + 1]) { assert WaitsFor(s, ts[i + 1], ts[i + 2]); }
      ChainDeepens(s, r);
    }
  }

  /** Chains of waiting clients never close. */
  lemma NoCycle(s: Ipc, ts: seq<int>)
    requires Inv(s) && Chain(s, ts) && |ts| >= 2
    ensures ts[0] != ts[|ts| - 1]
  {
    ChainDeepens(s, ts);
  }

  predicate NonWaiting(x: Status) { x == Run || x.Own? || x.Hold? }

  /** No two threads that are not waiting share a scheduling context, and each has one. */
  lemma OneHolder(s: Ipc, t: int, u: int)
    requires Inv(s) && T(s, t) && T(s, u) && t != u && NonWaiting(s.st[t]) && NonWaiting(s.st[u])
    ensures s.sc[t] != NONE && s.sc[t] != s.sc[u]
  {
    hide ConnOk, ThreadOk;
    assert Apart(s, t, u) && HandlerOk(s, t) && ContextOk(s, t);
  }

  /** `t` waits to enter thread `h`. */
  ghost predicate WaitsToEnter(s: Ipc, t: int, h: int)
    requires Shaped(s)
  {
    T(s, t) && s.st[t].Calling? && C(s, s.st[t].c) && s.handler[s.st[t].c] == h
  }

  /** A handler serves one connection for one client: two threads that wait for the same handler to
  return are one thread, and so are two threads that wait to enter it. */
  lemma OneClient(s: Ipc, t: int, u: int, h: int)
    requires Inv(s)
    ensures WaitsFor(s, t, h) && WaitsFor(s, u, h) ==> t == u
    ensures WaitsToEnter(s, t, h) && WaitsToEnter(s, u, h) ==> t == u
  {
    hide ConnOk, HandlerOk, ContextOk, Apart;
    if T(s, t) && T(s, u) { assert ThreadOk(s, t) && ThreadOk(s, u); }
  }

  /** The target of a call is another thread, and it is waiting. */
  lemma CallTarget(s: Ipc, t: int)
    requires Inv(s) && T(s, t) && s.st[t].Calling?
    ensures C(s, s.st[t].c) && s.handler[s.st[t].c] != t
      && (s.st[s.handler[s.st[t].c]] == Parked || s.st[s.handler[s.st[t].c]].Back?)
  {
    hide ConnOk, HandlerOk, ContextOk, Apart;
    assert ThreadOk(s, t);
  }

  /** The target of a return is another thread, and it is waiting. */
  lemma ReturnTarget(s: Ipc, h: int)
    requires Inv(s) && T(s, h) && s.st[h].Back?
    ensures T(s, s.st[h].t) && s.st[h].t != h && s.st[s.st[h].t].Await?
  {
    hide ConnOk, HandlerOk, ContextOk, Apart;
    assert ThreadOk(s, h);
  }

  /** A call that meets a taken lock leaves everything as it was. */
  lemma FailedTryChangesNothing(s: Ipc, t: int, c: int)
    requires Inv(s) && T(s, t) && C(s, c) && s.st[t] == Run
    ensures s.own[c] != NONE ==> TryOwn(s, t, c) == s
    ensures s.own[c] == NONE && s.lock[s.handler[c]] != NONE ==> TryLock(TryOwn(s, t, c), t) == s
    ensures s.own[c] == NONE && s.lock[s.handler[c]] == NONE ==> Disown(Ungrab(TryLock(TryOwn(s, t, c), t), t), t) == s
  {
    hide Inv;
    InvShaped(s);
    if s.own[c] == NONE {
      assert s.own[c := t][c := NONE] == s.own && s.st[t := Own(c)][t := Run] == s.st;
      assert s.st[t := Own(c)][t := Hold(c)][t := Own(c)][t := Run] == s.st;
      assert s.lock[s.handler[c]] == NONE ==> s.lock[s.handler[c] := c][s.handler[c] := NONE] == s.lock;
    }
  }

  lemma InvShaped(s: Ipc)
    requires Inv(s)
    ensures Shaped(s)
  {
  }

  /** Thread `t` has called connection `c` and its handler serves it. */
  ghost predicate InService(s: Ipc, t: int, c: int)
    requires Shaped(s)
  {
    T(s, t) && C(s, c) && s.st[t] == Await(c) && Serves(s, s.handler[c], c, t) && Busy(s.st[s.handler[c]])
  }

  /** The handler is on its way back to `t`. */
  ghost predicate OnWayBack(s: Ipc, t: int, c: int)
    requires Shaped(s)
  {
    T(s, t) && C(s, c) && s.st[t] == Await(c) && s.st[s.handler[c]] == Back(t)
  }

  /** A call is served until its own handler returns, and that return resumes exactly the caller. */
  lemma ReturnResumesCaller(s: Ipc, e: Event, t: int, c: int)
    requires Inv(s) && Can(s, e) && InService(s, t, c)
    ensures Shaped(Do(s, e))
    ensures e != DoReturn(s.handler[c]) ==> InService(Do(s, e), t, c)
    ensures e == DoReturn(s.handler[c]) ==> OnWayBack(Do(s, e), t, c)
  {
    hide ContextOk, Apart;
    var r := Do(s, e);
    var h := s.handler[c];
    assert ThreadOk(s, t) && HandlerOk(s, h) && ConnOk(s, c);
    match e {
      case DoTryOwn(x, d) => assert ThreadOk(s, x) && ConnOk(s, d);
      case DoTryLock(x) => assert ThreadOk(s, x);
      case DoRefuse(x) => assert ThreadOk(s, x);
      case DoMigrate(x) => assert ThreadOk(s, x);
      case DoEnter(x) => assert ThreadOk(s, x);
      case DoReturn(x) => assert ThreadOk(s, x) && HandlerOk(s, x);
      case DoResume(x) => assert ThreadOk(s, x);
    }
  }

  /** On the way back nothing else can resume the caller. */
  lemma BackReachesCaller(s: Ipc, e: Event, t: int, c: int)
    requires Inv(s) && Can(s, e) && OnWayBack(s, t, c)
    ensures Shaped(Do(s, e))
    ensures e != DoResume(s.handler[c]) ==> OnWayBack(Do(s, e), t, c)
    ensures e == DoResume(s.handler[c]) ==> Do(s, e).st == s.st[s.handler[c] := Parked][t := Run]
  {
    hide ContextOk, Apart;
    var h := s.handler[c];
    assert ThreadOk(s, t) && ThreadOk(s, h);
    match e {
      case DoTryOwn(x, d) => assert ThreadOk(s, x);
      case DoTryLock(x) => assert ThreadOk(s, x);
      case DoRefuse(x) => assert ThreadOk(s, x);
      case DoMigrate(x) => assert ThreadOk(s, x);
      case DoEnter(x) => assert ThreadOk(s, x);
      case DoReturn(x) => assert ThreadOk(s, x) && HandlerOk(s, x);
      case DoResume(x) => assert ThreadOk(s, x);
    }
  }

  // ---- a call from its beginning to its end ----

  /** A call takes the ownership of its connection, then the lock of the handler, or gives up what it has. */
  lemma CallBegins(s: Ipc, e: Event)
    requires Inv(s) && Can(s, e) && (e.DoTryOwn? || e.DoTryLock? || e.DoRefuse?)
    ensures var r, t := Do(s, e), e.t;
      && (e.DoTryOwn? && s.own[e.c] == NONE ==> r == s.(st := s.st[t := Own(e.c)], own := s.own[e.c := t]))
      && (e.DoTryOwn? && s.own[e.c] != NONE ==> r == s)
      && (!e.DoTryOwn? ==>
         var c := s.st[t].c; var h := s.handler[c];
         && C(s, c) && T(s, h)
         && (e.DoTryLock? && s.lock[h] == NONE ==> r == s.(st := s.st[t := Hold(c)], lock := s.lock[h := c]))
         && (e.DoTryLock? && s.lock[h] != NONE ==> r == s.(st := s.st[t := Run], own := s.own[c := NONE]))
         && (e.DoRefuse? ==> r == s.(st := s.st[t := Run], own := s.own[c := NONE], lock := s.lock[h := NONE])))
  {
    hide ConnOk, HandlerOk, ContextOk, Apart, ThreadOk;
    if e.DoRefuse? { assert s.st[e.t := Own(s.st[e.t].c)][e.t := Run] == s.st[e.t := Run]; }
  }

  /** With both locks it hands itself over: the handler is bound to it, on its scheduling context; when the
  handler's stack is free the handler runs and the caller is in service. */
  lemma CallReachesHandler(s: Ipc, e: Event)
    requires Inv(s) && Can(s, e) && (e.DoMigrate? || e.DoEnter?)
    ensures var r, t, c := Do(s, e), e.t, s.st[e.t].c; var h := s.handler[c];
      && Shaped(r) && C(s, c) && T(s, h) && h != t
      && (e.DoMigrate? ==> r.st == s.st[t := Calling(c)] && Serves(r, h, c, t) && r.sc == s.sc[h := s.sc[t]])
      && (e.DoEnter? ==> r.st == s.st[h := Run][t := Await(c)] && InService(r, t, c) && r.sc == s.sc)
      && r.own == s.own && r.lock == s.lock
  {
    hide ContextOk, Apart;
    assert ThreadOk(s, e.t) && ConnOk(s, s.st[e.t].c) && HandlerOk(s, s.handler[s.st[e.t].c]) && HandlerOk(s, e.t);
  }

  /** A return frees the connection and the handler, which then resumes its client and waits for the next call. */
  lemma ReturnFrees(s: Ipc, h: int)
    requires Inv(s) && Can(s, DoReturn(h))
    ensures var r, c := Do(s, DoReturn(h)), s.active[h]; var t := s.client[c];
      && Shaped(r) && C(s, c) && s.handler[c] == h && T(s, t)
      && InService(s, t, c) && OnWayBack(r, t, c) && r.st == s.st[h := Back(t)]
      && r.own == s.own[c := NONE] && r.lock == s.lock[h := NONE] && r.active == s.active[h := NONE]
      && r.sc == s.sc[h := NONE]
  {
    hide ContextOk, Apart;
    assert HandlerOk(s, h);
    var c := s.active[h];
    assert ConnOk(s, c) && ThreadOk(s, s.own[c]);
  }

  /** The connection that thread `t` last tried to call. */
  ghost function LastCall(es: seq<Event>, t: int): int {
    if es == [] then NONE
    else
      var e := es[|es| - 1];
      if e.DoTryOwn? && e.t == t then e.c else LastCall(es[..|es| - 1], t)
  }

  /** In every run a thread in a call is in the one it last began, and a handler that runs serves a client that
  last called one of its connections. */
  lemma {:induction false} EveryCall(s: Ipc, es: seq<Event>, r: Ipc)
    requires Start(s) && Reaches(s, es, r)
    ensures Inv(r) && |r.st| == |s.st|
    ensures forall t :: T(r, t) && HasConn(r.st[t]) ==> r.st[t].c == LastCall(es, t)
    ensures forall h :: T(r, h) && r.isHandler[h] && Busy(r.st[h]) ==>
      C(r, r.active[h]) && r.handler[r.active[h]] == h && LastCall(es, r.client[r.active[h]]) == r.active[h]
    decreases |es|
  {
    hide Inv, Can, Do;
    EveryRun(s, es, r);
    InvShaped(r);
    if es != [] {
      var e := es[|es| - 1];
      var q :| Reaches(s, es[..|es| - 1], q) && Shaped(q) && Can(q, e) && r == Do(q, e);
      EveryCall(s, es[..|es| - 1], q);
      forall t | T(r, t) && HasConn(r.st[t])
        ensures |r.st| == |q.st| && r.st[t].c == LastCall(es, t)
      {
        SameCall(q, e, t);
      }
      SameSize(q, e);
    }
    forall h | T(r, h) && r.isHandler[h] && Busy(r.st[h])
      ensures C(r, r.active[h]) && r.handler[r.active[h]] == h && LastCall(es, r.client[r.active[h]]) == r.active[h]
    {
      ServedClient(r, h);
    }
  }

  lemma SameSize(s: Ipc, e: Event)
    requires Shaped(s) && Can(s, e)
    ensures |Do(s, e).st| == |s.st|
  {
  }

  lemma SameCall(s: Ipc, e: Event, t: int)
    requires Inv(s) && Can(s, e) && 0 <= t < |Do(s, e).st| && HasConn(Do(s, e).st[t])
    ensures |Do(s, e).st| == |s.st|
    ensures (HasConn(s.st[t]) && Do(s, e).st[t].c == s.st[t].c) || (e.DoTryOwn? && e.t == t && e.c == Do(s, e).st[t].c)
    ensures e.DoTryOwn? && e.t == t ==> Do(s, e).st[t].c == e.c
  {
    hide ConnOk, HandlerOk, ContextOk, Apart, ThreadOk;
  }

  lemma ServedClient(s: Ipc, h: int)
    requires Inv(s) && T(s, h) && s.isHandler[h] && Busy(s.st[h])
    ensures C(s, s.active[h]) && s.handler[s.active[h]] == h
    ensures T(s, s.client[s.active[h]]) && s.st[s.client[s.active[h]]] == Await(s.active[h])
  {
    hide ContextOk, Apart;
    assert HandlerOk(s, h);
    assert ConnOk(s, s.lock[h]);
  }
}
