/** Serve tasks, reconnect timers and waiting for connections
    (python/procstar/agent/server.py, conn.py).

    Every websocket has one serve task.  An action is what a task does between two awaits; the
    event loop may interleave the tasks of several websockets of one connection. */
module Serving {
  import opened Proto
  import opened Registries
  import Routing

  /** A serve task that has registered: its connection object, whether it has received the
      shutdown "done", and whether it is still receiving or awaits the closing of its
      websocket, after an exception or not. */
  datatype Phase = Receiving | Closing(failed: bool)
  datatype Task = Task(conn: nat, done: bool, phase: Phase)

  /** What a waiter waits for: `choose_connection` or `wait_for_connection`. */
  datatype Want = InGroup(groupId: GroupId) | WithId(connId: ConnId)

  /** `timeouts`: a reconnect timeout is configured.  `open`: the websockets whose state is
      open.  `used`: the websockets there have been.  A waiter's queue is in `reg.subs`.
      `table`: the server's processes. */
  datatype State = State(
    timeouts: bool, reg: Registry, open: set<Sock>, used: set<Sock>, tasks: map<Sock, Task>,
    waiters: map<SubId, Want>, table: Routing.Table)

  datatype Action =
    | Register(ws: Sock, connId: ConnId, groupId: GroupId, state: ShutdownState, stillOpen: bool)
    | SocketCloses(ws: Sock)
    | ReceiveShutDown(ws: Sock, state: ShutdownState)
    | LeaveLoop(ws: Sock, failed: bool)
    | Finish(ws: Sock)
    | Fire(timer: TimerId)
    | Wait(sub: SubId, want: Want)
    | Wake(sub: SubId)
    | GiveUp(sub: SubId)
    | Change(table: Routing.Table)

  function Init(timeouts: bool): State {
    State(timeouts, EMPTY, {}, {}, map[], map[], Routing.EMPTY)
  }

  predicate IsOpen(s: State, h: nat)
    requires h < |s.reg.objs|
  {
    s.reg.objs[h].ws in s.open
  }

  /** There is a connection of the kind wanted. */
  ghost predicate Found(s: State, w: Want)
    requires s.reg.Valid()
  {
    match w
    case InGroup(g) => OpenInGroup(s.reg, s.open, g) != {}
    case WithId(c) => c in s.reg.conns && IsOpen(s, s.reg.conns[c])
  }

  /** The end of a Register exchange: `_add`, then cancelling a reconnect timeout. */
  function DoRegister(s: State, w: Sock, c: ConnId, g: GroupId, state: ShutdownState, stillOpen: bool): State
    requires s.reg.Ranged()
  {
    var t := s.(used := s.used + {w}, open := if stillOpen then s.open + {w} else s.open);
    match Add(s.reg, c, g, state, w)
    case None => t
    case Some(added) =>
      if added.1 < |added.0.objs| then
        t.(reg := CancelTimer(added.0, added.1), tasks := s.tasks[w := Task(added.1, false, Receiving)])
      else t
  }

  /** `self.connections._pop(conn_id)`: removes whatever is registered under the id; a missing
      id raises. */
  function PopId(r: Registry, c: ConnId): Registry
    requires r.Ranged()
  {
    if c in r.conns then Pop(r, c) else r
  }

  /** The `finally` block of a serve task. */
  function DoFinish(s: State, w: Sock): State
    requires s.reg.Ranged() && w in s.tasks && s.tasks[w].conn < |s.reg.objs|
  {
    var h := s.tasks[w].conn;
    var c := s.reg.objs[h].connId;
    var r := if s.tasks[w].phase == Closing(true) then Publish(s.reg, Changed(c)) else s.reg;
    s.(tasks := s.tasks - {w},
       reg := if s.tasks[w].done then PopId(r, c)
              else if !s.timeouts || IsOpen(s, h) then r
              else SetTimer(r, h))
  }

  /** A reconnect timer expires.  It pops what is registered under the id of its connection; if that
      is the connection, the processes of the connection are told, and otherwise an assertion
      fails before they are. */
  function DoFire(s: State, t: TimerId): State
    requires s.reg.Ranged() && t in s.reg.pending && s.reg.pending[t] < |s.reg.objs|
  {
    var h := s.reg.pending[t];
    var r := s.reg.(pending := s.reg.pending - {t}, objs := s.reg.objs[h := s.reg.objs[h].(timer := None)]);
    var c := s.reg.objs[h].connId;
    s.(reg := if IsOpen(s, h) then r else PopId(r, c),
       table := if !IsOpen(s, h) && c in s.reg.conns && s.reg.conns[c] == h
                then Routing.Broadcast(s.table, c, ConnectionTimeout) else s.table)
  }

  /** A waiter looks for a connection: it is done if there is one, and otherwise waits for the
      next event in `queue`. */
  ghost function Look(s: State, k: SubId, w: Want, queue: seq<Event>): State
    requires s.reg.Valid()
  {
    if Found(s, w) then s.(waiters := s.waiters - {k}, reg := s.reg.(subs := s.reg.subs - {k}))
    else s.(waiters := s.waiters[k := w], reg := s.reg.(subs := s.reg.subs[k := queue]))
  }

  /** One action; a disabled one does nothing.  Whatever else changes the processes is `Change`. */
  ghost function Step(s: State, a: Action): State
    requires Inv(s)
  {
    match a
    case Register(w, c, g, state, stillOpen) =>
      if w in s.used then s else DoRegister(s, w, c, g, state, stillOpen)
    case SocketCloses(w) => s.(open := s.open - {w})
    case ReceiveShutDown(w, state) =>
      if w in s.tasks && s.tasks[w].phase.Receiving? then
        var h := s.tasks[w].conn;
        s.(tasks := s.tasks[w := s.tasks[w].(done := s.tasks[w].done || state.Done?)],
           reg := Publish(s.reg.(objs := s.reg.objs[h := s.reg.objs[h].(shutdown := state)]),
                          Changed(s.reg.objs[h].connId)))
      else s
    case LeaveLoop(w, failed) =>
      if w in s.tasks && s.tasks[w].phase.Receiving? && (failed || w !in s.open) then
        s.(tasks := s.tasks[w := s.tasks[w].(phase := Closing(failed))])
      else s
    case Finish(w) =>
      if w in s.tasks && s.tasks[w].phase.Closing? && w !in s.open then DoFinish(s, w) else s
    case Fire(t) => if t in s.reg.pending then DoFire(s, t) else s
    case Wait(k, w) => if k in s.reg.subs then s else Look(s, k, w, [])
    case Wake(k) =>
      if k in s.waiters && s.reg.subs[k] != [] then Look(s, k, s.waiters[k], s.reg.subs[k][1..]) else s
    case GiveUp(k) =>
      s.(waiters := s.waiters - {k}, reg := s.reg.(subs := s.reg.subs - {k}))
    case Change(table) => s.(table := table)
  }

  //----------------------------------------------------------------------------
  // The invariant

  predicate Served(s: State, h: nat) {
    exists w :: w in s.tasks && s.tasks[w].conn == h
  }

  ghost predicate TaskInv(s: State) {
    && (forall w :: w in s.tasks ==> s.tasks[w].conn < |s.reg.objs| && w in s.used)
    && s.open <= s.used
    && (forall h :: 0 <= h < |s.reg.objs| ==> s.reg.objs[h].ws in s.used)
  }

  /** A connection whose websocket is open has a serve task, for that websocket, and no timer. */
  ghost predicate OpenInv(s: State) {
    forall h :: 0 <= h < |s.reg.objs| && IsOpen(s, h) ==>
      && s.reg.objs[h].timer.None?
      && s.reg.objs[h].ws in s.tasks && s.tasks[s.reg.objs[h].ws].conn == h
  }

  /** With a timeout configured, a registered connection has a serve task or a timer. */
  ghost predicate ServedInv(s: State)
    requires s.reg.Ranged()
  {
    s.timeouts ==> forall c :: c in s.reg.conns ==>
      Served(s, s.reg.conns[c]) || s.reg.objs[s.reg.conns[c]].timer.Some?
  }

  /** A waiter that has nothing to read has nothing to find. */
  ghost predicate WaitInv(s: State)
    requires s.reg.Valid()
  {
    && s.waiters.Keys == s.reg.subs.Keys
    && (forall k :: k in s.waiters && s.reg.subs[k] == [] ==> !Found(s, s.waiters[k]))
  }

  ghost predicate Inv(s: State) {
    s.reg.Valid() && TaskInv(s) && OpenInv(s) && ServedInv(s) && WaitInv(s)
  }

  //----------------------------------------------------------------------------
  // Waiting

  /** The registry `r` has published something since `s`, or else is as far as waiters go the
      same: same connections, none of them newly open or active. */
  ghost predicate Informed(s: State, r: State) {
    && r.waiters == s.waiters && r.reg.subs.Keys == s.reg.subs.Keys
    && ((forall k :: k in r.reg.subs ==> r.reg.subs[k] != [])
        || (&& r.reg.subs == s.reg.subs && r.reg.conns == s.reg.conns && |r.reg.objs| == |s.reg.objs|
            && forall h :: 0 <= h < |s.reg.objs| ==>
                 && (IsOpen(r, h) ==> IsOpen(s, h))
                 && r.reg.objs[h].shutdown == s.reg.objs[h].shutdown && r.reg.objs[h].groupId == s.reg.objs[h].groupId))
  }

  lemma InformedWait(s: State, r: State)
    requires s.reg.Valid() && WaitInv(s) && r.reg.Valid() && Informed(s, r)
    ensures WaitInv(r)
  {
    forall k | k in r.waiters && r.reg.subs[k] == [] ensures !Found(r, r.waiters[k]) {
      assert !Found(s, s.waiters[k]);
      match r.waiters[k]
      case InGroup(g) =>
        OpenInGroupComplete(s.reg, s.open, g);
        OpenInGroupComplete(r.reg, r.open, g);
        assert OpenInGroup(r.reg, r.open, g) <= OpenInGroup(s.reg, s.open, g);
      case WithId(c) =>
    }
  }

  lemma LookInv(s: State, k: SubId, w: Want, queue: seq<Event>)
    requires Inv(s)
    ensures Inv(Look(s, k, w, queue))
  {
    var r := Look(s, k, w, queue);
    SameReg(s, r);
    SameFound(s, r);
  }

  /** Waiters and what they are told do not matter to tasks and timers. */
  lemma SameReg(s: State, r: State)
    requires s.reg.Valid() && TaskInv(s) && OpenInv(s) && ServedInv(s)
    requires r == s.(waiters := r.waiters, reg := s.reg.(subs := r.reg.subs))
    ensures r.reg.Valid() && TaskInv(r) && OpenInv(r) && ServedInv(r)
  {
    assert r.reg.conns == s.reg.conns && r.reg.groups == s.reg.groups && r.reg.objs == s.reg.objs;
    SameServed(s, r);
  }

  lemma SameFound(s: State, r: State)
    requires s.reg.Valid() && r.reg.Valid() && s.open == r.open
    requires r.reg.conns == s.reg.conns && r.reg.groups == s.reg.groups && r.reg.objs == s.reg.objs
    ensures forall w :: Found(s, w) == Found(r, w)
  {
    forall w ensures Found(s, w) == Found(r, w) {
      if w.InGroup? {
        assert OpenInGroup(s.reg, s.open, w.groupId) == OpenInGroup(r.reg, r.open, w.groupId);
      }
    }
  }

  //----------------------------------------------------------------------------
  // Each action keeps the invariant

  lemma RegisterInv(s: State, w: Sock, c: ConnId, g: GroupId, state: ShutdownState, stillOpen: bool)
    requires Inv(s) && w !in s.used
    ensures Inv(DoRegister(s, w, c, g, state, stillOpen))
  {
    if Add(s.reg, c, g, state, w).None? {
      RefusedInv(s, w, stillOpen);
    } else {
      AcceptedInv(s, w, c, g, state, stillOpen);
    }
  }

  lemma RefusedInv(s: State, w: Sock, stillOpen: bool)
    requires Inv(s) && w !in s.used
    ensures Inv(s.(used := s.used + {w}, open := if stillOpen then s.open + {w} else s.open))
  {
    var t := s.(used := s.used + {w}, open := if stillOpen then s.open + {w} else s.open);
    assert forall h :: 0 <= h < |s.reg.objs| ==> IsOpen(t, h) == IsOpen(s, h);
    InformedWait(s, t);
    SameServed(s, t);
  }

  lemma AcceptedInv(s: State, w: Sock, c: ConnId, g: GroupId, state: ShutdownState, stillOpen: bool)
    requires Inv(s) && w !in s.used && Add(s.reg, c, g, state, w).Some?
    ensures Inv(DoRegister(s, w, c, g, state, stillOpen))
  {
    var t := DoRegister(s, w, c, g, state, stillOpen);
    var h := Added(s, w, c, g, state, stillOpen);
    AddedServed(s, t, w, c, h);
    PublishTold(s.reg, Changed(c));
    ToldInformed(s, t);
    InformedWait(s, t);
  }

  lemma PublishTold(r: Registry, e: Event)
    ensures Publish(r, e).subs.Keys == r.subs.Keys && forall k :: k in r.subs ==> Publish(r, e).subs[k] != []
  {
  }

  lemma ToldInformed(s: State, t: State)
    requires t.waiters == s.waiters && t.reg.subs.Keys == s.reg.subs.Keys
    requires forall k :: k in t.reg.subs ==> t.reg.subs[k] != []
    ensures Informed(s, t)
  {
  }

  /** What an accepted registration leaves. */
  lemma Added(s: State, w: Sock, c: ConnId, g: GroupId, state: ShutdownState, stillOpen: bool) returns (h: nat)
    requires s.reg.Valid() && TaskInv(s) && OpenInv(s) && w !in s.used && Add(s.reg, c, g, state, w).Some?
    ensures var t := DoRegister(s, w, c, g, state, stillOpen);
            && t.waiters == s.waiters && t.timeouts == s.timeouts && t.reg.Valid() && TaskInv(t) && OpenInv(t)
            && t.reg.conns == s.reg.conns[c := h] && (c in s.reg.conns ==> h == s.reg.conns[c])
            && t.tasks == s.tasks[w := Task(h, false, Receiving)]
            && (forall i :: 0 <= i < |t.reg.objs| && i != h ==> i < |s.reg.objs| && t.reg.objs[i] == s.reg.objs[i])
            && t.reg.subs == Publish(s.reg, Changed(c)).subs
  {
    AddEffect(s.reg, c, g, state, w);
    h := Add(s.reg, c, g, state, w).value.1;
    AddedOpen(s, DoRegister(s, w, c, g, state, stillOpen), w, h);
  }

  lemma AddedOpen(s: State, t: State, w: Sock, h: nat)
    requires TaskInv(s) && OpenInv(s) && w !in s.used
    requires t.tasks == s.tasks[w := Task(h, false, Receiving)]
    requires t.used == s.used + {w} && t.open - {w} == s.open - {w}
    requires h < |t.reg.objs| && t.reg.objs[h].ws == w && t.reg.objs[h].timer.None? && |s.reg.objs| <= |t.reg.objs|
    requires forall i :: 0 <= i < |t.reg.objs| && i != h ==> i < |s.reg.objs| && t.reg.objs[i] == s.reg.objs[i]
    ensures TaskInv(t) && OpenInv(t)
  {
    forall v | v in t.open ensures v in t.used {
      assert v == w || v in s.open - {w} by { if v != w { assert v in t.open - {w}; } }
    }
    forall i | 0 <= i < |t.reg.objs| && IsOpen(t, i)
      ensures t.reg.objs[i].timer.None? && t.reg.objs[i].ws in t.tasks && t.tasks[t.reg.objs[i].ws].conn == i
    {
      if i != h {
        assert t.reg.objs[i].ws in t.open - {w};
        assert IsOpen(s, i);
      }
    }
  }

  lemma AddedServed(s: State, t: State, w: Sock, c: ConnId, h: nat)
    requires s.reg.Valid() && TaskInv(s) && ServedInv(s) && t.reg.Valid() && w !in s.used && t.timeouts == s.timeouts
    requires t.reg.conns == s.reg.conns[c := h] && (c in s.reg.conns ==> h == s.reg.conns[c])
    requires t.tasks == s.tasks[w := Task(h, false, Receiving)]
    requires forall i :: 0 <= i < |t.reg.objs| && i != h ==> i < |s.reg.objs| && t.reg.objs[i] == s.reg.objs[i]
    ensures ServedInv(t)
  {
    assert t.tasks[w].conn == h;
    forall d | d in t.reg.conns && t.timeouts
      ensures Served(t, t.reg.conns[d]) || t.reg.objs[t.reg.conns[d]].timer.Some?
    {
      if t.reg.conns[d] != h && Served(s, s.reg.conns[d]) {
        var v :| v in s.tasks && s.tasks[v].conn == s.reg.conns[d];
        assert v in t.tasks && t.tasks[v].conn == t.reg.conns[d];
      }
    }
  }

  /** Tasks for the same connections, and no timer removed. */
  lemma SameServed(s: State, r: State)
    requires s.reg.Valid() && ServedInv(s) && r.reg.Valid() && r.timeouts == s.timeouts
    requires r.reg.conns == s.reg.conns && |r.reg.objs| == |s.reg.objs|
    requires forall w :: w in s.tasks ==> w in r.tasks && r.tasks[w].conn == s.tasks[w].conn
    requires forall h :: 0 <= h < |s.reg.objs| ==> r.reg.objs[h].timer == s.reg.objs[h].timer
    ensures ServedInv(r)
  {
    forall c | c in r.reg.conns && r.timeouts
      ensures Served(r, r.reg.conns[c]) || r.reg.objs[r.reg.conns[c]].timer.Some?
    {
      if Served(s, s.reg.conns[c]) {
        var w :| w in s.tasks && s.tasks[w].conn == s.reg.conns[c];
        assert w in r.tasks && r.tasks[w].conn == r.reg.conns[c];
      }
    }
  }

  lemma SocketClosesInv(s: State, w: Sock)
    requires Inv(s)
    ensures Inv(Step(s, SocketCloses(w)))
  {
    var r := Step(s, SocketCloses(w));
    SameServed(s, r);
    InformedWait(s, r);
  }

  lemma ReceiveShutDownInv(s: State, w: Sock, state: ShutdownState)
    requires Inv(s)
    ensures Inv(Step(s, ReceiveShutDown(w, state)))
  {
    if w in s.tasks && s.tasks[w].phase.Receiving? {
      var h := s.tasks[w].conn;
      var q := s.reg.(objs := s.reg.objs[h := s.reg.objs[h].(shutdown := state)]);
      assert q == Reopen(s.reg, h, state, s.reg.objs[h].ws);
      ReopenValid(s.reg, h, state, s.reg.objs[h].ws);
      PublishSame(q, s.reg.objs[h].connId);
      ReceivedInv(s, w, s.tasks[w].done || state.Done?, Publish(q, Changed(s.reg.objs[h].connId)));
    }
  }

  lemma ReceivedInv(s: State, w: Sock, done: bool, q: Registry)
    requires Inv(s) && w in s.tasks && q.Valid() && q.conns == s.reg.conns && |q.objs| == |s.reg.objs|
    requires q.subs.Keys == s.reg.subs.Keys && forall k :: k in q.subs ==> q.subs[k] != []
    requires forall h :: 0 <= h < |q.objs| ==>
               q.objs[h].ws == s.reg.objs[h].ws && q.objs[h].timer == s.reg.objs[h].timer
    ensures Inv(s.(tasks := s.tasks[w := s.tasks[w].(done := done)], reg := q))
  {
    var r := s.(tasks := s.tasks[w := s.tasks[w].(done := done)], reg := q);
    SameServed(s, r);
    InformedWait(s, r);
    assert forall h :: 0 <= h < |q.objs| ==> IsOpen(r, h) == IsOpen(s, h);
  }

  lemma LeaveLoopInv(s: State, w: Sock, failed: bool)
    requires Inv(s)
    ensures Inv(Step(s, LeaveLoop(w, failed)))
  {
    var r := Step(s, LeaveLoop(w, failed));
    SameServed(s, r);
    InformedWait(s, r);
  }

  lemma GiveUpInv(s: State, k: SubId)
    requires Inv(s)
    ensures Inv(Step(s, GiveUp(k)))
  {
    var r := Step(s, GiveUp(k));
    SameReg(s, r);
    SameFound(s, r);
  }

  /** Removing the entry of an id: only the entry's own timer is affected. */
  lemma PopIdInv(r: Registry, c: ConnId)
    requires r.Valid()
    ensures PopId(r, c).Valid() && PopId(r, c).conns == r.conns - {c}
    ensures |PopId(r, c).objs| == |r.objs|
    ensures PopId(r, c).subs == if c in r.conns then Publish(r, Removed(c)).subs else r.subs
    ensures forall h :: 0 <= h < |r.objs| ==>
              PopId(r, c).objs[h] == if c in r.conns && h == r.conns[c] then r.objs[h].(timer := None) else r.objs[h]
  {
    if c in r.conns {
      PopValid(r, c);
    }
  }

  lemma FinishInv(s: State, w: Sock)
    requires Inv(s) && w in s.tasks && w !in s.open
    ensures Inv(DoFinish(s, w))
  {
    var c := s.reg.objs[s.tasks[w].conn].connId;
    var r := if s.tasks[w].phase == Closing(true) then Publish(s.reg, Changed(c)) else s.reg;
    PublishSame(s.reg, c);
    if s.tasks[w].done {
      FinishDone(s, w, r);
    } else {
      FinishOpenOrTimed(s, w, r);
    }
  }

  lemma FinishDone(s: State, w: Sock, r: Registry)
    requires Inv(s) && w in s.tasks && w !in s.open && r.Valid()
    requires r.objs == s.reg.objs && r.conns == s.reg.conns && r.subs.Keys == s.reg.subs.Keys
    requires r.subs == s.reg.subs || forall k :: k in r.subs ==> r.subs[k] != []
    ensures Inv(s.(tasks := s.tasks - {w}, reg := PopId(r, s.reg.objs[s.tasks[w].conn].connId)))
  {
    var c := s.reg.objs[s.tasks[w].conn].connId;
    PopIdFits(s, r, c);
    FinishWith(s, w, r, PopId(r, c));
  }

  lemma PopIdFits(s: State, r: Registry, c: ConnId)
    requires s.reg.Valid() && OpenInv(s) && r.Valid() && r.objs == s.reg.objs && r.conns == s.reg.conns
    ensures var q := PopId(r, c);
            && q.Valid() && |q.objs| == |s.reg.objs| && q.subs.Keys == r.subs.Keys && q.conns == s.reg.conns - {c}
            && (forall i :: 0 <= i < |s.reg.objs| ==>
                  && q.objs[i].(timer := None) == s.reg.objs[i].(timer := None)
                  && (IsOpen(s, i) ==> q.objs[i].timer.None?))
            && (forall d :: d in q.conns ==> q.objs[q.conns[d]].timer == s.reg.objs[q.conns[d]].timer)
            && ((q.subs == r.subs && q.conns == s.reg.conns) || forall k :: k in q.subs ==> q.subs[k] != [])
  {
    PopIdInv(r, c);
  }

  lemma FinishOpenOrTimed(s: State, w: Sock, r: Registry)
    requires Inv(s) && w in s.tasks && w !in s.open && r.Valid()
    requires r.objs == s.reg.objs && r.conns == s.reg.conns && r.subs.Keys == s.reg.subs.Keys
    requires r.subs == s.reg.subs || forall k :: k in r.subs ==> r.subs[k] != []
    ensures var h := s.tasks[w].conn;
            Inv(s.(tasks := s.tasks - {w}, reg := if !s.timeouts || IsOpen(s, h) then r else SetTimer(r, h)))
  {
    var h := s.tasks[w].conn;
    if !s.timeouts || IsOpen(s, h) {
      FinishWith(s, w, r, r);
    } else {
      SetTimerEffect(r, h);
      FinishWith(s, w, r, SetTimer(r, h));
    }
  }

  /** Ending the task of `w` with registry `q`, made from `r`, which is that of `s` or has
      published: the entry of its connection's id is gone, or its connection is open or has a
      timer. */
  lemma FinishWith(s: State, w: Sock, r: Registry, q: Registry)
    requires Inv(s) && w in s.tasks && w !in s.open && q.Valid()
    requires |q.objs| == |s.reg.objs| && q.subs.Keys == s.reg.subs.Keys == r.subs.Keys
    requires forall i :: 0 <= i < |s.reg.objs| ==>
               && q.objs[i].(timer := None) == s.reg.objs[i].(timer := None)
               && (IsOpen(s, i) ==> q.objs[i].timer.None?)
    requires forall d :: d in q.conns ==> d in s.reg.conns && q.conns[d] == s.reg.conns[d]
    requires forall d :: d in q.conns && q.conns[d] != s.tasks[w].conn ==>
               q.objs[q.conns[d]].timer == s.reg.objs[q.conns[d]].timer
    requires var h := s.tasks[w].conn;
             !s.timeouts || IsOpen(s, h) || q.objs[h].timer.Some? || s.reg.objs[h].connId !in q.conns
    requires r.subs == s.reg.subs || forall k :: k in r.subs ==> r.subs[k] != []
    requires (q.subs == r.subs && q.conns == s.reg.conns) || forall k :: k in q.subs ==> q.subs[k] != []
    ensures Inv(s.(tasks := s.tasks - {w}, reg := q))
  {
    var t := s.(tasks := s.tasks - {w}, reg := q);
    assert forall i :: 0 <= i < |s.reg.objs| ==>
             t.reg.objs[i].ws == s.reg.objs[i].ws && t.reg.objs[i].shutdown == s.reg.objs[i].shutdown
             && t.reg.objs[i].groupId == s.reg.objs[i].groupId;
    FinishOpen(s, t, w);
    FinishServed(s, t, w);
    FinishInformed(s, t, r);
    InformedWait(s, t);
  }

  lemma PublishSame(r: Registry, c: ConnId)
    requires r.Valid()
    ensures var q := Publish(r, Changed(c)); q.Valid() && q.objs == r.objs && q.conns == r.conns
    ensures forall k :: k in Publish(r, Changed(c)).subs ==> Publish(r, Changed(c)).subs[k] != []
  {
  }

  lemma FinishInformed(s: State, t: State, r: Registry)
    requires t.waiters == s.waiters && t.reg.subs.Keys == s.reg.subs.Keys == r.subs.Keys && t.open == s.open
    requires |t.reg.objs| == |s.reg.objs|
    requires forall i :: 0 <= i < |s.reg.objs| ==>
               t.reg.objs[i].ws == s.reg.objs[i].ws && t.reg.objs[i].shutdown == s.reg.objs[i].shutdown
               && t.reg.objs[i].groupId == s.reg.objs[i].groupId
    requires r.subs == s.reg.subs || forall k :: k in r.subs ==> r.subs[k] != []
    requires (t.reg.subs == r.subs && t.reg.conns == s.reg.conns)
             || forall k :: k in t.reg.subs ==> t.reg.subs[k] != []
    ensures Informed(s, t)
  {
  }

  lemma FinishOpen(s: State, t: State, w: Sock)
    requires Inv(s) && w in s.tasks && w !in s.open && t.tasks == s.tasks - {w} && t.open == s.open && t.used == s.used
    requires |t.reg.objs| == |s.reg.objs|
    requires forall i :: 0 <= i < |s.reg.objs| ==> t.reg.objs[i].ws == s.reg.objs[i].ws
    requires forall i :: 0 <= i < |s.reg.objs| && IsOpen(s, i) && s.reg.objs[i].timer.None? ==>
               t.reg.objs[i].timer.None?
    ensures OpenInv(t) && TaskInv(t)
  {
    forall i | 0 <= i < |t.reg.objs| && IsOpen(t, i)
      ensures t.reg.objs[i].timer.None? && t.reg.objs[i].ws in t.tasks && t.tasks[t.reg.objs[i].ws].conn == i
    {
      assert IsOpen(s, i);
    }
  }

  /** Ending the task of `w` leaves no registered connection without task and timer. */
  lemma FinishServed(s: State, t: State, w: Sock)
    requires Inv(s) && w in s.tasks && w !in s.open && t.reg.Valid()
    requires t.tasks == s.tasks - {w} && t.timeouts == s.timeouts && |t.reg.objs| == |s.reg.objs|
    requires forall d :: d in t.reg.conns ==> d in s.reg.conns && t.reg.conns[d] == s.reg.conns[d]
    requires forall d :: d in t.reg.conns && t.reg.conns[d] != s.tasks[w].conn ==>
               t.reg.objs[t.reg.conns[d]].timer == s.reg.objs[t.reg.conns[d]].timer
    requires var h := s.tasks[w].conn;
             !s.timeouts || IsOpen(s, h) || t.reg.objs[h].timer.Some? || s.reg.objs[h].connId !in t.reg.conns
    ensures ServedInv(t)
  {
    var h := s.tasks[w].conn;
    forall d | d in t.reg.conns && t.timeouts
      ensures Served(t, t.reg.conns[d]) || t.reg.objs[t.reg.conns[d]].timer.Some?
    {
      var i := t.reg.conns[d];
      if i == h {
        if IsOpen(s, h) {
          var v := s.reg.objs[h].ws;
          assert v in t.tasks && t.tasks[v].conn == h;
        }
      } else if Served(s, i) {
        var v :| v in s.tasks && s.tasks[v].conn == i;
        assert v in t.tasks && t.tasks[v].conn == i;
      }
    }
  }

  lemma FireInv(s: State, t: TimerId)
    requires Inv(s) && t in s.reg.pending
    ensures Inv(DoFire(s, t))
  {
    Fired(s, t);
    FiredInv(s, DoFire(s, t), s.reg.pending[t]);
  }

  /** What the firing of a timer for object `h` changes: the timer is gone, and so is the entry of the
      connection's id, with that entry's timer. */
  ghost predicate IsFired(s: State, f: State, h: nat)
    requires h < |s.reg.objs|
  {
    var c := s.reg.objs[h].connId;
    && f == s.(reg := f.reg, table := f.table) && f.reg.Valid() && |f.reg.objs| == |s.reg.objs|
    && f.reg.conns == s.reg.conns - {c}
    && f.reg.subs == (if c in s.reg.conns then Publish(s.reg, Removed(c)).subs else s.reg.subs)
    && (forall i :: 0 <= i < |s.reg.objs| ==>
          f.reg.objs[i] == if i == h || (c in s.reg.conns && i == s.reg.conns[c])
                           then s.reg.objs[i].(timer := None) else s.reg.objs[i])
  }

  lemma Fired(s: State, t: TimerId)
    requires Inv(s) && t in s.reg.pending
    ensures !IsOpen(s, s.reg.pending[t]) && IsFired(s, DoFire(s, t), s.reg.pending[t])
  {
    var h := s.reg.pending[t];
    var r := CancelTimer(s.reg, h);
    CancelTimerValid(s.reg, h);
    PopIdInv(r, s.reg.objs[h].connId);
    assert DoFire(s, t) == s.(reg := PopId(r, s.reg.objs[h].connId), table := DoFire(s, t).table);
  }

  lemma FiredInv(s: State, f: State, h: nat)
    requires Inv(s) && h < |s.reg.objs| && IsFired(s, f, h)
    ensures Inv(f)
  {
    FiredOpen(s, f);
    FiredServed(s, f, h);
    FiredInformed(s, f, h);
    InformedWait(s, f);
  }

  lemma FiredInformed(s: State, f: State, h: nat)
    requires s.reg.Valid() && h < |s.reg.objs| && IsFired(s, f, h)
    ensures Informed(s, f)
  {
    var c := s.reg.objs[h].connId;
    PublishTold(s.reg, Removed(c));
    assert forall i :: 0 <= i < |s.reg.objs| ==> IsOpen(f, i) == IsOpen(s, i);
  }

  lemma FiredOpen(s: State, f: State)
    requires TaskInv(s) && OpenInv(s) && f.tasks == s.tasks && f.open == s.open && f.used == s.used
    requires |f.reg.objs| == |s.reg.objs|
    requires forall i :: 0 <= i < |s.reg.objs| ==>
               f.reg.objs[i].ws == s.reg.objs[i].ws && (s.reg.objs[i].timer.None? ==> f.reg.objs[i].timer.None?)
    ensures TaskInv(f) && OpenInv(f)
  {
    assert forall i :: 0 <= i < |s.reg.objs| ==> IsOpen(f, i) == IsOpen(s, i);
  }

  lemma FiredServed(s: State, f: State, h: nat)
    requires s.reg.Valid() && ServedInv(s) && h < |s.reg.objs| && IsFired(s, f, h)
    ensures ServedInv(f)
  {
    forall d | d in f.reg.conns && f.timeouts
      ensures Served(f, f.reg.conns[d]) || f.reg.objs[f.reg.conns[d]].timer.Some?
    {
      if Served(s, s.reg.conns[d]) {
        var v :| v in s.tasks && s.tasks[v].conn == s.reg.conns[d];
        assert v in f.tasks && f.tasks[v].conn == f.reg.conns[d];
      }
    }
  }

  lemma StepInv(s: State, a: Action)
    requires Inv(s)
    ensures Inv(Step(s, a))
  {
    match a
    case Register(w, c, g, state, stillOpen) =>
      if w !in s.used { RegisterInv(s, w, c, g, state, stillOpen); }
    case SocketCloses(w) => SocketClosesInv(s, w);
    case ReceiveShutDown(w, state) => ReceiveShutDownInv(s, w, state);
    case LeaveLoop(w, failed) => LeaveLoopInv(s, w, failed);
    case Finish(w) =>
      if w in s.tasks && s.tasks[w].phase.Closing? && w !in s.open { FinishInv(s, w); }
    case Fire(t) => if t in s.reg.pending { FireInv(s, t); }
    case Wait(k, w) => if k !in s.reg.subs { LookInv(s, k, w, []); }
    case Wake(k) =>
      if k in s.waiters && s.reg.subs[k] != [] { LookInv(s, k, s.waiters[k], s.reg.subs[k][1..]); }
    case GiveUp(k) => GiveUpInv(s, k);
    case Change(table) => ChangeInv(s, table);
  }

  /** The processes do not matter to connections, tasks, timers and waiters. */
  lemma ChangeInv(s: State, table: Routing.Table)
    requires Inv(s)
    ensures Inv(s.(table := table))
  {
    var r := s.(table := table);
    SameServed(s, r);
    SameFound(s, r);
    assert forall h :: 0 <= h < |s.reg.objs| ==> IsOpen(r, h) == IsOpen(s, h);
  }

  /** The state that a sequence of actions leads to from `s`. */
  ghost function Steps(s: State, actions: seq<Action>): (r: State)
    requires Inv(s)
    ensures Inv(r)
  {
    if actions == [] then s
    else
      var before := Steps(s, actions[..|actions| - 1]);
      StepInv(before, actions[|actions| - 1]);
      Step(before, actions[|actions| - 1])
  }

  //----------------------------------------------------------------------------
  // Main results

  /** The state after a run of the server. */
  ghost function Run(timeouts: bool, actions: seq<Action>): (s: State)
    ensures Inv(s)
  {
    Steps(Init(timeouts), actions)
  }

  /** Exactly one pending timer is for object `h`. */
  ghost predicate TimedOnce(s: State, h: nat) {
    exists t :: t in s.reg.pending && s.reg.pending[t] == h
                && forall u :: u in s.reg.pending && s.reg.pending[u] == h ==> u == t
  }

  /** In every run with a reconnect timeout, every registered connection has a serve task or
      exactly one pending timer. */
  lemma ServedOrTimed(actions: seq<Action>)
    ensures var s := Run(true, actions);
            forall c :: c in s.reg.conns ==> Served(s, s.reg.conns[c]) || TimedOnce(s, s.reg.conns[c])
  {
    TimeoutsKept(Init(true), actions);
    var s := Run(true, actions);
    forall c | c in s.reg.conns ensures Served(s, s.reg.conns[c]) || TimedOnce(s, s.reg.conns[c]) {
      var h := s.reg.conns[c];
      if !Served(s, h) {
        var t := s.reg.objs[h].timer.value;
        assert t in s.reg.pending && s.reg.pending[t] == h;
      }
    }
  }

  lemma StepTimeouts(s: State, a: Action)
    requires Inv(s)
    ensures Step(s, a).timeouts == s.timeouts
  {
  }

  lemma {:induction false} TimeoutsKept(s: State, actions: seq<Action>)
    requires Inv(s)
    ensures Steps(s, actions).timeouts == s.timeouts
  {
    if actions != [] {
      TimeoutsKept(s, actions[..|actions| - 1]);
      StepTimeouts(Steps(s, actions[..|actions| - 1]), actions[|actions| - 1]);
    }
  }

  /** In every run, a pending timer is for a connection whose websocket is not open. */
  lemma TimedIsClosed(timeouts: bool, actions: seq<Action>, t: TimerId)
    requires t in Run(timeouts, actions).reg.pending
    ensures var s := Run(timeouts, actions); !IsOpen(s, s.reg.pending[t])
  {
    assert Run(timeouts, actions).reg.Timed();
  }

  /** In every run, a waiter with nothing to read has nothing to find: it misses no connection. */
  lemma WaiterMissesNothing(timeouts: bool, actions: seq<Action>, k: SubId)
    requires var s := Run(timeouts, actions); k in s.waiters && s.reg.subs[k] == []
    ensures var s := Run(timeouts, actions);
            match s.waiters[k]
            case InGroup(g) => forall c :: c in s.reg.conns && s.reg.objs[s.reg.conns[c]].groupId == g ==>
                                 !Eligible(s.reg, s.open, s.reg.conns[c])
            case WithId(c) => c !in s.reg.conns || !IsOpen(s, s.reg.conns[c])
  {
    NothingToFind(Run(timeouts, actions), k);
  }

  lemma NothingToFind(s: State, k: SubId)
    requires s.reg.Valid() && WaitInv(s) && k in s.waiters && s.reg.subs[k] == []
    ensures match s.waiters[k]
            case InGroup(g) => forall c :: c in s.reg.conns && s.reg.objs[s.reg.conns[c]].groupId == g ==>
                                 !Eligible(s.reg, s.open, s.reg.conns[c])
            case WithId(c) => c !in s.reg.conns || !IsOpen(s, s.reg.conns[c])
  {
    assert !Found(s, s.waiters[k]);
    if s.waiters[k].InGroup? {
      var g := s.waiters[k].groupId;
      OpenInGroupComplete(s.reg, s.open, g);
      forall c | c in s.reg.conns && s.reg.objs[s.reg.conns[c]].groupId == g
        ensures !Eligible(s.reg, s.open, s.reg.conns[c])
      {
        assert c !in OpenInGroup(s.reg, s.open, g);
      }
    }
  }

  /** The firing of timer `t` unregisters a connection that is open. */
  ghost predicate PopsOpen(s: State, t: TimerId)
    requires Inv(s) && t in s.reg.pending
  {
    exists c :: c in s.reg.conns && c !in DoFire(s, t).reg.conns && IsOpen(s, s.reg.conns[c])
  }

  /** A timer pops by id, without looking at what is registered under the id: it unregisters an
      open connection exactly if an open one is registered then, and that is never its own. */
  lemma FirePopsOpenExactly(timeouts: bool, actions: seq<Action>, t: TimerId)
    requires t in Run(timeouts, actions).reg.pending
    ensures var s := Run(timeouts, actions);
            var h := s.reg.pending[t];
            var c := s.reg.objs[h].connId;
            && (PopsOpen(s, t) <==> c in s.reg.conns && IsOpen(s, s.reg.conns[c]))
            && (PopsOpen(s, t) ==> !Registered(s, h))
  {
    var s := Run(timeouts, actions);
    Fired(s, t);
  }

  /** A serve task can end. */
  predicate CanFinish(s: State, w: Sock) {
    w in s.tasks && s.tasks[w].phase.Closing? && w !in s.open
  }

  /** Whoever pops a connection leaves no serve task of it behind. */
  ghost predicate Alone(s: State, a: Action) {
    match a
    case Fire(t) => t in s.reg.pending ==> !Served(s, s.reg.pending[t])
    case Finish(w) =>
      CanFinish(s, w) && s.tasks[w].done ==>
        forall v :: v in s.tasks && v != w ==> s.tasks[v].conn != s.tasks[w].conn
    case _ => true
  }

  ghost predicate AllAlone(s: State, actions: seq<Action>)
    requires Inv(s)
  {
    actions == []
    || (AllAlone(s, actions[..|actions| - 1])
        && Alone(Steps(s, actions[..|actions| - 1]), actions[|actions| - 1]))
  }

  /** Object `h` is the one registered under its id. */
  predicate Registered(s: State, h: nat)
    requires h < |s.reg.objs|
  {
    s.reg.objs[h].connId in s.reg.conns && s.reg.conns[s.reg.objs[h].connId] == h
  }

  /** Every connection object with a serve task or a timer is registered. */
  predicate NoOrphan(s: State) {
    forall h :: 0 <= h < |s.reg.objs| && (Served(s, h) || s.reg.objs[h].timer.Some?) ==> Registered(s, h)
  }

  lemma AloneKeepsRegistered(s: State, a: Action)
    requires Inv(s) && NoOrphan(s) && Alone(s, a)
    ensures NoOrphan(Step(s, a))
  {
    match a
    case Register(w, c, g, state, stillOpen) => RegisterNoOrphan(s, w, c, g, state, stillOpen);
    case Finish(w) => FinishNoOrphan(s, w);
    case Fire(t) => FireNoOrphan(s, t);
    case _ => OtherNoOrphan(s, a);
  }

  lemma OtherNoOrphan(s: State, a: Action)
    requires Inv(s) && NoOrphan(s) && !a.Register? && !a.Finish? && !a.Fire?
    ensures NoOrphan(Step(s, a))
  {
    if a.Wait? {
      if a.sub !in s.reg.subs { LookNoOrphan(s, a.sub, a.want, []); }
    } else if a.Wake? {
      if a.sub in s.waiters && s.reg.subs[a.sub] != [] {
        LookNoOrphan(s, a.sub, s.waiters[a.sub], s.reg.subs[a.sub][1..]);
      }
    } else {
      SameNoOrphan(s, Step(s, a));
    }
  }

  lemma LookNoOrphan(s: State, k: SubId, w: Want, queue: seq<Event>)
    requires Inv(s) && NoOrphan(s)
    ensures NoOrphan(Look(s, k, w, queue))
  {
    SameNoOrphan(s, Look(s, k, w, queue));
  }

  /** Tasks for the same connections, with the same entries and timers. */
  lemma SameNoOrphan(s: State, r: State)
    requires NoOrphan(s) && r.reg.conns == s.reg.conns && |r.reg.objs| == |s.reg.objs|
    requires forall w :: w in r.tasks ==> w in s.tasks && r.tasks[w].conn == s.tasks[w].conn
    requires forall h :: 0 <= h < |s.reg.objs| ==>
               r.reg.objs[h].connId == s.reg.objs[h].connId && r.reg.objs[h].timer == s.reg.objs[h].timer
    ensures NoOrphan(r)
  {
    forall h | 0 <= h < |r.reg.objs| && (Served(r, h) || r.reg.objs[h].timer.Some?) ensures Registered(r, h) {
      assert Served(r, h) ==> Served(s, h);
      assert Registered(s, h);
    }
  }

  lemma RegisterNoOrphan(s: State, w: Sock, c: ConnId, g: GroupId, state: ShutdownState, stillOpen: bool)
    requires Inv(s) && NoOrphan(s)
    ensures NoOrphan(Step(s, Register(w, c, g, state, stillOpen)))
  {
    if w !in s.used {
      var t := DoRegister(s, w, c, g, state, stillOpen);
      if Add(s.reg, c, g, state, w).Some? {
        AddEffect(s.reg, c, g, state, w);
        AddedNoOrphan(s, t, w, c, Add(s.reg, c, g, state, w).value.1);
      }
    }
  }

  lemma AddedNoOrphan(s: State, t: State, w: Sock, c: ConnId, h: nat)
    requires NoOrphan(s) && h < |t.reg.objs| && t.reg.objs[h].connId == c
    requires t.reg.conns == s.reg.conns[c := h] && (if c in s.reg.conns then h == s.reg.conns[c] else h == |s.reg.objs|)
    requires t.tasks == s.tasks[w := Task(h, false, Receiving)]
    requires forall v :: v in s.tasks && v != w ==> s.tasks[v].conn < |s.reg.objs|
    requires forall i :: 0 <= i < |t.reg.objs| && i != h ==> i < |s.reg.objs| && t.reg.objs[i] == s.reg.objs[i]
    ensures NoOrphan(t)
  {
    forall i | 0 <= i < |t.reg.objs| && (Served(t, i) || t.reg.objs[i].timer.Some?) ensures Registered(t, i) {
      if i != h {
        assert Served(t, i) ==> Served(s, i);
        assert Registered(s, i);
      }
    }
  }

  lemma FinishNoOrphan(s: State, w: Sock)
    requires Inv(s) && NoOrphan(s) && Alone(s, Finish(w))
    ensures NoOrphan(Step(s, Finish(w)))
  {
    if CanFinish(s, w) {
      var h := s.tasks[w].conn;
      var c := s.reg.objs[h].connId;
      assert Served(s, h);
      assert Registered(s, h);
      var r := if s.tasks[w].phase == Closing(true) then Publish(s.reg, Changed(c)) else s.reg;
      PublishSame(s.reg, c);
      FinishLeavesAny(s, w, r);
    }
  }

  lemma FinishLeavesAny(s: State, w: Sock, r: Registry)
    requires Inv(s) && NoOrphan(s) && w in s.tasks && r.Valid() && r.objs == s.reg.objs && r.conns == s.reg.conns
    requires Registered(s, s.tasks[w].conn) && CanFinish(s, w) && Alone(s, Finish(w))
    ensures var h := s.tasks[w].conn;
            NoOrphan(s.(tasks := s.tasks - {w},
                        reg := if s.tasks[w].done then PopId(r, s.reg.objs[h].connId)
                               else if !s.timeouts || IsOpen(s, h) then r
                               else SetTimer(r, h)))
  {
    var h := s.tasks[w].conn;
    if s.tasks[w].done {
      FinishLeavesDone(s, w, r);
    } else if s.timeouts && !IsOpen(s, h) {
      SetTimerEffect(r, h);
      FinishLeaves(s, w, SetTimer(r, h));
    } else {
      FinishLeaves(s, w, r);
    }
  }

  lemma FinishLeavesDone(s: State, w: Sock, r: Registry)
    requires Inv(s) && NoOrphan(s) && w in s.tasks && r.Valid() && r.objs == s.reg.objs && r.conns == s.reg.conns
    requires Registered(s, s.tasks[w].conn) && CanFinish(s, w) && Alone(s, Finish(w)) && s.tasks[w].done
    ensures NoOrphan(s.(tasks := s.tasks - {w}, reg := PopId(r, s.reg.objs[s.tasks[w].conn].connId)))
  {
    PopIdInv(r, s.reg.objs[s.tasks[w].conn].connId);
    FinishLeaves(s, w, PopId(r, s.reg.objs[s.tasks[w].conn].connId));
  }

  lemma FinishLeaves(s: State, w: Sock, q: Registry)
    requires Inv(s) && NoOrphan(s) && w in s.tasks && |q.objs| == |s.reg.objs|
    requires forall i :: 0 <= i < |q.objs| ==> q.objs[i].connId == s.reg.objs[i].connId
    requires forall i :: 0 <= i < |q.objs| && i != s.tasks[w].conn && q.objs[i].timer.Some? ==>
               s.reg.objs[i].timer.Some?
    requires var h := s.tasks[w].conn;
             var c := s.reg.objs[h].connId;
             q.conns == s.reg.conns
             || (q.conns == s.reg.conns - {c} && q.objs[h].timer.None?
                 && forall v :: v in s.tasks && v != w ==> s.tasks[v].conn != h)
    ensures NoOrphan(s.(tasks := s.tasks - {w}, reg := q))
  {
    var t, h := s.(tasks := s.tasks - {w}, reg := q), s.tasks[w].conn;
    assert Served(s, h);
    assert Registered(s, h);
    forall i | 0 <= i < |t.reg.objs| && (Served(t, i) || t.reg.objs[i].timer.Some?) ensures Registered(t, i) {
      assert Served(t, i) ==> Served(s, i);
      assert Registered(s, i);
    }
  }

  lemma FireNoOrphan(s: State, t: TimerId)
    requires Inv(s) && NoOrphan(s) && Alone(s, Fire(t))
    ensures NoOrphan(Step(s, Fire(t)))
  {
    if t in s.reg.pending {
      Fired(s, t);
      assert s.reg.objs[s.reg.pending[t]].timer.Some?;
      assert Registered(s, s.reg.pending[t]);
      FiredNoOrphan(s, DoFire(s, t), s.reg.pending[t]);
    }
  }

  lemma FiredNoOrphan(s: State, f: State, h: nat)
    requires NoOrphan(s) && h < |s.reg.objs| && Registered(s, h) && !Served(s, h)
    requires f == s.(reg := f.reg, table := f.table) && |f.reg.objs| == |s.reg.objs|
    requires f.reg.conns == s.reg.conns - {s.reg.objs[h].connId}
    requires forall i :: 0 <= i < |s.reg.objs| ==>
               f.reg.objs[i] == if i == h then s.reg.objs[i].(timer := None) else s.reg.objs[i]
    ensures NoOrphan(f)
  {
    forall i | 0 <= i < |f.reg.objs| && (Served(f, i) || f.reg.objs[i].timer.Some?) ensures Registered(f, i) {
      assert Served(f, i) ==> Served(s, i);
      assert Registered(s, i);
    }
  }

  /** A timer that pops a connection with a serve task leaves the task an orphan. */
  lemma FireOrphans(s: State, t: TimerId)
    requires Inv(s) && NoOrphan(s) && t in s.reg.pending && Served(s, s.reg.pending[t])
    ensures !NoOrphan(Step(s, Fire(t)))
  {
    Fired(s, t);
    var f, h := DoFire(s, t), s.reg.pending[t];
    var w :| w in s.tasks && s.tasks[w].conn == h;
    assert w in f.tasks && f.tasks[w].conn == h;
    assert Served(f, h) && !Registered(f, h);
  }

  /** So does a task that pops a connection with another task. */
  lemma FinishOrphans(s: State, w: Sock, v: Sock)
    requires Inv(s) && NoOrphan(s) && CanFinish(s, w) && s.tasks[w].done
    requires v in s.tasks && v != w && s.tasks[v].conn == s.tasks[w].conn
    ensures !NoOrphan(Step(s, Finish(w)))
  {
    var h := s.tasks[w].conn;
    var c := s.reg.objs[h].connId;
    var r := if s.tasks[w].phase == Closing(true) then Publish(s.reg, Changed(c)) else s.reg;
    PublishSame(s.reg, c);
    PopIdInv(r, c);
    var f := Step(s, Finish(w));
    assert f.reg == PopId(r, c);
    assert v in f.tasks && f.tasks[v].conn == h;
    assert Served(f, h) && !Registered(f, h);
  }

  /** An action keeps every connection object with a task or a timer registered if and only if whoever
      pops a connection by it leaves no serve task of it behind. */
  lemma AloneExactly(s: State, a: Action)
    requires Inv(s) && NoOrphan(s)
    ensures NoOrphan(Step(s, a)) <==> Alone(s, a)
  {
    if Alone(s, a) {
      AloneKeepsRegistered(s, a);
    } else if a.Fire? {
      FireOrphans(s, a.timer);
    } else {
      var v :| v in s.tasks && v != a.ws && s.tasks[v].conn == s.tasks[a.ws].conn;
      FinishOrphans(s, a.ws, v);
    }
  }

  /** No state that a run goes through has an orphan. */
  ghost predicate NeverOrphan(s: State, actions: seq<Action>)
    requires Inv(s)
  {
    NoOrphan(Steps(s, actions)) && (actions == [] || NeverOrphan(s, actions[..|actions| - 1]))
  }

  /** So a run never has an orphan if and only if whoever pops is alone, all along. */
  lemma {:induction false} AllAloneExactly(timeouts: bool, actions: seq<Action>)
    ensures AllAlone(Init(timeouts), actions) <==> NeverOrphan(Init(timeouts), actions)
  {
    if actions != [] {
      var before := actions[..|actions| - 1];
      AllAloneExactly(timeouts, before);
      if NoOrphan(Run(timeouts, before)) {
        AloneExactly(Run(timeouts, before), actions[|actions| - 1]);
      }
    }
  }

  lemma {:induction false} AllAloneNoOrphan(timeouts: bool, actions: seq<Action>)
    requires AllAlone(Init(timeouts), actions)
    ensures NoOrphan(Run(timeouts, actions))
  {
    if actions != [] {
      AllAloneNoOrphan(timeouts, actions[..|actions| - 1]);
      AloneKeepsRegistered(Run(timeouts, actions[..|actions| - 1]), actions[|actions| - 1]);
    }
  }

  /** In every run where whoever pops a connection is alone, the assertions that `_pop` returns
      the popper's own connection hold: a firing timer's connection is the registered one, and
      no timer pops an open connection; so is the connection of a task that is done. */
  lemma AlonePopsOwn(timeouts: bool, actions: seq<Action>)
    requires AllAlone(Init(timeouts), actions)
    ensures var s := Run(timeouts, actions);
            && (forall t :: t in s.reg.pending ==> Registered(s, s.reg.pending[t]) && !PopsOpen(s, t))
            && (forall w :: w in s.tasks ==> Registered(s, s.tasks[w].conn))
  {
    AllAloneNoOrphan(timeouts, actions);
    var s := Run(timeouts, actions);
    forall t | t in s.reg.pending ensures Registered(s, s.reg.pending[t]) && !PopsOpen(s, t) {
      Fired(s, t);
    }
    forall w | w in s.tasks ensures Registered(s, s.tasks[w].conn) {
      assert Served(s, s.tasks[w].conn);
    }
  }

  //----------------------------------------------------------------------------
  // Telling the processes of a connection that it timed out

  /** A firing timer that pops tells every process of the connection, or none: all if it pops its own
      connection, and none if it pops another object or nothing is registered under the id. */
  lemma FireTellsExactly(timeouts: bool, actions: seq<Action>, t: TimerId, i: nat)
    requires var s := Run(timeouts, actions);
             && t in s.reg.pending && i < |s.table.objs| && s.table.Live(i)
             && s.table.objs[i].connId == s.reg.objs[s.reg.pending[t]].connId
    ensures var s := Run(timeouts, actions);
            var r := Step(s, Fire(t));
            && |r.table.objs| == |s.table.objs|
            && r.table.objs[i] == (if Registered(s, s.reg.pending[t])
                                   then Routing.Append(s.table.objs[i], ConnectionTimeout) else s.table.objs[i])
  {
    var s := Run(timeouts, actions);
    Fired(s, t);
    LiveTracked(s.table, i);
  }

  lemma LiveTracked(t: Routing.Table, i: nat)
    requires i < |t.objs| && t.Live(i)
    ensures t.objs[i].procId in t.tracked.Keys
  {
  }

  /** In every run where whoever pops a connection is alone, every connection popped by a timer has
      all its processes told, exactly as the tracking protocol has it. */
  lemma TimeoutsDelivered(timeouts: bool, actions: seq<Action>, t: TimerId)
    requires AllAlone(Init(timeouts), actions) && t in Run(timeouts, actions).reg.pending
    ensures var s := Run(timeouts, actions);
            var c := s.reg.objs[s.reg.pending[t]].connId;
            var r := Step(s, Fire(t));
            c in s.reg.conns && c !in r.reg.conns && r.table == Routing.Broadcast(s.table, c, ConnectionTimeout)
  {
    AlonePopsOwn(timeouts, actions);
    FireTells(Run(timeouts, actions), t);
  }

  lemma FireTells(s: State, t: TimerId)
    requires Inv(s) && t in s.reg.pending && Registered(s, s.reg.pending[t])
    ensures var c := s.reg.objs[s.reg.pending[t]].connId;
            var r := Step(s, Fire(t));
            c in s.reg.conns && c !in r.reg.conns && r.table == Routing.Broadcast(s.table, c, ConnectionTimeout)
  {
    Fired(s, t);
  }

  //----------------------------------------------------------------------------
  // A timer that pops an open connection

  /** Object `h` is a connection `c` of group `g` whose websocket `w` is not open. */
  predicate Dead(s: State, h: nat, c: ConnId, g: GroupId, w: Sock) {
    && h < |s.reg.objs| && s.reg.objs[h].connId == c && s.reg.objs[h].groupId == g
    && s.reg.objs[h].ws == w && !IsOpen(s, h)
  }

  /** A serve task of `h` that is still receiving, on a websocket that is not open. */
  predicate Lagging(s: State, h: nat, w: Sock) {
    w in s.tasks && s.tasks[w] == Task(h, false, Receiving) && w !in s.open
  }

  /** Some run leads from `s` to `r`. */
  ghost predicate Leads(s: State, r: State) {
    Inv(s) && exists actions :: Steps(s, actions) == r
  }

  /** `P` is kept by every action. */
  ghost predicate Kept(P: State -> bool) {
    && (forall s {:trigger Inv(s)} :: P(s) ==> Inv(s))
    && (forall s, a {:trigger P(Step(s, a))} :: P(s) ==> P(Step(s, a)))
  }

  /** What every run from `s` leads to is kept. */
  lemma LeadsKept(s: State) returns (P: State -> bool)
    requires Inv(s)
    ensures Kept(P) && P(s) && forall r {:trigger P(r)} :: P(r) ==> Leads(s, r)
  {
    P := r => Leads(s, r);
    assert Steps(s, []) == s;
    forall m, a | P(m) ensures P(Step(m, a)) {
      var actions :| Steps(s, actions) == m;
      assert (actions + [a])[..|actions|] == actions;
      assert Steps(s, actions + [a]) == Step(m, a);
    }
  }

  /** A websocket registers: for a new connection, or for one of the same group. */
  lemma Registers(P: State -> bool, s: State, w: Sock, c: ConnId, g: GroupId) returns (r: State, h: nat)
    requires Kept(P) && P(s)
    requires w !in s.used
    requires c in s.reg.conns ==> s.reg.conns[c] < |s.reg.objs| && s.reg.objs[s.reg.conns[c]].groupId == g
    ensures P(r)
    ensures h == if c in s.reg.conns then s.reg.conns[c] else |s.reg.objs|
    ensures h < |r.reg.objs| && r.reg.objs[h] == Conn(c, g, w, Active, None) && r.reg.conns == s.reg.conns[c := h]
    ensures r.tasks == s.tasks[w := Task(h, false, Receiving)] && r.open == s.open + {w} && r.used == s.used + {w}
    ensures r.timeouts == s.timeouts && |s.reg.objs| <= |r.reg.objs|
    ensures forall i :: 0 <= i < |s.reg.objs| && i != h ==> r.reg.objs[i] == s.reg.objs[i]
  {
    assert Inv(s);
    AddEffect(s.reg, c, g, Active, w);
    h := Add(s.reg, c, g, Active, w).value.1;
    r := Step(s, Register(w, c, g, Active, true));
  }

  lemma Closes(P: State -> bool, s: State, w: Sock) returns (r: State)
    requires Kept(P) && P(s)
    ensures P(r) && r == s.(open := s.open - {w})
  {
    assert Inv(s);
    r := Step(s, SocketCloses(w));
  }

  lemma Leaves(P: State -> bool, s: State, h: nat, w: Sock) returns (r: State)
    requires Kept(P) && P(s) && Lagging(s, h, w)
    ensures P(r) && r == s.(tasks := s.tasks[w := Task(h, false, Closing(false))])
  {
    assert Inv(s);
    r := Step(s, LeaveLoop(w, false));
  }

  lemma Ends(P: State -> bool, s: State, h: nat, w: Sock) returns (r: State, t: TimerId)
    requires Kept(P) && P(s) && s.timeouts
    requires w in s.tasks && s.tasks[w] == Task(h, false, Closing(false)) && w !in s.open
    requires h < |s.reg.objs| && !IsOpen(s, h)
    ensures P(r)
    ensures r == s.(tasks := s.tasks - {w}, reg := r.reg) && r.reg.conns == s.reg.conns
    ensures t in r.reg.pending && r.reg.pending[t] == h
    ensures r.reg.objs == s.reg.objs[h := s.reg.objs[h].(timer := Some(t))]
  {
    assert Inv(s);
    r := Step(s, Finish(w));
    SetTimerEffect(s.reg, h);
    t := s.reg.nextTimer;
  }

  /** A lagging serve task leaves its loop and ends: its dead connection gets a new timer. */
  lemma LagEnds(P: State -> bool, s: State, h: nat, w: Sock) returns (r: State, t: TimerId)
    requires Kept(P) && P(s)
    requires s.timeouts && Lagging(s, h, w) && h < |s.reg.objs| && !IsOpen(s, h)
    ensures P(r)
    ensures r == s.(tasks := s.tasks - {w}, reg := r.reg) && r.reg.conns == s.reg.conns
    ensures t in r.reg.pending && r.reg.pending[t] == h
    ensures r.reg.objs == s.reg.objs[h := s.reg.objs[h].(timer := Some(t))]
  {
    var m := Leaves(P, s, h, w);
    r, t := Ends(P, m, h, w);
    assert m.tasks - {w} == s.tasks - {w};
  }

  /** The timer of a registered dead connection fires. */
  lemma Fires(P: State -> bool, s: State, t: TimerId) returns (r: State)
    requires Kept(P) && P(s) && t in s.reg.pending
    requires s.reg.pending[t] < |s.reg.objs| && Registered(s, s.reg.pending[t])
    ensures P(r) && r == s.(reg := r.reg, table := r.table)
    ensures var h := s.reg.pending[t];
            r.reg.conns == s.reg.conns - {s.reg.objs[h].connId}
            && r.reg.objs == s.reg.objs[h := s.reg.objs[h].(timer := None)]
  {
    assert Inv(s);
    Fired(s, t);
    r := Step(s, Fire(t));
  }

  /** Two websockets of a new connection register, and both die. */
  lemma TwoRegister(P: State -> bool, s: State, c: ConnId, g: GroupId, w1: Sock, w2: Sock) returns (r: State, h: nat)
    requires Kept(P) && P(s) && c !in s.reg.conns && w1 !in s.used && w2 !in s.used && w1 != w2
    ensures P(r) && r.timeouts == s.timeouts && r.used == s.used + {w1, w2}
    ensures Dead(r, h, c, g, w2) && Registered(r, h) && Lagging(r, h, w1) && Lagging(r, h, w2)
  {
    var s1, k := Registers(P, s, w1, c, g);
    h := k;
    var s2, _ := Registers(P, s1, w2, c, g);
    var s3 := Closes(P, s2, w2);
    r := Closes(P, s3, w1);
  }

  /** A timer pops an open connection if the agent reconnects before the first serve task has
      ended; the second websocket dies, and its serve task lags; the timer set by the first task
      pops the connection; the agent registers again, as a new object; and the second task sets
      a timer for the popped object.  So this can happen after every run, with every connection
      id that is not registered then.  And no process of the connection is told. */
  lemma OrphanTimerPopsOpen(s: State, c: ConnId, g: GroupId, w1: Sock, w2: Sock, w3: Sock)
    returns (r: State, u: TimerId)
    requires Inv(s) && s.timeouts && c !in s.reg.conns
    requires w1 !in s.used && w2 !in s.used && w3 !in s.used && w1 != w2 && w3 != w1 && w3 != w2
    ensures Inv(r) && Leads(s, r) && u in r.reg.pending && PopsOpen(r, u) && Step(r, Fire(u)).table == r.table
  {
    var P := LeadsKept(s);
    r, u := Overlap(P, s, c, g, w1, w2, w3);
    assert Inv(r);
    OrphanPops(r, u, c);
  }

  /** The exchange just described. */
  lemma Overlap(P: State -> bool, s: State, c: ConnId, g: GroupId, w1: Sock, w2: Sock, w3: Sock)
    returns (r: State, u: TimerId)
    requires Kept(P) && P(s) && s.timeouts && c !in s.reg.conns
    requires w1 !in s.used && w2 !in s.used && w3 !in s.used && w1 != w2 && w3 != w1 && w3 != w2
    ensures P(r) && Orphan(r, u, c)
  {
    var s1, h := TwoRegister(P, s, c, g, w1, w2);
    var s2, t := LagEnds(P, s1, h, w1);
    r, u := OrphanFires(P, s2, c, g, h, t, w2, w3);
  }

  /** Timer `u` is for an object that is not the one registered under its id, which is open. */
  predicate Orphan(s: State, u: TimerId, c: ConnId) {
    && u in s.reg.pending && s.reg.pending[u] < |s.reg.objs| && s.reg.objs[s.reg.pending[u]].connId == c
    && c in s.reg.conns && s.reg.conns[c] != s.reg.pending[u]
    && s.reg.conns[c] < |s.reg.objs| && IsOpen(s, s.reg.conns[c])
  }

  lemma OrphanPops(s: State, u: TimerId, c: ConnId)
    requires Inv(s) && Orphan(s, u, c)
    ensures PopsOpen(s, u) && Step(s, Fire(u)).table == s.table
  {
    Fired(s, u);
  }

  lemma OrphanFires(P: State -> bool, s: State, c: ConnId, g: GroupId, h: nat, t: TimerId, w2: Sock, w3: Sock)
    returns (r: State, u: TimerId)
    requires Kept(P) && P(s) && s.timeouts
    requires Dead(s, h, c, g, w2) && Registered(s, h) && Lagging(s, h, w2) && w3 !in s.used && w2 in s.used
    requires t in s.reg.pending && s.reg.pending[t] == h
    ensures P(r) && Orphan(r, u, c)
  {
    var s1 := Fires(P, s, t);
    var s2, k := Registers(P, s1, w3, c, g);
    r, u := LagEnds(P, s2, h, w2);
  }
}
