/** What becomes of a connection and of those who wait for one: how a waiter returns, what subscribers are
    told, and how a connection ends (python/procstar/agent/server.py, conn.py). */
module Lifecycle {
  import opened Proto
  import opened Registries
  import opened Serving
  import Routing

  //----------------------------------------------------------------------------
  // Waiters

  /** There is a connection of the kind wanted: an open, active one of the group, or an open one with the
      id. */
  ghost predicate Exists(s: State, w: Want)
    requires s.reg.Ranged()
  {
    match w
    case InGroup(g) =>
      exists c :: && c in s.reg.conns && s.reg.objs[s.reg.conns[c]].groupId == g
                  && s.reg.objs[s.reg.conns[c]].ws in s.open && s.reg.objs[s.reg.conns[c]].shutdown == Active
    case WithId(c) => c in s.reg.conns && s.reg.objs[s.reg.conns[c]].ws in s.open
  }

  lemma FoundExactly(s: State, w: Want)
    requires s.reg.Valid()
    ensures Found(s, w) <==> Exists(s, w)
  {
    if w.InGroup? {
      OpenInGroupComplete(s.reg, s.open, w.groupId);
      if Exists(s, w) {
        var c :| && c in s.reg.conns && s.reg.objs[s.reg.conns[c]].groupId == w.groupId
                 && s.reg.objs[s.reg.conns[c]].ws in s.open && s.reg.objs[s.reg.conns[c]].shutdown == Active;
        assert c in OpenInGroup(s.reg, s.open, w.groupId);
      }
      if Found(s, w) {
        var c :| c in OpenInGroup(s.reg, s.open, w.groupId);
      }
    }
  }

  /** A waiter that begins to wait, or wakes up, returns if and only if there is a connection of the kind it
      wants; otherwise it waits for the next event, of those it has not read. */
  lemma ReturnsExactly(s: State, a: Action, k: SubId, w: Want, unread: seq<Event>)
    requires Inv(s)
    requires || (a == Wait(k, w) && k !in s.reg.subs && unread == [])
             || (a == Wake(k) && k in s.waiters && s.waiters[k] == w
                 && s.reg.subs[k] != [] && s.reg.subs[k][1..] == unread)
    ensures var r := Step(s, a);
            && (k !in r.waiters <==> Exists(s, w)) && (k !in r.reg.subs <==> Exists(s, w))
            && (!Exists(s, w) ==> r.waiters[k] == w && r.reg.subs[k] == unread)
            && r.reg.conns == s.reg.conns && r.reg.objs == s.reg.objs && r.tasks == s.tasks && r.open == s.open
  {
    FoundExactly(s, w);
  }

  /** One that gives up stops waiting, and nothing else changes. */
  lemma GivesUp(s: State, k: SubId)
    requires Inv(s)
    ensures var r := Step(s, GiveUp(k));
            && k !in r.waiters && k !in r.reg.subs
            && r == s.(waiters := s.waiters - {k}, reg := s.reg.(subs := r.reg.subs))
            && forall j :: j in s.reg.subs && j != k ==> j in r.reg.subs && r.reg.subs[j] == s.reg.subs[j]
  {
  }

  //----------------------------------------------------------------------------
  // What subscribers are told

  /** Connection `c` is registered in one of the registries only, or with another websocket or another
      shutdown state. */
  predicate Differs(r: Registry, q: Registry, c: ConnId)
    requires r.Ranged() && q.Ranged()
  {
    || (c in r.conns) != (c in q.conns)
    || (c in r.conns && c in q.conns
        && (|| r.objs[r.conns[c]].ws != q.objs[q.conns[c]].ws
            || r.objs[r.conns[c]].shutdown != q.objs[q.conns[c]].shutdown))
  }

  /** Subscriber `k` has heard of a change of `c`, or of its removal. */
  predicate Hears(r: Registry, q: Registry, k: SubId, c: ConnId) {
    && k in r.subs && k in q.subs && r.subs[k] < q.subs[k]
    && q.subs[k][|q.subs[k]| - 1] == if c in q.conns then Changed(c) else Removed(c)
  }

  /** Whatever changes a connection, every subscriber hears of it. */
  lemma ChangesPublished(s: State, a: Action, c: ConnId, k: SubId)
    requires Inv(s) && Step(s, a).reg.Ranged() && Differs(s.reg, Step(s, a).reg, c) && k in s.reg.subs
    ensures Hears(s.reg, Step(s, a).reg, k, c)
  {
    match a
    case Register(w, d, g, state, stillOpen) => RegisterPublished(s, w, d, g, state, stillOpen, c, k);
    case Finish(w) => FinishPublished(s, w, c, k);
    case Fire(t) => FirePublished(s, t, c, k);
    case ReceiveShutDown(w, state) => ReceivedPublished(s, w, state, c, k);
    case Wait(_, _) | Wake(_) => WaitersSame(s, a);
    case _ =>
  }

  lemma WaitersSame(s: State, a: Action)
    requires Inv(s) && (a.Wait? || a.Wake?)
    ensures Step(s, a).reg.conns == s.reg.conns && Step(s, a).reg.objs == s.reg.objs
  {
    if a.Wait? {
      LookSame(s, a.sub, a.want, []);
    } else if a.sub in s.waiters && s.reg.subs[a.sub] != [] {
      LookSame(s, a.sub, s.waiters[a.sub], s.reg.subs[a.sub][1..]);
    }
  }

  lemma LookSame(s: State, k: SubId, w: Want, queue: seq<Event>)
    requires s.reg.Valid()
    ensures Look(s, k, w, queue).reg.conns == s.reg.conns && Look(s, k, w, queue).reg.objs == s.reg.objs
  {
  }

  lemma RegisterPublished(s: State, w: Sock, d: ConnId, g: GroupId, state: ShutdownState, stillOpen: bool, c: ConnId,
      k: SubId)
    requires Inv(s) && w !in s.used && k in s.reg.subs && DoRegister(s, w, d, g, state, stillOpen).reg.Ranged()
    requires Differs(s.reg, DoRegister(s, w, d, g, state, stillOpen).reg, c)
    ensures Hears(s.reg, DoRegister(s, w, d, g, state, stillOpen).reg, k, c)
  {
    if Add(s.reg, d, g, state, w).Some? {
      AddEffect(s.reg, d, g, state, w);
      var h := Add(s.reg, d, g, state, w).value.1;
      AddedTells(s.reg, DoRegister(s, w, d, g, state, stillOpen).reg, d, h, c, k);
    }
  }

  lemma AddedTells(r: Registry, q: Registry, d: ConnId, h: nat, c: ConnId, k: SubId)
    requires r.Ranged() && q.Ranged() && k in r.subs && Differs(r, q, c) && |r.objs| <= |q.objs|
    requires q.conns == r.conns[d := h] && q.subs == Publish(r, Changed(d)).subs
    requires forall e :: e in r.conns && r.conns[e] == h ==> e == d
    requires forall i :: 0 <= i < |r.objs| && i != h ==> q.objs[i] == r.objs[i]
    ensures Hears(r, q, k, c)
  {
  }

  lemma ReceivedPublished(s: State, w: Sock, state: ShutdownState, c: ConnId, k: SubId)
    requires Inv(s) && k in s.reg.subs && Step(s, ReceiveShutDown(w, state)).reg.Ranged()
    requires Differs(s.reg, Step(s, ReceiveShutDown(w, state)).reg, c)
    ensures Hears(s.reg, Step(s, ReceiveShutDown(w, state)).reg, k, c)
  {
  }

  lemma FirePublished(s: State, t: TimerId, c: ConnId, k: SubId)
    requires Inv(s) && t in s.reg.pending && k in s.reg.subs && DoFire(s, t).reg.Ranged()
    requires Differs(s.reg, DoFire(s, t).reg, c)
    ensures Hears(s.reg, DoFire(s, t).reg, k, c)
  {
    Fired(s, t);
    PoppedTells(s.reg, s.reg, DoFire(s, t).reg, s.reg.objs[s.reg.pending[t]].connId, c, k);
  }

  /** The entry of `d` has been popped, after something may have been published. */
  lemma PoppedTells(r: Registry, p: Registry, q: Registry, d: ConnId, c: ConnId, k: SubId)
    requires r.Ranged() && q.Ranged() && |q.objs| == |r.objs| && Differs(r, q, c)
    requires q.conns == r.conns - {d}
    requires forall i :: 0 <= i < |r.objs| ==> q.objs[i].ws == r.objs[i].ws && q.objs[i].shutdown == r.objs[i].shutdown
    requires k in r.subs && k in p.subs && r.subs[k] <= p.subs[k]
    requires q.subs == if d in r.conns then Publish(p, Removed(d)).subs else p.subs
    ensures Hears(r, q, k, c)
  {
  }

  lemma FinishPublished(s: State, w: Sock, c: ConnId, k: SubId)
    requires Inv(s) && CanFinish(s, w) && k in s.reg.subs && DoFinish(s, w).reg.Ranged()
    requires Differs(s.reg, DoFinish(s, w).reg, c)
    ensures Hears(s.reg, DoFinish(s, w).reg, k, c)
  {
    var h := s.tasks[w].conn;
    var d := s.reg.objs[h].connId;
    var p := if s.tasks[w].phase == Closing(true) then Publish(s.reg, Changed(d)) else s.reg;
    PublishSame(s.reg, d);
    if s.tasks[w].done {
      PopTells(s.reg, p, d, c, k);
    } else {
      NothingDiffers(s.reg, p, h, c);
      assert false;
    }
  }

  lemma PopTells(r: Registry, p: Registry, d: ConnId, c: ConnId, k: SubId)
    requires r.Valid() && p.Valid() && p.objs == r.objs && p.conns == r.conns && PopId(p, d).Ranged()
    requires k in r.subs && k in p.subs && r.subs[k] <= p.subs[k] && Differs(r, PopId(p, d), c)
    ensures Hears(r, PopId(p, d), k, c)
  {
    PopIdInv(p, d);
    PoppedTells(r, p, PopId(p, d), d, c, k);
  }

  lemma NothingDiffers(r: Registry, p: Registry, h: nat, c: ConnId)
    requires r.Valid() && p.Valid() && p.objs == r.objs && p.conns == r.conns && h < |r.objs|
    ensures SetTimer(p, h).Ranged() && !Differs(r, p, c) && !Differs(r, SetTimer(p, h), c)
  {
    SetTimerEffect(p, h);
  }

  /** A serve task that ends with an exception tells every subscriber. */
  lemma FailurePublished(s: State, w: Sock, k: SubId)
    requires Inv(s) && CanFinish(s, w) && s.tasks[w].phase == Closing(true) && k in s.reg.subs
    ensures var subs := Step(s, Finish(w)).reg.subs;
            k in subs && s.reg.subs[k] + [Changed(s.reg.objs[s.tasks[w].conn].connId)] <= subs[k]
  {
    var h := s.tasks[w].conn;
    var d := s.reg.objs[h].connId;
    PublishSame(s.reg, d);
    if s.tasks[w].done {
      PopIdInv(Publish(s.reg, Changed(d)), d);
    } else if s.timeouts && !IsOpen(s, h) {
      SetTimerEffect(Publish(s.reg, Changed(d)), h);
    }
  }

  //----------------------------------------------------------------------------
  // How a connection ends

  lemma StepsNext(s: State, actions: seq<Action>, a: Action)
    requires Inv(s)
    ensures Steps(s, actions + [a]) == Step(Steps(s, actions), a)
  {
    assert (actions + [a])[..|actions|] == actions;
  }

  /** `P` relates sequences of actions to the states that they lead to. */
  ghost predicate Follows(P: (seq<Action>, State) -> bool) {
    && (forall actions, m {:trigger P(actions, m), Inv(m)} :: P(actions, m) ==> Inv(m))
    && (forall actions, m, a {:trigger P(actions + [a], Step(m, a))} ::
          P(actions, m) && Inv(m) ==> P(actions + [a], Step(m, a)))
  }

  /** As those from `s` do. */
  lemma FollowsFrom(s: State) returns (P: (seq<Action>, State) -> bool)
    requires Inv(s)
    ensures Follows(P) && P([], s)
    ensures forall actions, r {:trigger P(actions, r)} :: P(actions, r) ==> Steps(s, actions) == r
  {
    P := (actions, r) => Steps(s, actions) == r;
    forall actions, m, a | P(actions, m) ensures P(actions + [a], Step(m, a)) {
      StepsNext(s, actions, a);
    }
  }

  lemma FollowsStep(P: (seq<Action>, State) -> bool, actions: seq<Action>, m: State, a: Action, r: State)
    requires Follows(P) && P(actions, m) && Inv(m) && Step(m, a) == r
    ensures P(actions + [a], r) && Inv(r)
  {
    StepInv(m, a);
  }

  /** The websocket closes, and the serve task leaves its loop and ends. */
  function Ending(w: Sock, failed: bool): seq<Action> {
    [SocketCloses(w), LeaveLoop(w, failed), Finish(w)]
  }

  lemma LeaveStep(s: State, w: Sock, failed: bool)
    requires Inv(s) && w in s.tasks && s.tasks[w].phase.Receiving? && w !in s.open
    ensures Step(s, LeaveLoop(w, failed)) == s.(tasks := s.tasks[w := s.tasks[w].(phase := Closing(failed))])
  {
  }

  lemma FinishStep(s: State, w: Sock)
    requires Inv(s) && CanFinish(s, w)
    ensures Step(s, Finish(w)) == DoFinish(s, w)
  {
  }

  lemma CloseStep(s: State, w: Sock)
    requires Inv(s)
    ensures Step(s, SocketCloses(w)) == s.(open := s.open - {w})
  {
  }

  /** A serve task that has left its loop, on a websocket that has closed. */
  function Left(s: State, w: Sock, failed: bool): State
    requires w in s.tasks
  {
    s.(open := s.open - {w}, tasks := s.tasks[w := s.tasks[w].(phase := Closing(failed))])
  }

  lemma EndingFollows(P: (seq<Action>, State) -> bool, s: State, w: Sock, failed: bool)
    requires Follows(P) && P([], s) && Inv(s) && w in s.tasks && s.tasks[w].phase.Receiving?
    ensures Inv(Left(s, w, failed)) && P([] + [SocketCloses(w)] + [LeaveLoop(w, failed)], Left(s, w, failed))
  {
    var closed := s.(open := s.open - {w});
    CloseStep(s, w);
    FollowsStep(P, [], s, SocketCloses(w), closed);
    LeaveStep(closed, w, failed);
    FollowsStep(P, [] + [SocketCloses(w)], closed, LeaveLoop(w, failed), Left(s, w, failed));
  }

  lemma EndingSteps(s: State, w: Sock, failed: bool)
    requires Inv(s) && w in s.tasks && s.tasks[w].phase.Receiving?
    ensures var left := Left(s, w, failed);
            Inv(left) && CanFinish(left, w) && Steps(s, Ending(w, failed)) == DoFinish(left, w)
  {
    var P := FollowsFrom(s);
    var left := Left(s, w, failed);
    EndingFollows(P, s, w, failed);
    FinishStep(left, w);
    FollowsStep(P, [] + [SocketCloses(w)] + [LeaveLoop(w, failed)], left, Finish(w), DoFinish(left, w));
    assert [] + [SocketCloses(w)] + [LeaveLoop(w, failed)] + [Finish(w)] == Ending(w, failed);
  }

  /** If an agent's websocket is lost, its connection stays registered, with a timer; and if that expires, the
      connection is unregistered, and its processes are told. */
  lemma LostThenTimedOut(s: State, w: Sock, failed: bool) returns (t: TimerId)
    requires Inv(s) && s.timeouts && w in s.tasks && s.tasks[w].phase.Receiving? && !s.tasks[w].done
    requires var h := s.tasks[w].conn; s.reg.objs[h].ws == w && Serving.Registered(s, h)
    ensures var h := s.tasks[w].conn;
            var c := s.reg.objs[h].connId;
            var r, f := Steps(s, Ending(w, failed)), Steps(s, Ending(w, failed) + [Fire(t)]);
            && w !in r.tasks && r.reg.conns == s.reg.conns && t in r.reg.pending && r.reg.pending[t] == h
            && r.table == s.table
            && f.reg.conns == s.reg.conns - {c} && f.table == Routing.Broadcast(s.table, c, ConnectionTimeout)
  {
    var h := s.tasks[w].conn;
    EndingSteps(s, w, failed);
    t := Times(Left(s, w, failed), w);
    var r := Steps(s, Ending(w, failed));
    StepsNext(s, Ending(w, failed), Fire(t));
    TimedOut(r, t);
  }

  lemma Times(s: State, w: Sock) returns (t: TimerId)
    requires Inv(s) && s.timeouts && CanFinish(s, w) && !s.tasks[w].done && !IsOpen(s, s.tasks[w].conn)
    ensures var h := s.tasks[w].conn;
            var r := DoFinish(s, w);
            && w !in r.tasks && r.reg.conns == s.reg.conns && t in r.reg.pending && r.reg.pending[t] == h
            && r.table == s.table && |r.reg.objs| == |s.reg.objs|
            && r.reg.objs[h].connId == s.reg.objs[h].connId
  {
    var h := s.tasks[w].conn;
    var d := s.reg.objs[h].connId;
    var p := if s.tasks[w].phase == Closing(true) then Publish(s.reg, Changed(d)) else s.reg;
    PublishSame(s.reg, d);
    SetTimerEffect(p, h);
    t := p.nextTimer;
    assert SetTimer(p, h).Timed();
  }

  lemma TimedOut(r: State, t: TimerId)
    requires Inv(r) && t in r.reg.pending && Serving.Registered(r, r.reg.pending[t])
    ensures var c := r.reg.objs[r.reg.pending[t]].connId;
            var f := Step(r, Fire(t));
            f.reg.conns == r.reg.conns - {c} && f.table == Routing.Broadcast(r.table, c, ConnectionTimeout)
  {
    FireTells(r, t);
    Fired(r, t);
  }

  /** If the agent has said that it is done, the connection is unregistered when the serve task ends, without
      a timer, and its processes are told nothing. */
  lemma DoneThenGone(s: State, w: Sock, failed: bool)
    requires Inv(s) && w in s.tasks && s.tasks[w].phase.Receiving?
    ensures var h := s.tasks[w].conn;
            var r := Steps(Steps(s, [ReceiveShutDown(w, Done)]), Ending(w, failed));
            && w !in r.tasks && r.reg.conns == s.reg.conns - {s.reg.objs[h].connId} && r.table == s.table
            && |r.reg.objs| == |s.reg.objs| && (Serving.Registered(s, h) ==> r.reg.objs[h].timer.None?)
  {
    var told := Step(s, ReceiveShutDown(w, Done));
    StepsNext(s, [], ReceiveShutDown(w, Done));
    assert Steps(s, [ReceiveShutDown(w, Done)]) == told by {
      assert [] + [ReceiveShutDown(w, Done)] == [ReceiveShutDown(w, Done)];
    }
    EndingSteps(told, w, failed);
    EndsDone(Left(told, w, failed), w);
  }

  lemma EndsDone(s: State, w: Sock)
    requires Inv(s) && CanFinish(s, w) && s.tasks[w].done
    ensures var h := s.tasks[w].conn;
            var r := DoFinish(s, w);
            && w !in r.tasks && r.reg.conns == s.reg.conns - {s.reg.objs[h].connId} && r.table == s.table
            && |r.reg.objs| == |s.reg.objs| && (Serving.Registered(s, h) ==> r.reg.objs[h].timer.None?)
  {
    var d := s.reg.objs[s.tasks[w].conn].connId;
    var p := if s.tasks[w].phase == Closing(true) then Publish(s.reg, Changed(d)) else s.reg;
    PublishSame(s.reg, d);
    PopIdInv(p, d);
  }

  /** A serve task leaves its loop without an exception only when its websocket has closed, and ends only
      then. */
  lemma ServesWhileOpen(s: State, w: Sock)
    requires Inv(s) && w in s.open
    ensures Step(s, LeaveLoop(w, false)) == s && Step(s, Finish(w)) == s
  {
  }

  /** What an agent says of its shutdown is recorded for its connection, so that it is not chosen unless it is
      active. */
  lemma ShutDownRecorded(s: State, w: Sock, state: ShutdownState)
    requires Inv(s) && w in s.tasks && s.tasks[w].phase.Receiving?
    ensures var h := s.tasks[w].conn;
            var r := Step(s, ReceiveShutDown(w, state));
            && r.reg.conns == s.reg.conns && |r.reg.objs| == |s.reg.objs| && r.tasks.Keys == s.tasks.Keys
            && r.reg.objs[h] == s.reg.objs[h].(shutdown := state)
            && (r.tasks[w].done <==> s.tasks[w].done || state == Done)
            && (state != Active ==> !Eligible(r.reg, r.open, h))
  {
  }

  /** A connection that comes back before its timer expires keeps its object, and has no timer. */
  lemma ComesBack(s: State, w: Sock, c: ConnId, state: ShutdownState)
    requires Inv(s) && w !in s.used && c in s.reg.conns
    ensures var h := s.reg.conns[c];
            var r := Step(s, Register(w, c, s.reg.objs[h].groupId, state, true));
            && r.reg.conns == s.reg.conns && w in r.open && w in r.tasks && r.tasks[w] == Task(h, false, Receiving)
            && r.reg.objs[h] == Conn(c, s.reg.objs[h].groupId, w, state, None)
            && forall t :: t in r.reg.pending ==> r.reg.pending[t] != h
  {
    var h := s.reg.conns[c];
    AddEffect(s.reg, c, s.reg.objs[h].groupId, state, w);
    StepInv(s, Register(w, c, s.reg.objs[h].groupId, state, true));
  }

  /** A registration for another group than before is refused: no connection changes. */
  lemma OtherGroupRefused(s: State, w: Sock, c: ConnId, g: GroupId, state: ShutdownState, stillOpen: bool)
    requires Inv(s) && w !in s.used && c in s.reg.conns && s.reg.objs[s.reg.conns[c]].groupId != g
    ensures var r := Step(s, Register(w, c, g, state, stillOpen)); r.reg == s.reg && r.tasks == s.tasks
  {
  }
}
