/** Exchanges on a connection that works, what breaks it, and what repairs it
    (python/procstar/agent/server.py, src/agent.rs, src/proto.rs). */
module Recovery {
  import opened Proto
  import opened Routing
  import opened Agent
  import opened Tracking
  import opened Dropping
  import opened Server

  //----------------------------------------------------------------------------
  // Exchanges

  /** The object of `p` has received one more message, and nothing else has changed. */
  function Told(t: Table, p: ProcId, m: Msg): Table
    requires t.Valid() && p in t.tracked
  {
    var k := t.tracked[p];
    Table(t.tracked, t.objs[k := t.objs[k].(msgs := t.objs[k].msgs + [m])])
  }

  /** The server asks for something that changes no proc, and gets the answer. */
  lemma Answers(home: Home, s: State, c: ConnId, r: Request, m: Msg, t: Table)
    requires Inv(home, s) && Ready(s, c) && Sendable(home, c, r)
    requires Handles(s.links[c].procs, r, s.links[c].procs, [], Some(m)) && OnMessage(s.table, c, m) == Some(t)
    ensures Steps(home, s, [Send(c, r), Handle(c, s.links[c].procs, [], Some(m))] + [Consume(c, 0)])
         == s.(table := t)
  {
    var l := s.links[c];
    var handled := s.(links := s.links[c := l.(toServer := [m])]);
    RequestHandled(home, s, c, r, l.procs, [], Some(m));
    assert handled.links[c] == l.(procs := l.procs, notis := [], toServer := Opt(Some(m)));
    Dropping.StepsNext(home, s, [Send(c, r), Handle(c, l.procs, [], Some(m))], Consume(c, 0));
    MessageArrives(home, handled, c, m, handled.links[c]);
    SameLinks(s, c, handled.links[c], l);
    assert s.links[c := l] == s.links;
  }

  /** Asking for the result of a proc, or for data, gets it to the object of the proc; an error of a request
      gets there too. */
  lemma AnswerRoundTrip(home: Home, s: State, c: ConnId, p: ProcId, r: Request, m: Msg)
    requires Inv(home, s) && Ready(s, c) && home(p) == c && p in s.links[c].procs
    requires || (r == ResultRequest(p) && m.ProcResult? && m.procId == p)
             || (r.FdDataRequest? && r.procId == p && Spec.ParseFd(r.fd).Some? && m.ProcFdData? && m.procId == p)
             || ((r.FdDataRequest? || r.SignalRequest?) && r.procId == p && m.RequestError? && m.request == r)
             || (r == DeleteRequest(p) && s.links[c].procs[p] && m.RequestError? && m.request == r)
    ensures p in s.table.tracked
    ensures Steps(home, s, [Send(c, r), Handle(c, s.links[c].procs, [], Some(m))] + [Consume(c, 0)])
         == s.(table := Told(s.table, p, m))
  {
    ReadyTracked(home, s, c, p);
    Answers(home, s, c, r, m, Told(s.table, p, m));
  }

  /** Asking about a proc that the agent does not have gets `ProcUnknown`, and the server forgets it. */
  lemma UnknownRoundTrip(home: Home, s: State, c: ConnId, p: ProcId, r: Request)
    requires Inv(home, s) && Ready(s, c) && home(p) == c && p !in s.links[c].procs && p in s.table.tracked
    requires r == ResultRequest(p) || r == DeleteRequest(p) || (r.SignalRequest? && r.procId == p)
    ensures Steps(home, s, [Send(c, r), Handle(c, s.links[c].procs, [], Some(ProcUnknown(p)))] + [Consume(c, 0)])
         == s.(table := Table(s.table.tracked - {p}, Told(s.table, p, ProcUnknown(p)).objs))
  {
    Answers(home, s, c, r, ProcUnknown(p), Table(s.table.tracked - {p}, Told(s.table, p, ProcUnknown(p)).objs));
  }

  /** When a proc ends, its object receives its result. */
  lemma EndRoundTrip(home: Home, s: State, c: ConnId, p: ProcId, res: string)
    requires Inv(home, s) && Ready(s, c) && home(p) == c && p in s.links[c].procs
    ensures p in s.table.tracked
    ensures var m := ProcResult(p, res);
            Steps(home, s, [Settle(c, p), Ended(c, p)] + [Drain(c, Some(m)), Consume(c, 0)])
            == State(Told(s.table, p, m), s.links[c := s.links[c].(procs := s.links[c].procs[p := false])])
  {
    ReadyTracked(home, s, c, p);
    EndRoundTripFrom(home, s, c, p, ProcResult(p, res), s.links[c]);
  }

  lemma EndRoundTripFrom(home: Home, s: State, c: ConnId, p: ProcId, m: Msg, l: Link)
    requires s.table.Valid() && Ready(s, c) && home(p) == c && l == s.links[c] && p in l.procs && p in s.table.tracked
    requires m.ProcResult? && m.procId == p
    ensures Steps(home, s, [Settle(c, p), Ended(c, p)] + [Drain(c, Some(m)), Consume(c, 0)])
         == State(Told(s.table, p, m), s.links[c := l.(procs := l.procs[p := false])])
  {
    var ended := l.(procs := l.procs[p := false], notis := [NotRunning(p)]);
    var first, second := [Settle(c, p), Ended(c, p)], [Drain(c, Some(m)), Consume(c, 0)];
    assert Steps(home, s, first) == s.(links := s.links[c := ended]) by {
      TwoSteps(home, s, Settle(c, p), Ended(c, p));
      EndSteps(home, s, c, p, l);
    }
    assert Steps(home, s.(links := s.links[c := ended]), second)
        == State(Told(s.table, p, m), s.links[c := l.(procs := l.procs[p := false])]) by {
      NotificationArrives(home, s.(links := s.links[c := ended]), c, m, ended);
      SameLinks(s, c, ended, l.(procs := l.procs[p := false]));
    }
    StepsSplit(home, s, first, second);
  }

  lemma EndSteps(home: Home, s: State, c: ConnId, p: ProcId, l: Link)
    requires s.table.Valid() && c in s.links && l == s.links[c] && l.agentEnd && l.notis == [] && p in l.procs
    requires home(p) == c
    ensures var settled := Step(home, s, Settle(c, p));
            settled.table.Valid() && Step(home, settled, Ended(c, p))
            == s.(links := s.links[c := l.(procs := l.procs[p := false], notis := [NotRunning(p)])])
  {
    var settled := l.(procs := l.procs[p := false]);
    assert [] + [NotRunning(p)] == [NotRunning(p)];
    SameLinks(s, c, settled, settled.(notis := [NotRunning(p)]));
  }

  //----------------------------------------------------------------------------
  // What breaks a connection

  /** `after` is the beginning of `before`, up to `kept` elements. */
  predicate Kept<T(==)>(before: seq<T>, kept: nat, after: seq<T>) {
    after <= before && |after| == if kept <= |before| then kept else |before|
  }

  /** When the server closes its end, the agent may still receive the first requests. */
  lemma ServerCloses(home: Home, s: State, c: ConnId, kept: nat)
    requires s.table.Valid() && c in s.links
    ensures var l, r := s.links[c], Step(home, s, CloseServer(c, kept));
            && r.table == s.table && c in r.links && !r.links[c].serverEnd && Kept(l.toAgent, kept, r.links[c].toAgent)
            && r.links[c] == l.(serverEnd := false, toAgent := r.links[c].toAgent)
  {
  }

  /** When the agent closes its end, the server may still receive the first messages; notifications are lost. */
  lemma AgentCloses(home: Home, s: State, c: ConnId, kept: nat)
    requires s.table.Valid() && c in s.links
    ensures var l, r := s.links[c], Step(home, s, CloseAgent(c, kept));
            && r.table == s.table && c in r.links && !r.links[c].agentEnd && !Up(r.links[c])
            && r.links[c].notis == [] && r.links[c].joining == Idle && r.links[c].procs == l.procs
            && Kept(l.toServer, kept, r.links[c].toServer) && r.links[c].toAgent == l.toAgent
  {
  }

  /** When sending begins to fail, so does all sending from then on, until the next registration. */
  lemma SendingFails(home: Home, s: State, c: ConnId, kept: nat, a: Action)
    requires s.table.Valid() && c in s.links && (a.Handle? || a.Drain?) && a.connId == c
    ensures var l, r := s.links[c], Step(home, s, LoseSending(c, kept));
            && r.table == s.table && c in r.links && !Up(r.links[c]) && Kept(l.toServer, kept, r.links[c].toServer)
            && r.table.Valid() && c in Step(home, r, a).links
            && Step(home, r, a).links[c].toServer == r.links[c].toServer
  {
  }

  /** An agent that has told that it is done closes its end, without sending what it has left to tell. */
  lemma DoneCloses(home: Home, s: State, c: ConnId)
    requires s.table.Valid() && c in s.links && Up(s.links[c]) && s.links[c].agentEnd
    requires s.links[c].notis != [] && s.links[c].notis[0] == Shutdown(Done)
    ensures var l, r := s.links[c], Step(home, s, Drain(c, Some(ShutDown(Done))));
            && c in r.links && !r.links[c].agentEnd && r.links[c].notis == []
            && r.links[c].toServer == l.toServer + [ShutDown(Done)]
  {
  }

  /** The Register of a websocket that the agent has given up reconciles too, but its connection is not up. */
  lemma LateRegistration(home: Home, s: State, c: ConnId, ids: set<ProcId>, t: Table, kept: nat)
    requires s.table.Valid() && c in s.links && Reconciled(s.table, c, ids, t) && forall p :: p in ids ==> home(p) == c
    ensures var r := Step(home, s, RegisterLate(c, ids, t, kept));
            && r.table == t && c in r.links && r.links[c].serverEnd && !Up(r.links[c]) && r.links[c].toServer == []
            && Kept(s.links[c].toAgent, kept, r.links[c].toAgent) && r.links[c].procs == s.links[c].procs
  {
  }

  /** A server end that is closed sends and receives nothing, and neither does an agent's. */
  lemma ClosedEnds(home: Home, s: State, a: Action)
    requires s.table.Valid() && a.connId in s.links
    requires || (!s.links[a.connId].serverEnd && (a.Send? || a.RequestStart? || a.Consume?))
             || (!s.links[a.connId].agentEnd && (a.Handle? || a.Drain? || a.Ended?))
    ensures Step(home, s, a) == s
  {
  }

  /** While no registration or breaking comes between, nothing is lost: what is on the wire is consumed in
      order, and added to at its end. */
  lemma NothingLost(home: Home, s: State, a: Action, c: ConnId)
    requires s.table.Valid() && c in s.links && Up(s.links[c])
    requires c in Step(home, s, a).links && Up(Step(home, s, a).links[c]) && !a.Register?
    ensures var before, after := s.links[c].toServer, Step(home, s, a).links[c].toServer;
            before <= after || (before != [] && after == before[1..])
    ensures var before, after := s.links[c].toAgent, Step(home, s, a).links[c].toAgent;
            before <= after || (before != [] && after == before[1..])
  {
  }

  /** When a connection times out, all of its tracked procs are told, and no others. */
  lemma TimeOutTells(home: Home, s: State, c: ConnId, p: ProcId)
    requires s.table.Valid() && c in s.links && p in s.table.tracked
    ensures var r, k := Step(home, s, TimeOut(c)).table, s.table.tracked[p];
            && r.tracked == s.table.tracked && |r.objs| == |s.table.objs|
            && r.objs[k].msgs == s.table.objs[k].msgs + if !s.links[c].serverEnd && s.table.objs[k].connId == c
                                                        then [ConnectionTimeout] else []
  {
    assert s.table.Live(s.table.tracked[p]);
  }

  //----------------------------------------------------------------------------
  // What repairs it

  lemma MakesAll(t: Table, c: ConnId, done: set<ProcId>, todo: set<ProcId>, r: Table) returns (q: Table)
    requires t.Valid() && Changed(t, c, done, {}, r) && done !! todo && todo !! t.tracked.Keys
    ensures Changed(t, c, done + todo, {}, q)
    decreases todo
  {
    if todo == {} {
      q := r;
      assert done + todo == done;
    } else {
      var p :| p in todo;
      ChangedMake(t, c, done, r, p);
      q := MakesAll(t, c, done + {p}, todo - {p}, Create(r, c, p, Created));
      assert done + {p} + (todo - {p}) == done + todo;
    }
  }

  lemma DropsOne(t: Table, c: ConnId, made: set<ProcId>, done: set<ProcId>, r: Table, p: ProcId) returns (u: Table)
    requires t.Valid() && Changed(t, c, made, done, r) && made !! t.tracked.Keys && p in t.tracked && p !in done
    ensures Changed(t, c, made, done + {p}, u)
  {
    ChangedDrop(t, c, made, done, r, p);
    u := OnMessage(r, c, ProcUnknown(p)).value;
  }

  lemma DropsAll(t: Table, c: ConnId, made: set<ProcId>, all: set<ProcId>, todo: set<ProcId>, r: Table)
    returns (q: Table)
    requires t.Valid() && Changed(t, c, made, all - todo, r) && made !! t.tracked.Keys
    requires todo <= all && all <= t.tracked.Keys
    ensures Changed(t, c, made, all, q)
    decreases todo
  {
    if todo == {} {
      q := r;
      assert all - todo == all;
    } else {
      var p :| p in todo;
      var u := DropsOne(t, c, made, all - todo, r, p);
      assert all - todo + {p} == all - (todo - {p});
      q := DropsAll(t, c, made, all, todo - {p}, u);
    }
  }

  /** Reconciling succeeds, if no id is tracked for another connection. */
  lemma CanReconcile(t: Table, c: ConnId, ids: set<ProcId>) returns (r: Table)
    requires t.Valid() && forall p :: p in ids && p in t.tracked ==> t.objs[t.tracked[p]].connId == c
    ensures Reconciled(t, c, ids, r)
  {
    var ours := Ours(t, c);
    assert ids - ours !! t.tracked.Keys;
    var made := MakesAll(t, c, {}, ids - ours, t);
    assert {} + (ids - ours) == ids - ours;
    assert ours - ids - (ours - ids) == {};
    r := DropsAll(t, c, ids - ours, ours - ids, ours - ids, made);
    ChangedReconciled(t, c, ids, r);
  }

  /** An agent that has lost its connection, or has started anew, connects, registers and subscribes. */
  function Rejoining(first: Action, c: ConnId, t: Table): seq<Action> {
    [first, Connect(c)] + [Register(c, t), Subscribe(c)]
  }

  lemma Rejoined(home: Home, s: State, c: ConnId, t: Table, l: Link)
    requires s.table.Valid() && c in s.links && l == s.links[c]
    requires !l.agentEnd && l.joining.Sent? && Reconciled(s.table, c, l.joining.snapshot, t)
    ensures Steps(home, s, [Register(c, t), Subscribe(c)])
         == State(t, s.links[c := l.(joining := Idle, agentEnd := true, serverEnd := true, intact := true,
                                     notis := [], toServer := [], toAgent := [])])
  {
    var accepted := l.(joining := Accepted, serverEnd := true, intact := true, toServer := [], toAgent := []);
    TwoSteps(home, s, Register(c, t), Subscribe(c));
    assert Step(home, s, Register(c, t)) == State(t, s.links[c := accepted]);
    SameLinks(s, c, accepted, accepted.(joining := Idle, agentEnd := true, notis := []));
  }

  /** However a connection has broken, when the agent connects again the connection is ready, and the server
      tracks exactly the procs that the agent has; when the agent has started anew, it has none.  The ids of
      registration never make the server fail. */
  lemma Reconnects(home: Home, actions: seq<Action>, c: ConnId, first: Action) returns (t: Table)
    requires c in Tracking.Run(home, actions).links && (first.CloseAgent? || first.Boot?) && first.connId == c
    ensures var s := Tracking.Run(home, actions);
            var r := Tracking.Run(home, actions + Rejoining(first, c, t));
            && Ready(r, c) && r.table == t
            && r.links[c].procs == (if first.Boot? then map[] else s.links[c].procs)
            && forall p :: p in r.links[c].procs <==> p in t.tracked && t.objs[t.tracked[p]].connId == c
  {
    var s := Tracking.Run(home, actions);
    RunInv(home, actions);
    var closed := Step(home, s, first);
    StepInv(home, s, first);
    var l := closed.links[c];
    var sent := closed.(links := closed.links[c := l.(joining := Sent(l.procs.Keys))]);
    assert !l.agentEnd && l.joining.Idle?;
    TwoSteps(home, s, first, Connect(c));
    assert Steps(home, s, [first, Connect(c)]) == sent;
    t := CanReconcile(sent.table, c, l.procs.Keys);
    Rejoined(home, sent, c, t, sent.links[c]);
    StepsSplit(home, s, [first, Connect(c)], [Register(c, t), Subscribe(c)]);
    StepsSplit(home, INIT, actions, Rejoining(first, c, t));
  }
}
