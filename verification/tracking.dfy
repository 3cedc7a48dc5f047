/** The process-tracking protocol between the server and its agents, over reconnecting
    websockets (python/procstar/agent/server.py, proc.py, src/agent.rs, src/proto.rs).

    Every action is one step between two awaits.  Each agent has a queue of notifications it
    has not sent yet; responses are put on the wire directly and so overtake them. */
module Tracking {
  import opened Proto
  import opened Routing
  import opened Agent

  /** The assumption that a proc id is used on one connection only, as a function. */
  type Home = ProcId -> ConnId

  /** Where an agent is in registering: not at all, its Register is on the wire with a snapshot
      of its proc ids, or the server has accepted it. */
  datatype Joining = Idle | Sent(snapshot: set<ProcId>) | Accepted

  /** One agent, the server's websocket for it, and what is on the wire between them.

      `agentEnd`: the agent's select loop is running (it is subscribed to notifications).
      `serverEnd`: the server's websocket is open and its receive loop running.
      `intact`: the websocket the server last registered has lost no message to the server. */
  datatype Link = Link(
    procs: ProcMap, notis: seq<Noti>, agentEnd: bool, joining: Joining,
    serverEnd: bool, intact: bool, toServer: seq<Msg>, toAgent: seq<Request>)

  datatype State = State(table: Table, links: map<ConnId, Link>)

  datatype Action =
    | Boot(connId: ConnId)
    | Connect(connId: ConnId)
    | Register(connId: ConnId, table: Table)
    | RegisterLate(connId: ConnId, snapshot: set<ProcId>, table: Table, kept: nat)
    | Subscribe(connId: ConnId)
    | RequestStart(connId: ConnId, procId: ProcId)
    | Send(connId: ConnId, request: Request)
    | Consume(connId: ConnId, kept: nat)
    | CloseServer(connId: ConnId, kept: nat)
    | Handle(connId: ConnId, after: ProcMap, emitted: seq<Noti>, rsp: Option<Msg>)
    | Drain(connId: ConnId, msg: Option<Msg>)
    | Settle(connId: ConnId, procId: ProcId)
    | Ended(connId: ConnId, procId: ProcId)
    | LoseSending(connId: ConnId, kept: nat)
    | CloseAgent(connId: ConnId, kept: nat)
    | TimeOut(connId: ConnId)

  const INIT := State(EMPTY, map[])

  function Prefix<T>(s: seq<T>, n: nat): seq<T> {
    if n <= |s| then s[..n] else s
  }

  /** The server's websocket closes: the agent may still receive the first `kept` requests. */
  function ServerClosed(l: Link, kept: nat): Link {
    l.(serverEnd := false, toAgent := Prefix(l.toAgent, kept))
  }

  /** The agent leaves its loop, or gives up registering: the server may still receive the
      first `kept` messages. */
  function AgentClosed(l: Link, kept: nat): Link {
    l.(agentEnd := false, joining := Idle, intact := false, toServer := Prefix(l.toServer, kept), notis := [])
  }

  /** The requests the server makes about a proc, or for the list of procs. */
  predicate Sendable(home: Home, c: ConnId, r: Request) {
    r.ListRequest?
    || (!r.Registered? && !r.StartRequest? && home(r.procId) == c)
  }

  /** One action; a disabled one does nothing. */
  ghost function Step(home: Home, s: State, a: Action): State
    requires s.table.Valid()
  {
    var c := a.connId;
    if a.Boot? then
      // A new agent process: no procs, no websocket.
      if c in s.links then
        s.(links := s.links[c := AgentClosed(s.links[c], |s.links[c].toServer|).(procs := map[])])
      else
        s.(links := s.links[c := Link(map[], [], false, Idle, false, false, [], [])])
    else if c !in s.links then s
    else
      var l := s.links[c];
      match a
      case Boot(_) => s
      case Connect(_) =>
        if l.agentEnd || !l.joining.Idle? then s
        else s.(links := s.links[c := l.(joining := Sent(l.procs.Keys))])
      case Register(_, table) =>
        if l.joining.Sent? && Reconciled(s.table, c, l.joining.snapshot, table) then
          State(table, s.links[c := l.(joining := Accepted, serverEnd := true, intact := true,
                                       toServer := [], toAgent := [])])
        else s
      case RegisterLate(_, snapshot, table, kept) =>
        // The Register of a websocket that the agent has already given up.
        if (forall p :: p in snapshot ==> home(p) == c) && Reconciled(s.table, c, snapshot, table) then
          State(table, s.links[c := l.(serverEnd := true, intact := false,
                                       toServer := [], toAgent := Prefix(l.toAgent, kept))])
        else s
      case Subscribe(_) =>
        if l.joining.Accepted? then s.(links := s.links[c := l.(joining := Idle, agentEnd := true, notis := [])])
        else s
      case RequestStart(_, p) =>
        if l.serverEnd && home(p) == c then
          State(if p in s.table.tracked then s.table else Create(s.table, c, p, Created),
                s.links[c := l.(toAgent := l.toAgent + [StartRequest([p])])])
        else s
      case Send(_, r) =>
        if l.serverEnd && Sendable(home, c, r) then s.(links := s.links[c := l.(toAgent := l.toAgent + [r])])
        else s
      case Consume(_, kept) =>
        if l.serverEnd && l.toServer != [] then
          var rest := l.(toServer := l.toServer[1..]);
          match OnMessage(s.table, c, l.toServer[0])
          case Some(table) => State(table, s.links[c := rest])
          case None => s.(links := s.links[c := ServerClosed(rest, kept)])
        else s
      case CloseServer(_, kept) => s.(links := s.links[c := ServerClosed(l, kept)])
      case Handle(_, after, emitted, rsp) =>
        if l.agentEnd && l.toAgent != [] && Handles(l.procs, l.toAgent[0], after, emitted, rsp) then
          s.(links := s.links[c := l.(procs := after, notis := l.notis + emitted, toAgent := l.toAgent[1..],
                                      toServer := if l.intact then l.toServer + Opt(rsp) else l.toServer)])
        else s
      case Drain(_, msg) =>
        if l.agentEnd && l.notis != [] && Becomes(l.procs, l.notis[0], msg) then
          var sent := l.(notis := l.notis[1..], toServer := if l.intact then l.toServer + Opt(msg) else l.toServer);
          s.(links := s.links[c := if l.notis[0] == Shutdown(Done) then AgentClosed(sent, |sent.toServer|) else sent])
        else s
      case Settle(_, p) =>
        if p in l.procs then s.(links := s.links[c := l.(procs := l.procs[p := false])]) else s
      case Ended(_, p) =>
        if l.agentEnd && home(p) == c then s.(links := s.links[c := l.(notis := l.notis + [NotRunning(p)])]) else s
      case LoseSending(_, kept) =>
        s.(links := s.links[c := l.(intact := false, toServer := Prefix(l.toServer, kept))])
      case CloseAgent(_, kept) => s.(links := s.links[c := AgentClosed(l, kept)])
      case TimeOut(_) =>
        if l.serverEnd then s
        else s.(table := Broadcast(s.table, c, ConnectionTimeout))
  }

  function Opt(m: Option<Msg>): seq<Msg> {
    match m case Some(v) => [v] case None => []
  }

  /** The state that a sequence of actions leads to from `s`. */
  ghost function Steps(home: Home, s: State, actions: seq<Action>): (r: State)
    requires s.table.Valid()
    ensures r.table.Valid()
  {
    if actions == [] then s
    else
      var before := Steps(home, s, actions[..|actions| - 1]);
      StepValid(home, before, actions[|actions| - 1]);
      Step(home, before, actions[|actions| - 1])
  }

  /** The state after a run of the whole system. */
  ghost function Run(home: Home, actions: seq<Action>): (s: State)
    ensures s.table.Valid()
  {
    Steps(home, INIT, actions)
  }

  lemma StepValid(home: Home, s: State, a: Action)
    requires s.table.Valid()
    ensures Step(home, s, a).table.Valid()
  {
    if a.Consume? && a.connId in s.links && s.links[a.connId].toServer != [] {
      OnMessageRouted(s.table, a.connId, s.links[a.connId].toServer[0]);
    }
  }

  /** The connection works in both directions: nothing sent since registration was lost. */
  predicate Up(l: Link) {
    l.serverEnd && l.intact
  }

  /** Nothing is on the wire or waiting to be sent. */
  predicate Quiet(l: Link) {
    l.toServer == [] && l.toAgent == [] && l.notis == []
  }

  //----------------------------------------------------------------------------
  // One proc id, seen through everything that is still under way

  /** What the server has for an id: nothing, an object, or an object whose queue already holds
      a start error or a connection timeout, or that exists only because of a request error. */
  datatype Status = Absent | Clean | Excused

  predicate Excuse(o: Obj) {
    || (o.origin.Reported? && o.origin.first.RequestError?)
    || (exists k :: 0 <= k < |o.msgs| && (StartError(o.msgs[k], o.procId) || o.msgs[k].ConnectionTimeout?))
  }

  function StatusOf(t: Table, p: ProcId): Status
    requires t.Valid()
  {
    if p !in t.tracked then Absent
    else if Excuse(t.objs[t.tracked[p]]) then Excused
    else Clean
  }

  /** The effect of a message on the status of `p`. */
  function StatusStep(st: Status, m: Msg, p: ProcId): Status {
    if Removes(m, p) then Absent
    else if StartError(m, p) then Excused
    else if Mentions(m, p) && st.Absent? then (if m.RequestError? then Excused else Clean)
    else st
  }

  function Replay(st: Status, ms: seq<Msg>, p: ProcId): Status {
    if ms == [] then st else StatusStep(Replay(st, ms[..|ms| - 1], p), ms[|ms| - 1], p)
  }

  /** The effect of a notification that is still to be sent, if the agent has (`known`) or has
      not got `p` when it is sent. */
  function NotiStep(st: Status, n: Noti, p: ProcId, known: bool): Status {
    match n
    case Start(q) => if q == p && known && st.Absent? then Clean else st
    case NotRunning(q) => if q == p && known && st.Absent? then Clean else st
    case Delete(q) => if q == p then Absent else st
    case Shutdown(_) => st
  }

  function ReplayNotis(st: Status, ns: seq<Noti>, p: ProcId, known: bool): Status {
    if ns == [] then st else NotiStep(ReplayNotis(st, ns[..|ns| - 1], p, known), ns[|ns| - 1], p, known)
  }

  /** The status of `p` once all messages on the wire, and then all notifications, have
      arrived. */
  function Future(t: Table, l: Link, p: ProcId): Status
    requires t.Valid()
  {
    ReplayNotis(Replay(StatusOf(t, p), l.toServer, p), l.notis, p, p in l.procs)
  }

  predicate StartPending(rs: seq<Request>, p: ProcId) {
    exists i :: 0 <= i < |rs| && rs[i].StartRequest? && p in rs[i].ids
  }

  /** The tracking invariant for one id: the server will know what the agent has, and will not
      be left with an object for an id that the agent does not have and is not asked to start. */
  ghost predicate Agree(t: Table, l: Link, p: ProcId)
    requires t.Valid()
  {
    && (p in l.procs ==> !Future(t, l, p).Absent?)
    && (p !in l.procs && !StartPending(l.toAgent, p) ==> !Future(t, l, p).Clean?)
  }

  //----------------------------------------------------------------------------
  // Lemmas about replaying

  lemma StatusRefines(t: Table, c: ConnId, m: Msg, p: ProcId)
    requires t.Valid() && !m.ConnectionTimeout? && OnMessage(t, c, m).Some?
    ensures OnMessage(t, c, m).value.Valid()
    ensures StatusOf(OnMessage(t, c, m).value, p) == StatusStep(StatusOf(t, p), m, p)
  {
    OnMessageRouted(t, c, m);
    RoutedStatus(t, c, m, OnMessage(t, c, m).value, p);
  }

  lemma RoutedStatus(t: Table, c: ConnId, m: Msg, r: Table, p: ProcId)
    requires t.Valid() && r.Valid() && Routed(t, c, m, r) && !m.ConnectionTimeout?
    ensures StatusOf(r, p) == StatusStep(StatusOf(t, p), m, p)
  {
    if p in r.tracked {
      var k := r.tracked[p];
      if p in t.tracked {
        var o := t.objs[k];
        assert t.Live(k);
        assert r.objs[k] == if Names(m, p) then Append(o, m) else o;
        AppendExcuse(o, m);
      } else {
        assert r.objs[k] == Obj(p, c, Reported(m), if Names(m, p) then [m] else []);
      }
    }
  }

  lemma AppendExcuse(o: Obj, m: Msg)
    ensures Excuse(Append(o, m)) <==> Excuse(o) || StartError(m, o.procId) || m.ConnectionTimeout?
  {
    var o' := Append(o, m);
    assert o'.msgs[|o.msgs|] == m;
    assert forall k :: 0 <= k < |o.msgs| ==> o'.msgs[k] == o.msgs[k];
  }

  lemma {:induction false} ReplayFirst(st: Status, m: Msg, ms: seq<Msg>, p: ProcId)
    ensures Replay(st, [m] + ms, p) == Replay(StatusStep(st, m, p), ms, p)
  {
    if ms == [] {
      assert [m] + ms == [m] && [m][..0] == [];
    } else {
      assert ([m] + ms)[..|ms|] == [m] + ms[..|ms| - 1];
      ReplayFirst(st, m, ms[..|ms| - 1], p);
    }
  }

  lemma {:induction false} ReplayNotisFirst(st: Status, n: Noti, ns: seq<Noti>, p: ProcId, known: bool)
    ensures ReplayNotis(st, [n] + ns, p, known) == ReplayNotis(NotiStep(st, n, p, known), ns, p, known)
  {
    if ns == [] {
      assert [n] + ns == [n] && [n][..0] == [];
    } else {
      assert ([n] + ns)[..|ns|] == [n] + ns[..|ns| - 1];
      ReplayNotisFirst(st, n, ns[..|ns| - 1], p, known);
    }
  }

  /** Starting from something instead of from anything else cannot end in nothing. */
  lemma {:induction false} ReplayKeeps(x: Status, y: Status, ms: seq<Msg>, p: ProcId)
    requires !x.Absent? && !Replay(y, ms, p).Absent?
    ensures !Replay(x, ms, p).Absent?
  {
    if ms != [] {
      var front, m := ms[..|ms| - 1], ms[|ms| - 1];
      if !Replay(y, front, p).Absent? {
        ReplayKeeps(x, y, front, p);
      }
    }
  }

  lemma {:induction false} ReplayNotisKeeps(x: Status, y: Status, ns: seq<Noti>, p: ProcId, known: bool)
    requires !x.Absent? && !ReplayNotis(y, ns, p, known).Absent?
    ensures !ReplayNotis(x, ns, p, known).Absent?
  {
    if ns != [] {
      var front := ns[..|ns| - 1];
      if !ReplayNotis(y, front, p, known).Absent? {
        ReplayNotisKeeps(x, y, front, p, known);
      }
    }
  }

  /** For an id the agent has not got, only deletions still have an effect. */
  lemma {:induction false} ReplayNotisUnknown(st: Status, ns: seq<Noti>, p: ProcId)
    ensures ReplayNotis(st, ns, p, false) == if Delete(p) in ns then Absent else st
  {
    if ns != [] {
      ReplayNotisUnknown(st, ns[..|ns| - 1], p);
      assert ns == ns[..|ns| - 1] + [ns[|ns| - 1]];
    }
  }

  /** Notifications about other ids, at the end of the queue. */
  lemma {:induction false} ReplayNotisOthers(st: Status, ns: seq<Noti>, more: seq<Noti>, p: ProcId, known: bool)
    requires forall n :: n in more ==> n.Shutdown? || n.procId != p
    ensures ReplayNotis(st, ns + more, p, known) == ReplayNotis(st, ns, p, known)
  {
    if more == [] {
      assert ns + more == ns;
    } else {
      assert (ns + more)[..|ns + more| - 1] == ns + more[..|more| - 1];
      assert more[|more| - 1] in more;
      ReplayNotisOthers(st, ns, more[..|more| - 1], p, known);
    }
  }

  /** A start in the queue, with no deletion after it, leaves something. */
  lemma {:induction false} ReplayNotisStarted(st: Status, ns: seq<Noti>, more: seq<Noti>, p: ProcId)
    requires Start(p) in more && Delete(p) !in more
    ensures !ReplayNotis(st, ns + more, p, true).Absent?
  {
    assert (ns + more)[..|ns + more| - 1] == ns + more[..|more| - 1];
    var last := more[|more| - 1];
    assert more == more[..|more| - 1] + [last];
    if last != Start(p) {
      ReplayNotisStarted(st, ns, more[..|more| - 1], p);
    }
  }

  //----------------------------------------------------------------------------
  // Agreement is kept by each step

  lemma HandleAgrees(t: Table, l: Link, after: ProcMap, emitted: seq<Noti>, rsp: Option<Msg>, p: ProcId)
    requires t.Valid() && Agree(t, l, p) && l.toAgent != []
    requires Handles(l.procs, l.toAgent[0], after, emitted, rsp)
    ensures Agree(t, l.(procs := after, notis := l.notis + emitted, toAgent := l.toAgent[1..],
                        toServer := l.toServer + Opt(rsp)), p)
  {
    var x := Replay(StatusOf(t, p), l.toServer, p);
    var x' := Replay(StatusOf(t, p), l.toServer + Opt(rsp), p);
    assert x' == if rsp.Some? then StatusStep(x, rsp.value, p) else x by {
      if rsp.Some? {
        assert (l.toServer + [rsp.value])[..|l.toServer|] == l.toServer;
      } else {
        assert l.toServer + [] == l.toServer;
      }
    }
    if p in after {
      HandlePresent(l, after, emitted, rsp, p, x, x');
    } else {
      HandleAbsent(l, after, emitted, rsp, p, x, x');
    }
  }

  /** If the proc is there afterwards, the server will not believe that it is not. */
  lemma HandlePresent(l: Link, after: ProcMap, emitted: seq<Noti>, rsp: Option<Msg>, p: ProcId, x: Status, x': Status)
    requires l.toAgent != [] && Handles(l.procs, l.toAgent[0], after, emitted, rsp) && p in after
    requires x' == if rsp.Some? then StatusStep(x, rsp.value, p) else x
    requires p in l.procs ==> !ReplayNotis(x, l.notis, p, true).Absent?
    ensures !ReplayNotis(x', l.notis + emitted, p, true).Absent?
  {
    if p in l.procs {
      HandleKeptProc(l, after, emitted, rsp, p);
      ReplayNotisOthers(x', l.notis, emitted, p, true);
      if x' != x {
        ReplayNotisKeeps(x', x, l.notis, p, true);
      }
    } else {
      HandleNewProc(l, after, emitted, rsp, p);
      ReplayNotisStarted(x', l.notis, emitted, p);
    }
  }

  /** If it is not, and no start is on its way, the server will not believe that it is. */
  lemma HandleAbsent(l: Link, after: ProcMap, emitted: seq<Noti>, rsp: Option<Msg>, p: ProcId, x: Status, x': Status)
    requires l.toAgent != [] && Handles(l.procs, l.toAgent[0], after, emitted, rsp) && p !in after
    requires x' == if rsp.Some? then StatusStep(x, rsp.value, p) else x
    requires p !in l.procs && !StartPending(l.toAgent, p) ==> !ReplayNotis(x, l.notis, p, false).Clean?
    ensures !StartPending(l.toAgent[1..], p) ==> !ReplayNotis(x', l.notis + emitted, p, false).Clean?
  {
    ReplayNotisUnknown(x', l.notis + emitted, p);
    ReplayNotisUnknown(x, l.notis, p);
    if p !in l.procs && !StartPending(l.toAgent[1..], p) {
      HandleNoProc(l, after, emitted, rsp, p);
      if StartPending(l.toAgent, p) {
        var i :| 0 <= i < |l.toAgent| && l.toAgent[i].StartRequest? && p in l.toAgent[i].ids;
        assert i == 0;
      }
    } else if p in l.procs {
      HandleDeleted(l, after, emitted, rsp, p);
      assert Delete(p) in l.notis + emitted;
    }
  }

  lemma HandleDeleted(l: Link, after: ProcMap, emitted: seq<Noti>, rsp: Option<Msg>, p: ProcId)
    requires l.toAgent != [] && Handles(l.procs, l.toAgent[0], after, emitted, rsp)
    requires p in l.procs && p !in after
    ensures Delete(p) in emitted
  {
    assert l.toAgent[0].DeleteRequest?;
    assert emitted[|emitted| - 1] == Delete(p);
  }

  /** Handling a request leaves a proc alone: no notification about it, no removal. */
  lemma HandleKeptProc(l: Link, after: ProcMap, emitted: seq<Noti>, rsp: Option<Msg>, p: ProcId)
    requires l.toAgent != [] && Handles(l.procs, l.toAgent[0], after, emitted, rsp)
    requires p in l.procs && p in after
    ensures forall n :: n in emitted ==> n.Shutdown? || n.procId != p
    ensures rsp.Some? ==> !Removes(rsp.value, p)
  {
    var r := l.toAgent[0];
    if r.StartRequest? && emitted != [] {
      assert forall i :: 0 <= i < |emitted| ==> emitted[i] == Start(r.ids[i]) && r.ids[i] in r.ids;
    }
  }

  lemma HandleNewProc(l: Link, after: ProcMap, emitted: seq<Noti>, rsp: Option<Msg>, p: ProcId)
    requires l.toAgent != [] && Handles(l.procs, l.toAgent[0], after, emitted, rsp)
    requires p !in l.procs && p in after
    ensures Start(p) in emitted && Delete(p) !in emitted
  {
    var r := l.toAgent[0];
    var i :| 0 <= i < |emitted| && r.ids[i] == p;
    assert emitted[i] == Start(p);
  }

  lemma HandleNoProc(l: Link, after: ProcMap, emitted: seq<Noti>, rsp: Option<Msg>, p: ProcId)
    requires l.toAgent != [] && Handles(l.procs, l.toAgent[0], after, emitted, rsp)
    requires p !in l.procs && p !in after
    ensures l.toAgent[0].StartRequest? && p in l.toAgent[0].ids ==> rsp.Some? && StartError(rsp.value, p)
    ensures rsp.Some? && Mentions(rsp.value, p) ==> Removes(rsp.value, p) || rsp.value.RequestError?
    ensures Delete(p) !in emitted
  {
    var r := l.toAgent[0];
    if r.ListRequest? {
      assert p !in (set q | q in rsp.value.ids);
    }
  }

  /** A notification has the same effect before it is sent as the message it becomes. */
  lemma BecomesSame(procs: ProcMap, n: Noti, msg: Option<Msg>, st: Status, p: ProcId)
    requires Becomes(procs, n, msg)
    ensures NotiStep(st, n, p, p in procs) == if msg.Some? then StatusStep(st, msg.value, p) else st
  {
  }

  lemma ReplayLast(st: Status, ms: seq<Msg>, m: Msg, p: ProcId)
    ensures Replay(st, ms + [m], p) == StatusStep(Replay(st, ms, p), m, p)
  {
    assert (ms + [m])[..|ms|] == ms;
  }

  lemma DrainFuture(st: Status, ms: seq<Msg>, ns: seq<Noti>, procs: ProcMap, msg: Option<Msg>, p: ProcId)
    requires ns != [] && Becomes(procs, ns[0], msg)
    ensures ReplayNotis(Replay(st, ms + Opt(msg), p), ns[1..], p, p in procs)
         == ReplayNotis(Replay(st, ms, p), ns, p, p in procs)
  {
    var x := Replay(st, ms, p);
    BecomesSame(procs, ns[0], msg, x, p);
    match msg {
      case Some(m) => ReplayLast(st, ms, m, p);
      case None => assert ms + Opt(msg) == ms;
    }
    ReplayNotisFirst(x, ns[0], ns[1..], p, p in procs);
    assert [ns[0]] + ns[1..] == ns;
  }

  lemma DrainAgrees(t: Table, l: Link, msg: Option<Msg>, p: ProcId)
    requires t.Valid() && Agree(t, l, p) && l.notis != [] && Becomes(l.procs, l.notis[0], msg)
    ensures Agree(t, l.(notis := l.notis[1..], toServer := l.toServer + Opt(msg)), p)
  {
    DrainFuture(StatusOf(t, p), l.toServer, l.notis, l.procs, msg, p);
  }

  lemma ConsumeAgrees(t: Table, c: ConnId, l: Link, p: ProcId)
    requires t.Valid() && Agree(t, l, p) && l.toServer != [] && !l.toServer[0].ConnectionTimeout?
    requires OnMessage(t, c, l.toServer[0]).Some?
    ensures var r := OnMessage(t, c, l.toServer[0]).value;
            r.Valid() && Agree(r, l.(toServer := l.toServer[1..]), p)
  {
    StatusRefines(t, c, l.toServer[0], p);
    ReplayFirst(StatusOf(t, p), l.toServer[0], l.toServer[1..], p);
    assert [l.toServer[0]] + l.toServer[1..] == l.toServer;
  }

  lemma RequestStartAgrees(t: Table, c: ConnId, l: Link, q: ProcId, p: ProcId)
    requires t.Valid() && Agree(t, l, p)
    ensures var r := if q in t.tracked then t else Create(t, c, q, Created);
            Agree(r, l.(toAgent := l.toAgent + [StartRequest([q])]), p)
  {
    var r := if q in t.tracked then t else Create(t, c, q, Created);
    var l' := l.(toAgent := l.toAgent + [StartRequest([q])]);
    assert forall i :: 0 <= i < |l.toAgent| ==> l'.toAgent[i] == l.toAgent[i];
    if p == q {
      assert l'.toAgent[|l.toAgent|] == StartRequest([q]);
      if p in l.procs && p !in t.tracked {
        assert StatusOf(r, p) == Clean;
        ReplayStarts(Absent, Clean, l.toServer, l.notis, p);
      }
    } else if q !in t.tracked {
      assert StatusOf(r, p) == StatusOf(t, p);
    }
  }

  /** If messages and notifications lead from `y` to something, they lead from something to
      something. */
  lemma ReplayStarts(y: Status, x: Status, ms: seq<Msg>, ns: seq<Noti>, p: ProcId)
    requires !x.Absent? && !ReplayNotis(Replay(y, ms, p), ns, p, true).Absent?
    ensures !ReplayNotis(Replay(x, ms, p), ns, p, true).Absent?
  {
    var a, b := Replay(y, ms, p), Replay(x, ms, p);
    if b.Absent? {
      if !a.Absent? {
        ReplayKeeps(x, y, ms, p);
      }
    } else {
      ReplayNotisKeeps(b, a, ns, p, true);
    }
  }

  //----------------------------------------------------------------------------
  // The invariant of all runs

  /** The last message of a forgotten object is the removal of its id. */
  predicate Dismissed(o: Obj) {
    o.msgs != [] && Removes(o.msgs[|o.msgs| - 1], o.procId)
  }

  ghost predicate TableInv(home: Home, t: Table) {
    && t.Valid()
    && (forall i :: 0 <= i < |t.objs| ==> t.objs[i].connId == home(t.objs[i].procId))
    && (forall i :: 0 <= i < |t.objs| ==> t.Live(i) || Dismissed(t.objs[i]))
  }

  ghost predicate MsgInv(home: Home, c: ConnId, m: Msg) {
    !m.ConnectionTimeout? && forall p :: Mentions(m, p) ==> home(p) == c
  }

  ghost predicate RequestInv(home: Home, c: ConnId, r: Request) {
    forall p :: RequestNames(r, p) ==> home(p) == c
  }

  predicate NotiInv(home: Home, c: ConnId, n: Noti) {
    n.Shutdown? || home(n.procId) == c
  }

  ghost predicate LinkInv(home: Home, c: ConnId, l: Link) {
    && (forall p :: p in l.procs ==> home(p) == c)
    && (forall i :: 0 <= i < |l.notis| ==> NotiInv(home, c, l.notis[i]))
    && (forall i :: 0 <= i < |l.toServer| ==> MsgInv(home, c, l.toServer[i]))
    && (forall i :: 0 <= i < |l.toAgent| ==> RequestInv(home, c, l.toAgent[i]))
    && (!l.agentEnd ==> l.notis == [])
    && (l.agentEnd ==> l.joining.Idle?)
    && (l.joining.Sent? ==> l.joining.snapshot == l.procs.Keys)
    && (!l.agentEnd && !l.joining.Accepted? ==> !l.intact)
  }

  ghost predicate AgreeAll(home: Home, t: Table, c: ConnId, l: Link)
    requires t.Valid()
  {
    forall p :: home(p) == c ==> Agree(t, l, p)
  }

  ghost predicate Inv(home: Home, s: State) {
    && TableInv(home, s.table)
    && (forall c :: c in s.links ==> LinkInv(home, c, s.links[c]))
    && (forall c :: c in s.links && Up(s.links[c]) ==> AgreeAll(home, s.table, c, s.links[c]))
  }

  /** A step that changes link `c`, and the table for ids of `c` only. */
  lemma Assemble(home: Home, s: State, c: ConnId, t: Table, l: Link)
    requires Inv(home, s) && TableInv(home, t) && LinkInv(home, c, l)
    requires Up(l) ==> AgreeAll(home, t, c, l)
    requires forall p :: home(p) != c ==> StatusOf(t, p) == StatusOf(s.table, p)
    ensures Inv(home, State(t, s.links[c := l]))
  {
    var s' := State(t, s.links[c := l]);
    forall d | d in s'.links && Up(s'.links[d]) ensures AgreeAll(home, t, d, s'.links[d]) {
      if d != c {
        forall p | home(p) == d ensures Agree(t, s.links[d], p) {
          assert Agree(s.table, s.links[d], p);
        }
      }
    }
  }

  //----------------------------------------------------------------------------
  // The table under each operation

  lemma MessageTable(home: Home, t: Table, c: ConnId, m: Msg)
    requires TableInv(home, t) && MsgInv(home, c, m) && OnMessage(t, c, m).Some?
    ensures TableInv(home, OnMessage(t, c, m).value)
    ensures forall p :: home(p) != c ==> StatusOf(OnMessage(t, c, m).value, p) == StatusOf(t, p)
  {
    var r := OnMessage(t, c, m).value;
    OnMessageRouted(t, c, m);
    forall i | 0 <= i < |r.objs|
      ensures r.objs[i].connId == home(r.objs[i].procId) && (r.Live(i) || Dismissed(r.objs[i]))
    {
      RoutedObject(home, t, c, m, r, i);
    }
    forall p | home(p) != c ensures StatusOf(r, p) == StatusOf(t, p) {
      StatusRefines(t, c, m, p);
    }
  }

  lemma RoutedObject(home: Home, t: Table, c: ConnId, m: Msg, r: Table, i: nat)
    requires TableInv(home, t) && MsgInv(home, c, m) && r.Valid() && Routed(t, c, m, r) && i < |r.objs|
    ensures r.objs[i].connId == home(r.objs[i].procId) && (r.Live(i) || Dismissed(r.objs[i]))
  {
    if i < |t.objs| {
      var p := t.objs[i].procId;
      assert r.objs[i] == if Reaches(t, c, m, i) then Append(t.objs[i], m) else t.objs[i];
      if t.Live(i) && Removes(m, p) {
        assert Names(m, p);
      }
    }
  }

  lemma TimeoutTable(home: Home, t: Table, c: ConnId)
    requires TableInv(home, t)
    ensures TableInv(home, Broadcast(t, c, ConnectionTimeout))
    ensures forall p :: home(p) != c ==> StatusOf(Broadcast(t, c, ConnectionTimeout), p) == StatusOf(t, p)
  {
    var r := Broadcast(t, c, ConnectionTimeout);
    forall i | 0 <= i < |r.objs| ensures r.Live(i) || Dismissed(r.objs[i]) {
      assert t.Live(i) || Dismissed(t.objs[i]);
    }
  }

  lemma CreateTable(home: Home, t: Table, c: ConnId, q: ProcId)
    requires TableInv(home, t) && home(q) == c && q !in t.tracked
    ensures TableInv(home, Create(t, c, q, Created))
    ensures forall p :: home(p) != c ==> StatusOf(Create(t, c, q, Created), p) == StatusOf(t, p)
  {
  }

  /** Registration leaves exactly the agent's ids tracked for its connection, so everything
      agrees with nothing on the wire. */
  lemma ReconciledTable(home: Home, t: Table, c: ConnId, ids: set<ProcId>, r: Table)
    requires TableInv(home, t) && Reconciled(t, c, ids, r)
    requires forall p :: p in ids ==> home(p) == c
    ensures TableInv(home, r)
    ensures forall p :: home(p) != c ==> StatusOf(r, p) == StatusOf(t, p)
    ensures forall p :: home(p) == c ==> (p in r.tracked <==> p in ids)
  {
    forall i | 0 <= i < |r.objs|
      ensures r.objs[i].connId == home(r.objs[i].procId) && (r.Live(i) || Dismissed(r.objs[i]))
    {
      if i < |t.objs| {
        assert r.objs[i] ==
               if Missing(t, c, ids, i) then Append(t.objs[i], ProcUnknown(t.objs[i].procId)) else t.objs[i];
        assert t.Live(i) || Dismissed(t.objs[i]);
      }
    }
    forall p | home(p) != c ensures StatusOf(r, p) == StatusOf(t, p) {
      if p in t.tracked {
        assert !Missing(t, c, ids, t.tracked[p]);
      }
    }
  }

  //----------------------------------------------------------------------------
  // Each action keeps the invariant

  lemma RegisterInv(home: Home, s: State, c: ConnId, ids: set<ProcId>, t: Table, l: Link, late: bool)
    requires Inv(home, s) && c in s.links && Reconciled(s.table, c, ids, t)
    requires forall p :: p in ids ==> home(p) == c
    requires LinkInv(home, c, l) && l.toServer == [] && l.procs == s.links[c].procs
    requires late ==> !l.intact
    requires !late ==> l.notis == [] && ids == l.procs.Keys
    ensures Inv(home, State(t, s.links[c := l]))
  {
    ReconciledTable(home, s.table, c, ids, t);
    if Up(l) {
      forall p | home(p) == c ensures Agree(t, l, p) {
        assert Future(t, l, p) == StatusOf(t, p);
      }
    }
    Assemble(home, s, c, t, l);
  }

  lemma RequestStartInv(home: Home, s: State, c: ConnId, q: ProcId)
    requires Inv(home, s) && c in s.links
    ensures Inv(home, Step(home, s, RequestStart(c, q)))
  {
    var l := s.links[c];
    if l.serverEnd && home(q) == c {
      var t := if q in s.table.tracked then s.table else Create(s.table, c, q, Created);
      var l' := l.(toAgent := l.toAgent + [StartRequest([q])]);
      if q !in s.table.tracked {
        CreateTable(home, s.table, c, q);
      }
      if Up(l') {
        forall p | home(p) == c ensures Agree(t, l', p) {
          RequestStartAgrees(s.table, c, l, q, p);
        }
      }
      Assemble(home, s, c, t, l');
    }
  }

  lemma ConsumeInv(home: Home, s: State, c: ConnId, kept: nat)
    requires Inv(home, s) && c in s.links
    ensures Inv(home, Step(home, s, Consume(c, kept)))
  {
    var l := s.links[c];
    if l.serverEnd && l.toServer != [] {
      var m := l.toServer[0];
      var rest := l.(toServer := l.toServer[1..]);
      assert MsgInv(home, c, m);
      if OnMessage(s.table, c, m).Some? {
        var t := OnMessage(s.table, c, m).value;
        MessageTable(home, s.table, c, m);
        if Up(rest) {
          forall p | home(p) == c ensures Agree(t, rest, p) {
            ConsumeAgrees(s.table, c, l, p);
          }
        }
        Assemble(home, s, c, t, rest);
      } else {
        Assemble(home, s, c, s.table, ServerClosed(rest, kept));
      }
    }
  }

  lemma HandleInv(home: Home, s: State, c: ConnId, after: ProcMap, emitted: seq<Noti>, rsp: Option<Msg>)
    requires Inv(home, s) && c in s.links
    ensures Inv(home, Step(home, s, Handle(c, after, emitted, rsp)))
  {
    var l := s.links[c];
    if l.agentEnd && l.toAgent != [] && Handles(l.procs, l.toAgent[0], after, emitted, rsp) {
      HandledInv(home, s, c, l, after, emitted, rsp);
      HandledState(home, s, c, l, after, emitted, rsp);
    } else {
      NotHandled(home, s, c, s.links[c], after, emitted, rsp);
    }
  }

  lemma HandledState(home: Home, s: State, c: ConnId, l: Link, after: ProcMap, emitted: seq<Noti>, rsp: Option<Msg>)
    requires s.table.Valid() && c in s.links && l == s.links[c] && l.agentEnd
    requires l.toAgent != [] && Handles(l.procs, l.toAgent[0], after, emitted, rsp)
    ensures Step(home, s, Handle(c, after, emitted, rsp))
         == s.(links := s.links[c := l.(procs := after, notis := l.notis + emitted, toAgent := l.toAgent[1..],
                                        toServer := if l.intact then l.toServer + Opt(rsp) else l.toServer)])
  {
  }

  lemma NotHandled(home: Home, s: State, c: ConnId, l: Link, after: ProcMap, emitted: seq<Noti>, rsp: Option<Msg>)
    requires s.table.Valid() && c in s.links && l == s.links[c]
    requires !(l.agentEnd && l.toAgent != [] && Handles(l.procs, l.toAgent[0], after, emitted, rsp))
    ensures Step(home, s, Handle(c, after, emitted, rsp)) == s
  {
  }

  lemma HandledInv(home: Home, s: State, c: ConnId, l: Link, after: ProcMap, emitted: seq<Noti>, rsp: Option<Msg>)
    requires Inv(home, s) && c in s.links && l == s.links[c] && l.agentEnd
    requires l.toAgent != [] && Handles(l.procs, l.toAgent[0], after, emitted, rsp)
    ensures Inv(home, s.(links := s.links[c := l.(procs := after, notis := l.notis + emitted, toAgent := l.toAgent[1..],
                                                  toServer := if l.intact then l.toServer + Opt(rsp) else l.toServer)]))
  {
    var l' := l.(procs := after, notis := l.notis + emitted, toAgent := l.toAgent[1..],
                 toServer := if l.intact then l.toServer + Opt(rsp) else l.toServer);
    HandledLink(home, c, l, l', after, emitted, rsp);
    if Up(l') {
      HandleAgreesAll(home, s.table, c, l, after, emitted, rsp);
    }
    Assemble(home, s, c, s.table, l');
  }

  lemma HandleAgreesAll(home: Home, t: Table, c: ConnId, l: Link, after: ProcMap, emitted: seq<Noti>, rsp: Option<Msg>)
    requires t.Valid() && AgreeAll(home, t, c, l) && l.toAgent != []
    requires Handles(l.procs, l.toAgent[0], after, emitted, rsp)
    ensures AgreeAll(home, t, c, l.(procs := after, notis := l.notis + emitted, toAgent := l.toAgent[1..],
                                    toServer := l.toServer + Opt(rsp)))
  {
    var l' := l.(procs := after, notis := l.notis + emitted, toAgent := l.toAgent[1..],
                 toServer := l.toServer + Opt(rsp));
    forall p | home(p) == c ensures Agree(t, l', p) {
      HandleAgrees(t, l, after, emitted, rsp, p);
    }
  }

  /** What handling a request makes of the link involves ids of the connection only. */
  lemma HandledLink(home: Home, c: ConnId, l: Link, l': Link, after: ProcMap, emitted: seq<Noti>, rsp: Option<Msg>)
    requires LinkInv(home, c, l) && l.agentEnd
    requires l.toAgent != [] && Handles(l.procs, l.toAgent[0], after, emitted, rsp)
    requires l' == l.(procs := after, notis := l.notis + emitted, toAgent := l.toAgent[1..],
                      toServer := if l.intact then l.toServer + Opt(rsp) else l.toServer)
    ensures LinkInv(home, c, l')
  {
    HandleLink(home, c, l, after, emitted, rsp);
  }

  /** Handling a request only ever involves ids of the connection. */
  lemma HandleLink(home: Home, c: ConnId, l: Link, after: ProcMap, emitted: seq<Noti>, rsp: Option<Msg>)
    requires LinkInv(home, c, l) && l.toAgent != [] && Handles(l.procs, l.toAgent[0], after, emitted, rsp)
    ensures forall p :: p in after ==> home(p) == c
    ensures forall i :: 0 <= i < |emitted| ==> NotiInv(home, c, emitted[i])
    ensures rsp.Some? ==> MsgInv(home, c, rsp.value)
  {
    var r := l.toAgent[0];
    assert RequestInv(home, c, r);
    if r.StartRequest? {
      forall i | 0 <= i < |emitted| ensures NotiInv(home, c, emitted[i]) {
        assert emitted[i] == Start(r.ids[i]) && RequestNames(r, r.ids[i]);
      }
      forall p | p in after ensures home(p) == c {
        if p !in l.procs { assert RequestNames(r, p); }
      }
    } else if r.ListRequest? {
      forall p | p in rsp.value.ids ensures home(p) == c {
        assert p in (set q | q in rsp.value.ids);
      }
    } else if !r.Registered? {
      assert RequestNames(r, r.procId);
    }
  }

  lemma DrainInv(home: Home, s: State, c: ConnId, msg: Option<Msg>)
    requires Inv(home, s) && c in s.links
    ensures Inv(home, Step(home, s, Drain(c, msg)))
  {
    var l := s.links[c];
    if l.agentEnd && l.notis != [] && Becomes(l.procs, l.notis[0], msg) {
      var sent := l.(notis := l.notis[1..], toServer := if l.intact then l.toServer + Opt(msg) else l.toServer);
      assert NotiInv(home, c, l.notis[0]);
      assert msg.Some? ==> MsgInv(home, c, msg.value);
      if Up(sent) {
        forall p | home(p) == c ensures Agree(s.table, sent, p) {
          DrainAgrees(s.table, l, msg, p);
        }
      }
      Assemble(home, s, c, s.table, if l.notis[0] == Shutdown(Done) then AgentClosed(sent, |sent.toServer|) else sent);
    }
  }

  lemma EndedInv(home: Home, s: State, c: ConnId, q: ProcId)
    requires Inv(home, s) && c in s.links
    ensures Inv(home, Step(home, s, Ended(c, q)))
  {
    var l := s.links[c];
    if l.agentEnd && home(q) == c {
      var l' := l.(notis := l.notis + [NotRunning(q)]);
      assert l'.notis[..|l.notis|] == l.notis;
      if Up(l') {
        forall p | home(p) == c ensures Agree(s.table, l', p) {
          assert Agree(s.table, l, p);
        }
      }
      Assemble(home, s, c, s.table, l');
    }
  }

  lemma SendInv(home: Home, s: State, c: ConnId, r: Request)
    requires Inv(home, s) && c in s.links
    ensures Inv(home, Step(home, s, Send(c, r)))
  {
    var l := s.links[c];
    if l.serverEnd && Sendable(home, c, r) {
      var l' := l.(toAgent := l.toAgent + [r]);
      if Up(l') {
        forall p | home(p) == c ensures Agree(s.table, l', p) {
          assert Agree(s.table, l, p);
          assert StartPending(l.toAgent, p) ==> StartPending(l'.toAgent, p) by {
            assert forall i :: 0 <= i < |l.toAgent| ==> l'.toAgent[i] == l.toAgent[i];
          }
        }
      }
      Assemble(home, s, c, s.table, l');
    }
  }

  lemma SettleInv(home: Home, s: State, c: ConnId, q: ProcId)
    requires Inv(home, s) && c in s.links
    ensures Inv(home, Step(home, s, Settle(c, q)))
  {
    var l := s.links[c];
    if q in l.procs {
      var l' := l.(procs := l.procs[q := false]);
      assert l'.procs.Keys == l.procs.Keys;
      if Up(l') {
        forall p | home(p) == c ensures Agree(s.table, l', p) {
          assert Agree(s.table, l, p);
        }
      }
      Assemble(home, s, c, s.table, l');
    }
  }

  lemma BootInv(home: Home, s: State, c: ConnId)
    requires Inv(home, s)
    ensures Inv(home, Step(home, s, Boot(c)))
  {
    if c in s.links {
      Assemble(home, s, c, s.table, AgentClosed(s.links[c], |s.links[c].toServer|).(procs := map[]));
    } else {
      Assemble(home, s, c, s.table, Link(map[], [], false, Idle, false, false, [], []));
    }
  }

  lemma RegisterNowInv(home: Home, s: State, c: ConnId, t: Table)
    requires Inv(home, s) && c in s.links
    ensures Inv(home, Step(home, s, Register(c, t)))
  {
    var l := s.links[c];
    if l.joining.Sent? && Reconciled(s.table, c, l.joining.snapshot, t) {
      RegisterInv(home, s, c, l.joining.snapshot, t,
                  l.(joining := Accepted, serverEnd := true, intact := true, toServer := [], toAgent := []), false);
    }
  }

  lemma RegisterLateInv(home: Home, s: State, c: ConnId, ids: set<ProcId>, t: Table, kept: nat)
    requires Inv(home, s) && c in s.links
    ensures Inv(home, Step(home, s, RegisterLate(c, ids, t, kept)))
  {
    var l := s.links[c];
    if (forall p :: p in ids ==> home(p) == c) && Reconciled(s.table, c, ids, t) {
      RegisterInv(home, s, c, ids, t,
                  l.(serverEnd := true, intact := false, toServer := [], toAgent := Prefix(l.toAgent, kept)), true);
    }
  }

  lemma TimeOutInv(home: Home, s: State, c: ConnId)
    requires Inv(home, s) && c in s.links
    ensures Inv(home, Step(home, s, TimeOut(c)))
  {
    if !s.links[c].serverEnd {
      TimeoutTable(home, s.table, c);
      Assemble(home, s, c, Broadcast(s.table, c, ConnectionTimeout), s.links[c]);
      assert s.links[c := s.links[c]] == s.links;
    }
  }

  lemma StepInv(home: Home, s: State, a: Action)
    requires Inv(home, s)
    ensures Inv(home, Step(home, s, a))
  {
    var c := a.connId;
    if a.Boot? {
      BootInv(home, s, c);
    } else if c in s.links {
      match a {
        case Connect(_) => LinkStepInv(home, s, a);
        case Register(_, t) => RegisterNowInv(home, s, c, t);
        case RegisterLate(_, ids, t, kept) => RegisterLateInv(home, s, c, ids, t, kept);
        case Subscribe(_) => SubscribeInv(home, s, c);
        case RequestStart(_, q) => RequestStartInv(home, s, c, q);
        case Send(_, r) => SendInv(home, s, c, r);
        case Consume(_, kept) => ConsumeInv(home, s, c, kept);
        case CloseServer(_, _) => LinkStepInv(home, s, a);
        case Handle(_, after, emitted, rsp) => HandleInv(home, s, c, after, emitted, rsp);
        case Drain(_, msg) => DrainInv(home, s, c, msg);
        case Settle(_, q) => SettleInv(home, s, c, q);
        case Ended(_, q) => EndedInv(home, s, c, q);
        case LoseSending(_, _) => LinkStepInv(home, s, a);
        case CloseAgent(_, _) => LinkStepInv(home, s, a);
        case TimeOut(_) => TimeOutInv(home, s, c);
      }
    }
  }

  /** The actions after which the connection is not up, or whose link has lost nothing. */
  lemma LinkStepInv(home: Home, s: State, a: Action)
    requires Inv(home, s) && a.connId in s.links
    requires a.Connect? || a.CloseServer? || a.LoseSending? || a.CloseAgent?
    ensures Inv(home, Step(home, s, a))
  {
    var c := a.connId;
    var l := s.links[c];
    match a {
      case Connect(_) =>
        if !(l.agentEnd || !l.joining.Idle?) {
          Assemble(home, s, c, s.table, l.(joining := Sent(l.procs.Keys)));
        }
      case CloseServer(_, kept) => Assemble(home, s, c, s.table, ServerClosed(l, kept));
      case LoseSending(_, kept) =>
        Assemble(home, s, c, s.table, l.(intact := false, toServer := Prefix(l.toServer, kept)));
      case CloseAgent(_, kept) => Assemble(home, s, c, s.table, AgentClosed(l, kept));
    }
  }

  lemma SubscribeInv(home: Home, s: State, c: ConnId)
    requires Inv(home, s) && c in s.links
    ensures Inv(home, Step(home, s, Subscribe(c)))
  {
    var l := s.links[c];
    if l.joining.Accepted? {
      var l' := l.(joining := Idle, agentEnd := true, notis := []);
      if Up(l') {
        forall p | home(p) == c ensures Agree(s.table, l', p) {
          assert Agree(s.table, l, p);
        }
      }
      Assemble(home, s, c, s.table, l');
    }
  }

  lemma {:induction false} RunInv(home: Home, actions: seq<Action>)
    ensures Inv(home, Run(home, actions))
  {
    if actions != [] {
      RunInv(home, actions[..|actions| - 1]);
      StepInv(home, Run(home, actions[..|actions| - 1]), actions[|actions| - 1]);
    }
  }

  //----------------------------------------------------------------------------
  // Main results

  /** In every run, while a connection is up, every proc the agent has is known to the server
      once everything under way has arrived, although responses overtake notifications. */
  lemma TrackingInvariant(home: Home, actions: seq<Action>, c: ConnId)
    ensures var s := Run(home, actions);
            c in s.links && Up(s.links[c]) ==>
              forall p :: p in s.links[c].procs ==> !Future(s.table, s.links[c], p).Absent?
  {
    RunInv(home, actions);
    var s := Run(home, actions);
    if c in s.links && Up(s.links[c]) {
      forall p | p in s.links[c].procs ensures !Future(s.table, s.links[c], p).Absent? {
        assert Agree(s.table, s.links[c], p);
      }
    }
  }

  /** Registration makes the ids tracked for the connection equal to the agent's. */
  lemma RegisterEqualizes(home: Home, actions: seq<Action>, c: ConnId, t: Table)
    requires var s := Run(home, actions);
             && c in s.links && s.links[c].joining.Sent?
             && Reconciled(s.table, c, s.links[c].joining.snapshot, t)
    ensures var r := Run(home, actions + [Register(c, t)]);
            && c in r.links && Up(r.links[c])
            && forall p :: p in r.links[c].procs <==>
                 p in r.table.tracked && r.table.objs[r.table.tracked[p]].connId == c
  {
    RunInv(home, actions);
    var s := Run(home, actions);
    assert (actions + [Register(c, t)])[..|actions|] == actions;
    ReconciledTable(home, s.table, c, s.links[c].joining.snapshot, t);
  }

  /** A message with which the updates of `p` end or fail. */
  predicate Final(m: Msg, p: ProcId) {
    Removes(m, p) || m.ConnectionTimeout? || StartError(m, p)
  }

  /** No silent loss: in every run, for every object made by `create` (for a start request or at
      registration), when its connection is up and quiet, the object is tracked and the agent
      has its proc, or its queue holds the message that says why not. */
  lemma NoSilentLoss(home: Home, actions: seq<Action>, i: nat)
    requires var s := Run(home, actions);
             && i < |s.table.objs| && s.table.objs[i].origin.Created?
             && s.table.objs[i].connId in s.links
             && Up(s.links[s.table.objs[i].connId]) && Quiet(s.links[s.table.objs[i].connId])
    ensures var s := Run(home, actions);
            var o := s.table.objs[i];
            || (s.table.Live(i) && o.procId in s.links[o.connId].procs)
            || exists k :: 0 <= k < |o.msgs| && Final(o.msgs[k], o.procId)
  {
    RunInv(home, actions);
    var s := Run(home, actions);
    var o := s.table.objs[i];
    if s.table.Live(i) {
      var l := s.links[o.connId];
      assert Agree(s.table, l, o.procId);
      assert Future(s.table, l, o.procId) == StatusOf(s.table, o.procId);
      if o.procId !in l.procs {
        var k :| 0 <= k < |o.msgs| && (StartError(o.msgs[k], o.procId) || o.msgs[k].ConnectionTimeout?);
        assert Final(o.msgs[k], o.procId);
      }
    } else {
      assert Final(o.msgs[|o.msgs| - 1], o.procId);
    }
  }

  /** When a connection is up and quiet, the server tracks every proc the agent has, and every
      other id it tracks for the connection goes with an error or a timeout in its queue, or
      came from an error. */
  lemma QuietAgreement(home: Home, actions: seq<Action>, c: ConnId)
    requires var s := Run(home, actions); c in s.links && Up(s.links[c]) && Quiet(s.links[c])
    ensures var s := Run(home, actions);
            forall p :: home(p) == c && !(p in s.table.tracked && Excuse(s.table.objs[s.table.tracked[p]])) ==>
              (p in s.links[c].procs <==> p in s.table.tracked)
    ensures var s := Run(home, actions); forall p :: p in s.links[c].procs ==> p in s.table.tracked
  {
    RunInv(home, actions);
    var s := Run(home, actions);
    var l := s.links[c];
    forall p | home(p) == c
      ensures p in l.procs ==> p in s.table.tracked
      ensures p !in l.procs && p in s.table.tracked ==> Excuse(s.table.objs[s.table.tracked[p]])
    {
      assert Agree(s.table, l, p);
      assert Future(s.table, l, p) == StatusOf(s.table, p);
    }
  }

  //----------------------------------------------------------------------------
  // What the exchange achieves

  /** The connection works, its agent listens, and nothing is under way. */
  predicate Ready(s: State, c: ConnId) {
    c in s.links && Up(s.links[c]) && Quiet(s.links[c]) && s.links[c].agentEnd
  }

  lemma {:induction false} StepsSplit(home: Home, s: State, first: seq<Action>, second: seq<Action>)
    requires s.table.Valid()
    ensures Steps(home, s, first + second) == Steps(home, Steps(home, s, first), second)
  {
    if second == [] {
      assert first + second == first;
    } else {
      assert (first + second)[..|first + second| - 1] == first + second[..|second| - 1];
      StepsSplit(home, s, first, second[..|second| - 1]);
    }
  }

  lemma TwoSteps(home: Home, s: State, a: Action, b: Action)
    requires s.table.Valid()
    ensures Step(home, s, a).table.Valid()
    ensures Steps(home, s, [a, b]) == Step(home, Step(home, s, a), b)
  {
    StepValid(home, s, a);
    assert Steps(home, s, [a]) == Step(home, s, a) by {
      assert [a][..0] == [];
    }
    assert [a, b][..1] == [a];
  }

  /** The only request is handled. */
  lemma RequestArrives(home: Home, s: State, c: ConnId, r: Request, after: ProcMap, emitted: seq<Noti>,
      rsp: Option<Msg>,
                       l: Link)
    requires s.table.Valid() && c in s.links && l == s.links[c]
    requires l.agentEnd && l.intact && l.toServer == [] && l.notis == [] && l.toAgent == [r]
    requires Handles(l.procs, r, after, emitted, rsp)
    ensures Step(home, s, Handle(c, after, emitted, rsp))
         == s.(links := s.links[c := l.(procs := after, notis := emitted, toAgent := [], toServer := Opt(rsp))])
  {
    assert [r][1..] == [] && [] + emitted == emitted && [] + Opt(rsp) == Opt(rsp);
  }

  /** A request that the agent handles, from a ready connection. */
  lemma RequestHandled(home: Home, s: State, c: ConnId, r: Request, after: ProcMap, emitted: seq<Noti>,
      rsp: Option<Msg>)
    requires s.table.Valid() && Ready(s, c) && Sendable(home, c, r)
    requires Handles(s.links[c].procs, r, after, emitted, rsp)
    ensures Steps(home, s, [Send(c, r), Handle(c, after, emitted, rsp)])
         == s.(links := s.links[c := s.links[c].(procs := after, notis := emitted, toServer := Opt(rsp))])
  {
    var l := s.links[c];
    var sent := s.(links := s.links[c := l.(toAgent := [r])]);
    TwoSteps(home, s, Send(c, r), Handle(c, after, emitted, rsp));
    assert Step(home, s, Send(c, r)) == sent by { assert [] + [r] == [r]; }
    RequestArrives(home, sent, c, r, after, emitted, rsp, sent.links[c]);
    SameLinks(s, c, sent.links[c], l.(procs := after, notis := emitted, toServer := Opt(rsp)));
  }

  lemma CanStart(procs: ProcMap, p: ProcId)
    requires p !in procs
    ensures Handles(procs, StartRequest([p]), procs[p := true], [Start(p)], None)
  {
    assert [p][..1] == [p] && Starts([p]) == [Start(p)];
    assert procs[p := true].Keys == procs.Keys + (set q | q in [p]);
  }

  /** A start request that the agent carries out, from a ready connection. */
  lemma StartHandled(home: Home, s: State, c: ConnId, p: ProcId)
    requires s.table.Valid() && Ready(s, c) && home(p) == c && p !in s.table.tracked && p !in s.links[c].procs
    ensures var after := s.links[c].procs[p := true];
            Steps(home, s, [RequestStart(c, p), Handle(c, after, [Start(p)], None)]) ==
            State(Create(s.table, c, p, Created), s.links[c := s.links[c].(procs := after, notis := [Start(p)])])
  {
    var l, r := s.links[c], StartRequest([p]);
    var after := l.procs[p := true];
    var sent := State(Create(s.table, c, p, Created), s.links[c := l.(toAgent := [r])]);
    TwoSteps(home, s, RequestStart(c, p), Handle(c, after, [Start(p)], None));
    assert Step(home, s, RequestStart(c, p)) == sent by { assert [] + [r] == [r]; }
    CanStart(l.procs, p);
    RequestArrives(home, sent, c, r, after, [Start(p)], None, sent.links[c]);
    SameLinks(s, c, sent.links[c], l.(procs := after, notis := [Start(p)]));
  }

  /** The only notification is sent. */
  lemma NotificationSent(home: Home, s: State, c: ConnId, m: Msg, l: Link)
    requires s.table.Valid() && c in s.links && l == s.links[c]
    requires l.agentEnd && l.intact && l.toServer == [] && |l.notis| == 1
    requires !l.notis[0].Shutdown? && Becomes(l.procs, l.notis[0], Some(m))
    ensures Step(home, s, Drain(c, Some(m))) == s.(links := s.links[c := l.(notis := [], toServer := [m])])
  {
    assert [] + [m] == [m] && l.notis[1..] == [];
  }

  /** The only message arrives. */
  lemma MessageArrives(home: Home, s: State, c: ConnId, m: Msg, l: Link)
    requires s.table.Valid() && c in s.links && l == s.links[c] && l.serverEnd && l.toServer == [m]
    ensures Step(home, s, Consume(c, 0))
         == match OnMessage(s.table, c, m)
            case Some(t) => State(t, s.links[c := l.(toServer := [])])
            case None => s.(links := s.links[c := ServerClosed(l.(toServer := []), 0)])
  {
    assert [m][1..] == [];
  }

  lemma SameLinks(s: State, c: ConnId, x: Link, y: Link)
    ensures s.links[c := x][c := y] == s.links[c := y]
  {
  }

  lemma NotificationArrives(home: Home, s: State, c: ConnId, m: Msg, l: Link)
    requires s.table.Valid() && c in s.links && l == s.links[c]
    requires l.agentEnd && Up(l) && l.toServer == [] && |l.notis| == 1
    requires !l.notis[0].Shutdown? && Becomes(l.procs, l.notis[0], Some(m))
    ensures Steps(home, s, [Drain(c, Some(m)), Consume(c, 0)])
         == match OnMessage(s.table, c, m)
            case Some(t) => State(t, s.links[c := l.(notis := [])])
            case None => s.(links := s.links[c := ServerClosed(l.(notis := []), 0)])
  {
    TwoSteps(home, s, Drain(c, Some(m)), Consume(c, 0));
    NotificationSent(home, s, c, m, l);
    var sent := s.(links := s.links[c := l.(notis := [], toServer := [m])]);
    MessageArrives(home, sent, c, m, sent.links[c]);
    SameLinks(s, c, sent.links[c], l.(notis := []));
    SameLinks(s, c, sent.links[c], ServerClosed(l.(notis := []), 0));
  }

  lemma ReadyTracked(home: Home, s: State, c: ConnId, p: ProcId)
    requires Inv(home, s) && Ready(s, c) && p in s.links[c].procs
    ensures p in s.table.tracked
  {
    assert Agree(s.table, s.links[c], p);
  }

  /** A start request that succeeds, for an id that the server does not track: the object it
      makes is tracked, has received one result, and the agent runs the proc. */
  lemma StartRoundTrip(home: Home, s: State, c: ConnId, p: ProcId, res: string)
    requires Inv(home, s) && Ready(s, c) && home(p) == c && p !in s.table.tracked
    ensures var after, m := s.links[c].procs[p := true], ProcResult(p, res);
            Steps(home, s, [RequestStart(c, p), Handle(c, after, [Start(p)], None)]
                           + [Drain(c, Some(m)), Consume(c, 0)]) ==
            State(Table(s.table.tracked[p := |s.table.objs|], s.table.objs + [Obj(p, c, Created, [m])]),
                  s.links[c := s.links[c].(procs := after)])
  {
    if p in s.links[c].procs { ReadyTracked(home, s, c, p); }
    StartRoundTripFrom(home, s, c, p, res, s.links[c]);
  }

  lemma CreatedThenPosted(t: Table, c: ConnId, p: ProcId, m: Msg)
    requires t.Valid() && p !in t.tracked
    ensures Post(Create(t, c, p, Created), p, m).objs == t.objs + [Obj(p, c, Created, [m])]
  {
    assert [] + [m] == [m];
  }

  lemma StartRoundTripFrom(home: Home, s: State, c: ConnId, p: ProcId, res: string, l: Link)
    requires s.table.Valid() && Ready(s, c) && home(p) == c && p !in s.table.tracked && l == s.links[c] && p !in l.procs
    ensures var after, m := l.procs[p := true], ProcResult(p, res);
            Steps(home, s, [RequestStart(c, p), Handle(c, after, [Start(p)], None)]
                           + [Drain(c, Some(m)), Consume(c, 0)]) ==
            State(Table(s.table.tracked[p := |s.table.objs|], s.table.objs + [Obj(p, c, Created, [m])]),
                  s.links[c := l.(procs := after)])
  {
    var after, m, t := l.procs[p := true], ProcResult(p, res), Create(s.table, c, p, Created);
    var first, second := [RequestStart(c, p), Handle(c, after, [Start(p)], None)], [Drain(c, Some(m)), Consume(c, 0)];
    var started := State(t, s.links[c := l.(procs := after, notis := [Start(p)])]);
    var reported := Table(t.tracked, s.table.objs + [Obj(p, c, Created, [m])]);
    CreatedThenPosted(s.table, c, p, m);
    assert Steps(home, s, first) == started by { StartHandled(home, s, c, p); }
    assert Steps(home, started, second) == State(reported, s.links[c := l.(procs := after)]) by {
      NotificationArrives(home, started, c, m, started.links[c]);
      SameLinks(s, c, started.links[c], l.(procs := after));
    }
    StepsSplit(home, s, first, second);
  }

  /** A delete request for a proc that is not running: its object receives `ProcDelete`, and
      both sides forget the proc. */
  lemma DeleteRoundTrip(home: Home, s: State, c: ConnId, p: ProcId)
    requires Inv(home, s) && Ready(s, c) && home(p) == c
    requires p in s.links[c].procs && !s.links[c].procs[p]
    ensures p in s.table.tracked
    ensures var after, k := s.links[c].procs - {p}, s.table.tracked[p];
            Steps(home, s, [Send(c, DeleteRequest(p)), Handle(c, after, [Delete(p)], None)]
                           + [Drain(c, Some(ProcDelete(p))), Consume(c, 0)]) ==
            State(Table(s.table.tracked - {p}, s.table.objs[k := Append(s.table.objs[k], ProcDelete(p))]),
                  s.links[c := s.links[c].(procs := after)])
  {
    ReadyTracked(home, s, c, p);
    DeleteRoundTripFrom(home, s, c, p, s.links[c]);
  }

  lemma DeleteRoundTripFrom(home: Home, s: State, c: ConnId, p: ProcId, l: Link)
    requires s.table.Valid() && Ready(s, c) && home(p) == c && l == s.links[c]
    requires p in l.procs && !l.procs[p] && p in s.table.tracked
    ensures var after, k := l.procs - {p}, s.table.tracked[p];
            Steps(home, s, [Send(c, DeleteRequest(p)), Handle(c, after, [Delete(p)], None)]
                           + [Drain(c, Some(ProcDelete(p))), Consume(c, 0)]) ==
            State(Table(s.table.tracked - {p}, s.table.objs[k := Append(s.table.objs[k], ProcDelete(p))]),
                  s.links[c := l.(procs := after)])
  {
    var after := l.procs - {p};
    var deleted := s.(links := s.links[c := l.(procs := after, notis := [Delete(p)])]);
    RequestHandled(home, s, c, DeleteRequest(p), after, [Delete(p)], None);
    DeletionArrives(home, s, c, p, l, deleted);
    StepsSplit(home, s, [Send(c, DeleteRequest(p)), Handle(c, after, [Delete(p)], None)],
               [Drain(c, Some(ProcDelete(p))), Consume(c, 0)]);
  }

  lemma DeletionArrives(home: Home, s: State, c: ConnId, p: ProcId, l: Link, deleted: State)
    requires s.table.Valid() && Ready(s, c) && home(p) == c && l == s.links[c]
    requires p in l.procs && !l.procs[p] && p in s.table.tracked
    requires deleted == s.(links := s.links[c := l.(procs := l.procs - {p}, notis := [Delete(p)])])
    ensures var k := s.table.tracked[p];
            Steps(home, deleted, [Drain(c, Some(ProcDelete(p))), Consume(c, 0)])
            == State(Table(s.table.tracked - {p}, s.table.objs[k := Append(s.table.objs[k], ProcDelete(p))]),
                     s.links[c := l.(procs := l.procs - {p})])
  {
    NotificationArrives(home, deleted, c, ProcDelete(p), deleted.links[c]);
    SameLinks(s, c, deleted.links[c], l.(procs := l.procs - {p}));
  }

  /** If the server has asked about a proc before it hears that the agent deleted it, the answer
      overtakes the notification, and the late `ProcDelete` makes the server drop the
      connection. */
  lemma OvertakenDeleteDropsConnection(home: Home, s: State, c: ConnId, p: ProcId, l: Link)
    requires s.table.Valid() && c in s.links && l == s.links[c] && p in s.table.tracked
    requires Up(l) && l.agentEnd && l.notis == [Delete(p)] && l.toServer == [ProcUnknown(p)]
    ensures var r := Steps(home, s, [Consume(c, 0)] + [Drain(c, Some(ProcDelete(p))), Consume(c, 0)]);
            p !in r.table.tracked && c in r.links && !r.links[c].serverEnd
  {
    var t := OnMessage(s.table, c, ProcUnknown(p)).value;
    var answered := State(t, s.links[c := l.(toServer := [])]);
    assert t.Valid() && p !in t.tracked by { OnMessageRouted(s.table, c, ProcUnknown(p)); }
    assert Steps(home, s, [Consume(c, 0)]) == answered by {
      MessageArrives(home, s, c, ProcUnknown(p), l);
      assert [Consume(c, 0)][..0] == [];
    }
    StepsSplit(home, s, [Consume(c, 0)], [Drain(c, Some(ProcDelete(p))), Consume(c, 0)]);
    RemovedAgain(home, answered, c, p, answered.links[c]);
  }

  /** A deletion that is told when the server does not track the proc. */
  lemma RemovedAgain(home: Home, s: State, c: ConnId, p: ProcId, l: Link)
    requires s.table.Valid() && c in s.links && l == s.links[c] && p !in s.table.tracked
    requires Up(l) && l.agentEnd && l.notis == [Delete(p)] && l.toServer == []
    ensures var r := Steps(home, s, [Drain(c, Some(ProcDelete(p))), Consume(c, 0)]);
            p !in r.table.tracked && c in r.links && !r.links[c].serverEnd
  {
    NotificationArrives(home, s, c, ProcDelete(p), l);
  }
}
