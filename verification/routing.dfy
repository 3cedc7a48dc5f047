/** The server's process table and the routing of messages to per-process queues
    (python/procstar/agent/proc.py).

    `Table` specifies the mutable table of module `Proc`: object identities are indices into
    `objs`, in creation order. */
module Routing {
  import opened Proto

  /** How an entry came to be: through `create`, called for a start request or at
      registration, or while handling a message that mentions an unknown id. */
  datatype Origin = Created | Reported(first: Msg)

  /** A `Process` object; `msgs` is everything put on its queue so far. */
  datatype Obj = Obj(procId: ProcId, connId: ConnId, origin: Origin, msgs: seq<Msg>)

  datatype Table = Table(tracked: map<ProcId, nat>, objs: seq<Obj>) {
    ghost predicate Valid() {
      forall p :: p in tracked ==> tracked[p] < |objs| && objs[tracked[p]].procId == p
    }

    /** Object `i` is the one its id currently maps to. */
    predicate Live(i: nat)
      requires i < |objs|
    {
      objs[i].procId in tracked && tracked[objs[i].procId] == i
    }
  }

  const EMPTY := Table(map[], [])

  function Create(t: Table, c: ConnId, p: ProcId, o: Origin): Table {
    Table(t.tracked[p := |t.objs|], t.objs + [Obj(p, c, o, [])])
  }

  function Append(o: Obj, m: Msg): Obj {
    o.(msgs := o.msgs + [m])
  }

  function Lookup(t: Table, c: ConnId, p: ProcId, m: Msg): Table {
    if p in t.tracked then t else Create(t, c, p, Reported(m))
  }

  function Post(t: Table, p: ProcId, m: Msg): Table
    requires t.Valid() && p in t.tracked
  {
    t.(objs := t.objs[t.tracked[p] := Append(t.objs[t.tracked[p]], m)])
  }

  /** Looks up or creates the object for `p`, and queues `m` for it if `post`. */
  function Visit(t: Table, c: ConnId, p: ProcId, m: Msg, post: bool): (r: Table)
    requires t.Valid()
    ensures r.Valid()
  {
    var found := Lookup(t, c, p, m);
    if post then Post(found, p, m) else found
  }

  function VisitAll(t: Table, c: ConnId, ids: seq<ProcId>, m: Msg, post: bool): (r: Table)
    requires t.Valid()
    ensures r.Valid()
  {
    if ids == [] then t
    else Visit(VisitAll(t, c, ids[..|ids| - 1], m, post), c, ids[|ids| - 1], m, post)
  }

  /** Queues `m` on the live objects of connection `c` whose ids are in `ids`. */
  function BroadcastTo(t: Table, ids: set<ProcId>, c: ConnId, m: Msg): Table {
    t.(objs := seq(|t.objs|, i requires 0 <= i < |t.objs| =>
                     if t.Live(i) && t.objs[i].procId in ids && t.objs[i].connId == c
                     then Append(t.objs[i], m) else t.objs[i]))
  }

  function Broadcast(t: Table, c: ConnId, m: Msg): Table {
    BroadcastTo(t, t.tracked.Keys, c, m)
  }

  lemma BroadcastNone(t: Table, c: ConnId, m: Msg)
    ensures BroadcastTo(t, {}, c, m) == t
  {
    assert BroadcastTo(t, {}, c, m).objs == t.objs;
  }

  lemma BroadcastStep(t: Table, ids: set<ProcId>, p: ProcId, c: ConnId, m: Msg)
    requires t.Valid() && p in t.tracked && p !in ids
    ensures var b := BroadcastTo(t, ids, c, m);
            && b.Valid() && b.objs[b.tracked[p]] == t.objs[t.tracked[p]]
            && BroadcastTo(t, ids + {p}, c, m)
               == if t.objs[t.tracked[p]].connId == c then Post(b, p, m) else b
  {
    var b, b' := BroadcastTo(t, ids, c, m), BroadcastTo(t, ids + {p}, c, m);
    var k := t.tracked[p];
    forall i | 0 <= i < |t.objs| && i != k ensures b'.objs[i] == b.objs[i] {
      if t.Live(i) && t.objs[i].procId == p { assert false; }
    }
    assert b'.objs == if t.objs[k].connId == c then b.objs[k := Append(t.objs[k], m)] else b.objs;
  }

  /** `Processes.on_message`; `None` is the `KeyError` of popping an unknown id, which leaves
      the table as it was. */
  function OnMessage(t: Table, c: ConnId, m: Msg): (r: Option<Table>)
    requires t.Valid()
  {
    match m
    case ProcidList(ids) => Some(VisitAll(t, c, ids, m, false))
    case ProcResult(p, _) => Some(Visit(t, c, p, m, true))
    case ProcFdData(p, _) => Some(Visit(t, c, p, m, true))
    case ProcDelete(p) =>
      if p in t.tracked then Some(Table(t.tracked - {p}, Post(t, p, m).objs)) else None
    case ProcUnknown(p) =>
      if p in t.tracked then Some(Table(t.tracked - {p}, Post(t, p, m).objs)) else None
    case RequestError(request, _) =>
      (match request
       case StartRequest(ids) => Some(VisitAll(t, c, ids, m, true))
       case Registered => Some(t)
       case ListRequest => Some(t)
       case ResultRequest(p) => Some(Visit(t, c, p, m, true))
       case SignalRequest(p, _) => Some(Visit(t, c, p, m, true))
       case FdDataRequest(p, _, _, _) => Some(Visit(t, c, p, m, true))
       case DeleteRequest(p) => Some(Visit(t, c, p, m, true)))
    case ConnectionTimeout => Some(Broadcast(t, c, m))
    case ShutDown(_) => Some(t)
  }

  //----------------------------------------------------------------------------
  // What one message does, object by object

  /** Message `m` on connection `c` is queued for object `i`. */
  predicate Reaches(t: Table, c: ConnId, m: Msg, i: nat)
    requires i < |t.objs|
  {
    t.Live(i) && (Names(m, t.objs[i].procId) || (m.ConnectionTimeout? && t.objs[i].connId == c))
  }

  /** The declarative reading of `OnMessage`: existing objects gain `m` exactly when it reaches
      them; every mentioned unknown id gets one new object, holding `m` if `m` names it; a
      removal untracks its id; nothing else changes. */
  ghost predicate Routed(t: Table, c: ConnId, m: Msg, r: Table) {
    && |t.objs| <= |r.objs|
    && (forall i :: 0 <= i < |t.objs| ==>
          r.objs[i] == if Reaches(t, c, m, i) then Append(t.objs[i], m) else t.objs[i])
    && (forall i :: |t.objs| <= i < |r.objs| ==>
          && r.objs[i] == Obj(r.objs[i].procId, c, Reported(m), if Names(m, r.objs[i].procId) then [m] else [])
          && Mentions(m, r.objs[i].procId) && r.objs[i].procId !in t.tracked && r.Live(i))
    && (forall p :: p in r.tracked <==> (p in t.tracked || Mentions(m, p)) && !Removes(m, p))
    && (forall p :: p in r.tracked ==>
          if p in t.tracked then r.tracked[p] == t.tracked[p] else |t.objs| <= r.tracked[p])
  }

  /** What visiting `ids` does, as `Routed` does for a whole message. */
  ghost predicate Visited(t: Table, c: ConnId, ids: seq<ProcId>, m: Msg, post: bool, r: Table) {
    && |t.objs| <= |r.objs|
    && (forall i :: 0 <= i < |t.objs| ==>
          r.objs[i] == if post && t.Live(i) && t.objs[i].procId in ids then Append(t.objs[i], m) else t.objs[i])
    && (forall i :: |t.objs| <= i < |r.objs| ==>
          && r.objs[i] == Obj(r.objs[i].procId, c, Reported(m), if post then [m] else [])
          && r.objs[i].procId in ids && r.objs[i].procId !in t.tracked && r.Live(i))
    && r.tracked.Keys == t.tracked.Keys + (set p | p in ids)
    && (forall p :: p in r.tracked ==>
          if p in t.tracked then r.tracked[p] == t.tracked[p] else |t.objs| <= r.tracked[p])
  }

  /** One more id, not visited before if the message is to be queued. */
  lemma VisitedStep(t: Table, c: ConnId, ids: seq<ProcId>, p: ProcId, m: Msg, post: bool, r: Table)
    requires t.Valid() && r.Valid() && Visited(t, c, ids, m, post, r)
    requires post ==> p !in ids
    ensures Visited(t, c, ids + [p], m, post, Visit(r, c, p, m, post))
  {
    var v := Visit(r, c, p, m, post);
    forall i | 0 <= i < |t.objs|
      ensures v.objs[i] ==
              if post && t.Live(i) && t.objs[i].procId in ids + [p] then Append(t.objs[i], m) else t.objs[i]
    {
      VisitedStepOld(t, c, ids, p, m, post, r, i);
    }
    forall i | |t.objs| <= i < |v.objs|
      ensures v.objs[i] == Obj(v.objs[i].procId, c, Reported(m), if post then [m] else [])
      ensures v.objs[i].procId in ids + [p] && v.objs[i].procId !in t.tracked && v.Live(i)
    {
      VisitedStepNew(t, c, ids, p, m, post, r, i);
    }
    VisitedStepTracked(t, c, ids, p, m, post, r);
  }

  lemma VisitedStepTracked(t: Table, c: ConnId, ids: seq<ProcId>, p: ProcId, m: Msg, post: bool, r: Table)
    requires r.Valid() && |t.objs| <= |r.objs|
    requires r.tracked.Keys == t.tracked.Keys + (set q | q in ids)
    requires forall q :: q in r.tracked ==>
               if q in t.tracked then r.tracked[q] == t.tracked[q] else |t.objs| <= r.tracked[q]
    ensures var v := Visit(r, c, p, m, post);
            && |r.objs| <= |v.objs|
            && v.tracked.Keys == t.tracked.Keys + (set q | q in ids + [p])
            && (forall q :: q in v.tracked ==>
                  if q in t.tracked then v.tracked[q] == t.tracked[q] else |t.objs| <= v.tracked[q])
  {
    var v := Visit(r, c, p, m, post);
    assert v.tracked == if p in r.tracked then r.tracked else r.tracked[p := |r.objs|];
    assert v.tracked.Keys == r.tracked.Keys + {p};
    assert (set q | q in ids + [p]) == (set q | q in ids) + {p};
  }

  lemma VisitedStepOld(t: Table, c: ConnId, ids: seq<ProcId>, p: ProcId, m: Msg, post: bool, r: Table, i: nat)
    requires t.Valid() && r.Valid() && Visited(t, c, ids, m, post, r)
    requires post ==> p !in ids
    requires i < |t.objs|
    ensures var v := Visit(r, c, p, m, post);
            && i < |v.objs|
            && v.objs[i] ==
               if post && t.Live(i) && t.objs[i].procId in ids + [p] then Append(t.objs[i], m) else t.objs[i]
  {
    var v := Visit(r, c, p, m, post);
    if p in r.tracked {
      if r.tracked[p] == i {
        assert t.objs[i].procId == p;
        assert t.Live(i);
      }
    } else {
      assert v.objs[i] == r.objs[i];
    }
  }

  lemma VisitedStepNew(t: Table, c: ConnId, ids: seq<ProcId>, p: ProcId, m: Msg, post: bool, r: Table, i: nat)
    requires t.Valid() && r.Valid() && Visited(t, c, ids, m, post, r)
    requires post ==> p !in ids
    requires |t.objs| <= i < |Visit(r, c, p, m, post).objs|
    ensures var v := Visit(r, c, p, m, post);
            && v.objs[i] == Obj(v.objs[i].procId, c, Reported(m), if post then [m] else [])
            && v.objs[i].procId in ids + [p] && v.objs[i].procId !in t.tracked && v.Live(i)
  {
    var v := Visit(r, c, p, m, post);
    if i < |r.objs| {
      assert r.Live(i) && r.objs[i].procId in ids;
      assert v.objs[i] == r.objs[i];
    } else {
      assert p !in r.tracked && v.objs[i].procId == p;
    }
  }

  lemma {:induction false} VisitAllVisited(t: Table, c: ConnId, ids: seq<ProcId>, m: Msg, post: bool)
    requires t.Valid()
    requires post ==> forall i, j :: 0 <= i < j < |ids| ==> ids[i] != ids[j]
    ensures Visited(t, c, ids, m, post, VisitAll(t, c, ids, m, post))
  {
    if ids == [] {
    } else {
      var front, p := ids[..|ids| - 1], ids[|ids| - 1];
      assert ids == front + [p];
      VisitAllVisited(t, c, front, m, post);
      VisitedStep(t, c, front, p, m, post, VisitAll(t, c, front, m, post));
    }
  }

  /** Visiting the ids a message mentions routes it, if the objects visited are those it names. */
  lemma VisitedRouted(t: Table, c: ConnId, ids: seq<ProcId>, m: Msg, post: bool, r: Table)
    requires t.Valid() && r.Valid() && Visited(t, c, ids, m, post, r) && !m.ConnectionTimeout?
    requires forall p :: p in ids <==> Mentions(m, p)
    requires forall p :: Names(m, p) <==> post && p in ids
    requires forall p :: !Removes(m, p)
    ensures Routed(t, c, m, r)
  {
    forall p ensures p in r.tracked <==> (p in t.tracked || Mentions(m, p)) && !Removes(m, p) {}
  }

  lemma VisitRouted(t: Table, c: ConnId, p: ProcId, m: Msg)
    requires t.Valid() && !m.ConnectionTimeout? && !m.ProcidList?
    requires forall q :: Names(m, q) <==> q == p
    requires forall q :: !Removes(m, q)
    ensures Routed(t, c, m, Visit(t, c, p, m, true))
  {
    VisitedStep(t, c, [], p, m, true, t);
    assert [] + [p] == [p];
    VisitedRouted(t, c, [p], m, true, Visit(t, c, p, m, true));
  }

  lemma RemovalRouted(t: Table, c: ConnId, p: ProcId, m: Msg)
    requires t.Valid() && p in t.tracked && Removes(m, p)
    ensures var r := Table(t.tracked - {p}, Post(t, p, m).objs); r.Valid() && Routed(t, c, m, r)
  {
  }

  /** `OnMessage` does exactly what `Routed` says, and fails exactly on the removal of an id
      that is not tracked. */
  lemma OnMessageRouted(t: Table, c: ConnId, m: Msg)
    requires t.Valid()
    ensures OnMessage(t, c, m).None? <==> exists p :: Removes(m, p) && p !in t.tracked
    ensures var r := OnMessage(t, c, m); r.Some? ==> r.value.Valid() && Routed(t, c, m, r.value)
  {
    match m
    case ProcDelete(p) =>
      assert Removes(m, p);
      if p in t.tracked { RemovalRouted(t, c, p, m); }
    case ProcUnknown(p) =>
      assert Removes(m, p);
      if p in t.tracked { RemovalRouted(t, c, p, m); }
    case ProcidList(ids) =>
      VisitAllVisited(t, c, ids, m, false);
      VisitedRouted(t, c, ids, m, false, VisitAll(t, c, ids, m, false));
    case ProcResult(p, _) => VisitRouted(t, c, p, m);
    case ProcFdData(p, _) => VisitRouted(t, c, p, m);
    case RequestError(request, _) =>
      match request {
        case StartRequest(ids) =>
          VisitAllVisited(t, c, ids, m, true);
          VisitedRouted(t, c, ids, m, true, VisitAll(t, c, ids, m, true));
        case ResultRequest(p) => VisitRouted(t, c, p, m);
        case SignalRequest(p, _) => VisitRouted(t, c, p, m);
        case FdDataRequest(p, _, _, _) => VisitRouted(t, c, p, m);
        case DeleteRequest(p) => VisitRouted(t, c, p, m);
        case Registered =>
        case ListRequest =>
      }
    case ConnectionTimeout =>
    case ShutDown(_) =>
  }

  /** After `m`, proc `p` is tracked, and `m` is the last message of its object, which is the one before if
      there was one, and otherwise a new one of connection `c`. */
  predicate Queued(t: Table, c: ConnId, p: ProcId, m: Msg, r: Table)
    requires t.Valid()
  {
    && p in r.tracked && r.tracked[p] < |r.objs|
    && (p in t.tracked ==> r.tracked[p] == t.tracked[p])
    && r.objs[r.tracked[p]].msgs == (if p in t.tracked then t.objs[t.tracked[p]].msgs else []) + [m]
    && (p !in t.tracked ==> r.objs[r.tracked[p]] == Obj(p, c, Reported(m), [m]))
  }

  /** A result or data of a proc, and an error of a request about it, is queued for it. */
  lemma MessageQueued(t: Table, c: ConnId, m: Msg, p: ProcId)
    requires t.Valid()
    requires match m
             case ProcResult(q, _) => q == p
             case ProcFdData(q, _) => q == p
             case RequestError(StartRequest(ids), _) => p in ids
             case RequestError(ResultRequest(q), _) => q == p
             case RequestError(SignalRequest(q, _), _) => q == p
             case RequestError(FdDataRequest(q, _, _, _), _) => q == p
             case RequestError(DeleteRequest(q), _) => q == p
             case _ => false
    ensures OnMessage(t, c, m).Some? && Queued(t, c, p, m, OnMessage(t, c, m).value)
  {
    OnMessageRouted(t, c, m);
    assert Names(m, p) && Mentions(m, p) && !Removes(m, p);
    if p in t.tracked {
      assert t.Live(t.tracked[p]);
    }
  }

  /** A removal is told to the proc, which is not tracked afterwards; it fails if it is not tracked before. */
  lemma MessageRemoves(t: Table, c: ConnId, m: Msg, p: ProcId)
    requires t.Valid() && (m == ProcDelete(p) || m == ProcUnknown(p))
    ensures OnMessage(t, c, m).Some? <==> p in t.tracked
    ensures p in t.tracked ==>
              var r := OnMessage(t, c, m).value;
              && r.tracked == t.tracked - {p} && |r.objs| == |t.objs|
              && r.objs[t.tracked[p]].msgs == t.objs[t.tracked[p]].msgs + [m]
  {
  }

  /** A list makes the procs in it tracked, and queues nothing. */
  lemma MessageLists(t: Table, c: ConnId, ids: seq<ProcId>)
    requires t.Valid()
    ensures OnMessage(t, c, ProcidList(ids)).Some?
    ensures var r := OnMessage(t, c, ProcidList(ids)).value;
            && |t.objs| <= |r.objs| && r.tracked.Keys == t.tracked.Keys + (set p | p in ids)
            && (forall i :: 0 <= i < |t.objs| ==> r.objs[i] == t.objs[i])
            && (forall i :: |t.objs| <= i < |r.objs| ==> r.objs[i].msgs == [] && r.objs[i].connId == c)
  {
    OnMessageRouted(t, c, ProcidList(ids));
  }

  /** A timeout is told to every tracked proc of the connection, and to no other. */
  lemma MessageTimesOut(t: Table, c: ConnId)
    requires t.Valid()
    ensures OnMessage(t, c, ConnectionTimeout).Some?
    ensures var r := OnMessage(t, c, ConnectionTimeout).value;
            && r.tracked == t.tracked && |r.objs| == |t.objs|
            && forall p :: p in t.tracked ==>
                 var o := t.objs[t.tracked[p]];
                 r.objs[t.tracked[p]].msgs == if o.connId == c then o.msgs + [ConnectionTimeout] else o.msgs
  {
    forall p | p in t.tracked ensures t.Live(t.tracked[p]) {}
  }

  /** Other messages are for no proc. */
  lemma MessageIgnored(t: Table, c: ConnId, m: Msg)
    requires t.Valid()
    requires m.ShutDown? || (m.RequestError? && (m.request.Registered? || m.request.ListRequest?))
    ensures OnMessage(t, c, m) == Some(t)
  {
  }

  /** Object `i` is live, belongs to connection `c`, and its id is not in `ids`. */
  predicate Missing(t: Table, c: ConnId, ids: set<ProcId>, i: nat)
    requires i < |t.objs|
  {
    t.Live(i) && t.objs[i].connId == c && t.objs[i].procId !in ids
  }

  /** The registration of an agent that has procs `ids`: exactly these are tracked for `c`
      afterwards.  The ones it does not have are told so and forgotten; each one the server did
      not track gets a new object; nothing else changes.  No id may be tracked for another
      connection, as `create` asserts. */
  ghost predicate Reconciled(t: Table, c: ConnId, ids: set<ProcId>, r: Table)
    requires t.Valid()
  {
    && (forall p :: p in ids && p in t.tracked ==> t.objs[t.tracked[p]].connId == c)
    && |t.objs| <= |r.objs| && r.Valid()
    && (forall i :: 0 <= i < |t.objs| ==>
          r.objs[i] == if Missing(t, c, ids, i) then Append(t.objs[i], ProcUnknown(t.objs[i].procId)) else t.objs[i])
    && (forall i :: |t.objs| <= i < |r.objs| ==>
          r.objs[i] == Obj(r.objs[i].procId, c, Created, []) && r.objs[i].procId in ids && r.Live(i))
    && (forall p :: p in r.tracked <==> p in ids || (p in t.tracked && t.objs[t.tracked[p]].connId != c))
    && (forall p :: p in r.tracked ==>
          if p in t.tracked then r.tracked[p] == t.tracked[p] else |t.objs| <= r.tracked[p])
  }

  //----------------------------------------------------------------------------
  // Routing over whole runs

  datatype Event = Make(connId: ConnId, procId: ProcId) | Receive(connId: ConnId, msg: Msg)

  /** One call of `create` or `on_message`; a failing call leaves the table alone. */
  function Exec(t: Table, e: Event): (r: Table)
    requires t.Valid()
    ensures r.Valid()
  {
    match e
    case Make(c, p) => if p in t.tracked then t else Create(t, c, p, Created)
    case Receive(c, m) =>
      OnMessageRouted(t, c, m);
      (match OnMessage(t, c, m) case Some(r) => r case None => t)
  }

  function Run(es: seq<Event>): (t: Table)
    ensures t.Valid()
  {
    if es == [] then EMPTY else Exec(Run(es[..|es| - 1]), es[|es| - 1])
  }

  predicate Addressed(e: Event, p: ProcId, c: ConnId) {
    e.Receive? && (Names(e.msg, p) || (e.msg.ConnectionTimeout? && e.connId == c))
  }

  /** The messages of a log that are for proc `p` of connection `c`, in order. */
  function Project(es: seq<Event>, p: ProcId, c: ConnId): seq<Msg> {
    if es == [] then []
    else
      var front, e := es[..|es| - 1], es[|es| - 1];
      Project(front, p, c) + (if Addressed(e, p, c) then [e.msg] else [])
  }

  /** One event's effect on an existing object. */
  lemma ExecOld(t: Table, e: Event, i: nat)
    requires t.Valid() && i < |t.objs|
    ensures var r := Exec(t, e);
            && i < |r.objs| && r.objs[i].procId == t.objs[i].procId && r.objs[i].connId == t.objs[i].connId
            && r.objs[i].origin == t.objs[i].origin
            && (if t.Live(i) && Addressed(e, t.objs[i].procId, t.objs[i].connId)
                then r.objs[i].msgs == t.objs[i].msgs + [e.msg] else r.objs[i] == t.objs[i])
            && (r.Live(i) <==> t.Live(i) && !(e.Receive? && Removes(e.msg, t.objs[i].procId)))
  {
    if e.Receive? {
      OnMessageRouted(t, e.connId, e.msg);
    }
  }

  /** An event's effect on an object it creates. */
  lemma ExecNew(t: Table, e: Event, i: nat)
    requires t.Valid() && |t.objs| <= i < |Exec(t, e).objs|
    ensures var r := Exec(t, e);
            && r.Live(i)
            && r.objs[i].msgs == if Addressed(e, r.objs[i].procId, r.objs[i].connId) then [e.msg] else []
  {
    if e.Receive? {
      OnMessageRouted(t, e.connId, e.msg);
    }
  }

  lemma ProjectLast(es: seq<Event>, made: nat, p: ProcId, c: ConnId)
    requires made < |es|
    ensures var e := es[|es| - 1];
            Project(es[made..], p, c)
            == Project(es[made..|es| - 1], p, c) + (if Addressed(e, p, c) then [e.msg] else [])
  {
    assert es[made..][..|es[made..]| - 1] == es[made..|es| - 1];
  }

  /** Object `i` was made by event `made`, and its queue is what the log says it should be,
      counting up to `end`: now, if the object is tracked, or else the removal of its id. */
  ghost predicate Follows(es: seq<Event>, i: nat, made: nat, end: nat) {
    && i < |Run(es).objs|
    && made < end <= |es|
    && |Run(es[..made]).objs| <= i < |Run(es[..made + 1]).objs|
    && (var o := Run(es).objs[i];
        && o.msgs == Project(es[made..end], o.procId, o.connId)
        && (if Run(es).Live(i) then end == |es|
            else es[end - 1].Receive? && Removes(es[end - 1].msg, o.procId)))
  }

  lemma FollowsOld(es: seq<Event>, i: nat, made: nat, end: nat) returns (end': nat)
    requires es != [] && Follows(es[..|es| - 1], i, made, end)
    ensures Follows(es, i, made, end')
  {
    var n := |es| - 1;
    var before, e := Run(es[..n]), es[n];
    ExecOld(before, e, i);
    PrefixOfPrefix(es, n, made, end);
    if before.Live(i) {
      ProjectLast(es, made, before.objs[i].procId, before.objs[i].connId);
      end' := |es|;
      assert es[made..end'] == es[made..];
    } else {
      end' := end;
    }
  }

  lemma FollowsNew(es: seq<Event>, i: nat)
    requires es != [] && |Run(es[..|es| - 1]).objs| <= i < |Run(es).objs|
    ensures Follows(es, i, |es| - 1, |es|)
  {
    var n := |es| - 1;
    ExecNew(Run(es[..n]), es[n], i);
    ProjectLast(es, n, Run(es).objs[i].procId, Run(es).objs[i].connId);
    assert es[n..n] == [] && es[n..|es|] == es[n..] && es[..n + 1] == es;
  }

  /** Routing is a projection: over any run, the queue of every object is the part of the log
      that is addressed to it, in order, from the event that made it to the removal of its id. */
  lemma {:induction false} RoutingIsProjection(es: seq<Event>, i: nat)
    requires i < |Run(es).objs|
    ensures exists made, end :: Follows(es, i, made, end)
  {
    if i < |Run(es[..|es| - 1]).objs| {
      RoutingIsProjection(es[..|es| - 1], i);
      var made, end :| Follows(es[..|es| - 1], i, made, end);
      var _ := FollowsOld(es, i, made, end);
    } else {
      FollowsNew(es, i);
    }
  }

  lemma PrefixOfPrefix(es: seq<Event>, n: nat, made: nat, end: nat)
    requires made < end <= n <= |es|
    ensures es[..n][..made] == es[..made] && es[..n][..made + 1] == es[..made + 1]
    ensures es[..n][made..end] == es[made..end] && es[..n][end - 1] == es[end - 1]
  {
  }

  /** Once its id is removed, an object never gets another message. */
  lemma {:induction false} RemovedStaysSilent(es: seq<Event>, more: seq<Event>, i: nat)
    requires i < |Run(es).objs| && !Run(es).Live(i)
    ensures var r := Run(es + more); i < |r.objs| && r.objs[i] == Run(es).objs[i] && !r.Live(i)
  {
    if more == [] {
      assert es + more == es;
    } else {
      var front, e := more[..|more| - 1], more[|more| - 1];
      RemovedStaysSilent(es, front, i);
      RunNext(es + front, e);
      assert es + more == es + front + [e];
      ExecOld(Run(es + front), e, i);
    }
  }

  lemma RunNext(es: seq<Event>, e: Event)
    ensures Run(es + [e]) == Exec(Run(es), e)
  {
    assert (es + [e])[..|es|] == es;
  }
}
