/** The server's connections, their group index, reconnect timers and change subscriptions
    (python/procstar/agent/conn.py).

    `Registry` specifies the mutable objects of module `Conn`: connection objects are indices
    into `objs`, in creation order.  A websocket is a number; which ones are open is given. */
module Registries {
  import opened Proto

  type Sock = nat
  type TimerId = nat
  type SubId = nat

  /** A published change: of a connection, or that it was removed. */
  datatype Event = Changed(connId: ConnId) | Removed(connId: ConnId)

  datatype Conn = Conn(connId: ConnId, groupId: GroupId, ws: Sock, shutdown: ShutdownState, timer: Option<TimerId>)

  datatype Registry = Registry(
    conns: map<ConnId, nat>, groups: map<GroupId, set<ConnId>>, objs: seq<Conn>,
    pending: map<TimerId, nat>, nextTimer: TimerId, subs: map<SubId, seq<Event>>)
  {
    /** The group index agrees with the map of connections, and no group is empty. */
    ghost predicate Indexed() {
      && (forall c :: c in conns ==> conns[c] < |objs| && objs[conns[c]].connId == c)
      && (forall g :: g in groups ==> groups[g] != {})
      && (forall g, c :: g in groups && c in groups[g] ==> c in conns && objs[conns[c]].groupId == g)
      && (forall c :: c in conns ==> objs[conns[c]].groupId in groups && c in groups[objs[conns[c]].groupId])
    }

    /** A connection's timer field names the one pending timer that is for it. */
    ghost predicate Timed() {
      && (forall t :: t in pending ==> t < nextTimer && pending[t] < |objs| && objs[pending[t]].timer == Some(t))
      && (forall h :: 0 <= h < |objs| && objs[h].timer.Some? ==>
            objs[h].timer.value in pending && pending[objs[h].timer.value] == h)
    }

    ghost predicate Valid() {
      Indexed() && Timed()
    }

    /** The part of `Valid` that the operations rely on. */
    ghost predicate Ranged() {
      forall c :: c in conns ==> conns[c] < |objs|
    }
  }

  const EMPTY := Registry(map[], map[], [], map[], 0, map[])

  function Members(r: Registry, g: GroupId): set<ConnId> {
    if g in r.groups then r.groups[g] else {}
  }

  function Publish(r: Registry, e: Event): Registry {
    r.(subs := map k | k in r.subs :: r.subs[k] + [e])
  }

  function CancelTimer(r: Registry, h: nat): Registry
    requires h < |r.objs|
  {
    match r.objs[h].timer
    case Some(t) => r.(pending := r.pending - {t}, objs := r.objs[h := r.objs[h].(timer := None)])
    case None => r
  }

  function SetTimer(r: Registry, h: nat): Registry
    requires h < |r.objs|
  {
    var q := CancelTimer(r, h);
    q.(pending := q.pending[q.nextTimer := h], nextTimer := q.nextTimer + 1,
       objs := q.objs[h := q.objs[h].(timer := Some(q.nextTimer))])
  }

  /** A new connection object, under its id and in its group. */
  function Insert(r: Registry, c: ConnId, g: GroupId, state: ShutdownState, ws: Sock): Registry {
    r.(conns := r.conns[c := |r.objs|], objs := r.objs + [Conn(c, g, ws, state, None)],
       groups := r.groups[g := Members(r, g) + {c}])
  }

  /** A known connection object with a new websocket. */
  function Reopen(r: Registry, h: nat, state: ShutdownState, ws: Sock): Registry
    requires h < |r.objs|
  {
    r.(objs := r.objs[h := r.objs[h].(ws := ws, shutdown := state)])
  }

  /** `_add`: the registry and the connection, or none for a changed group. */
  function Add(r: Registry, c: ConnId, g: GroupId, state: ShutdownState, ws: Sock): Option<(Registry, nat)>
    requires r.Ranged()
  {
    if c !in r.conns then Some((Publish(Insert(r, c, g, state, ws), Changed(c)), |r.objs|))
    else if r.objs[r.conns[c]].groupId != g then None
    else Some((Publish(Reopen(r, r.conns[c], state, ws), Changed(c)), r.conns[c]))
  }

  /** The group index without `c`, which is in `g`. */
  function Leave(groups: map<GroupId, set<ConnId>>, g: GroupId, c: ConnId): map<GroupId, set<ConnId>> {
    if g !in groups then groups
    else if groups[g] - {c} == {} then groups - {g} else groups[g := groups[g] - {c}]
  }

  /** The registry without the entry for `c`; its timer is still pending. */
  function Forget(r: Registry, c: ConnId): Registry
    requires r.Ranged() && c in r.conns
  {
    r.(conns := r.conns - {c}, groups := Leave(r.groups, r.objs[r.conns[c]].groupId, c))
  }

  /** `_pop`. */
  function Pop(r: Registry, c: ConnId): Registry
    requires r.Ranged() && c in r.conns
  {
    CancelTimer(Publish(Forget(r, c), Removed(c)), r.conns[c])
  }

  predicate Eligible(r: Registry, open: set<Sock>, h: nat)
    requires h < |r.objs|
  {
    r.objs[h].ws in open && r.objs[h].shutdown.Active?
  }

  /** `_get_open_conns_in_group`, as connection ids. */
  function OpenInGroup(r: Registry, open: set<Sock>, g: GroupId): set<ConnId>
    requires r.Valid()
  {
    set c | c in Members(r, g) && Eligible(r, open, r.conns[c])
  }

  /** The index gives the same connections as a search of all of them. */
  lemma OpenInGroupComplete(r: Registry, open: set<Sock>, g: GroupId)
    requires r.Valid()
    ensures OpenInGroup(r, open, g)
         == set c | c in r.conns && r.objs[r.conns[c]].groupId == g && Eligible(r, open, r.conns[c])
  {
    forall c | c in r.conns && r.objs[r.conns[c]].groupId == g ensures c in Members(r, g) {}
  }

  lemma CancelTimerValid(r: Registry, h: nat)
    requires r.Valid() && h < |r.objs|
    ensures var q := CancelTimer(r, h);
            && q.Valid() && q.conns == r.conns && q.subs == r.subs
            && q.objs == r.objs[h := r.objs[h].(timer := None)]
  {
  }

  lemma SetTimerValid(r: Registry, h: nat)
    requires r.Valid() && h < |r.objs|
    ensures SetTimer(r, h).Valid()
  {
    CancelTimerValid(r, h);
  }

  lemma InsertValid(r: Registry, c: ConnId, g: GroupId, state: ShutdownState, ws: Sock)
    requires r.Valid() && c !in r.conns
    ensures Insert(r, c, g, state, ws).Valid()
  {
    var q := Insert(r, c, g, state, ws);
    assert forall i :: 0 <= i < |r.objs| ==> q.objs[i] == r.objs[i];
    forall d | d in q.conns
      ensures q.objs[q.conns[d]].groupId in q.groups && d in q.groups[q.objs[q.conns[d]].groupId]
    {
      assert d != c ==> d in r.conns;
    }
  }

  lemma ReopenValid(r: Registry, h: nat, state: ShutdownState, ws: Sock)
    requires r.Valid() && h < |r.objs|
    ensures Reopen(r, h, state, ws).Valid()
  {
  }

  lemma AddValid(r: Registry, c: ConnId, g: GroupId, state: ShutdownState, ws: Sock)
    requires r.Valid() && Add(r, c, g, state, ws).Some?
    ensures var (q, h) := Add(r, c, g, state, ws).value;
            q.Valid() && c in q.conns && q.conns[c] == h
  {
    if c in r.conns {
      ReopenValid(r, r.conns[c], state, ws);
    } else {
      InsertValid(r, c, g, state, ws);
    }
  }

  lemma ForgetValid(r: Registry, c: ConnId)
    requires r.Valid() && c in r.conns
    ensures Forget(r, c).Valid()
  {
    var g := r.objs[r.conns[c]].groupId;
    var q := Forget(r, c);
    forall d | d in q.conns
      ensures q.objs[q.conns[d]].groupId in q.groups && d in q.groups[q.objs[q.conns[d]].groupId]
    {
      if q.objs[q.conns[d]].groupId == g {
        assert d in r.groups[g] - {c};
      }
    }
  }

  lemma PopValid(r: Registry, c: ConnId)
    requires r.Valid() && c in r.conns
    ensures var q := Pop(r, c);
            && q.Valid() && q.conns == r.conns - {c}
            && q.objs == r.objs[r.conns[c] := r.objs[r.conns[c]].(timer := None)]
            && q.subs.Keys == r.subs.Keys && forall k :: k in r.subs ==> q.subs[k] == r.subs[k] + [Removed(c)]
  {
    ForgetValid(r, c);
    CancelTimerValid(Publish(Forget(r, c), Removed(c)), r.conns[c]);
  }

  /** `_add` fails exactly for a known connection of another group. */
  lemma AddFailsExactly(r: Registry, c: ConnId, g: GroupId, state: ShutdownState, ws: Sock)
    requires r.Valid()
    ensures Add(r, c, g, state, ws).None? <==> c in r.conns && r.objs[r.conns[c]].groupId != g
  {
  }

  /** The effect of `_add` followed by `cancel_reconnect_timeout`, object by object. */
  lemma AddEffect(r: Registry, c: ConnId, g: GroupId, state: ShutdownState, ws: Sock)
    requires r.Valid() && Add(r, c, g, state, ws).Some?
    ensures var (a, h) := Add(r, c, g, state, ws).value;
            && h < |a.objs| && a.conns == r.conns[c := h] && (if c in r.conns then h == r.conns[c] else h == |r.objs|)
            && (var q := CancelTimer(a, h);
                && q.Valid() && q.conns == a.conns && q.subs == Publish(r, Changed(c)).subs
                && (forall k :: k in r.subs ==> q.subs[k] == r.subs[k] + [Changed(c)])
                && |q.objs| == |a.objs| && |r.objs| <= |q.objs| <= |r.objs| + (if c in r.conns then 0 else 1)
                && q.objs[h] == Conn(c, g, ws, state, None)
                && (forall i :: 0 <= i < |r.objs| && i != h ==> q.objs[i] == r.objs[i]))
  {
    var (a, h) := Add(r, c, g, state, ws).value;
    AddObjs(r, c, g, state, ws);
    AddValid(r, c, g, state, ws);
    CancelTimerValid(a, h);
  }

  lemma AddObjs(r: Registry, c: ConnId, g: GroupId, state: ShutdownState, ws: Sock)
    requires r.Valid() && Add(r, c, g, state, ws).Some?
    ensures var (a, h) := Add(r, c, g, state, ws).value;
            && h < |a.objs| && a.conns == r.conns[c := h] && (if c in r.conns then h == r.conns[c] else h == |r.objs|)
            && a.subs == Publish(r, Changed(c)).subs
            && |r.objs| <= |a.objs| <= |r.objs| + (if c in r.conns then 0 else 1)
            && a.objs[h].(timer := None) == Conn(c, g, ws, state, None)
            && (forall i :: 0 <= i < |r.objs| && i != h ==> a.objs[i] == r.objs[i])
  {
  }

  lemma SetTimerEffect(r: Registry, h: nat)
    requires r.Valid() && h < |r.objs|
    ensures var q := SetTimer(r, h);
            && q.Valid() && q.conns == r.conns && q.subs == r.subs && |q.objs| == |r.objs|
            && q.objs[h] == r.objs[h].(timer := Some(r.nextTimer))
            && (forall i :: 0 <= i < |r.objs| && i != h ==> q.objs[i] == r.objs[i])
  {
    SetTimerValid(r, h);
  }
}
