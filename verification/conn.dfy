/** The mutable connection objects of the server (python/procstar/agent/conn.py), proved
    against module `Registries`. */
module Conn {
  import opened Proto
  import R = Registries

  class Connection {
    const connId: ConnId
    const groupId: GroupId
    var ws: R.Sock
    var shutdownState: ShutdownState
    var timer: Option<R.TimerId>
    /** How many connections were made before this one. */
    ghost const index: nat

    constructor (connId: ConnId, groupId: GroupId, ws: R.Sock, state: ShutdownState, ghost index: nat)
      ensures this.connId == connId && this.groupId == groupId && this.ws == ws
      ensures shutdownState == state && timer == None && this.index == index
    {
      this.connId, this.groupId, this.ws := connId, groupId, ws;
      this.shutdownState, this.timer, this.index := state, None, index;
    }

    /** This object as a value of the specification. */
    ghost function Value(): R.Conn
      reads this
    {
      R.Conn(connId, groupId, ws, shutdownState, timer)
    }
  }

  /** The connections together with the event loop's pending reconnect timers. */
  class Connections {
    var conns: map<ConnId, Connection>
    var groups: map<GroupId, set<ConnId>>
    var pending: map<R.TimerId, Connection>
    var nextTimer: R.TimerId
    var subs: map<R.SubId, seq<R.Event>>
    /** The registry this object implements, and the connection for each of its indices. */
    ghost var reg: R.Registry
    ghost var made: seq<Connection>

    ghost predicate Valid()
      reads this, made
    {
      && reg.Valid() && Mirrors()
    }

    ghost predicate Mirrors()
      reads this, made
    {
      && |made| == |reg.objs| && reg.Ranged()
      && (forall t :: t in reg.pending ==> reg.pending[t] < |reg.objs|)
      && (forall i :: 0 <= i < |made| ==> made[i].index == i && made[i].Value() == reg.objs[i])
      && conns.Keys == reg.conns.Keys
      && (forall c :: c in conns ==> conns[c] == made[reg.conns[c]])
      && groups == reg.groups && nextTimer == reg.nextTimer && subs == reg.subs
      && pending.Keys == reg.pending.Keys
      && (forall t :: t in pending ==> pending[t] == made[reg.pending[t]])
    }

    constructor ()
      ensures Valid() && reg == R.EMPTY && made == []
    {
      conns, groups, pending, nextTimer, subs := map[], map[], map[], 0, map[];
      reg, made := R.EMPTY, [];
    }

    method Publish(e: R.Event)
      requires Mirrors()
      modifies this`subs, this`reg
      ensures Mirrors() && reg == R.Publish(old(reg), e)
    {
      subs := map k | k in subs :: subs[k] + [e];
      reg := R.Publish(reg, e);
    }

    /** `_add`; none is the error of a changed group. */
    method Add(c: ConnId, g: GroupId, state: ShutdownState, ws: R.Sock) returns (conn: Option<Connection>)
      requires Valid()
      modifies this, made
      ensures Valid()
      ensures match R.Add(old(reg), c, g, state, ws)
              case None => conn.None? && reg == old(reg) && made == old(made)
              case Some(added) =>
                && conn.Some? && reg == added.0 && added.1 < |made| && conn.value == made[added.1]
                && made == if c in old(conns) then old(made) else old(made) + [conn.value]
      ensures c !in old(conns) ==> fresh(conn.value)
    {
      ghost var added := R.Add(reg, c, g, state, ws);
      assert added.Some? ==> added.value.0.Valid() by {
        if added.Some? { R.AddValid(reg, c, g, state, ws); }
      }
      if c in conns {
        conn := Readd(c, g, state, ws);
        if conn.None? {
          return;
        }
      } else {
        var o := AddNew(c, g, state, ws);
        conn := Some(o);
      }
      Publish(R.Changed(c));
    }

    method AddNew(c: ConnId, g: GroupId, state: ShutdownState, ws: R.Sock) returns (conn: Connection)
      requires Mirrors() && c !in conns
      modifies this
      ensures Mirrors() && fresh(conn) && made == old(made) + [conn]
      ensures reg == R.Insert(old(reg), c, g, state, ws)
    {
      conn := new Connection(c, g, ws, state, |made|);
      Enter(conn);
    }

    method Enter(o: Connection)
      requires Mirrors() && o.connId !in conns && o.index == |made| && o.timer.None?
      modifies this`conns, this`groups, this`reg, this`made
      ensures Mirrors() && made == old(made) + [o]
      ensures reg == R.Insert(old(reg), o.connId, o.groupId, o.shutdownState, o.ws)
    {
      conns := conns[o.connId := o];
      groups := groups[o.groupId := (if o.groupId in groups then groups[o.groupId] else {}) + {o.connId}];
      made := made + [o];
      reg := R.Insert(reg, o.connId, o.groupId, o.shutdownState, o.ws);
    }

    method Readd(c: ConnId, g: GroupId, state: ShutdownState, ws: R.Sock) returns (conn: Option<Connection>)
      requires Mirrors() && c in conns
      modifies this`reg, conns[c]
      ensures Mirrors()
      ensures conn == if conns[c].groupId == g then Some(conns[c]) else None
      ensures reg == if conn.Some? then R.Reopen(old(reg), old(reg).conns[c], state, ws) else old(reg)
    {
      var o := conns[c];
      if o.groupId != g {
        return None;
      }
      o.ws := ws;
      o.shutdownState := state;
      reg := R.Reopen(reg, reg.conns[c], state, ws);
      conn := Some(o);
    }

    /** `_get_open_conns_in_group`: exactly the open, active connections of the group. */
    method GetOpenConnsInGroup(open: set<R.Sock>, g: GroupId) returns (ids: set<ConnId>)
      requires Valid()
      ensures forall c :: c in ids <==>
                && c in conns && conns[c].groupId == g
                && conns[c].ws in open && conns[c].shutdownState.Active?
      ensures ids == R.OpenInGroup(reg, open, g)
    {
      var members := if g in groups then groups[g] else {};
      ids := set c | c in members && conns[c].ws in open && conns[c].shutdownState.Active?;
      R.OpenInGroupComplete(reg, open, g);
    }

    /** `cancel_reconnect_timeout` of connection `o`. */
    method CancelReconnectTimeout(o: Connection)
      requires Valid() && o in made
      modifies this`pending, this`reg, o`timer
      ensures Valid() && reg == R.CancelTimer(old(reg), o.index)
    {
      R.CancelTimerValid(reg, o.index);
      Cancel(o);
    }

    method Cancel(o: Connection)
      requires Mirrors() && o in made
      modifies this`pending, this`reg, o`timer
      ensures Mirrors() && reg == R.CancelTimer(old(reg), o.index)
    {
      reg := R.CancelTimer(reg, o.index);
      if o.timer.Some? {
        pending := pending - {o.timer.value};
        o.timer := None;
      }
    }

    /** `set_reconnect_timeout` of connection `o`. */
    method SetReconnectTimeout(o: Connection)
      requires Valid() && o in made
      modifies this`pending, this`nextTimer, this`reg, o`timer
      ensures Valid() && reg == R.SetTimer(old(reg), o.index)
    {
      R.SetTimerValid(reg, o.index);
      Cancel(o);
      Schedule(o);
    }

    method Schedule(o: Connection)
      requires Mirrors() && o in made && o.timer.None?
      modifies this`pending, this`nextTimer, this`reg, o`timer
      ensures Mirrors() && reg == R.SetTimer(old(reg), o.index)
    {
      pending := pending[nextTimer := o];
      o.timer := Some(nextTimer);
      nextTimer := nextTimer + 1;
      reg := R.SetTimer(reg, o.index);
    }

    /** `_pop`; none is the `KeyError`. */
    method Pop(c: ConnId) returns (conn: Option<Connection>)
      requires Valid()
      modifies this, made
      ensures Valid() && made == old(made)
      ensures conn.Some? <==> c in old(conns)
      ensures conn.Some? ==> conn.value == old(conns[c]) && reg == R.Pop(old(reg), c)
      ensures conn.None? ==> reg == old(reg)
    {
      if c !in conns {
        return None;
      }
      R.PopValid(reg, c);
      var o := Forget(c);
      Publish(R.Removed(c));
      Cancel(o);
      conn := Some(o);
    }

    /** The part of `_pop` that removes the entry. */
    method Forget(c: ConnId) returns (o: Connection)
      requires Mirrors() && c in conns && conns[c].groupId in groups
      modifies this`conns, this`groups, this`reg
      ensures Mirrors() && o == old(conns[c]) && reg == R.Forget(old(reg), c)
    {
      o := conns[c];
      conns := conns - {c};
      var group := groups[o.groupId] - {c};
      groups := if group == {} then groups - {o.groupId} else groups[o.groupId := group];
      reg := R.Forget(reg, c);
    }
  }
}
