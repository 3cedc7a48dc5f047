/** The mutable `Process` and `Processes` objects (python/procstar/agent/proc.py), proved
    against the tables of module `Routing`. */
module Proc {
  import opened Proto
  import opened Routing

  /** `all` is in two parts, what is done and the rest. */
  ghost predicate Between(all: set<ProcId>, done: set<ProcId>, rest: set<ProcId>) {
    done + rest == all && done !! rest
  }

  lemma TakeOne(all: set<ProcId>, done: set<ProcId>, rest: set<ProcId>, p: ProcId)
    requires Between(all, done, rest) && p in rest
    ensures Between(all, done + {p}, rest - {p})
  {
  }

  class Process {
    const procId: ProcId
    const connId: ConnId
    var msgs: seq<Msg>
    /** How many objects were made before this one. */
    ghost const index: nat

    constructor (connId: ConnId, procId: ProcId, ghost index: nat)
      ensures this.procId == procId && this.connId == connId && msgs == [] && this.index == index
    {
      this.procId, this.connId, this.msgs, this.index := procId, connId, [], index;
    }

    method OnMessage(m: Msg)
      modifies this
      ensures msgs == old(msgs) + [m]
    {
      msgs := msgs + [m];
    }
  }

  class Processes {
    var procs: map<ProcId, Process>
    /** The table this object implements, and the object for each of its indices. */
    ghost var table: Table
    ghost var made: seq<Process>

    ghost predicate Valid()
      reads this, made
    {
      && table.Valid()
      && |made| == |table.objs|
      && (forall i :: 0 <= i < |made| ==>
            && made[i].index == i
            && made[i].procId == table.objs[i].procId && made[i].connId == table.objs[i].connId
            && made[i].msgs == table.objs[i].msgs)
      && procs.Keys == table.tracked.Keys
      && (forall p :: p in procs ==> procs[p] == made[table.tracked[p]])
    }

    /** No object is forgotten, and the ones added are new. */
    twostate predicate Grew()
      reads this
    {
      && |old(made)| <= |made|
      && (forall i :: 0 <= i < |old(made)| ==> made[i] == old(made)[i])
      && (forall i :: |old(made)| <= i < |made| ==> fresh(made[i]))
    }

    constructor ()
      ensures Valid() && table == EMPTY && fresh(made)
    {
      procs, table, made := map[], EMPTY, [];
    }

    /** `create`; the result is none for the assertion that `p` is unknown. */
    method Create(c: ConnId, p: ProcId, ghost origin: Origin) returns (proc: Option<Process>)
      requires Valid()
      modifies this
      ensures Valid()
      ensures proc.None? <==> p in old(procs)
      ensures proc.None? ==> table == old(table) && made == old(made)
      ensures proc.Some? ==> && fresh(proc.value) && made == old(made) + [proc.value]
                             && table == Routing.Create(old(table), c, p, origin)
                             && p in procs && procs[p] == proc.value
    {
      if p in procs {
        return None;
      }
      var o := new Process(c, p, |made|);
      procs := procs[p := o];
      table := Routing.Create(table, c, p, origin);
      made := made + [o];
      proc := Some(o);
    }

    /** `get_proc`. */
    method GetProc(c: ConnId, p: ProcId, ghost m: Msg) returns (proc: Process)
      requires Valid()
      modifies this
      ensures Valid() && table == Lookup(old(table), c, p, m)
      ensures p in procs && procs[p] == proc
      ensures Grew()
    {
      if p in procs {
        proc := procs[p];
      } else {
        var o := Create(c, p, Reported(m));
        proc := o.value;
      }
    }

    /** Queues `m` on the object tracked for `p`. */
    method Put(p: ProcId, m: Msg)
      requires Valid() && p in procs
      modifies this`table, procs[p]
      ensures Valid() && table == Post(old(table), p, m)
    {
      procs[p].OnMessage(m);
      table := Post(table, p, m);
    }

    method Deliver(c: ConnId, p: ProcId, m: Msg, post: bool)
      requires Valid()
      modifies this, made
      ensures Valid() && table == Visit(old(table), c, p, m, post)
      ensures Grew()
    {
      var o := GetProc(c, p, m);
      assert o == made[table.tracked[p]];
      if post {
        Put(p, m);
      }
    }

    method DeliverAll(c: ConnId, ids: seq<ProcId>, m: Msg, post: bool)
      requires Valid()
      modifies this, made
      ensures Valid() && table == VisitAll(old(table), c, ids, m, post)
      ensures Grew()
    {
      for n := 0 to |ids|
        invariant Valid() && table == VisitAll(old(table), c, ids[..n], m, post)
        invariant Grew()
      {
        assert ids[..n + 1][..n] == ids[..n];
        Deliver(c, ids[n], m, post);
      }
      assert ids[..|ids|] == ids;
    }

    /** One turn of the loop of `send_by_conn`: the ids in `done` of table `t` have had their turn. */
    method SendOne(p: ProcId, c: ConnId, m: Msg, ghost t: Table, ghost done: set<ProcId>)
      requires Valid() && t.Valid() && p in t.tracked && p !in done && table == BroadcastTo(t, done, c, m)
      modifies this`table, made
      ensures Valid() && made == old(made) && table == BroadcastTo(t, done + {p}, c, m)
    {
      BroadcastStep(t, done, p, c, m);
      if procs[p].connId == c {
        Put(p, m);
      }
    }

    /** `send_by_conn`: the dictionary's values are visited in some order. */
    method SendByConn(c: ConnId, m: Msg)
      requires Valid()
      modifies this`table, made
      ensures Valid() && made == old(made) && table == Broadcast(old(table), c, m)
    {
      var rest := procs.Keys;
      ghost var t, done := table, {};
      BroadcastNone(t, c, m);
      while rest != {}
        invariant Valid() && made == old(made) && Between(t.tracked.Keys, done, rest)
        invariant table == BroadcastTo(t, done, c, m)
        decreases rest
      {
        var p :| p in rest;
        SendOne(p, c, m, t, done);
        TakeOne(t.tracked.Keys, done, rest, p);
        done := done + {p};
        rest := rest - {p};
      }
      assert done == t.tracked.Keys;
    }

    /** `on_message`; `ok` is false for the `KeyError`. */
    method OnMessage(c: ConnId, m: Msg) returns (ok: bool)
      requires Valid()
      modifies this, made
      ensures Valid() && Grew()
      ensures m.ProcDelete? || m.ProcUnknown? ==> made == old(made)
      ensures match Routing.OnMessage(old(table), c, m)
              case Some(r) => ok && table == r
              case None => !ok && table == old(table)
    {
      ok := true;
      match m {
        case ProcidList(ids) => DeliverAll(c, ids, m, false);
        case ProcResult(p, _) => Deliver(c, p, m, true);
        case ProcFdData(p, _) => Deliver(c, p, m, true);
        case ProcDelete(p) => ok := Pop(p, m);
        case ProcUnknown(p) => ok := Pop(p, m);
        case RequestError(request, _) =>
          match request {
            case StartRequest(ids) => DeliverAll(c, ids, m, true);
            case ResultRequest(p) => Deliver(c, p, m, true);
            case SignalRequest(p, _) => Deliver(c, p, m, true);
            case FdDataRequest(p, _, _, _) => Deliver(c, p, m, true);
            case DeleteRequest(p) => Deliver(c, p, m, true);
            case Registered =>
            case ListRequest =>
          }
        case ConnectionTimeout => SendByConn(c, m);
        case ShutDown(_) =>
      }
    }

    method Pop(p: ProcId, m: Msg) returns (ok: bool)
      requires Valid()
      modifies this, made
      ensures Valid() && made == old(made)
      ensures ok <==> p in old(table).tracked
      ensures table == if ok then Table(old(table).tracked - {p}, Post(old(table), p, m).objs) else old(table)
    {
      ok := p in procs;
      if ok {
        Put(p, m);
        procs := procs - {p};
        table := Table(table.tracked - {p}, table.objs);
      }
    }
  }
}
