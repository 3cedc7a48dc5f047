/** The reconciliation of proc ids when an agent registers
    (python/procstar/agent/server.py, `_serve_connection`). */
module Server {
  import opened Proto
  import opened Routing
  import opened Proc

  /** The ids tracked for connection `c`. */
  function Ours(t: Table, c: ConnId): set<ProcId>
    requires t.Valid()
  {
    set p | p in t.tracked && t.objs[t.tracked[p]].connId == c
  }

  /** Part of a reconciliation: ids `made` have new objects, ids `dropped` have been told they
      are unknown and are forgotten. */
  ghost predicate Changed(t: Table, c: ConnId, made: set<ProcId>, dropped: set<ProcId>, r: Table)
    requires t.Valid()
  {
    && |t.objs| <= |r.objs| && r.Valid()
    && (forall i :: 0 <= i < |t.objs| ==>
          r.objs[i] == if t.Live(i) && t.objs[i].procId in dropped
                       then Append(t.objs[i], ProcUnknown(t.objs[i].procId)) else t.objs[i])
    && (forall i :: |t.objs| <= i < |r.objs| ==>
          r.objs[i] == Obj(r.objs[i].procId, c, Created, []) && r.objs[i].procId in made && r.Live(i))
    && r.tracked.Keys == t.tracked.Keys + made - dropped
    && (forall p :: p in r.tracked ==>
          if p in t.tracked then r.tracked[p] == t.tracked[p] else |t.objs| <= r.tracked[p])
  }

  lemma ChangedMake(t: Table, c: ConnId, made: set<ProcId>, r: Table, p: ProcId)
    requires t.Valid() && Changed(t, c, made, {}, r) && p !in r.tracked
    ensures Changed(t, c, made + {p}, {}, Create(r, c, p, Created))
  {
    assert Create(r, c, p, Created).tracked.Keys == r.tracked.Keys + {p};
  }

  lemma ChangedDrop(t: Table, c: ConnId, made: set<ProcId>, dropped: set<ProcId>, r: Table, p: ProcId)
    requires t.Valid() && Changed(t, c, made, dropped, r)
    requires made !! t.tracked.Keys && p in t.tracked && p !in dropped
    ensures p in r.tracked
    ensures Changed(t, c, made, dropped + {p}, OnMessage(r, c, ProcUnknown(p)).value)
  {
    assert p in r.tracked;
    var k := t.tracked[p];
    var r' := OnMessage(r, c, ProcUnknown(p)).value;
    assert r'.objs == r.objs[k := Append(r.objs[k], ProcUnknown(p))];
    assert r'.tracked.Keys == t.tracked.Keys + made - (dropped + {p});
    forall i | 0 <= i < |t.objs| && i != k ensures t.Live(i) ==> t.objs[i].procId != p {}
    assert t.Live(k);
  }

  lemma ChangedReconciled(t: Table, c: ConnId, ids: set<ProcId>, r: Table)
    requires t.Valid() && Changed(t, c, ids - Ours(t, c), Ours(t, c) - ids, r)
    requires forall p :: p in ids && p in t.tracked ==> t.objs[t.tracked[p]].connId == c
    ensures Reconciled(t, c, ids, r)
  {
    forall i | 0 <= i < |t.objs|
      ensures Missing(t, c, ids, i) <==> t.Live(i) && t.objs[i].procId in Ours(t, c) - ids
    {}
  }

  /** Reconciles the ids of a Register message.  `requested` are the ids whose results are then
      asked for.  Fails, at the assertion in `create`, exactly if an id is tracked for another
      connection. */
  method Reconcile(processes: Processes, c: ConnId, procIds: seq<ProcId>) returns (ok: bool, requested: set<ProcId>)
    requires processes.Valid()
    modifies processes, processes.made
    ensures processes.Valid()
    ensures ok <==> forall p :: p in procIds && p in old(processes.table).tracked ==>
                      old(processes.table).objs[old(processes.table).tracked[p]].connId == c
    ensures ok ==> Reconciled(old(processes.table), c, (set p | p in procIds), processes.table)
    ensures forall p :: p in requested <==> p in procIds && p in Ours(old(processes.table), c)
  {
    var ids := set p | p in procIds;
    ghost var t := processes.table;
    var ours := set p | p in processes.procs && processes.procs[p].connId == c;
    assert ours == Ours(t, c);
    requested := ids * ours;
    ok := CreateAll(processes, c, ids - ours);
    if ok {
      assert forall p :: p in ids && p in t.tracked ==> p in ours;
      DropAll(processes, c, ours - ids, t, ids - ours);
      ChangedReconciled(t, c, ids, processes.table);
    } else {
      ghost var p :| p in ids - ours && p in t.tracked;
      assert p in procIds;
    }
  }

  method CreateOne(processes: Processes, c: ConnId, p: ProcId, ghost t: Table, ghost done: set<ProcId>)
    returns (ok: bool)
    requires processes.Valid() && t.Valid() && Changed(t, c, done, {}, processes.table)
    requires done !! t.tracked.Keys && p !in done
    modifies processes
    ensures processes.Valid() && processes.Grew()
    ensures ok <==> p !in t.tracked
    ensures ok ==> Changed(t, c, done + {p}, {}, processes.table)
  {
    ghost var r := processes.table;
    var proc := processes.Create(c, p, Created);
    ok := proc.Some?;
    if ok {
      ChangedMake(t, c, done, r, p);
    }
  }

  method CreateAll(processes: Processes, c: ConnId, ids: set<ProcId>) returns (ok: bool)
    requires processes.Valid()
    modifies processes
    ensures processes.Valid() && processes.Grew()
    ensures ok <==> ids !! old(processes.table).tracked.Keys
    ensures ok ==> Changed(old(processes.table), c, ids, {}, processes.table)
  {
    var rest := ids;
    ghost var t, done := processes.table, {};
    while rest != {}
      invariant processes.Valid() && processes.Grew() && Between(ids, done, rest)
      invariant done !! t.tracked.Keys && Changed(t, c, done, {}, processes.table)
      decreases rest
    {
      var p :| p in rest;
      TakeOne(ids, done, rest, p);
      ok := CreateOne(processes, c, p, t, done);
      if !ok {
        return;
      }
      done := done + {p};
      rest := rest - {p};
    }
    ok := true;
    assert done == ids;
  }

  method DropOne(processes: Processes, c: ConnId, p: ProcId,
                 ghost t: Table, ghost made: set<ProcId>, ghost dropped: set<ProcId>)
    requires processes.Valid() && t.Valid() && Changed(t, c, made, dropped, processes.table)
    requires made !! t.tracked.Keys && p in t.tracked && p !in dropped
    modifies processes, processes.made
    ensures processes.Valid() && processes.made == old(processes.made)
    ensures Changed(t, c, made, dropped + {p}, processes.table)
  {
    ChangedDrop(t, c, made, dropped, processes.table, p);
    var found := processes.OnMessage(c, ProcUnknown(p));
  }

  method DropAll(processes: Processes, c: ConnId, ids: set<ProcId>, ghost t: Table, ghost made: set<ProcId>)
    requires processes.Valid() && t.Valid() && Changed(t, c, made, {}, processes.table)
    requires made !! t.tracked.Keys && ids <= t.tracked.Keys
    modifies processes, processes.made
    ensures processes.Valid() && processes.made == old(processes.made)
    ensures Changed(t, c, made, ids, processes.table)
  {
    var rest := ids;
    ghost var done := {};
    while rest != {}
      invariant processes.Valid() && processes.made == old(processes.made) && Between(ids, done, rest)
      invariant Changed(t, c, made, done, processes.table)
      decreases rest
    {
      var p :| p in rest;
      TakeOne(ids, done, rest, p);
      DropOne(processes, c, p, t, made, done);
      done := done + {p};
      rest := rest - {p};
    }
    assert done == ids;
  }
}
