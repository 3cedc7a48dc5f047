/** The procs of an agent, its notifications and its shutdown state (src/procs.rs), and the
    handling of requests (src/proto.rs). */
module SharedProcs {
  import opened Proto
  import opened Agent
  import Spec

  type SubId = nat

  /** A subscription: the procs known to a subscriber that has followed every notification it
      has read, and what it has not read yet. */
  datatype Sub = Sub(known: set<ProcId>, queue: seq<Noti>)

  function Follow(known: set<ProcId>, n: Noti): set<ProcId> {
    match n
    case Start(p) => known + {p}
    case Delete(p) => known - {p}
    case NotRunning(_) | Shutdown(_) => known
  }

  function FollowAll(known: set<ProcId>, ns: seq<Noti>): set<ProcId> {
    if ns == [] then known else Follow(FollowAll(known, ns[..|ns| - 1]), ns[|ns| - 1])
  }

  lemma {:induction false} FollowThen(known: set<ProcId>, a: seq<Noti>, b: seq<Noti>)
    ensures FollowAll(known, a + b) == FollowAll(FollowAll(known, a), b)
  {
    if b == [] {
      assert a + b == a;
    } else {
      FollowThen(known, a, b[..|b| - 1]);
      assert (a + b)[..|a + b| - 1] == a + b[..|b| - 1];
    }
  }

  //----------------------------------------------------------------------------
  // What operations do

  /** A proc object. */
  datatype Obj = Obj(procId: ProcId, running: bool)

  /** The proc object of each id. */
  type ProcTable = map<ProcId, nat>

  /** `objs` are the proc objects there have been; an id may be used again after a deletion. */
  datatype State = State(procs: ProcTable, objs: seq<Obj>, shutdown: ShutdownState)

  /** The objects in the map are those of their ids. */
  predicate Ranged(procs: ProcTable, objs: seq<Obj>) {
    forall p :: p in procs ==> procs[p] < |objs| && objs[procs[p]].procId == p
  }

  /** Whether each proc is running. */
  function View(procs: ProcTable, objs: seq<Obj>): ProcMap
    requires Ranged(procs, objs)
  {
    map p | p in procs :: objs[procs[p]].running
  }

  /** `Stop`: object `obj` is not running any more; `End`: its task announces that.  `Pop` removes the
      first proc, and `Collect` removes all, in order. */
  datatype Op =
    | Request(state: ShutdownState)
    | Insert(procId: ProcId)
    | Stop(obj: nat)
    | End(obj: nat)
    | Remove(procId: ProcId)
    | Pop(procId: ProcId)
    | Collect(ids: seq<ProcId>)

  /** What `check_idling` does when procs `procs` are left: the new shutdown state, and what the
      subscribers are told. */
  function AfterCheck(procs: ProcTable, shutdown: ShutdownState): ShutdownState {
    if procs == map[] && shutdown.Idling? then Done else shutdown
  }

  function WhenIdle(procs: ProcTable, shutdown: ShutdownState): seq<Noti> {
    if procs == map[] && shutdown.Idling? then [Shutdown(Done)] else []
  }

  function Deletes(ids: seq<ProcId>): seq<Noti> {
    if ids == [] then [] else Deletes(ids[..|ids| - 1]) + [Delete(ids[|ids| - 1])]
  }

  function Ids(ids: seq<ProcId>): set<ProcId> {
    set p | p in ids
  }

  predicate Removable(s: State, p: ProcId) {
    p in s.procs && s.procs[p] < |s.objs| && !s.objs[s.procs[p]].running
  }

  /** The order of ids: by their characters. */
  predicate Below(a: ProcId, b: ProcId) {
    a == [] || (b != [] && (a[0] < b[0] || (a[0] == b[0] && Below(a[1..], b[1..]))))
  }

  predicate IsFirst(ids: set<ProcId>, p: ProcId) {
    p in ids && forall q :: q in ids ==> Below(p, q)
  }

  predicate IsSorted(ids: seq<ProcId>) {
    forall i, j :: 0 <= i < j < |ids| ==> Below(ids[i], ids[j])
  }

  /** The state after an operation, and what the subscribers are told.  An operation that cannot
      be carried out does nothing. */
  function Next(s: State, op: Op): (State, seq<Noti>) {
    match op
    case Request(state) =>
      (s.(shutdown := AfterCheck(s.procs, state)), [Shutdown(state)] + WhenIdle(s.procs, state))
    case Insert(p) => (s.(procs := s.procs[p := |s.objs|], objs := s.objs + [Obj(p, true)]), [Start(p)])
    case Stop(o) => (if o < |s.objs| then s.(objs := s.objs[o := s.objs[o].(running := false)]) else s, [])
    case End(o) => (s, if o < |s.objs| then [NotRunning(s.objs[o].procId)] else [])
    case Remove(p) =>
      if Removable(s, p) then
        (Without(s, p), WhenIdle(s.procs - {p}, s.shutdown) + [Delete(p)])
      else (s, [])
    case Pop(p) =>
      if IsFirst(s.procs.Keys, p) then
        (Without(s, p), [Delete(p)] + WhenIdle(s.procs - {p}, s.shutdown))
      else (s, [])
    case Collect(ids) =>
      if Ids(ids) == s.procs.Keys && IsSorted(ids) then
        (s.(procs := map[], shutdown := AfterCheck(map[], s.shutdown)), Deletes(ids) + WhenIdle(map[], s.shutdown))
      else (s, [])
  }

  function Without(s: State, p: ProcId): State {
    s.(procs := s.procs - {p}, shutdown := AfterCheck(s.procs - {p}, s.shutdown))
  }

  /** An idling agent has procs. */
  predicate Settled(s: State) {
    s.shutdown.Idling? ==> s.procs != map[]
  }

  /** After an operation an idling agent has procs, and who follows the notifications from the
      procs before arrives at the procs after. */
  ghost predicate Followed(s: State, op: Op) {
    Settled(Next(s, op).0) && FollowAll(s.procs.Keys, Next(s, op).1) == Next(s, op).0.procs.Keys
  }

  /** This is so after every operation. */
  lemma NextFollowed(s: State, op: Op)
    requires Settled(s)
    ensures Followed(s, op)
  {
    match op
    case Request(state) => RequestFollowed(s, state);
    case Insert(p) => InsertFollowed(s, p);
    case Stop(o) =>
    case End(o) => EndFollowed(s, o);
    case Remove(p) => RemoveFollowed(s, p);
    case Pop(p) => PopFollowed(s, p);
    case Collect(ids) => CollectFollowed(s, ids);
  }

  lemma RequestFollowed(s: State, state: ShutdownState)
    ensures Followed(s, Request(state))
  {
    CheckFollowed(s.procs.Keys, Shutdown(state), s.procs, state);
  }

  lemma InsertFollowed(s: State, p: ProcId)
    requires Settled(s)
    ensures Followed(s, Insert(p))
  {
    FollowOne(s.procs.Keys, Start(p));
  }

  lemma EndFollowed(s: State, o: nat)
    requires Settled(s)
    ensures Followed(s, End(o))
  {
    if o < |s.objs| {
      FollowOne(s.procs.Keys, NotRunning(s.objs[o].procId));
    }
  }

  lemma RemoveFollowed(s: State, p: ProcId)
    requires Settled(s)
    ensures Followed(s, Remove(p))
  {
    if Removable(s, p) {
      CheckFollowed(s.procs.Keys, Delete(p), s.procs - {p}, s.shutdown);
      assert (s.procs - {p}).Keys == Follow(s.procs.Keys, Delete(p));
    }
  }

  lemma PopFollowed(s: State, p: ProcId)
    requires Settled(s)
    ensures Followed(s, Pop(p))
  {
    if p in s.procs {
      CheckFollowed(s.procs.Keys, Delete(p), s.procs - {p}, s.shutdown);
      assert (s.procs - {p}).Keys == Follow(s.procs.Keys, Delete(p));
    }
  }

  lemma CollectFollowed(s: State, ids: seq<ProcId>)
    requires Settled(s)
    ensures Followed(s, Collect(ids))
  {
    AllDeleted(s.procs.Keys, ids, s.shutdown);
  }

  lemma AllDeleted(known: set<ProcId>, ids: seq<ProcId>, shutdown: ShutdownState)
    ensures FollowAll(known, Deletes(ids) + WhenIdle(map[], shutdown)) == known - Ids(ids)
  {
    DeletesFollowed(known, ids);
    FollowThen(known, Deletes(ids), WhenIdle(map[], shutdown));
    if shutdown.Idling? {
      FollowOne(known - Ids(ids), Shutdown(Done));
    }
  }

  lemma FollowOne(known: set<ProcId>, n: Noti)
    ensures FollowAll(known, [n]) == Follow(known, n)
  {
    assert [n][..0] == [];
  }

  /** A notification, and the announcement of the shutdown before or after it. */
  lemma CheckFollowed(known: set<ProcId>, n: Noti, procs: ProcTable, shutdown: ShutdownState)
    ensures FollowAll(known, [n] + WhenIdle(procs, shutdown)) == Follow(known, n)
    ensures FollowAll(known, WhenIdle(procs, shutdown) + [n]) == Follow(known, n)
  {
    var told := WhenIdle(procs, shutdown);
    FollowThen(known, [n], told);
    FollowThen(known, told, [n]);
    FollowOne(known, n);
    if told != [] {
      FollowOne(known, Shutdown(Done));
      FollowOne(Follow(known, n), Shutdown(Done));
    }
  }

  lemma {:induction false} DeletesFollowed(known: set<ProcId>, ids: seq<ProcId>)
    ensures FollowAll(known, Deletes(ids)) == known - Ids(ids)
  {
    if ids != [] {
      var last := |ids| - 1;
      DeletesFollowed(known, ids[..last]);
      var d := Deletes(ids);
      assert d[..|d| - 1] == Deletes(ids[..last]);
      assert Ids(ids) == Ids(ids[..last]) + {ids[last]};
    }
  }

  /** The deletions of procs, in the order of `ids`. */
  lemma {:induction false} DeletesInOrder(ids: seq<ProcId>)
    ensures |Deletes(ids)| == |ids| && forall i :: 0 <= i < |ids| ==> Deletes(ids)[i] == Delete(ids[i])
  {
    if ids != [] {
      DeletesInOrder(ids[..|ids| - 1]);
    }
  }

  lemma {:induction false} DeletesOnly(ids: seq<ProcId>, n: Noti)
    requires n in Deletes(ids)
    ensures n.Delete?
  {
    if n in Deletes(ids[..|ids| - 1]) {
      DeletesOnly(ids[..|ids| - 1], n);
    }
  }

  /** The operation that takes the last proc from an idling agent, or that makes an agent without
      procs idle, leads to Done, and announces that exactly once.  No operation but a request
      announces anything about shutdown otherwise. */
  lemma DoneOnce(s: State, op: Op)
    requires Settled(s)
    ensures var (t, ns) := Next(s, op);
            var idling := if op.Request? then op.state else s.shutdown;
            if t.procs == map[] && idling.Idling? then t.shutdown.Done? && multiset(ns)[Shutdown(Done)] == 1
            else t.shutdown == idling && (op.Request? || forall state :: Shutdown(state) !in ns)
  {
    var (t, ns) := Next(s, op);
    if op.Collect? {
      if Shutdown(Done) in Deletes(op.ids) {
        DeletesOnly(op.ids, Shutdown(Done));
      }
      forall state ensures Shutdown(state) !in Deletes(op.ids) {
        if Shutdown(state) in Deletes(op.ids) {
          DeletesOnly(op.ids, Shutdown(state));
        }
      }
    }
  }

  /** The state after a run, and everything that the subscribers have been told. */
  function Run(ops: seq<Op>): (State, seq<Noti>) {
    if ops == [] then (State(map[], [], Active), [])
    else
      var (s, ns) := Run(ops[..|ops| - 1]);
      var (t, more) := Next(s, ops[|ops| - 1]);
      (t, ns + more)
  }

  /** In every run: who subscribes at any moment, and follows the notifications from the procs
      there were, knows the procs there are. */
  lemma {:induction false} RunFollowed(ops: seq<Op>, i: nat)
    requires i <= |ops|
    ensures var (s, ns) := Run(ops);
            var (start, told) := Run(ops[..i]);
            && Settled(s) && |told| <= |ns| && ns[..|told|] == told
            && FollowAll(start.procs.Keys, ns[|told|..]) == s.procs.Keys
    decreases |ops|
  {
    if i == |ops| {
      assert ops[..i] == ops;
      RunSettled(ops);
    } else {
      var before := ops[..|ops| - 1];
      RunFollowed(before, i);
      assert before[..i] == ops[..i];
      NextFollowed(Run(before).0, ops[|ops| - 1]);
      ToldMore(Run(ops[..i]).0.procs.Keys, Run(ops[..i]).1, Run(before).1, Next(Run(before).0, ops[|ops| - 1]).1);
    }
  }

  lemma ToldMore(known: set<ProcId>, told: seq<Noti>, ns: seq<Noti>, more: seq<Noti>)
    requires |told| <= |ns| && ns[..|told|] == told
    ensures (ns + more)[..|told|] == told
    ensures FollowAll(known, (ns + more)[|told|..]) == FollowAll(FollowAll(known, ns[|told|..]), more)
  {
    FollowThen(known, ns[|told|..], more);
    assert (ns + more)[|told|..] == ns[|told|..] + more;
  }

  lemma {:induction false} RunSettled(ops: seq<Op>)
    ensures Settled(Run(ops).0)
  {
    if ops != [] {
      RunSettled(ops[..|ops| - 1]);
      NextFollowed(Run(ops[..|ops| - 1]).0, ops[|ops| - 1]);
    }
  }

  //----------------------------------------------------------------------------
  // Which procs are running

  /** What operations do to that.  The end of an object that is no longer in the map, because its proc
      has been deleted and its id used again, makes no difference. */
  lemma NextView(s: State, op: Op)
    requires Ranged(s.procs, s.objs)
    ensures var t := Next(s, op).0;
            && Ranged(t.procs, t.objs)
            && View(t.procs, t.objs) ==
               match op
               case Request(_) | End(_) => View(s.procs, s.objs)
               case Insert(p) => View(s.procs, s.objs)[p := true]
               case Stop(o) =>
                 if o < |s.objs| && s.objs[o].procId in s.procs && s.procs[s.objs[o].procId] == o
                 then View(s.procs, s.objs)[s.objs[o].procId := false] else View(s.procs, s.objs)
               case Remove(p) => if Removable(s, p) then View(s.procs, s.objs) - {p} else View(s.procs, s.objs)
               case Pop(p) => if IsFirst(s.procs.Keys, p) then View(s.procs, s.objs) - {p} else View(s.procs, s.objs)
               case Collect(ids) =>
                 if Ids(ids) == s.procs.Keys && IsSorted(ids) then map[] else View(s.procs, s.objs)
  {
    match op
    case Insert(p) => InsertView(s, p);
    case Stop(o) => if o < |s.objs| { StopView(s, o); }
    case _ =>
  }

  lemma InsertView(s: State, p: ProcId)
    requires Ranged(s.procs, s.objs)
    ensures var t := Next(s, Insert(p)).0;
            Ranged(t.procs, t.objs) && View(t.procs, t.objs) == View(s.procs, s.objs)[p := true]
  {
    var t := Next(s, Insert(p)).0;
    forall q | q in t.procs ensures t.procs[q] < |t.objs| && t.objs[t.procs[q]].procId == q {
      assert q != p ==> s.procs[q] < |s.objs|;
    }
  }

  lemma StopView(s: State, o: nat)
    requires Ranged(s.procs, s.objs) && o < |s.objs|
    ensures var t := Next(s, Stop(o)).0;
            && Ranged(t.procs, t.objs)
            && View(t.procs, t.objs)
               == if s.objs[o].procId in s.procs && s.procs[s.objs[o].procId] == o
                  then View(s.procs, s.objs)[s.objs[o].procId := false] else View(s.procs, s.objs)
  {
    var t := Next(s, Stop(o)).0;
    forall q | q in t.procs ensures t.procs[q] < |t.objs| && t.objs[t.procs[q]].procId == q {
      assert s.procs[q] < |s.objs| && s.objs[s.procs[q]].procId == q;
    }
  }

  //----------------------------------------------------------------------------
  // The order of ids

  lemma {:induction false} BelowTotal(a: ProcId, b: ProcId)
    ensures Below(a, b) || Below(b, a)
  {
    if a != [] && b != [] && a[0] == b[0] {
      BelowTotal(a[1..], b[1..]);
    }
  }

  lemma {:induction false} BelowSelf(a: ProcId)
    ensures Below(a, a)
  {
    if a != [] {
      BelowSelf(a[1..]);
    }
  }

  lemma {:induction false} BelowTrans(a: ProcId, b: ProcId, c: ProcId)
    requires Below(a, b) && Below(b, c)
    ensures Below(a, c)
  {
    if a != [] && a[0] == b[0] && b[0] == c[0] {
      BelowTrans(a[1..], b[1..], c[1..]);
    }
  }

  /** `ids` are in order, and before those of `rest`. */
  ghost predicate SortedBefore(ids: seq<ProcId>, rest: set<ProcId>) {
    IsSorted(ids) && forall i, q :: 0 <= i < |ids| && q in rest ==> Below(ids[i], q)
  }

  lemma EnumerateNext(ids: seq<ProcId>, rest: set<ProcId>, p: ProcId)
    requires SortedBefore(ids, rest) && IsFirst(rest, p)
    ensures SortedBefore(ids + [p], rest - {p}) && Ids(ids + [p]) == Ids(ids) + {p}
  {
  }

  lemma {:induction false} BelowAntisym(a: ProcId, b: ProcId)
    requires Below(a, b) && Below(b, a)
    ensures a == b
  {
    if a != [] {
      BelowAntisym(a[1..], b[1..]);
      assert a == [a[0]] + a[1..] && b == [b[0]] + b[1..];
    }
  }

  /** An id is below another if it is a prefix of it, or less at the first character that differs. */
  lemma {:induction false} BelowExactly(a: ProcId, b: ProcId)
    ensures Below(a, b) <==> a <= b || exists i :: LessAt(a, b, i)
  {
    if a != [] && b != [] && a[0] == b[0] {
      BelowExactly(a[1..], b[1..]);
      assert a == [a[0]] + a[1..] && b == [b[0]] + b[1..];
      if i :| LessAt(a[1..], b[1..], i) {
        assert a[..i + 1] == [a[0]] + a[1..][..i] && b[..i + 1] == [b[0]] + b[1..][..i];
        assert LessAt(a, b, i + 1);
      }
      if i :| LessAt(a, b, i) {
        assert a[1..][..i - 1] == a[..i][1..] && b[1..][..i - 1] == b[..i][1..];
        assert LessAt(a[1..], b[1..], i - 1);
      }
    } else if a != [] && b != [] && a[0] < b[0] {
      assert LessAt(a, b, 0);
    }
  }

  /** Ids `a` and `b` differ first at character `i`, and `a` has the lesser one. */
  predicate LessAt(a: ProcId, b: ProcId, i: int) {
    0 <= i < |a| && i < |b| && a[..i] == b[..i] && a[i] < b[i]
  }

  /** There is one first id only, so it is clear which proc `Pop` removes. */
  lemma FirstUnique(ids: set<ProcId>, p: ProcId, q: ProcId)
    requires IsFirst(ids, p) && IsFirst(ids, q)
    ensures p == q
  {
    BelowAntisym(p, q);
  }

  predicate InUse(ids: seq<ProcId>, procs: ProcTable) {
    exists p :: p in ids && p in procs
  }

  /** The first `made` of the procs have been started. */
  ghost predicate StartedSome(procs0: ProcMap, subs0: map<SubId, Sub>, ids: Keys, made: nat, procs: ProcMap,
      subs: map<SubId, Sub>)
    requires made <= |ids|
  {
    && procs.Keys == procs0.Keys + Ids(ids[..made])
    && (forall p :: p in procs ==> procs[p] == if p in procs0 then procs0[p] else true)
    && subs == Send(subs0, Starts(ids[..made]))
  }

  lemma StartedNone(procs: ProcMap, subs: map<SubId, Sub>, ids: Keys)
    ensures StartedSome(procs, subs, ids, 0, procs, subs)
  {
    SendNothing(subs);
    assert Starts(ids[..0]) == [];
  }

  lemma StartedNext(procs0: ProcMap, subs0: map<SubId, Sub>, ids: Keys, made: nat, procs: ProcMap,
      subs: map<SubId, Sub>)
    requires made < |ids| && ids[made] !in procs0 && StartedSome(procs0, subs0, ids, made, procs, subs)
    ensures StartedSome(procs0, subs0, ids, made + 1, procs[ids[made] := true], Send(subs, [Start(ids[made])]))
  {
    SendBoth(subs0, Starts(ids[..made]), [Start(ids[made])]);
    assert Starts(ids[..made + 1]) == Starts(ids[..made]) + [Start(ids[made])];
    assert Ids(ids[..made + 1]) == Ids(ids[..made]) + {ids[made]};
  }

  //----------------------------------------------------------------------------
  // The object

  /** Everyone who follows the notifications knows exactly `ids`. */
  ghost predicate Informed(subs: map<SubId, Sub>, ids: set<ProcId>) {
    forall k :: k in subs ==> FollowAll(subs[k].known, subs[k].queue) == ids
  }

  /** Every subscriber is sent `ns`. */
  function Send(subs: map<SubId, Sub>, ns: seq<Noti>): map<SubId, Sub> {
    map k | k in subs :: Sub(subs[k].known, subs[k].queue + ns)
  }

  lemma SendNothing(subs: map<SubId, Sub>)
    ensures Send(subs, []) == subs
  {
    assert forall k :: k in subs ==> subs[k].queue + [] == subs[k].queue;
  }

  lemma SendBoth(subs: map<SubId, Sub>, a: seq<Noti>, b: seq<Noti>)
    ensures Send(Send(subs, a), b) == Send(subs, a + b)
  {
    assert forall k :: k in subs ==> subs[k].queue + a + b == subs[k].queue + (a + b);
  }

  /** If `ns` leads from the procs that followers know to others, they then know those. */
  lemma SendInforms(subs: map<SubId, Sub>, ids: set<ProcId>, ns: seq<Noti>)
    requires Informed(subs, ids)
    ensures Informed(Send(subs, ns), FollowAll(ids, ns))
  {
    forall k | k in subs ensures FollowAll(subs[k].known, subs[k].queue + ns) == FollowAll(ids, ns) {
      FollowThen(subs[k].known, subs[k].queue, ns);
    }
  }

  /** Every subscriber finds `ns` at the end of its queue, and nothing else has changed for it. */
  predicate HaveHeard(before: map<SubId, Sub>, ns: seq<Noti>, after: map<SubId, Sub>) {
    && after.Keys == before.Keys
    && forall k :: k in after ==> after[k].known == before[k].known && after[k].queue == before[k].queue + ns
  }

  lemma SendHeard(subs: map<SubId, Sub>, ns: seq<Noti>)
    ensures HaveHeard(subs, ns, Send(subs, ns))
  {
  }

  /** Procs `ids` have been added to `before`, are running, and have been announced in their order. */
  ghost predicate NowRunning(before: ProcMap, heard: map<SubId, Sub>, ids: seq<ProcId>, after: ProcMap,
      hear: map<SubId, Sub>) {
    && after.Keys == before.Keys + (set p | p in ids)
    && (forall p :: p in after ==> after[p] == if p in before then before[p] else true)
    && exists ns :: && |ns| == |ids| && (forall i :: 0 <= i < |ns| ==> ns[i] == Start(ids[i]))
                    && HaveHeard(heard, ns, hear)
  }

  lemma StartedRunning(procs0: ProcMap, subs0: map<SubId, Sub>, ids: Keys, made: nat, procs: ProcMap,
      subs: map<SubId, Sub>)
    requires made <= |ids| && StartedSome(procs0, subs0, ids, made, procs, subs)
    ensures NowRunning(procs0, subs0, ids[..made], procs, subs)
    ensures made == 0 ==> HaveHeard(subs0, [], subs)
  {
    assert HaveHeard(subs0, Starts(ids[..made]), subs);
  }

  datatype RemoveError = ProcRunning | NoProcId

  class Procs {
    var procs: ProcTable
    var objs: seq<Obj>
    var subs: map<SubId, Sub>
    var shutdown: ShutdownState

    /** Between operations. */
    ghost predicate Valid()
      reads this
    {
      Settled(Now()) && Ranged(procs, objs) && Informed(subs, procs.Keys)
    }

    ghost function Now(): State
      reads this
    {
      State(procs, objs, shutdown)
    }

    /** Whether each proc is running. */
    ghost function Running(): ProcMap
      reads this
      requires Ranged(procs, objs)
    {
      View(procs, objs)
    }

    /** Operation `op` has been carried out, and the subscribers told. */
    twostate predicate Does(op: Op)
      reads this
    {
      Now() == Next(old(Now()), op).0 && subs == Send(old(subs), Next(old(Now()), op).1)
    }

    /** Every subscriber has been told `ns`. */
    twostate predicate Told(ns: seq<Noti>)
      reads this
    {
      HaveHeard(old(subs), ns, subs)
    }

    twostate lemma StaysValid(op: Op)
      requires old(Valid()) && Does(op)
      ensures Valid()
    {
      NextFollowed(old(Now()), op);
      NextView(old(Now()), op);
      SendInforms(old(subs), old(procs).Keys, Next(old(Now()), op).1);
    }

    constructor ()
      ensures Valid() && Now() == State(map[], [], Active) && subs == map[]
    {
      procs, objs, subs, shutdown := map[], [], map[], Active;
    }

    method Subscribe(k: SubId)
      requires Valid() && k !in subs
      modifies `subs
      ensures Valid() && subs == old(subs)[k := Sub(procs.Keys, [])]
    {
      subs := subs[k := Sub(procs.Keys, [])];
    }

    /** A subscriber reads its next notification. */
    method Recv(k: SubId) returns (n: Noti)
      requires Valid() && k in subs && subs[k].queue != []
      modifies `subs
      ensures Valid() && n == old(subs)[k].queue[0]
      ensures subs == old(subs)[k := Sub(Follow(old(subs)[k].known, n), old(subs)[k].queue[1..])]
    {
      var s := subs[k];
      n := s.queue[0];
      FollowThen(s.known, [n], s.queue[1..]);
      assert [n] + s.queue[1..] == s.queue;
      subs := subs[k := Sub(Follow(s.known, n), s.queue[1..])];
    }

    method Notify(n: Noti)
      modifies `subs
      ensures subs == Send(old(subs), [n])
    {
      subs := Send(subs, [n]);
    }

    /** `set_shutdown` and `check_idling` call each other, and this ends: the second call is made
        with Done. */
    method SetShutdown(state: ShutdownState)
      modifies `subs, `shutdown
      ensures Does(Request(state))
      decreases if state.Idling? then 1 else 0, 1
    {
      shutdown := state;
      Notify(Shutdown(state));
      CheckIdling();
      SendBoth(old(subs), [Shutdown(state)], WhenIdle(procs, state));
    }

    method CheckIdling()
      modifies `subs, `shutdown
      ensures shutdown == AfterCheck(procs, old(shutdown)) && subs == Send(old(subs), WhenIdle(procs, old(shutdown)))
      decreases if shutdown.Idling? then 1 else 0, 0
    {
      if procs == map[] && shutdown.Idling? {
        assert [Shutdown(Done)] + WhenIdle(procs, Done) == [Shutdown(Done)];
        SetShutdown(Done);
      } else {
        SendNothing(subs);
      }
    }

    /** A shutdown request, from any state to any state. */
    method RequestShutdown(state: ShutdownState)
      requires Valid()
      modifies `subs, `shutdown
      ensures Valid() && Does(Request(state))
      ensures procs == old(procs) && objs == old(objs)
      ensures if procs == map[] && state == Idling then shutdown == Done && Told([Shutdown(Idling), Shutdown(Done)])
              else shutdown == state && Told([Shutdown(state)])
    {
      SetShutdown(state);
      SendHeard(old(subs), [Shutdown(state)] + WhenIdle(procs, state));
      assert Valid() by { StaysValid(Request(state)); }
    }

    /** `insert`, of a new proc object. */
    method InsertProc(p: ProcId)
      requires Valid()
      modifies this
      ensures Valid() && Does(Insert(p))
      ensures Running() == old(Running())[p := true] && shutdown == old(shutdown)
      ensures subs == Send(old(subs), [Start(p)]) && Told([Start(p)])
    {
      procs := procs[p := |objs|];
      objs := objs + [Obj(p, true)];
      Notify(Start(p));
      NextView(old(Now()), Insert(p));
      StaysValid(Insert(p));
    }

    /** A proc object has wait info or an error now. */
    method StopProc(o: nat)
      requires Valid() && o < |objs|
      modifies this`objs
      ensures Valid() && Does(Stop(o))
      ensures procs == old(procs) && shutdown == old(shutdown) && |objs| == |old(objs)|
      ensures objs[o] == Obj(old(objs)[o].procId, false)
      ensures forall q :: 0 <= q < |objs| && q != o ==> objs[q] == old(objs)[q]
    {
      objs := objs[o := objs[o].(running := false)];
      SendNothing(subs);
      StaysValid(Stop(o));
    }

    /** The task of a proc object ends: this is announced under its id, and changes nothing. */
    method EndProc(o: nat)
      requires Valid() && o < |objs|
      modifies `subs
      ensures Valid() && Does(End(o)) && Told([NotRunning(objs[o].procId)])
    {
      Notify(NotRunning(objs[o].procId));
      StaysValid(End(o));
    }

    /** `remove_if_not_running`: the shutdown, if any, is announced before the deletion. */
    method RemoveIfNotRunning(p: ProcId) returns (e: Option<RemoveError>)
      requires Valid()
      modifies this
      ensures Valid() && Does(Remove(p))
      ensures e == if p !in old(procs) then Some(NoProcId) else if old(Running())[p] then Some(ProcRunning) else None
      ensures Running() == if e.None? then old(Running()) - {p} else old(Running())
      ensures if e.Some? then Now() == old(Now()) && Told([])
              else if procs == map[] && old(shutdown) == Idling
              then Told([Shutdown(Done), Delete(p)]) && shutdown == Done
              else Told([Delete(p)]) && shutdown == old(shutdown)
    {
      NextView(Now(), Remove(p));
      if p !in procs || objs[procs[p]].running {
        SendNothing(subs);
        return Some(if p in procs then ProcRunning else NoProcId);
      }
      Drop(p);
      StaysValid(Remove(p));
      e := None;
    }

    /** A proc is removed; the shutdown, if any, is announced before the deletion. */
    method Drop(p: ProcId)
      modifies this
      ensures procs == old(procs) - {p} && objs == old(objs) && shutdown == AfterCheck(procs, old(shutdown))
      ensures subs == Send(old(subs), WhenIdle(procs, old(shutdown)) + [Delete(p)])
      ensures if procs == map[] && old(shutdown) == Idling then Told([Shutdown(Done), Delete(p)])
              else Told([Delete(p)])
    {
      procs := procs - {p};
      CheckIdling();
      Notify(Delete(p));
      SendBoth(old(subs), WhenIdle(procs, old(shutdown)), [Delete(p)]);
    }

    /** So, and the deletion is announced first. */
    method Take(p: ProcId)
      modifies this
      ensures procs == old(procs) - {p} && objs == old(objs) && shutdown == AfterCheck(procs, old(shutdown))
      ensures subs == Send(old(subs), [Delete(p)] + WhenIdle(procs, old(shutdown)))
      ensures if procs == map[] && old(shutdown) == Idling then Told([Delete(p), Shutdown(Done)])
              else Told([Delete(p)])
    {
      procs := procs - {p};
      Notify(Delete(p));
      CheckIdling();
      SendBoth(old(subs), [Delete(p)], WhenIdle(procs, old(shutdown)));
    }

    /** `pop`: removes the first proc, running or not; the deletion is announced first. */
    method PopProc() returns (p: Option<ProcId>)
      requires Valid()
      modifies this
      ensures Valid() && (p.None? <==> old(procs) == map[])
      ensures if p.None? then Now() == old(Now()) && subs == old(subs)
              else IsFirst(old(procs).Keys, p.value) && Does(Pop(p.value))
      ensures p.Some? ==>
                && procs == old(procs) - {p.value} && objs == old(objs)
                && if procs == map[] && old(shutdown) == Idling
                   then Told([Delete(p.value), Shutdown(Done)]) && shutdown == Done
                   else Told([Delete(p.value)]) && shutdown == old(shutdown)
    {
      p := None;
      if procs == map[] {
        SendNothing(subs);
        CheckIdling();
        return;
      }
      var first := First(procs.Keys);
      Take(first);
      StaysValid(Pop(first));
      p := Some(first);
    }

    /** The first key of a map. */
    static method First(keys: set<ProcId>) returns (p: ProcId)
      requires keys != {}
      ensures IsFirst(keys, p)
    {
      p :| p in keys;
      BelowSelf(p);
      var rest := keys - {p};
      while rest != {}
        invariant p in keys && rest <= keys && forall q :: q in keys - rest ==> Below(p, q)
        decreases |rest|
      {
        var q :| q in rest;
        FirstNext(keys, rest, p, q);
        if !Below(p, q) {
          p := q;
        }
        rest := rest - {q};
      }
    }

    static lemma FirstNext(keys: set<ProcId>, rest: set<ProcId>, p: ProcId, q: ProcId)
      requires q in rest && rest <= keys && forall r :: r in keys - rest ==> Below(p, r)
      ensures Below(p, q) ==> forall r :: r in keys - (rest - {q}) ==> Below(p, r)
      ensures !Below(p, q) ==> forall r :: r in keys - (rest - {q}) ==> Below(q, r)
    {
      BelowTotal(p, q);
      BelowSelf(q);
      if !Below(p, q) {
        forall r | r in keys - rest ensures Below(q, r) {
          BelowTrans(q, p, r);
        }
      }
    }

    /** `collect_results`: removes all procs, and returns each id once. */
    method CollectResults() returns (ids: seq<ProcId>)
      requires Valid()
      modifies this
      ensures Valid() && Ids(ids) == old(procs).Keys && |ids| == |old(procs)| && IsSorted(ids) && Does(Collect(ids))
      ensures procs == map[] && objs == old(objs)
      ensures if old(shutdown) == Idling then Told(Deletes(ids) + [Shutdown(Done)]) && shutdown == Done
              else Told(Deletes(ids)) && shutdown == old(shutdown)
    {
      ids := Enumerate(procs.Keys);
      procs := map[];
      NotifyDeletes(ids);
      CheckIdling();
      SendBoth(old(subs), Deletes(ids), WhenIdle(procs, old(shutdown)));
      assert Valid() by { StaysValid(Collect(ids)); }
      SendHeard(old(subs), Deletes(ids) + WhenIdle(procs, old(shutdown)));
    }

    method NotifyDeletes(ids: seq<ProcId>)
      modifies `subs
      ensures subs == Send(old(subs), Deletes(ids))
    {
      SendNothing(subs);
      assert ids[..0] == [];
      for i := 0 to |ids|
        invariant subs == Send(old(subs), Deletes(ids[..i]))
      {
        Notify(Delete(ids[i]));
        OneDelete(old(subs), ids, i);
      }
      assert ids[..|ids|] == ids;
    }

    lemma OneDelete(before: map<SubId, Sub>, ids: seq<ProcId>, i: nat)
      requires i < |ids|
      ensures Send(Send(before, Deletes(ids[..i])), [Delete(ids[i])]) == Send(before, Deletes(ids[..i + 1]))
    {
      SendBoth(before, Deletes(ids[..i]), [Delete(ids[i])]);
      assert ids[..i + 1][..i] == ids[..i];
    }

    /** The keys of a map, in order. */
    static method Enumerate(keys: set<ProcId>) returns (ids: seq<ProcId>)
      ensures Ids(ids) == keys && |ids| == |keys| && IsSorted(ids)
    {
      ids := [];
      var rest := keys;
      while rest != {}
        invariant Ids(ids) + rest == keys && |ids| + |rest| == |keys| && SortedBefore(ids, rest)
        decreases |rest|
      {
        var p := First(rest);
        EnumerateNext(ids, rest, p);
        ids := ids + [p];
        rest := rest - {p};
      }
    }

    /** Nothing has changed, and nobody has been told anything. */
    twostate predicate Unchanged()
      reads this
    {
      Now() == old(Now()) && Told([])
    }

    /** The first `made` procs have been started, in order, are running, and have been announced. */
    twostate predicate Made(ids: Keys, made: nat)
      requires made <= |ids| && Ranged(procs, objs) && old(Ranged(procs, objs))
      reads this
    {
      shutdown == old(shutdown) && NowRunning(old(Running()), old(subs), ids[..made], Running(), subs)
    }

    /** `start_procs`, as far as the procs go: the checks, in order, and then one proc after the
        other.  `invalid`: the validator refuses the specs.  `failAt`: the first proc whose slice
        cannot be set up, if it is one of them. */
    method StartProcs(ids: Keys, invalid: bool, failAt: nat) returns (e: Option<string>, made: nat)
      requires Valid()
      modifies this
      ensures Valid() && made <= |ids| && shutdown == old(shutdown)
      ensures StartedSome(old(Running()), old(subs), ids, made, Running(), subs)
      ensures if InUse(ids, old(procs)) || invalid || !old(shutdown).Active?
              then made == 0 && e.Some?
              else made == (if failAt < |ids| then failAt else |ids|) && (e.Some? <==> failAt < |ids|)
      ensures made == 0 ==> Now() == old(Now())
    {
      StartedNone(Running(), subs, ids);
      if InUse(ids, procs) {
        return Some("duplicate proc id"), 0;
      }
      if invalid {
        return Some("invalid fds"), 0;
      }
      if !shutdown.Active? {
        return Some("shutting down"), 0;
      }
      made := StartUntil(ids, failAt);
      e := if made < |ids| then Some("slice") else None;
    }

    /** The loop of `start_procs`: up to the proc whose slice cannot be set up. */
    method StartUntil(ids: Keys, failAt: nat) returns (made: nat)
      requires Valid() && forall i :: 0 <= i < |ids| ==> ids[i] !in procs
      modifies this
      ensures Valid() && made == (if failAt < |ids| then failAt else |ids|) && shutdown == old(shutdown)
      ensures StartedSome(old(Running()), old(subs), ids, made, Running(), subs)
      ensures made == 0 ==> Now() == old(Now())
    {
      ghost var procs0, subs0 := Running(), subs;
      var n := if failAt < |ids| then failAt else |ids|;
      StartedNone(procs0, subs0, ids);
      for i := 0 to n
        invariant Valid() && shutdown == old(shutdown) && (i == 0 ==> Now() == old(Now()))
        invariant StartedSome(procs0, subs0, ids, i, Running(), subs)
      {
        StartNext(ids, i, procs0, subs0);
      }
      made := n;
    }

    method StartNext(ids: Keys, made: nat, ghost procs0: ProcMap, ghost subs0: map<SubId, Sub>)
      requires Valid() && made < |ids| && ids[made] !in procs0
      requires StartedSome(procs0, subs0, ids, made, Running(), subs)
      modifies this
      ensures Valid() && shutdown == old(shutdown) && StartedSome(procs0, subs0, ids, made + 1, Running(), subs)
    {
      StartedNext(procs0, subs0, ids, made, Running(), subs);
      InsertProc(ids[made]);
    }

    /** `handle_incoming`: what it does and answers, request by request; and this is what the protocol's
        agent may do and answer.  `refusal`: an error of the operation itself, such as a failed kill. */
    method HandleIncoming(r: Request, invalid: bool, failAt: nat, refusal: Option<string>, payload: string)
      returns (rsp: Option<Msg>, ghost notis: seq<Noti>)
      requires Valid()
      modifies this
      ensures Valid() && subs == Send(old(subs), notis)
      ensures Handles(old(Running()), r, Running(), notis, rsp)
      ensures match r
              case Registered => Unchanged() && rsp == Some(RequestError(r, "unexpected"))
              case StartRequest(ids) =>
                if InUse(ids, old(procs)) || invalid || old(shutdown) != Active then
                  Unchanged() && rsp.Some? && rsp.value.RequestError? && rsp.value.request == r
                else if failAt < |ids| then
                  Made(ids, failAt) && rsp.Some? && rsp.value.RequestError? && rsp.value.request == r
                else Made(ids, |ids|) && rsp.None?
              case ListRequest =>
                && Unchanged() && rsp.Some? && rsp.value.ProcidList? && IsSorted(rsp.value.ids)
                && (set p | p in rsp.value.ids) == procs.Keys && |rsp.value.ids| == |procs|
              case ResultRequest(p) =>
                Unchanged() && rsp == Some(if p in old(procs) then ProcResult(p, payload) else ProcUnknown(p))
              case SignalRequest(p, _) =>
                && Unchanged()
                && (p !in old(procs) ==> rsp == Some(ProcUnknown(p)))
                && (p in old(procs) ==>
                      rsp == if refusal.Some? then Some(RequestError(r, refusal.value)) else None)
              case FdDataRequest(p, fd, _, _) =>
                && Unchanged() && rsp.Some?
                && (Spec.ParseFd(fd).None? ==> rsp.value.RequestError? && rsp.value.request == r)
                && (Spec.ParseFd(fd).Some? && p !in old(procs) ==> rsp == Some(ProcUnknown(p)))
                && (Spec.ParseFd(fd).Some? && p in old(procs) ==>
                      rsp == Some(if refusal.Some? then RequestError(r, refusal.value) else ProcFdData(p, payload)))
              case DeleteRequest(p) =>
                if p !in old(procs) then Unchanged() && rsp == Some(ProcUnknown(p))
                else if old(Running())[p] then Unchanged() && rsp == Some(RequestError(r, "proc running"))
                else
                  && rsp.None? && Running() == old(Running()) - {p}
                  && if procs == map[] && old(shutdown) == Idling
                     then Told([Shutdown(Done), Delete(p)]) && shutdown == Done
                     else Told([Delete(p)]) && shutdown == old(shutdown)
    {
      notis := [];
      rsp := None;
      SendNothing(subs);
      match r
      case Registered => rsp := Some(RequestError(r, "unexpected"));
      case StartRequest(ids) =>
        ghost var made;
        rsp, notis, made := HandleStart(ids, invalid, failAt);
      case ListRequest =>
        var ids := Enumerate(procs.Keys);
        rsp := Some(ProcidList(ids));
      case ResultRequest(p) => rsp := Some(if p in procs then ProcResult(p, payload) else ProcUnknown(p));
      case SignalRequest(p, _) =>
        if p !in procs {
          rsp := Some(ProcUnknown(p));
        } else if refusal.Some? {
          rsp := Some(RequestError(r, refusal.value));
        }
      case FdDataRequest(p, fd, _, _) =>
        if Spec.ParseFd(fd).None? {
          rsp := Some(RequestError(r, "bad fd"));
        } else if p !in procs {
          rsp := Some(ProcUnknown(p));
        } else {
          rsp := Some(if refusal.Some? then RequestError(r, refusal.value) else ProcFdData(p, payload));
        }
      case DeleteRequest(p) => rsp, notis := HandleDelete(p);
    }

    method HandleStart(ids: Keys, invalid: bool, failAt: nat)
      returns (rsp: Option<Msg>, ghost notis: seq<Noti>, ghost made: nat)
      requires Valid()
      modifies this
      ensures Valid() && subs == Send(old(subs), notis)
      ensures Handles(old(Running()), StartRequest(ids), Running(), notis, rsp)
      ensures made <= |ids| && Made(ids, made) && (made == 0 ==> Unchanged())
      ensures rsp.Some? ==> rsp.value.RequestError? && rsp.value.request == StartRequest(ids)
      ensures if InUse(ids, old(procs)) || invalid || old(shutdown) != Active
              then made == 0 && rsp.Some?
              else made == (if failAt < |ids| then failAt else |ids|) && (rsp.Some? <==> failAt < |ids|)
    {
      var e, started := StartProcs(ids, invalid, failAt);
      made := started;
      notis := Starts(ids[..made]);
      assert ids[..|notis|] == ids[..made];
      StartedRunning(old(Running()), old(subs), ids, made, Running(), subs);
      rsp := if e.Some? then Some(RequestError(StartRequest(ids), e.value)) else None;
    }

    method HandleDelete(p: ProcId) returns (rsp: Option<Msg>, ghost notis: seq<Noti>)
      requires Valid()
      modifies this
      ensures Valid() && subs == Send(old(subs), notis)
      ensures Handles(old(Running()), DeleteRequest(p), Running(), notis, rsp)
      ensures if p !in old(procs) then Unchanged() && rsp == Some(ProcUnknown(p))
              else if old(Running())[p] then Unchanged() && rsp == Some(RequestError(DeleteRequest(p), "proc running"))
              else
                && rsp.None? && Running() == old(Running()) - {p}
                && if procs == map[] && old(shutdown) == Idling
                   then Told([Shutdown(Done), Delete(p)]) && shutdown == Done
                   else Told([Delete(p)]) && shutdown == old(shutdown)
    {
      var e := RemoveIfNotRunning(p);
      notis := Next(old(Now()), Remove(p)).1;
      rsp := None;
      if e == Some(NoProcId) {
        rsp := Some(ProcUnknown(p));
      } else if e == Some(ProcRunning) {
        rsp := Some(RequestError(DeleteRequest(p), "proc running"));
      }
    }

    /** `notification_to_message`: the result of a proc that has started or ended, if it is still there
        when the notification is sent. */
    method NotificationToMessage(n: Noti, payload: string) returns (m: Option<Msg>)
      requires Valid()
      ensures Becomes(Running(), n, m)
      ensures match n
              case Start(p) => m == if p in procs then Some(ProcResult(p, payload)) else None
              case NotRunning(p) => m == if p in procs then Some(ProcResult(p, payload)) else None
              case Delete(p) => m == Some(ProcDelete(p))
              case Shutdown(state) => m == Some(ShutDown(state))
    {
      match n
      case Start(p) => m := if p in procs then Some(ProcResult(p, payload)) else None;
      case NotRunning(p) => m := if p in procs then Some(ProcResult(p, payload)) else None;
      case Delete(p) => m := Some(ProcDelete(p));
      case Shutdown(state) => m := Some(ShutDown(state));
    }
  }
}
