/** Waiting until no procs remain, or none are running (`wait_idle`, `wait_running` in
    src/procs.rs), while procs are started, end and are deleted, also under the same ids.  An
    action is what happens between two awaits. */
module Waiting {
  import opened Proto
  import opened Agent
  import S = SharedProcs

  /** A waiter waits for a proc to be deleted, or for proc object `obj`, which it has seen
      running, to end. */
  datatype Wait = ForDelete(procId: ProcId) | ForEnd(procId: ProcId, obj: nat)

  /** `sp`: the procs.  `ended`: the proc objects whose tasks have ended, and announced that they are not
      running.  `queues` are what the waiters have not read. */
  datatype State = State(sp: S.State, ended: set<nat>, queues: map<S.SubId, seq<Noti>>, waits: map<S.SubId, Wait>)

  datatype Action =
    | Do(op: S.Op)
    | WaitIdle(sub: S.SubId, first: ProcId)
    | WaitRunning(sub: S.SubId, first: ProcId)
    | Wake(sub: S.SubId, first: ProcId)

  const INIT := State(S.State(map[], [], Active), {}, map[], map[])

  function Tell(s: State, ns: seq<Noti>): State {
    s.(queues := map k | k in s.queues :: s.queues[k] + ns)
  }

  predicate Running(s: State, p: ProcId) {
    p in s.sp.procs && s.sp.procs[p] < |s.sp.objs| && s.sp.objs[s.sp.procs[p]].running
  }

  predicate AnyRunning(s: State) {
    exists q :: q in s.sp.procs && Running(s, q)
  }

  function Leave(s: State, k: S.SubId): State {
    s.(queues := s.queues - {k}, waits := s.waits - {k})
  }

  /** Waiter `k` looks for a proc of the kind it waits for, and waits for the first one, `p`;
      with none there, it returns.  `p` must be as said. */
  function LookIdle(s: State, k: S.SubId, queue: seq<Noti>, p: ProcId): State {
    if s.sp.procs == map[] then Leave(s, k)
    else if p in s.sp.procs then s.(queues := s.queues[k := queue], waits := s.waits[k := ForDelete(p)])
    else s
  }

  function LookRunning(s: State, k: S.SubId, queue: seq<Noti>, p: ProcId): State {
    if !AnyRunning(s) then Leave(s, k)
    else if Running(s, p) then s.(queues := s.queues[k := queue], waits := s.waits[k := ForEnd(p, s.sp.procs[p])])
    else s
  }

  /** Whether a waiter stops waiting when it reads `n`. */
  predicate Wakes(w: Wait, n: Noti) {
    n == Delete(w.procId) || (w.ForEnd? && n == NotRunning(w.procId))
  }

  /** The task of a proc object ends once, after the object has stopped running. */
  predicate CanEnd(s: State, o: nat) {
    o < |s.sp.objs| && !s.sp.objs[o].running && o !in s.ended
  }

  /** An operation on the procs, of which the waiters are told. */
  function DoOp(s: State, op: S.Op): State {
    var (sp, ns) := S.Next(s.sp, op);
    Tell(s.(sp := sp, ended := if op.End? then s.ended + {op.obj} else s.ended), ns)
  }

  /** One action; a disabled one does nothing. */
  function Step(s: State, a: Action): State {
    match a
    case Do(op) => if op.End? && !CanEnd(s, op.obj) then s else DoOp(s, op)
    case WaitIdle(k, p) => if k !in s.queues then LookIdle(s, k, [], p) else s
    case WaitRunning(k, p) => if k !in s.queues then LookRunning(s, k, [], p) else s
    case Wake(k, p) =>
      if k !in s.waits || k !in s.queues || s.queues[k] == [] then s
      else
        var rest := s.queues[k][1..];
        if !Wakes(s.waits[k], s.queues[k][0]) then s.(queues := s.queues[k := rest])
        else if s.waits[k].ForDelete? then LookIdle(s, k, rest, p)
        else LookRunning(s, k, rest, p)
  }

  /** What waiter `k` waits for is still to come: the proc is there, or its deletion is unread; the
      proc object it saw has not ended, or its end or deletion is unread. */
  predicate ToCome(s: State, k: S.SubId)
    requires k in s.waits && k in s.queues
  {
    match s.waits[k]
    case ForDelete(p) => p in s.sp.procs || Delete(p) in s.queues[k]
    case ForEnd(p, o) =>
      && o < |s.sp.objs| && s.sp.objs[o].procId == p
      && (o !in s.ended || NotRunning(p) in s.queues[k] || Delete(p) in s.queues[k])
  }

  predicate Inv(s: State) {
    && s.waits.Keys == s.queues.Keys
    && S.Ranged(s.sp.procs, s.sp.objs)
    && (forall o :: o in s.ended ==> o < |s.sp.objs| && !s.sp.objs[o].running)
    && (forall k :: k in s.waits ==> ToCome(s, k))
  }

  lemma {:induction false} DeletesAll(ids: seq<ProcId>, p: ProcId)
    requires p in ids
    ensures Delete(p) in S.Deletes(ids)
  {
    if p != ids[|ids| - 1] {
      DeletesAll(ids[..|ids| - 1], p);
    }
  }

  /** What is removed is announced, and so is what ends; proc objects keep their ids, and those that do
      not run never do again. */
  lemma OpTells(sp: S.State, op: S.Op)
    requires S.Ranged(sp.procs, sp.objs)
    ensures var (t, ns) := S.Next(sp, op);
            && S.Ranged(t.procs, t.objs) && |sp.objs| <= |t.objs|
            && (forall p :: p in sp.procs && p !in t.procs ==> Delete(p) in ns)
            && (op.End? && op.obj < |sp.objs| ==> NotRunning(sp.objs[op.obj].procId) in ns)
            && (forall o :: 0 <= o < |sp.objs| ==>
                  t.objs[o].procId == sp.objs[o].procId && (t.objs[o].running ==> sp.objs[o].running))
  {
    S.NextView(sp, op);
    if op.Collect? {
      forall p | p in sp.procs && S.Ids(op.ids) == sp.procs.Keys ensures Delete(p) in S.Deletes(op.ids) {
        assert p in S.Ids(op.ids);
        DeletesAll(op.ids, p);
      }
    }
  }

  /** Reading a notification that does not wake the waiter loses nothing. */
  lemma StillUnread(queue: seq<Noti>, n: Noti)
    requires queue != [] && n in queue && n != queue[0]
    ensures n in queue[1..]
  {
    assert queue == [queue[0]] + queue[1..];
  }

  lemma StepInv(s: State, a: Action)
    requires Inv(s)
    ensures Inv(Step(s, a))
  {
    match a
    case Do(op) => if !op.End? || CanEnd(s, op.obj) { OpInv(s, op); }
    case Wake(k, p) => WakeInv(s, k, p);
    case WaitIdle(_, _) | WaitRunning(_, _) => WaitInv(s, a);
  }

  lemma OpInv(s: State, op: S.Op)
    requires Inv(s) && (op.End? ==> CanEnd(s, op.obj))
    ensures Inv(DoOp(s, op))
  {
    OpTells(s.sp, op);
    var t := DoOp(s, op);
    forall k | k in t.waits ensures ToCome(t, k) {
      assert ToCome(s, k);
    }
  }

  lemma WaitInv(s: State, a: Action)
    requires Inv(s) && (a.WaitIdle? || a.WaitRunning?)
    ensures Inv(Step(s, a))
  {
    var t := Step(s, a);
    forall k | k in t.waits ensures ToCome(t, k) {
      if k in s.waits {
        assert ToCome(s, k);
      }
    }
  }

  lemma WakeInv(s: State, k: S.SubId, p: ProcId)
    requires Inv(s)
    ensures Inv(Step(s, Wake(k, p)))
  {
    if k in s.waits && s.queues[k] != [] {
      var t := Step(s, Wake(k, p));
      forall j | j in t.waits ensures ToCome(t, j) {
        assert ToCome(s, j);
        if j == k && !Wakes(s.waits[k], s.queues[k][0]) {
          var q := s.waits[k].procId;
          if Delete(q) in s.queues[k] {
            StillUnread(s.queues[k], Delete(q));
          }
          if s.waits[k].ForEnd? && NotRunning(q) in s.queues[k] {
            StillUnread(s.queues[k], NotRunning(q));
          }
        }
      }
    }
  }

  function Run(actions: seq<Action>): State {
    if actions == [] then INIT else Step(Run(actions[..|actions| - 1]), actions[|actions| - 1])
  }

  lemma {:induction false} RunInv(actions: seq<Action>)
    ensures Inv(Run(actions))
  {
    if actions != [] {
      RunInv(actions[..|actions| - 1]);
      StepInv(Run(actions[..|actions| - 1]), actions[|actions| - 1]);
    }
  }

  //----------------------------------------------------------------------------
  // Main results

  /** In every run: if a waiter waits for the deletion of a proc that is not there, the deletion is
      in its queue. */
  lemma DeletionNotMissed(actions: seq<Action>, k: S.SubId)
    requires k in Run(actions).waits && Run(actions).waits[k].ForDelete?
    ensures var s := Run(actions);
            k in s.queues && (s.waits[k].procId !in s.sp.procs ==> Delete(s.waits[k].procId) in s.queues[k])
  {
    RunInv(actions);
    assert ToCome(Run(actions), k);
  }

  /** In every run: if a waiter waits for a proc object to end, the object has not announced its
      end, or that or a deletion is in its queue. */
  lemma EndNotMissed(actions: seq<Action>, k: S.SubId)
    requires k in Run(actions).waits && Run(actions).waits[k].ForEnd?
    ensures var s := Run(actions);
            var p, o := s.waits[k].procId, s.waits[k].obj;
            && k in s.queues && o < |s.sp.objs| && s.sp.objs[o].procId == p
            && (o in s.ended ==> NotRunning(p) in s.queues[k] || Delete(p) in s.queues[k])
  {
    RunInv(actions);
    assert ToCome(Run(actions), k);
  }

  /** A waiter that begins to wait for no procs to remain does wait if there are procs, for the first of
      them to be deleted, and otherwise returns at once. */
  lemma WaitIdleBegins(s: State, k: S.SubId, first: ProcId)
    requires Inv(s) && k !in s.queues && (s.sp.procs == map[] || first in s.sp.procs)
    ensures var t := Step(s, WaitIdle(k, first));
            && t.sp == s.sp && t.ended == s.ended
            && t.waits == (if s.sp.procs.Keys == {} then s.waits else s.waits[k := ForDelete(first)])
            && t.queues == (if s.sp.procs.Keys == {} then s.queues else s.queues[k := []])
  {
    assert s.waits - {k} == s.waits && s.queues - {k} == s.queues;
  }

  /** One that begins to wait for no procs to be running waits if one is, for the first to end. */
  lemma WaitRunningBegins(s: State, k: S.SubId, first: ProcId)
    requires Inv(s) && k !in s.queues && (AnyRunning(s) ==> Running(s, first))
    ensures var t := Step(s, WaitRunning(k, first));
            var some := exists p :: p in s.sp.procs && s.sp.objs[s.sp.procs[p]].running;
            && t.sp == s.sp && t.ended == s.ended
            && (!some ==> t == s)
            && (some ==> && t.waits == s.waits[k := ForEnd(first, s.sp.procs[first])]
                         && t.queues == s.queues[k := []])
  {
    assert s.waits - {k} == s.waits && s.queues - {k} == s.queues;
    if p :| p in s.sp.procs && s.sp.objs[s.sp.procs[p]].running {
      assert Running(s, p);
    }
  }

  /** A waiter returns only when no procs remain, or none are running. */
  lemma ReturnsWhenDone(actions: seq<Action>, a: Action, k: S.SubId)
    requires k in Run(actions).waits && k !in Step(Run(actions), a).waits
    ensures var s, t := Run(actions), Step(Run(actions), a);
            t.sp.procs == s.sp.procs
            && if s.waits[k].ForDelete? then t.sp.procs == map[] else !AnyRunning(t)
  {
    RunInv(actions);
    if a.Wake? && a.sub == k {
    } else {
      OthersStay(Run(actions), a, k);
    }
  }

  lemma OthersStay(s: State, a: Action, k: S.SubId)
    requires Inv(s) && k in s.waits && !(a.Wake? && a.sub == k)
    ensures k in Step(s, a).waits
  {
  }

  /** `n` times, waiter `k` reads what is next. */
  function WakeTimes(s: State, k: S.SubId, first: ProcId, n: nat): State
    decreases n
  {
    if n == 0 then s else WakeTimes(Step(s, Wake(k, first)), k, first, n - 1)
  }

  /** A waiter whose proc has gone is not blocked: it reads on as far as the deletion, at the
      latest, and looks again, for whichever proc is then first; and so it returns, or waits for a
      proc that is there. */
  lemma {:induction false} DeletedUnblocks(s: State, k: S.SubId, first: ProcId)
    requires Inv(s) && k in s.waits && s.waits[k].ForDelete? && s.waits[k].procId !in s.sp.procs
    requires s.sp.procs == map[] || first in s.sp.procs
    ensures exists n :: 0 < n <= |s.queues[k]|
                        && var t := WakeTimes(s, k, first, n);
                           t.sp.procs == s.sp.procs
                           && if s.sp.procs == map[] then k !in t.waits
                              else k in t.waits && t.waits[k] == ForDelete(first)
    decreases |s.queues[k]|
  {
    assert ToCome(s, k);
    var t := Step(s, Wake(k, first));
    assert WakeTimes(t, k, first, 0) == t;
    if Wakes(s.waits[k], s.queues[k][0]) {
      assert WakeTimes(s, k, first, 1) == t;
    } else {
      WakeInv(s, k, first);
      DeletedUnblocks(t, k, first);
      var n :| 0 < n <= |t.queues[k]|
               && var u := WakeTimes(t, k, first, n);
                  u.sp.procs == t.sp.procs
                  && if t.sp.procs == map[] then k !in u.waits
                     else k in u.waits && u.waits[k] == ForDelete(first);
      assert WakeTimes(s, k, first, n + 1) == WakeTimes(t, k, first, n);
    }
  }

  /** Nor is a waiter whose proc object has announced its end: it looks again, and so it returns,
      or waits for a proc that is running. */
  lemma {:induction false} EndedUnblocks(s: State, k: S.SubId, first: ProcId)
    requires Inv(s) && k in s.waits && s.waits[k].ForEnd? && s.waits[k].obj < |s.sp.objs| && s.waits[k].obj in s.ended
    requires AnyRunning(s) ==> Running(s, first)
    ensures exists n :: 0 < n <= |s.queues[k]|
                        && var t := WakeTimes(s, k, first, n);
                           t.sp.procs == s.sp.procs && t.sp.objs == s.sp.objs
                           && if Running(s, first) then k in t.waits && t.waits[k] == ForEnd(first, s.sp.procs[first])
                              else k !in t.waits
    decreases |s.queues[k]|
  {
    assert ToCome(s, k);
    var t := Step(s, Wake(k, first));
    assert WakeTimes(t, k, first, 0) == t;
    if Wakes(s.waits[k], s.queues[k][0]) {
      assert WakeTimes(s, k, first, 1) == t;
    } else {
      WakeInv(s, k, first);
      EndedUnblocks(t, k, first);
      var n :| 0 < n <= |t.queues[k]|
               && var u := WakeTimes(t, k, first, n);
                  u.sp.procs == t.sp.procs && u.sp.objs == t.sp.objs
                  && if Running(t, first) then k in u.waits && u.waits[k] == ForEnd(first, t.sp.procs[first])
                     else k !in u.waits;
      assert WakeTimes(s, k, first, n + 1) == WakeTimes(t, k, first, n);
    }
  }
}
