/** Signals, reaping and finalisation of procs (src/sig.rs, src/procs.rs), with a kernel that
    reuses pids.  An action is what happens between two awaits. */
module Reaping {
  import opened Proto

  type Pid = nat

  /** What the task that waits for a proc does: it waits for a version of its batch's watch
      channel that it has not seen, or for the proc's units to be finalised, or it has ended. */
  datatype Waiter = Idle(seen: nat) | Finalizing | Ended

  /** A proc.  `attached`: it is registered and its task runs, which is so only after its slice
      has been set up.  `failed`: it has errors.  `recorded`: it has wait info.  `present`: it is
      in the map of procs. */
  datatype Proc = Proc(
    pid: Pid, batch: nat, attached: bool, waiter: Waiter, reaped: bool, recorded: bool, failed: bool, present: bool)

  /** The procs started together share a watcher.  `version`: of its watch channel.  `sending`:
      the watcher still runs.  `pending`: its signal stream has something to read.  `starting`:
      `start_procs` has not returned. */
  datatype Batch = Batch(version: nat, sending: bool, pending: bool, starting: bool)

  /** A child of the agent that has not been reaped: of which proc it is the process. */
  datatype Child = Child(proc: nat, dead: bool)

  /** `signal`: a SIGCHLD is pending; there is never more than one.  `others`: pids of processes
      that are not children.  `reaps`: the procs reaped, in order. */
  datatype State = State(
    procs: seq<Proc>, batches: seq<Batch>, children: map<Pid, Child>, others: set<Pid>, signal: bool, reaps: seq<nat>)

  datatype Action =
    | NewBatch
    | Fork(batch: nat, pid: Pid)
    | Attach(proc: nat)
    | EndBatch(batch: nat)
    | Exit(pid: Pid)
    | Appear(pid: Pid)
    | Disappear(pid: Pid)
    | Spurious
    | Deliver
    | Watch(batch: nat)
    | Wake(proc: nat)
    | Finalize(proc: nat)
    | Report(proc: nat, errors: bool)
    | Delete(proc: nat)

  const INIT := State([], [], map[], {}, false, [])

  datatype ProcState = Running | Error | Terminated

  /** `get_state`. */
  function StateOf(p: Proc): ProcState {
    if p.failed then Error else if !p.recorded then Running else Terminated
  }

  /** A receiver of the batch's watch channel exists: that of `start_procs`, of which the others
      are clones, or that of a task. */
  predicate Received(s: State, b: nat)
    requires b < |s.batches|
  {
    s.batches[b].starting || exists o :: 0 <= o < |s.procs| && Receives(s.procs[o], b)
  }

  predicate Receives(p: Proc, b: nat) {
    p.batch == b && p.attached && !p.waiter.Ended?
  }

  /** Proc `o` is reaped: its waiter is the one that got its status. */
  function Reap(s: State, o: nat): State
    requires o < |s.procs|
  {
    s.(procs := s.procs[o := s.procs[o].(waiter := Finalizing, reaped := true)],
       children := s.children - {s.procs[o].pid}, reaps := s.reaps + [o])
  }

  /** A waiter sees a new version, and tries to reap its proc. */
  function DoWake(s: State, o: nat): State
    requires o < |s.procs| && s.procs[o].batch < |s.batches|
  {
    var p := s.procs[o];
    if p.pid in s.children && s.children[p.pid].dead then Reap(s, o)
    else s.(procs := s.procs[o := p.(waiter := Idle(s.batches[p.batch].version))])
  }

  /** A watcher passes a signal on; it ends if there is nobody to pass it to. */
  function DoWatch(s: State, b: nat): State
    requires b < |s.batches|
  {
    var v := s.batches[b];
    s.(batches := s.batches[b := if Received(s, b) then v.(pending := false, version := v.version + 1)
                                 else v.(pending := false, sending := false)])
  }

  /** Every signal stream is told that there was a signal. */
  function DoDeliver(s: State): State {
    s.(signal := false,
       batches := seq(|s.batches|, b requires 0 <= b < |s.batches| => s.batches[b].(pending := s.batches[b].sending)))
  }

  predicate Known(s: State, o: nat) {
    o < |s.procs| && s.procs[o].batch < |s.batches|
  }

  /** A waiter has something to see. */
  predicate Unseen(s: State, o: nat)
    requires Known(s, o)
  {
    s.procs[o].waiter.Idle? && s.procs[o].waiter.seen < s.batches[s.procs[o].batch].version
  }

  /** One action; a disabled one does nothing. */
  function Step(s: State, a: Action): State {
    match a
    case NewBatch => s.(batches := s.batches + [Batch(0, true, false, true)])
    case Fork(b, pid) =>
      if b < |s.batches| && s.batches[b].starting && pid !in s.children && pid !in s.others then
        s.(procs := s.procs + [Proc(pid, b, false, Idle(0), false, false, false, false)],
           children := s.children[pid := Child(|s.procs|, false)])
      else s
    case Attach(o) =>
      if Known(s, o) && s.batches[s.procs[o].batch].starting && !s.procs[o].attached then
        s.(procs := s.procs[o := s.procs[o].(attached := true, present := true)])
      else s
    case EndBatch(b) => if b < |s.batches| then s.(batches := s.batches[b := s.batches[b].(starting := false)]) else s
    case Exit(pid) =>
      if pid in s.children then s.(children := s.children[pid := s.children[pid].(dead := true)], signal := true) else s
    case Appear(pid) => if pid !in s.children then s.(others := s.others + {pid}) else s
    case Disappear(pid) => s.(others := s.others - {pid})
    case Spurious => s.(signal := true)
    case Deliver => if s.signal then DoDeliver(s) else s
    case Watch(b) => if b < |s.batches| && s.batches[b].sending && s.batches[b].pending then DoWatch(s, b) else s
    case Wake(o) => if Known(s, o) && s.procs[o].attached && Unseen(s, o) then DoWake(s, o) else s
    case Finalize(o) =>
      if o < |s.procs| && s.procs[o].waiter.Finalizing? then
        s.(procs := s.procs[o := s.procs[o].(waiter := Ended, recorded := true)])
      else s
    case Report(o, errors) =>
      if o < |s.procs| then s.(procs := s.procs[o := s.procs[o].(failed := s.procs[o].failed || errors)]) else s
    case Delete(o) =>
      if o < |s.procs| && StateOf(s.procs[o]) != Running then
        s.(procs := s.procs[o := s.procs[o].(present := false)])
      else s
  }

  //----------------------------------------------------------------------------
  // The invariant

  /** The children are the processes of the procs that have not been reaped, one each. */
  predicate Owned(s: State) {
    && (forall o :: 0 <= o < |s.procs| && !s.procs[o].reaped ==>
          s.procs[o].pid in s.children && s.children[s.procs[o].pid].proc == o)
    && (forall pid :: pid in s.children ==>
          && s.children[pid].proc < |s.procs|
          && s.procs[s.children[pid].proc].pid == pid && !s.procs[s.children[pid].proc].reaped)
    && s.children.Keys !! s.others
  }

  /** The record of a proc agrees with what its waiter has done. */
  predicate Recorded(p: Proc) {
    && (p.waiter.Idle? <==> !p.reaped)
    && (p.waiter.Ended? <==> p.recorded)
    && (p.attached && !p.present ==> p.failed || (p.reaped && p.recorded))
  }

  /** A batch with receivers has a sender, which is never behind a receiver. */
  predicate Sending(s: State) {
    && (forall b :: 0 <= b < |s.batches| && s.batches[b].starting ==> s.batches[b].sending)
    && (forall o :: 0 <= o < |s.procs| ==>
          s.procs[o].batch < |s.batches| && Follows(s.procs[o], s.batches[s.procs[o].batch]))
  }

  predicate Follows(p: Proc, b: Batch) {
    && (p.attached && !p.waiter.Ended? ==> b.sending)
    && (p.waiter.Idle? ==> p.waiter.seen <= b.version)
  }

  /** The waiter of proc `o` is idle, or will be when the proc is attached. */
  predicate MayWait(s: State, o: nat)
    requires Known(s, o)
  {
    s.procs[o].waiter.Idle? && (s.procs[o].attached || s.batches[s.procs[o].batch].starting)
  }

  /** A dead child that is waited for is yet to be noticed. */
  predicate ToNotice(s: State, o: nat)
    requires Known(s, o)
  {
    MayWait(s, o) && s.procs[o].pid in s.children && s.children[s.procs[o].pid].dead ==>
      s.signal || s.batches[s.procs[o].batch].pending || Unseen(s, o)
  }

  predicate Noticed(s: State)
    requires Sending(s)
  {
    forall o :: 0 <= o < |s.procs| ==> ToNotice(s, o)
  }

  predicate Inv(s: State) {
    && Owned(s) && Sending(s) && Noticed(s)
    && forall o :: 0 <= o < |s.procs| ==> Recorded(s.procs[o])
  }

  //----------------------------------------------------------------------------
  // Each action keeps the invariant

  lemma ForkInv(s: State, b: nat, pid: Pid)
    requires Inv(s)
    ensures Inv(Step(s, Fork(b, pid)))
  {
    var t := Step(s, Fork(b, pid));
    forall o | 0 <= o < |t.procs| ensures ToNotice(t, o) {
      if o < |s.procs| {
        assert ToNotice(s, o);
      }
    }
  }

  lemma BatchInv(s: State, a: Action)
    requires Inv(s) && (a.NewBatch? || a.EndBatch?)
    ensures Inv(Step(s, a))
  {
    var t := Step(s, a);
    forall o | 0 <= o < |t.procs| ensures ToNotice(t, o) {
      assert ToNotice(s, o);
    }
  }

  lemma KernelInv(s: State, a: Action)
    requires Inv(s) && (a.Exit? || a.Appear? || a.Disappear? || a.Spurious?)
    ensures Inv(Step(s, a))
  {
    var t := Step(s, a);
    forall o | 0 <= o < |t.procs| ensures ToNotice(t, o) {
      assert ToNotice(s, o);
    }
  }

  /** An action that changes one proc, but neither its pid nor whether it has been reaped. */
  lemma ProcInv(s: State, o: nat, p: Proc)
    requires Inv(s) && o < |s.procs|
    requires p.pid == s.procs[o].pid && p.batch == s.procs[o].batch && p.reaped == s.procs[o].reaped && Recorded(p)
    requires !p.waiter.Ended? && p.attached ==> s.batches[p.batch].sending
    requires p.waiter.Idle? ==> p.waiter == s.procs[o].waiter
    requires p.attached && p.waiter.Idle? ==> MayWait(s, o)
    ensures Inv(s.(procs := s.procs[o := p]))
  {
    var t := s.(procs := s.procs[o := p]);
    forall q | 0 <= q < |t.procs| ensures ToNotice(t, q) {
      assert ToNotice(s, q);
    }
  }

  lemma AttachInv(s: State, o: nat)
    requires Inv(s)
    ensures Inv(Step(s, Attach(o)))
  {
    if Known(s, o) && s.batches[s.procs[o].batch].starting && !s.procs[o].attached {
      assert Recorded(s.procs[o]);
      ProcInv(s, o, s.procs[o].(attached := true, present := true));
    }
  }

  lemma FinalizeInv(s: State, o: nat)
    requires Inv(s)
    ensures Inv(Step(s, Finalize(o)))
  {
    if o < |s.procs| && s.procs[o].waiter.Finalizing? {
      assert Recorded(s.procs[o]);
      ProcInv(s, o, s.procs[o].(waiter := Ended, recorded := true));
    }
  }

  lemma RecordInv(s: State, a: Action)
    requires Inv(s) && (a.Report? || a.Delete?)
    ensures Inv(Step(s, a))
  {
    if a.proc < |s.procs| {
      assert Recorded(s.procs[a.proc]);
      if a.Report? {
        ProcInv(s, a.proc, s.procs[a.proc].(failed := s.procs[a.proc].failed || a.errors));
      } else if StateOf(s.procs[a.proc]) != Running {
        ProcInv(s, a.proc, s.procs[a.proc].(present := false));
      }
    }
  }

  lemma DeliverInv(s: State)
    requires Inv(s)
    ensures Inv(Step(s, Deliver))
  {
    var t := Step(s, Deliver);
    forall o | 0 <= o < |t.procs| ensures ToNotice(t, o) {
      assert ToNotice(s, o);
      assert Recorded(s.procs[o]);
    }
  }

  /** A watcher that ends has nobody who waits. */
  lemma WatchInv(s: State, b: nat)
    requires Inv(s)
    ensures Inv(Step(s, Watch(b)))
  {
    var t := Step(s, Watch(b));
    if b < |s.batches| && s.batches[b].sending && s.batches[b].pending {
      forall o | 0 <= o < |t.procs|
        ensures ToNotice(t, o) && Follows(t.procs[o], t.batches[t.procs[o].batch])
      {
        assert ToNotice(s, o) && Recorded(s.procs[o]) && Follows(s.procs[o], s.batches[s.procs[o].batch]);
        assert s.procs[o].batch == b && s.procs[o].attached && !s.procs[o].waiter.Ended? ==> Receives(s.procs[o], b);
      }
    }
  }

  lemma WakeInv(s: State, o: nat)
    requires Inv(s)
    ensures Inv(Step(s, Wake(o)))
  {
    if Known(s, o) && s.procs[o].attached && Unseen(s, o) {
      var p := s.procs[o];
      assert Recorded(p);
      if s.children[p.pid].dead {
        ReapInv(s, o);
      } else {
        SeenInv(s, o);
      }
    }
  }

  lemma SeenInv(s: State, o: nat)
    requires Inv(s) && Known(s, o) && s.procs[o].attached && s.procs[o].waiter.Idle? && !s.children[s.procs[o].pid].dead
    ensures Inv(DoWake(s, o))
  {
    var t := DoWake(s, o);
    assert Recorded(s.procs[o]);
    forall q | 0 <= q < |t.procs| ensures ToNotice(t, q) {
      assert ToNotice(s, q);
    }
  }

  lemma ReapInv(s: State, o: nat)
    requires Inv(s) && Known(s, o) && s.procs[o].attached && s.procs[o].waiter.Idle?
    ensures Inv(Reap(s, o))
  {
    var t := Reap(s, o);
    assert Recorded(s.procs[o]);
    forall q | 0 <= q < |t.procs| ensures ToNotice(t, q) {
      assert ToNotice(s, q);
    }
  }

  lemma StepInv(s: State, a: Action)
    requires Inv(s)
    ensures Inv(Step(s, a))
  {
    match a
    case NewBatch | EndBatch(_) => BatchInv(s, a);
    case Fork(b, pid) => ForkInv(s, b, pid);
    case Attach(o) => AttachInv(s, o);
    case Exit(_) | Appear(_) | Disappear(_) | Spurious => KernelInv(s, a);
    case Deliver => DeliverInv(s);
    case Watch(b) => WatchInv(s, b);
    case Wake(o) => WakeInv(s, o);
    case Finalize(o) => FinalizeInv(s, o);
    case Report(_, _) | Delete(_) => RecordInv(s, a);
  }

  /** The state that a sequence of actions leads to from `s`. */
  function Steps(s: State, actions: seq<Action>): State {
    if actions == [] then s else Step(Steps(s, actions[..|actions| - 1]), actions[|actions| - 1])
  }

  /** The state after a run. */
  function Run(actions: seq<Action>): State {
    Steps(INIT, actions)
  }

  lemma {:induction false} RunInv(actions: seq<Action>)
    ensures Inv(Run(actions))
  {
    if actions != [] {
      RunInv(actions[..|actions| - 1]);
      StepInv(Run(actions[..|actions| - 1]), actions[|actions| - 1]);
    }
  }

  //----------------------------------------------------------------------------
  // Main results

  /** In every run, a dead child whose task is idle is yet to be noticed: a signal is pending, in
      the kernel or in the stream of its batch, or its task has not seen the last version.  So
      signals that coalesce lose no child. */
  lemma DeadChildNoticed(actions: seq<Action>, o: nat)
    requires var s := Run(actions);
             && o < |s.procs| && s.procs[o].attached && s.procs[o].waiter.Idle?
             && s.procs[o].pid in s.children && s.children[s.procs[o].pid].dead
    ensures var s := Run(actions); Known(s, o) && (s.signal || s.batches[s.procs[o].batch].pending || Unseen(s, o))
  {
    RunInv(actions);
    assert ToNotice(Run(actions), o);
  }

  /** And it is reaped when the signal has been delivered and passed on, and its task runs. */
  lemma DeadChildReaped(actions: seq<Action>, o: nat)
    requires var s := Run(actions);
             && o < |s.procs| && s.procs[o].attached && s.procs[o].waiter.Idle?
             && s.procs[o].pid in s.children && s.children[s.procs[o].pid].dead
    ensures var s := Run(actions);
            var t := Step(Step(Step(s, Deliver), Watch(s.procs[o].batch)), Wake(o));
            t.procs[o].reaped && t.reaps == s.reaps + [o] && s.procs[o].pid !in t.children
  {
    RunInv(actions);
    Reaps(Run(actions), o);
  }

  lemma Reaps(s: State, o: nat)
    requires Inv(s) && o < |s.procs| && s.procs[o].attached && s.procs[o].waiter.Idle?
    requires s.procs[o].pid in s.children && s.children[s.procs[o].pid].dead
    ensures var t := Step(Step(Step(s, Deliver), Watch(s.procs[o].batch)), Wake(o));
            && o < |t.procs| && t.procs[o] == s.procs[o].(waiter := Finalizing, reaped := true)
            && t.reaps == s.reaps + [o] && s.procs[o].pid !in t.children
  {
    assert ToNotice(s, o) && Follows(s.procs[o], s.batches[s.procs[o].batch]);
    var d := Step(s, Deliver);
    DeliverInv(s);
    assert d.procs == s.procs && d.children == s.children && d.reaps == s.reaps;
    PassedOn(d, o);
  }

  lemma PassedOn(s: State, o: nat)
    requires Inv(s) && o < |s.procs| && s.procs[o].attached && s.procs[o].waiter.Idle? && !s.signal
    requires s.procs[o].pid in s.children && s.children[s.procs[o].pid].dead
    ensures var t := Step(Step(s, Watch(s.procs[o].batch)), Wake(o));
            && o < |t.procs| && t.procs[o] == s.procs[o].(waiter := Finalizing, reaped := true)
            && t.reaps == s.reaps + [o] && s.procs[o].pid !in t.children
  {
    assert ToNotice(s, o) && Follows(s.procs[o], s.batches[s.procs[o].batch]);
    assert Receives(s.procs[o], s.procs[o].batch);
  }

  /** A proc that has been forked, but that `start_procs` returned without attaching: its slice could
      not be set up. */
  predicate Abandoned(s: State, o: nat) {
    Known(s, o) && !s.procs[o].attached && !s.procs[o].reaped && !s.batches[s.procs[o].batch].starting
  }

  lemma AbandonedStep(s: State, a: Action, o: nat)
    requires Inv(s) && Abandoned(s, o)
    ensures Abandoned(Step(s, a), o) && Step(s, a).procs[o].pid == s.procs[o].pid
  {
  }

  /** Nothing that happens attaches or reaps such a proc: its process stays a child of the agent. */
  lemma {:induction false} AbandonedForever(s: State, actions: seq<Action>, o: nat)
    requires Inv(s) && Abandoned(s, o)
    ensures var t := Steps(s, actions);
            && Inv(t) && Abandoned(t, o) && t.procs[o].pid == s.procs[o].pid
            && s.procs[o].pid in t.children && t.children[s.procs[o].pid].proc == o
  {
    if actions != [] {
      var before := actions[..|actions| - 1];
      AbandonedForever(s, before, o);
      StepInv(Steps(s, before), actions[|actions| - 1]);
      AbandonedStep(Steps(s, before), actions[|actions| - 1], o);
    }
  }

  predicate ReapedBy(s: State, actions: seq<Action>, o: nat) {
    o < |Steps(s, actions).procs| && Steps(s, actions).procs[o].reaped
  }

  /** When `start_procs` has returned, a proc can be reaped, now or later, if and only if it has been
      attached. */
  lemma ReapedIffAttached(actions: seq<Action>, o: nat)
    requires var s := Run(actions); Known(s, o) && !s.batches[s.procs[o].batch].starting && !s.procs[o].reaped
    ensures var s := Run(actions); s.procs[o].attached <==> exists more :: ReapedBy(s, more, o)
  {
    RunInv(actions);
    var s := Run(actions);
    if s.procs[o].attached {
      ReapedAfterExit(s, o);
    } else {
      forall more ensures !ReapedBy(s, more, o) {
        AbandonedForever(s, more, o);
      }
    }
  }

  lemma ReapedAfterExit(s: State, o: nat)
    requires Inv(s) && Known(s, o) && s.procs[o].attached && !s.procs[o].reaped
    ensures exists more :: ReapedBy(s, more, o)
  {
    var exit, watch := Exit(s.procs[o].pid), Watch(s.procs[o].batch);
    assert Recorded(s.procs[o]);
    Exits(s, o);
    Reaps(Step(s, exit), o);
    FourSteps(s, exit, Deliver, watch, Wake(o));
    assert ReapedBy(s, [exit, Deliver, watch, Wake(o)], o);
  }

  lemma Exits(s: State, o: nat)
    requires Inv(s) && o < |s.procs| && !s.procs[o].reaped
    ensures var t := Step(s, Exit(s.procs[o].pid));
            Inv(t) && t.procs == s.procs && s.procs[o].pid in t.children && t.children[s.procs[o].pid].dead
  {
    KernelInv(s, Exit(s.procs[o].pid));
  }

  lemma StepsNext(s: State, actions: seq<Action>, a: Action)
    ensures Steps(s, actions + [a]) == Step(Steps(s, actions), a)
  {
    assert (actions + [a])[..|actions|] == actions;
  }

  lemma {:induction false} StepsSplit(s: State, first: seq<Action>, second: seq<Action>)
    ensures Steps(s, first + second) == Steps(Steps(s, first), second)
  {
    if second == [] {
      assert first + second == first;
    } else {
      var last := |second| - 1;
      StepsSplit(s, first, second[..last]);
      assert first + second == first + second[..last] + [second[last]];
      StepsNext(s, first + second[..last], second[last]);
    }
  }

  lemma TwoSteps(s: State, a: Action, b: Action)
    ensures Steps(s, [a, b]) == Step(Step(s, a), b)
  {
    StepsNext(s, [], a);
    StepsNext(s, [] + [a], b);
    assert [] + [a] + [b] == [a, b];
  }

  lemma FourSteps(s: State, a: Action, b: Action, c: Action, d: Action)
    ensures Steps(s, [a, b, c, d]) == Step(Step(Step(Step(s, a), b), c), d)
  {
    TwoSteps(s, a, b);
    TwoSteps(Steps(s, [a, b]), c, d);
    StepsSplit(s, [a, b], [c, d]);
    assert [a, b] + [c, d] == [a, b, c, d];
  }

  /** Such a proc can come about, and die: a proc is forked, and its slice cannot be set up. */
  lemma AbandonedReached(pid: Pid)
    ensures var s := Run([NewBatch, Fork(0, pid), EndBatch(0), Exit(pid)]);
            Abandoned(s, 0) && s.procs[0].pid == pid && pid in s.children && s.children[pid].dead
  {
    FourSteps(INIT, NewBatch, Fork(0, pid), EndBatch(0), Exit(pid));
  }

  /** What makes a task panic: a watch channel whose sender is gone, `wait` for a pid that is not a
      child of the agent, and a proc whose termination has been recorded already. */
  predicate Panics(s: State, a: Action) {
    match a
    case Wake(o) =>
      Known(s, o) && s.procs[o].attached && s.procs[o].waiter.Idle?
      && (if Unseen(s, o) then s.procs[o].pid !in s.children else !s.batches[s.procs[o].batch].sending)
    case Finalize(o) => o < |s.procs| && s.procs[o].waiter.Finalizing? && s.procs[o].recorded
    case _ => false
  }

  /** In every run, no task panics: the sender outlives every receiver that a task waits on. */
  lemma NeverPanics(actions: seq<Action>, a: Action)
    ensures !Panics(Run(actions), a)
  {
    RunInv(actions);
    var s := Run(actions);
    if (a.Wake? || a.Finalize?) && a.proc < |s.procs| {
      assert Recorded(s.procs[a.proc]) && Follows(s.procs[a.proc], s.batches[s.procs[a.proc].batch]);
    }
  }

  /** The process that a signal sent to proc `o` reaches, if any: that of a proc, or one that is no
      child of the agent. */
  datatype Target = Nobody | ProcessOf(proc: nat) | Stranger

  /** `send_signal`: nothing is sent once the proc has been reaped. */
  function KillTarget(s: State, o: nat): Target
    requires o < |s.procs|
  {
    var pid := s.procs[o].pid;
    if s.procs[o].reaped then Nobody
    else if pid in s.children then ProcessOf(s.children[pid].proc)
    else if pid in s.others then Stranger
    else Nobody
  }

  /** In every run, with pids reused at once: a signal to a proc reaches its own process until that
      is reaped, and nothing afterwards; and every proc is reaped once at most, by its own task. */
  lemma SignalsReachOwn(actions: seq<Action>, o: nat)
    requires o < |Run(actions).procs|
    ensures var s := Run(actions);
            && KillTarget(s, o) == (if s.procs[o].reaped then Nobody else ProcessOf(o))
            && (s.procs[o].reaped <==> multiset(s.reaps)[o] == 1) && multiset(s.reaps)[o] <= 1
  {
    RunInv(actions);
    ReapsCounted(actions, o);
  }

  /** The log of reaps is what the records say. */
  lemma {:induction false} ReapsCounted(actions: seq<Action>, o: nat)
    ensures var s := Run(actions);
            multiset(s.reaps)[o] == if o < |s.procs| && s.procs[o].reaped then 1 else 0
  {
    if actions != [] {
      var before := actions[..|actions| - 1];
      ReapsCounted(before, o);
      RunInv(before);
      ReapsStep(Run(before), actions[|actions| - 1], o);
    }
  }

  lemma ReapsStep(s: State, a: Action, o: nat)
    requires Inv(s) && multiset(s.reaps)[o] == if o < |s.procs| && s.procs[o].reaped then 1 else 0
    ensures var t := Step(s, a); multiset(t.reaps)[o] == if o < |t.procs| && t.procs[o].reaped then 1 else 0
  {
    if a.Wake? {
      WakeReaps(s, a.proc, o);
    } else {
      OthersReapNone(s, a, o);
    }
  }

  lemma WakeReaps(s: State, w: nat, o: nat)
    requires Inv(s) && multiset(s.reaps)[o] == if o < |s.procs| && s.procs[o].reaped then 1 else 0
    ensures var t := Step(s, Wake(w)); multiset(t.reaps)[o] == if o < |t.procs| && t.procs[o].reaped then 1 else 0
  {
    if w < |s.procs| {
      assert Recorded(s.procs[w]);
    }
  }

  lemma OthersReapNone(s: State, a: Action, o: nat)
    requires !a.Wake?
    ensures var t := Step(s, a);
            t.reaps == s.reaps
            && (o < |t.procs| && t.procs[o].reaped <==> o < |s.procs| && s.procs[o].reaped)
  {
  }

  /** In every run, a proc that is not running never is again, whatever happens. */
  lemma {:induction false} NeverRunsAgain(s: State, actions: seq<Action>, o: nat)
    requires o < |s.procs| && StateOf(s.procs[o]) != Running
    ensures var t := Steps(s, actions); o < |t.procs| && StateOf(t.procs[o]) != Running
  {
    if actions != [] {
      NeverRunsAgain(s, actions[..|actions| - 1], o);
      StaysOver(Steps(s, actions[..|actions| - 1]), actions[|actions| - 1], o);
    }
  }

  lemma StaysOver(s: State, a: Action, o: nat)
    requires o < |s.procs|
    ensures var t := Step(s, a);
            && o < |t.procs| && (s.procs[o].failed ==> t.procs[o].failed)
            && (s.procs[o].recorded ==> t.procs[o].recorded)
  {
  }

  /** In every run, what the state of a proc means: it has errors; or else it has been reaped and finalised,
      and has terminated; or else it is running. */
  lemma StateMeans(actions: seq<Action>, o: nat)
    requires o < |Run(actions).procs|
    ensures var p := Run(actions).procs[o];
            && (StateOf(p) == Error <==> p.failed)
            && (StateOf(p) == Terminated <==> !p.failed && p.reaped && p.waiter.Ended?)
            && (StateOf(p) == Running <==> !p.failed && !p.waiter.Ended?)
  {
    RunInv(actions);
    assert Recorded(Run(actions).procs[o]);
  }

  /** A proc for which errors have been reported has errors from then on, whatever happens. */
  lemma {:induction false} ErrorsStay(s: State, actions: seq<Action>, o: nat)
    requires o < |s.procs|
    ensures var t := Steps(Step(s, Report(o, true)), actions); o < |t.procs| && StateOf(t.procs[o]) == Error
  {
    if actions != [] {
      ErrorsStay(s, actions[..|actions| - 1], o);
      StaysOver(Steps(Step(s, Report(o, true)), actions[..|actions| - 1]), actions[|actions| - 1], o);
    }
  }

  /** In every run, the task of a dead child, once it has noticed, goes on to its end: the proc is reaped and
      finalised, and has terminated, unless it has errors; and then it can be deleted. */
  lemma DeadChildTerminates(actions: seq<Action>, o: nat)
    requires var s := Run(actions);
             && o < |s.procs| && s.procs[o].attached && s.procs[o].waiter.Idle?
             && s.procs[o].pid in s.children && s.children[s.procs[o].pid].dead
    ensures var s := Run(actions);
            var t := Step(Step(Step(Step(s, Deliver), Watch(s.procs[o].batch)), Wake(o)), Finalize(o));
            && o < |t.procs| && t.procs[o].reaped && t.procs[o].waiter.Ended?
            && StateOf(t.procs[o]) == (if s.procs[o].failed then Error else Terminated)
            && Step(t, Delete(o)).procs[o] == t.procs[o].(present := false)
  {
    RunInv(actions);
    ReapsAndEnds(Run(actions), o);
  }

  lemma ReapsAndEnds(s: State, o: nat)
    requires Inv(s) && o < |s.procs| && s.procs[o].attached && s.procs[o].waiter.Idle?
    requires s.procs[o].pid in s.children && s.children[s.procs[o].pid].dead
    ensures var w := Step(Step(Step(s, Deliver), Watch(s.procs[o].batch)), Wake(o));
            var t := Step(w, Finalize(o));
            && o < |t.procs| && t.procs[o].reaped && t.procs[o].waiter.Ended?
            && StateOf(t.procs[o]) == (if s.procs[o].failed then Error else Terminated)
            && Step(t, Delete(o)).procs[o] == t.procs[o].(present := false)
  {
    Reaps(s, o);
    EndsOnce(Step(Step(Step(s, Deliver), Watch(s.procs[o].batch)), Wake(o)), o);
  }

  lemma EndsOnce(w: State, o: nat)
    requires o < |w.procs| && w.procs[o].waiter.Finalizing?
    ensures var t := Step(w, Finalize(o));
            && t.procs[o] == w.procs[o].(waiter := Ended, recorded := true)
            && Step(t, Delete(o)).procs[o] == t.procs[o].(present := false)
  {
  }

  /** The watcher of a batch ends at the next signal when nobody waits any more. */
  lemma WatcherEnds(s: State, b: nat)
    requires b < |s.batches| && s.batches[b].pending && !s.batches[b].starting
    requires forall o :: 0 <= o < |s.procs| && s.procs[o].batch == b && s.procs[o].attached ==> s.procs[o].waiter.Ended?
    ensures var t := Step(s, Watch(b)); !t.batches[b].sending && t.procs == s.procs
  {
  }

  /** A proc that is running cannot be deleted. */
  lemma RunningKept(s: State, o: nat)
    requires o < |s.procs| && !s.procs[o].failed && !s.procs[o].recorded
    ensures Step(s, Delete(o)) == s
  {
  }

  /** A run in which a proc is reaped, and its pid is used by a process that is no child and then by another
      proc: a signal to the first proc reaches neither. */
  lemma PidReused(pid: Pid)
    ensures var reaped := [NewBatch, Fork(0, pid), Attach(0), Exit(pid)] + [Deliver, Watch(0), Wake(0), Appear(pid)];
            var s, t := Run(reaped), Run(reaped + [Disappear(pid), Fork(0, pid)]);
            && |s.procs| == 1 && pid in s.others && KillTarget(s, 0) == Nobody
            && |t.procs| == 2 && t.procs[1].pid == pid && KillTarget(t, 0) == Nobody
            && KillTarget(t, 1) == ProcessOf(1)
  {
    var died := [NewBatch, Fork(0, pid), Attach(0), Exit(pid)];
    var reaped := died + [Deliver, Watch(0), Wake(0), Appear(pid)];
    var s := State([Proc(pid, 0, true, Idle(0), false, false, false, true)], [Batch(0, true, false, true)],
                   map[pid := Child(0, true)], {}, true, []);
    var t := State([Proc(pid, 0, true, Finalizing, true, false, false, true)], [Batch(1, true, false, true)],
                   map[], {pid}, false, [0]);
    assert Run(died) == s by { FourSteps(INIT, NewBatch, Fork(0, pid), Attach(0), Exit(pid)); }
    assert Run(reaped) == t by {
      FourSteps(s, Deliver, Watch(0), Wake(0), Appear(pid));
      StepsSplit(INIT, died, [Deliver, Watch(0), Wake(0), Appear(pid)]);
      PidPasses(s, pid);
    }
    TwoSteps(t, Disappear(pid), Fork(0, pid));
    StepsSplit(INIT, reaped, [Disappear(pid), Fork(0, pid)]);
  }

  lemma PidPasses(s: State, pid: Pid)
    requires s == State([Proc(pid, 0, true, Idle(0), false, false, false, true)], [Batch(0, true, false, true)],
                        map[pid := Child(0, true)], {}, true, [])
    ensures var w := Step(Step(Step(s, Deliver), Watch(0)), Wake(0));
            w == State([Proc(pid, 0, true, Finalizing, true, false, false, true)], [Batch(1, true, false, true)],
                       map[], {}, false, [0])
  {
    var d := Step(s, Deliver);
    assert d == s.(signal := false, batches := [Batch(0, true, true, true)]);
    var w := Step(d, Watch(0));
    assert Received(d, 0);
    assert w == d.(batches := [Batch(1, true, false, true)]);
  }

  /** In every run, a proc that has been registered and is no longer there either has been reaped
      and finalised, or has errors. */
  lemma RemovedIsOver(actions: seq<Action>, o: nat)
    requires o < |Run(actions).procs| && Run(actions).procs[o].attached && !Run(actions).procs[o].present
    ensures var p := Run(actions).procs[o]; p.failed || (p.reaped && p.recorded && p.waiter.Ended?)
  {
    RunInv(actions);
    assert Recorded(Run(actions).procs[o]);
  }
}
