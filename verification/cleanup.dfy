/** Finalising the systemd units of a terminated proc (src/procs.rs), within a budget that may run
    out at any await. */
module Cleanup {
  import opened Proto

  //----------------------------------------------------------------------------
  // systemd

  /** A scope.  `Up`: loaded, and neither failed nor inactive. */
  datatype Scope = Up | Failed | Inactive | Gone

  datatype Unit = ScopeUnit | SliceUnit

  /** What stopping a unit results in: the result of a job, no result in time, or an error. */
  datatype StopReply = Job(result: string) | NoJobInTime | NoSuchUnit | StopError

  /** What reading the state of a scope results in. */
  datatype StateReply = Is(active: string, result: string) | NoUnit | Unreadable

  /** The calls made, and what they resulted in; `Cut` is one during which the budget ran out. */
  datatype Call =
    | Stop(unit: Unit, stop: StopReply)
    | ReadState(state: StateReply)
    | Reset(ok: bool)
    | ReadAccounting(accounting: Option<int>)
    | Cut

  /** What happens during a call. */
  datatype Choice = Choice(cut: bool, scope: Scope, sliceUp: bool, stop: StopReply, state: StateReply, ok: bool,
      accounting: Option<int>)

  /** How a scope may change on its own, or be changed by stops and resets: a scope that has ended
      does not start again. */
  predicate MayBecome(a: Scope, b: Scope) {
    a.Up? || a == b || b.Gone? || (a.Failed? && b.Inactive?)
  }

  predicate JobResultOk(result: string) {
    result == "done" || result == "skipped"
  }

  predicate Stopped(r: StopReply) {
    (r.Job? && JobResultOk(r.result)) || r.NoSuchUnit?
  }

  /** Whether systemd may answer this about a scope. */
  predicate Truthful(r: StateReply, scope: Scope) {
    match r
    case Is(active, _) => (active == "failed" ==> scope.Failed?) && (active == "inactive" ==> scope.Inactive?)
    case NoUnit => scope.Gone?
    case Unreadable => true
  }

  /** Any systemd, which `script` makes up as it goes along.  What is relied on is in the contracts
      of the methods: answers are truthful, and a stopped slice stays stopped. */
  class Systemd {
    const script: nat -> Choice
    var at: nat
    var scope: Scope
    var sliceUp: bool
    ghost var log: seq<Call>

    constructor (script: nat -> Choice, scope: Scope)
      ensures this.scope == scope && sliceUp && log == []
    {
      this.script, at, this.scope, sliceUp, log := script, 0, scope, true, [];
    }

    /** Time passes. */
    method Pass() returns (c: Choice)
      modifies `at, `scope, `sliceUp
      ensures MayBecome(old(scope), scope) && (sliceUp ==> old(sliceUp))
    {
      c := script(at);
      at := at + 1;
      if MayBecome(scope, c.scope) {
        scope := c.scope;
      }
      sliceUp := sliceUp && c.sliceUp;
    }

    /** A call's result is `None` if the budget runs out. */
    method StopAndWait(unit: Unit) returns (r: Option<StopReply>)
      modifies this
      ensures MayBecome(old(scope), scope) && (sliceUp ==> old(sliceUp))
      ensures log == old(log) + [if r.None? then Cut else Stop(unit, r.value)]
      ensures r.Some? && Stopped(r.value) ==> if unit.SliceUnit? then !sliceUp else !scope.Up?
    {
      var c := Pass();
      if c.cut {
        log := log + [Cut];
        return None;
      }
      var up := if unit.SliceUnit? then sliceUp else scope.Up?;
      r := Some(if up && Stopped(c.stop) then NoJobInTime else c.stop);
      log := log + [Stop(unit, r.value)];
    }

    method GetScopeState() returns (r: Option<StateReply>)
      modifies this
      ensures MayBecome(old(scope), scope) && (sliceUp ==> old(sliceUp))
      ensures log == old(log) + [if r.None? then Cut else ReadState(r.value)]
      ensures r.Some? ==> Truthful(r.value, scope)
    {
      var c := Pass();
      if c.cut {
        log := log + [Cut];
        return None;
      }
      r := Some(if Truthful(c.state, scope) then c.state else Unreadable);
      log := log + [ReadState(r.value)];
    }

    method ResetFailedUnit() returns (r: Option<bool>)
      modifies this
      ensures MayBecome(old(scope), scope) && (sliceUp ==> old(sliceUp))
      ensures log == old(log) + [if r.None? then Cut else Reset(r.value)]
      ensures r == Some(true) ==> !scope.Failed?
    {
      var c := Pass();
      if c.cut {
        log := log + [Cut];
        return None;
      }
      if scope.Failed? && c.ok {
        scope := Gone;
      }
      r := Some(c.ok);
      log := log + [Reset(c.ok)];
    }

    /** The path of the slice's cgroup, and then a read of its accounting. */
    method GetAccounting() returns (r: Option<Option<int>>)
      modifies this
      ensures MayBecome(old(scope), scope) && (sliceUp ==> old(sliceUp))
      ensures log == old(log) + [if r.None? then Cut else ReadAccounting(r.value)]
    {
      var c := Pass();
      if c.cut {
        log := log + [Cut];
        return None;
      }
      r := Some(c.accounting);
      log := log + [ReadAccounting(c.accounting)];
    }
  }

  //----------------------------------------------------------------------------
  // Evidence

  const SUCCESS := "success"

  /** The results of the scope that calls have seen. */
  function Results(log: seq<Call>): seq<string> {
    if log == [] then []
    else
      var c := log[|log| - 1];
      Results(log[..|log| - 1]) + if c.ReadState? && c.state.Is? then [c.state.result] else []
  }

  /** The accounting that calls have read. */
  function Accountings(log: seq<Call>): seq<int> {
    if log == [] then []
    else
      var c := log[|log| - 1];
      Accountings(log[..|log| - 1]) + if c.ReadAccounting? && c.accounting.Some? then [c.accounting.value] else []
  }

  /** The last result that is not a success; else a success, if there is one. */
  ghost predicate IsEvidence(results: seq<string>, e: Option<string>) {
    match e
    case None => results == []
    case Some(x) =>
      if x == SUCCESS then results != [] && forall i :: 0 <= i < |results| ==> results[i] == SUCCESS
      else exists i :: 0 <= i < |results| && results[i] == x && forall j :: i < j < |results| ==> results[j] == SUCCESS
  }

  predicate IsLast(xs: seq<int>, x: Option<int>) {
    if xs == [] then x.None? else x == Some(xs[|xs| - 1])
  }

  lemma EvidenceNext(results: seq<string>, e: Option<string>, r: string)
    requires IsEvidence(results, e)
    ensures IsEvidence(results + [r], if e.Some? && r == SUCCESS && e.value != SUCCESS then e else Some(r))
  {
    var more := results + [r];
    if e.Some? && r == SUCCESS && e.value != SUCCESS {
      var i :| 0 <= i < |results| && results[i] == e.value && forall j :: i < j < |results| ==> results[j] == SUCCESS;
      assert more[i] == e.value;
    } else {
      assert more[|results|] == r;
    }
  }

  class UnitsFinal {
    var accounting: Option<int>
    var scopeResult: Option<string>
    var cleanupIncomplete: bool

    constructor ()
      ensures accounting == None && scopeResult == None && !cleanupIncomplete
    {
      accounting, scopeResult, cleanupIncomplete := None, None, false;
    }

    /** What has been recorded is the evidence of the calls made. */
    ghost predicate Records(log: seq<Call>)
      reads this
    {
      IsEvidence(Results(log), scopeResult) && IsLast(Accountings(log), accounting)
    }

    method RecordScopeResult(result: Option<string>, ghost results: seq<string>)
      requires IsEvidence(results, scopeResult)
      modifies `scopeResult
      ensures IsEvidence(results + if result.Some? then [result.value] else [], scopeResult)
      ensures scopeResult == if result.None? || (result == Some("success") && old(scopeResult).Some?)
                             then old(scopeResult) else result
    {
      if result.Some? {
        EvidenceNext(results, scopeResult, result.value);
        if !(scopeResult.Some? && result.value == SUCCESS && scopeResult.value != SUCCESS) {
          scopeResult := result;
        }
      } else {
        assert results + [] == results;
      }
    }

    method RecordAccounting(a: Option<int>, ghost read: seq<int>)
      requires IsLast(read, accounting)
      modifies `accounting
      ensures IsLast(read + if a.Some? then [a.value] else [], accounting)
      ensures accounting == if a.Some? then a else old(accounting)
    {
      if a.Some? {
        accounting := a;
      } else {
        assert read + [] == read;
      }
    }
  }

  lemma LogNext(log: seq<Call>, c: Call)
    ensures Results(log + [c]) == Results(log) + if c.ReadState? && c.state.Is? then [c.state.result] else []
    ensures Accountings(log + [c]) ==
            Accountings(log) + if c.ReadAccounting? && c.accounting.Some? then [c.accounting.value] else []
  {
    assert (log + [c])[..|log|] == log;
  }

  lemma NoEvidence(f: UnitsFinal, log: seq<Call>, c: Call)
    requires f.Records(log) && (c.Stop? || c.Reset? || c.Cut?)
    ensures f.Records(log + [c])
  {
    LogNext(log, c);
    assert Results(log) + [] == Results(log) && Accountings(log) + [] == Accountings(log);
  }

  //----------------------------------------------------------------------------
  // Passes

  /** The calls of settling a scope, and whether it is settled: confirmed gone, inactive or reset. */
  predicate IsSettle(calls: seq<Call>) {
    |calls| > 0 && calls[0].ReadState?
    && if calls[0].state.Is? && calls[0].state.active == "failed" then |calls| == 2 && calls[1].Reset? else |calls| == 1
  }

  predicate Settled(calls: seq<Call>)
    requires IsSettle(calls)
  {
    match calls[0].state
    case Is(active, _) => if active == "failed" then calls[1].ok else active == "inactive"
    case NoUnit => true
    case Unreadable => false
  }

  /** The calls of one pass: with a scope, it is stopped and settled; then the accounting is read and
      the slice is stopped, whatever came before. */
  predicate IsPass(calls: seq<Call>, hasScope: bool) {
    var n := |calls|;
    && n >= 2 && calls[n - 2].ReadAccounting? && calls[n - 1].Stop? && calls[n - 1].unit.SliceUnit?
    && if hasScope then n >= 3 && calls[0].Stop? && calls[0].unit.ScopeUnit? && IsSettle(calls[1..n - 2]) else n == 2
  }

  predicate PassOk(calls: seq<Call>, hasScope: bool)
    requires IsPass(calls, hasScope)
  {
    && Stopped(calls[|calls| - 1].stop)
    && (hasScope ==> Stopped(calls[0].stop) && Settled(calls[1..|calls| - 2]))
  }

  /** A scope is settled if it is gone or inactive, or has failed and been reset. */
  ghost predicate SettledBy(calls: seq<Call>) {
    || calls == [ReadState(NoUnit)]
    || (exists result :: calls == [ReadState(Is("inactive", result))])
    || (exists result :: calls == [ReadState(Is("failed", result)), Reset(true)])
  }

  lemma SettledExactly(calls: seq<Call>)
    requires IsSettle(calls)
    ensures Settled(calls) <==> SettledBy(calls)
  {
    if Settled(calls) && calls[0].state.Is? {
      var result := calls[0].state.result;
      if calls[0].state.active == "failed" {
        assert calls == [ReadState(Is("failed", result)), Reset(true)];
      } else {
        assert calls == [ReadState(Is("inactive", result))];
      }
    } else if Settled(calls) {
      assert calls == [ReadState(NoUnit)];
    }
  }

  /** A pass is all right exactly if the stops were answered "done" or "skipped", or the units were gone,
      and the scope is settled. */
  lemma PassOkExactly(calls: seq<Call>, hasScope: bool)
    requires IsPass(calls, hasScope)
    ensures var slice := calls[|calls| - 1].stop;
            PassOk(calls, hasScope)
            <==> && (slice == Job("done") || slice == Job("skipped") || slice == NoSuchUnit)
                 && (hasScope ==>
                       && (|| calls[0].stop == Job("done") || calls[0].stop == Job("skipped")
                           || calls[0].stop == NoSuchUnit)
                       && SettledBy(calls[1..|calls| - 2]))
  {
    if hasScope {
      SettledExactly(calls[1..|calls| - 2]);
    }
  }

  /** The calls of a pass that goes well at once: the scope is stopped, and then gone or inactive; the
      accounting is read, whatever that gives; the slice is stopped. */
  predicate GoesWell(calls: seq<Call>, hasScope: bool) {
    var n := if hasScope then 2 else 0;
    && |calls| == n + 2 && calls[n].ReadAccounting? && calls[n + 1].Stop? && calls[n + 1].unit.SliceUnit?
    && calls[n + 1].stop in {Job("done"), Job("skipped"), NoSuchUnit}
    && (hasScope ==>
          && calls[0].Stop? && calls[0].unit.ScopeUnit? && calls[0].stop in {Job("done"), Job("skipped"), NoSuchUnit}
          && calls[1].ReadState?
          && (calls[1].state.NoUnit? || (calls[1].state.Is? && calls[1].state.active == "inactive")))
  }

  predicate AtRest(scope: Scope) {
    scope.Gone? || scope.Inactive?
  }

  /** Stops a unit; `ok` only if the job succeeded or the unit is gone.  `None` if the budget ran
      out. */
  method StopUnit(systemd: Systemd, unit: Unit, fin: UnitsFinal) returns (ok: Option<bool>)
    requires fin.Records(systemd.log)
    modifies systemd
    ensures MayBecome(old(systemd.scope), systemd.scope) && (systemd.sliceUp ==> old(systemd.sliceUp))
    ensures fin.Records(systemd.log)
    ensures ok.None? ==> systemd.log == old(systemd.log) + [Cut]
    ensures ok.Some? ==> exists r :: systemd.log == old(systemd.log) + [Stop(unit, r)] && ok.value == Stopped(r)
    ensures ok.Some? ==>
              exists r :: && systemd.log == old(systemd.log) + [Stop(unit, r)]
                          && (ok.value <==> r == Job("done") || r == Job("skipped") || r == NoSuchUnit)
    ensures ok == Some(true) && unit.SliceUnit? ==> !systemd.sliceUp
  {
    var r := systemd.StopAndWait(unit);
    NoEvidence(fin, old(systemd.log), if r.None? then Cut else Stop(unit, r.value));
    if r.None? {
      return None;
    }
    match r.value
    case Job(result) => ok := Some(JobResultOk(result));
    case NoJobInTime => ok := Some(false);
    case NoSuchUnit => ok := Some(true);
    case StopError => ok := Some(false);
  }

  /** Reads the state and the result of the scope, and records the result. */
  method ReadScope(systemd: Systemd, fin: UnitsFinal) returns (r: Option<StateReply>)
    requires fin.Records(systemd.log)
    modifies systemd, fin`scopeResult
    ensures MayBecome(old(systemd.scope), systemd.scope) && (systemd.sliceUp ==> old(systemd.sliceUp))
    ensures systemd.log == old(systemd.log) + [if r.None? then Cut else ReadState(r.value)]
    ensures fin.Records(systemd.log) && (r.Some? ==> Truthful(r.value, systemd.scope))
    ensures fin.scopeResult == if r.Some? && r.value.Is? && !(r.value.result == "success" && old(fin.scopeResult).Some?)
                               then Some(r.value.result) else old(fin.scopeResult)
  {
    r := systemd.GetScopeState();
    ghost var call := if r.None? then Cut else ReadState(r.value);
    LogNext(old(systemd.log), call);
    if r.None? {
      NoEvidence(fin, old(systemd.log), Cut);
      return;
    }
    fin.RecordScopeResult(if r.value.Is? then Some(r.value.result) else None, Results(old(systemd.log)));
    assert Accountings(old(systemd.log)) + [] == Accountings(old(systemd.log));
  }

  /** Reads the scope's result, and resets the scope if it has failed.  The result is recorded before
      the reset is awaited. */
  method SettleScope(systemd: Systemd, fin: UnitsFinal) returns (ok: Option<bool>, ghost calls: seq<Call>)
    requires fin.Records(systemd.log)
    modifies systemd, fin`scopeResult
    ensures MayBecome(old(systemd.scope), systemd.scope) && (systemd.sliceUp ==> old(systemd.sliceUp))
    ensures fin.Records(systemd.log) && systemd.log == old(systemd.log) + calls
    ensures ok.None? ==> calls != [] && calls[|calls| - 1] == Cut && forall i :: 0 <= i < |calls| ==> !calls[i].Stop?
    ensures ok.Some? ==> IsSettle(calls) && ok.value == Settled(calls) && (ok.value <==> SettledBy(calls))
    ensures ok == Some(true) ==> AtRest(systemd.scope)
    ensures calls != [] && fin.scopeResult == match calls[0]
                                              case ReadState(Is(_, result)) =>
                                                if result == "success" && old(fin.scopeResult).Some?
                                                then old(fin.scopeResult) else Some(result)
                                              case _ => old(fin.scopeResult)
  {
    var r := ReadScope(systemd, fin);
    calls := [if r.None? then Cut else ReadState(r.value)];
    if r.None? {
      return None, calls;
    }
    match r.value
    case NoUnit => ok := Some(true);
    case Unreadable => ok := Some(false);
    case Is(active, _) =>
      if active == "failed" {
        ghost var before := systemd.log;
        var reset := systemd.ResetFailedUnit();
        ghost var c := if reset.None? then Cut else Reset(reset.value);
        NoEvidence(fin, before, c);
        calls := calls + [c];
        ok := reset;
      } else {
        ok := Some(active == "inactive");
      }
    if ok.Some? {
      SettledExactly(calls);
    }
  }

  /** The calls of a pass that is cut: none stops the slice. */
  predicate IsCutPass(calls: seq<Call>) {
    && calls != [] && calls[|calls| - 1] == Cut
    && forall i :: 0 <= i < |calls| ==> !(calls[i].Stop? && calls[i].unit.SliceUnit?)
  }

  /** The scope's part of a pass. */
  method StopScope(systemd: Systemd, fin: UnitsFinal) returns (ok: Option<bool>, ghost calls: seq<Call>)
    requires fin.Records(systemd.log)
    modifies systemd, fin`scopeResult
    ensures MayBecome(old(systemd.scope), systemd.scope) && (systemd.sliceUp ==> old(systemd.sliceUp))
    ensures fin.Records(systemd.log) && systemd.log == old(systemd.log) + calls
    ensures ok.None? ==> IsCutPass(calls)
    ensures ok.Some? ==>
              && |calls| > 0 && calls[0].Stop? && calls[0].unit.ScopeUnit? && IsSettle(calls[1..])
              && ok.value == (Stopped(calls[0].stop) && Settled(calls[1..]))
    ensures ok == Some(true) ==> AtRest(systemd.scope)
  {
    var stopped := StopUnit(systemd, ScopeUnit, fin);
    calls := [systemd.log[|old(systemd.log)|]];
    if stopped.None? {
      return None, calls;
    }
    var settled;
    ghost var more;
    settled, more := SettleScope(systemd, fin);
    calls := calls + more;
    ok := if settled.None? then None else Some(stopped.value && settled.value);
    assert calls[1..] == more;
  }

  lemma PassParts(first: seq<Call>, rest: seq<Call>, hasScope: bool)
    requires IsPass(rest, false)
    requires if hasScope then |first| > 0 && first[0].Stop? && first[0].unit.ScopeUnit? && IsSettle(first[1..])
             else first == []
    ensures IsPass(first + rest, hasScope)
    ensures PassOk(first + rest, hasScope)
            == (Stopped(rest[1].stop) && (hasScope ==> Stopped(first[0].stop) && Settled(first[1..])))
  {
    if hasScope {
      assert (first + rest)[1..|first + rest| - 2] == first[1..];
    }
  }

  /** One pass over the units.  `None` if the budget ran out. */
  method OnePass(systemd: Systemd, hasScope: bool, fin: UnitsFinal) returns (ok: Option<bool>, ghost calls: seq<Call>)
    requires fin.Records(systemd.log)
    modifies systemd, fin`scopeResult, fin`accounting
    ensures MayBecome(old(systemd.scope), systemd.scope) && (systemd.sliceUp ==> old(systemd.sliceUp))
    ensures fin.Records(systemd.log) && systemd.log == old(systemd.log) + calls
    ensures ok.None? ==> IsCutPass(calls)
    ensures ok.Some? ==> IsPass(calls, hasScope) && ok.value == PassOk(calls, hasScope)
    ensures ok == Some(true) ==> !systemd.sliceUp && (hasScope ==> AtRest(systemd.scope))
  {
    ok := Some(true);
    calls := [];
    if hasScope {
      ok, calls := StopScope(systemd, fin);
      if ok.None? {
        return;
      }
    }
    ghost var first := calls;
    var slice;
    ghost var rest;
    slice, rest := StopSlice(systemd, fin);
    calls := first + rest;
    if slice.None? {
      return None, calls;
    }
    PassParts(first, rest, hasScope);
    ok := Some(ok.value && slice.value);
  }

  /** The slice's part of a pass. */
  method StopSlice(systemd: Systemd, fin: UnitsFinal) returns (ok: Option<bool>, ghost calls: seq<Call>)
    requires fin.Records(systemd.log)
    modifies systemd, fin`accounting
    ensures MayBecome(old(systemd.scope), systemd.scope) && (systemd.sliceUp ==> old(systemd.sliceUp))
    ensures fin.Records(systemd.log) && systemd.log == old(systemd.log) + calls
    ensures ok.None? ==> IsCutPass(calls)
    ensures ok.Some? ==> IsPass(calls, false) && ok.value == Stopped(calls[1].stop)
    ensures ok.Some? ==>
              exists accounting, r ::
                && calls == [ReadAccounting(accounting), Stop(SliceUnit, r)]
                && fin.accounting == (if accounting.Some? then accounting else old(fin.accounting))
                && (ok.value <==> r == Job("done") || r == Job("skipped") || r == NoSuchUnit)
    ensures ok == Some(true) ==> !systemd.sliceUp
  {
    var accounting := systemd.GetAccounting();
    calls := [if accounting.None? then Cut else ReadAccounting(accounting.value)];
    if accounting.None? {
      NoEvidence(fin, old(systemd.log), Cut);
      return None, calls;
    }
    LogNext(old(systemd.log), calls[0]);
    assert Results(old(systemd.log)) + [] == Results(old(systemd.log));
    fin.RecordAccounting(accounting.value, Accountings(old(systemd.log)));
    ghost var before := systemd.log;
    ok := StopUnit(systemd, SliceUnit, fin);
    calls := calls + [systemd.log[|before|]];
  }

  function Concat(passes: seq<seq<Call>>): seq<Call> {
    if passes == [] then [] else Concat(passes[..|passes| - 1]) + passes[|passes| - 1]
  }

  /** What finalising may have done: one pass, and a second if the first was not all right; the last
      may have been cut. */
  predicate IsFinal(passes: seq<seq<Call>>, hasScope: bool, cut: bool) {
    && 1 <= |passes| <= 2
    && (|passes| == 2 ==> IsPass(passes[0], hasScope) && !PassOk(passes[0], hasScope))
    && (if cut then IsCutPass(passes[|passes| - 1])
        else IsPass(passes[|passes| - 1], hasScope) && (|passes| == 1 ==> PassOk(passes[0], hasScope)))
  }

  /** What begins with a pass that goes well is nothing more. */
  lemma GoneWell(passes: seq<seq<Call>>, hasScope: bool, cut: bool)
    requires IsFinal(passes, hasScope, cut)
    ensures var log, n := Concat(passes), if hasScope then 4 else 2;
            |log| >= n && GoesWell(log[..n], hasScope) ==>
              !cut && |passes| == 1 && |log| == n && PassOk(passes[0], hasScope)
  {
    var log, n := Concat(passes), if hasScope then 4 else 2;
    ConcatFirst(passes);
    if |log| >= n && GoesWell(log[..n], hasScope) {
      var first := passes[0];
      assert forall i :: 0 <= i < |first| && i < n ==> log[..n][i] == first[i];
      if !cut || |passes| == 2 {
        WellOk(first, log[..n], hasScope);
      }
    }
  }

  /** If the first calls go well, they are all, and nothing is left to clean up. */
  predicate WellAtOnce(log: seq<Call>, hasScope: bool, incomplete: bool) {
    var n := if hasScope then 4 else 2;
    |log| >= n && GoesWell(log[..n], hasScope) ==> |log| == n && !incomplete
  }

  lemma Well(passes: seq<seq<Call>>, log: seq<Call>, hasScope: bool, cut: bool, incomplete: bool)
    requires IsFinal(passes, hasScope, cut) && log == Concat(passes)
    requires incomplete == (cut || !PassOk(passes[|passes| - 1], hasScope))
    ensures WellAtOnce(log, hasScope, incomplete)
  {
    GoneWell(passes, hasScope, cut);
  }

  lemma ConcatFirst(passes: seq<seq<Call>>)
    requires 1 <= |passes| <= 2
    ensures Concat(passes) == if |passes| == 1 then passes[0] else passes[0] + passes[1]
  {
    assert passes[..1] == [passes[0]] && passes[..0] == [] && [passes[0]][..0] == [];
  }

  /** A pass that agrees with one that goes well is that. */
  lemma WellOk(calls: seq<Call>, well: seq<Call>, hasScope: bool)
    requires IsPass(calls, hasScope) && GoesWell(well, hasScope)
    requires forall i :: 0 <= i < |calls| && i < |well| ==> well[i] == calls[i]
    ensures |calls| == |well| && PassOk(calls, hasScope)
  {
    if hasScope {
      var settle := calls[1..|calls| - 2];
      assert settle[0] == calls[1] == well[1];
    }
  }

  method FinalizeUnitsInner(systemd: Systemd, hasScope: bool, fin: UnitsFinal)
    returns (cut: bool, ghost passes: seq<seq<Call>>)
    requires fin.Records(systemd.log) && systemd.log == []
    modifies systemd, fin
    ensures fin.Records(systemd.log) && systemd.log == Concat(passes) && IsFinal(passes, hasScope, cut)
    ensures !cut ==> fin.cleanupIncomplete == !PassOk(passes[|passes| - 1], hasScope)
    ensures !cut && !fin.cleanupIncomplete ==> !systemd.sliceUp && (hasScope ==> AtRest(systemd.scope))
  {
    var ok;
    ghost var calls;
    ok, calls := OnePass(systemd, hasScope, fin);
    passes := [calls];
    assert Concat(passes) == calls by { assert passes[..0] == []; }
    if ok.None? {
      return true, passes;
    }
    if !ok.value {
      ghost var again;
      ok, again := OnePass(systemd, hasScope, fin);
      passes := [calls, again];
      assert Concat(passes) == calls + again by { assert passes[..1] == [calls]; assert passes[..1][..0] == []; }
      if ok.None? {
        return true, passes;
      }
    }
    fin.cleanupIncomplete := !ok.value;
    cut := false;
  }

  /** `finalize_units`, against any systemd and with a budget that may run out during any call.
      Cleanup counts as complete exactly if it was not cut and everything in its last pass was
      right, and then the slice has stopped and the scope is gone or inactive.  Whatever happens,
      what has been recorded is the evidence of all calls made. */
  method FinalizeUnits(systemd: Systemd?, hasSlice: bool, hasScope: bool)
    returns (fin: UnitsFinal, ghost cut: bool, ghost passes: seq<seq<Call>>)
    requires systemd != null ==> systemd.log == []
    modifies systemd
    ensures fresh(fin)
    ensures systemd == null || !hasSlice ==>
              && fin.accounting.None? && fin.scopeResult.None? && !fin.cleanupIncomplete
              && (systemd != null ==> systemd.log == [])
    ensures systemd != null && hasSlice ==>
              && fin.Records(systemd.log) && systemd.log == Concat(passes) && IsFinal(passes, hasScope, cut)
              && fin.cleanupIncomplete == (cut || !PassOk(passes[|passes| - 1], hasScope))
              && (!fin.cleanupIncomplete ==> !systemd.sliceUp && (hasScope ==> AtRest(systemd.scope)))
    ensures systemd != null && hasSlice ==> WellAtOnce(systemd.log, hasScope, fin.cleanupIncomplete)
  {
    fin := new UnitsFinal();
    cut, passes := false, [];
    if systemd == null || !hasSlice {
      return;
    }
    var over;
    over, passes := FinalizeUnitsInner(systemd, hasScope, fin);
    cut := over;
    if over {
      fin.cleanupIncomplete := true;
    }
    Well(passes, systemd.log, hasScope, cut, fin.cleanupIncomplete);
  }
}
