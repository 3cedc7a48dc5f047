/** When the messages under way on a connection make the server close it: a removal of an id that
    the server does not track is a `KeyError` (python/procstar/agent/proc.py), which ends the serve
    task. */
module Dropping {
  import opened Proto
  import opened Routing
  import opened Agent
  import opened Tracking

  //----------------------------------------------------------------------------
  // The condition

  /** Message `i` of a stream removes an id that, after the messages before it, is not tracked: it
      was not tracked at first or has been removed, and has not been mentioned since. */
  predicate Redundant(t: Table, ms: seq<Msg>, i: nat)
    requires t.Valid() && i < |ms|
  {
    (ms[i].ProcDelete? || ms[i].ProcUnknown?) && Replay(StatusOf(t, ms[i].procId), ms[..i], ms[i].procId).Absent?
  }

  ghost predicate HasRedundant(t: Table, ms: seq<Msg>)
    requires t.Valid()
  {
    exists i :: 0 <= i < |ms| && Redundant(t, ms, i)
  }

  /** The table after a stream of messages; none, if one of them fails. */
  function ConsumeAll(t: Table, c: ConnId, ms: seq<Msg>): (r: Option<Table>)
    requires t.Valid()
    ensures r.Some? ==> r.value.Valid()
  {
    if ms == [] then Some(t)
    else
      match ConsumeAll(t, c, ms[..|ms| - 1])
      case None => None
      case Some(u) =>
        OnMessageRouted(u, c, ms[|ms| - 1]);
        OnMessage(u, c, ms[|ms| - 1])
  }

  predicate NoTimeout(ms: seq<Msg>) {
    forall i :: 0 <= i < |ms| ==> !ms[i].ConnectionTimeout?
  }

  lemma RedundantPrefix(t: Table, ms: seq<Msg>, n: nat, i: nat)
    requires t.Valid() && i < n <= |ms|
    ensures Redundant(t, ms[..n], i) == Redundant(t, ms, i)
  {
    assert ms[..n][..i] == ms[..i];
  }

  /** Consuming a stream fails if and only if it has a redundant removal; otherwise every id has the
      status that replaying the stream gives it. */
  lemma {:induction false} ConsumeExactly(t: Table, c: ConnId, ms: seq<Msg>)
    requires t.Valid() && NoTimeout(ms)
    ensures ConsumeAll(t, c, ms).None? <==> HasRedundant(t, ms)
    ensures ConsumeAll(t, c, ms).Some? ==>
              forall p :: StatusOf(ConsumeAll(t, c, ms).value, p) == Replay(StatusOf(t, p), ms, p)
  {
    if ms != [] {
      var last := |ms| - 1;
      ConsumeExactly(t, c, ms[..last]);
      RedundantLast(t, ms);
      if ConsumeAll(t, c, ms[..last]).Some? {
        ConsumeLast(t, c, ms, ConsumeAll(t, c, ms[..last]).value);
      }
    }
  }

  lemma RedundantLast(t: Table, ms: seq<Msg>)
    requires t.Valid() && ms != []
    ensures HasRedundant(t, ms) <==> HasRedundant(t, ms[..|ms| - 1]) || Redundant(t, ms, |ms| - 1)
  {
    var last := |ms| - 1;
    if i :| 0 <= i < |ms| && Redundant(t, ms, i) {
      if i < last {
        RedundantPrefix(t, ms, last, i);
      }
    }
    if i :| 0 <= i < last && Redundant(t, ms[..last], i) {
      RedundantPrefix(t, ms, last, i);
    }
  }

  lemma ConsumeLast(t: Table, c: ConnId, ms: seq<Msg>, u: Table)
    requires t.Valid() && ms != [] && u.Valid() && !ms[|ms| - 1].ConnectionTimeout?
    requires forall p :: StatusOf(u, p) == Replay(StatusOf(t, p), ms[..|ms| - 1], p)
    ensures var r := OnMessage(u, c, ms[|ms| - 1]);
            && (r.None? <==> Redundant(t, ms, |ms| - 1))
            && (r.Some? ==> r.value.Valid() && forall p :: StatusOf(r.value, p) == Replay(StatusOf(t, p), ms, p))
  {
    var m := ms[|ms| - 1];
    FailsExactly(u, c, m);
    if m.ProcDelete? || m.ProcUnknown? {
      assert StatusOf(u, m.procId) == Replay(StatusOf(t, m.procId), ms[..|ms| - 1], m.procId);
    }
    if OnMessage(u, c, m).Some? {
      forall p ensures StatusOf(OnMessage(u, c, m).value, p) == Replay(StatusOf(t, p), ms, p) {
        StatusRefines(u, c, m, p);
      }
    }
  }

  lemma FailsExactly(u: Table, c: ConnId, m: Msg)
    requires u.Valid()
    ensures OnMessage(u, c, m).None? <==> (m.ProcDelete? || m.ProcUnknown?) && m.procId !in u.tracked
    ensures OnMessage(u, c, m).Some? ==> OnMessage(u, c, m).value.Valid()
  {
    OnMessageRouted(u, c, m);
  }

  //----------------------------------------------------------------------------
  // On a connection

  function Consumes(c: ConnId, n: nat): seq<Action> {
    if n == 0 then [] else Consumes(c, n - 1) + [Consume(c, 0)]
  }

  lemma StepsNext(home: Home, s: State, actions: seq<Action>, a: Action)
    requires s.table.Valid()
    ensures Steps(home, s, actions + [a]) == Step(home, Steps(home, s, actions), a)
  {
    assert (actions + [a])[..|actions|] == actions;
  }

  /** `P` relates sequences of actions to the states that they lead to. */
  ghost predicate Follows(home: Home, P: (seq<Action>, State) -> bool) {
    && (forall actions, m {:trigger P(actions, m), m.table.Valid()} :: P(actions, m) ==> m.table.Valid())
    && (forall actions, m, a {:trigger P(actions + [a], Step(home, m, a))} ::
          P(actions, m) && m.table.Valid() ==> P(actions + [a], Step(home, m, a)))
  }

  /** As those from `s` do. */
  lemma FollowsFrom(home: Home, s: State) returns (P: (seq<Action>, State) -> bool)
    requires s.table.Valid()
    ensures Follows(home, P) && P([], s)
    ensures forall actions, r {:trigger P(actions, r)} :: P(actions, r) ==> Steps(home, s, actions) == r
  {
    P := (actions, r) => Steps(home, s, actions) == r;
    forall actions, m, a | P(actions, m) ensures P(actions + [a], Step(home, m, a)) {
      StepsNext(home, s, actions, a);
    }
  }

  lemma FollowsStep(home: Home, P: (seq<Action>, State) -> bool, actions: seq<Action>, m: State, a: Action, r: State)
    requires Follows(home, P) && P(actions, m) && m.table.Valid() && Step(home, m, a) == r
    ensures P(actions + [a], r)
  {
  }

  /** The state after consuming `n` messages, if none of them fails. */
  ghost predicate Consumed(s: State, c: ConnId, l: Link, n: nat, r: State)
    requires s.table.Valid() && n <= |l.toServer|
  {
    match ConsumeAll(s.table, c, l.toServer[..n])
    case Some(t) => r == State(t, s.links[c := l.(toServer := l.toServer[n..])])
    case None => c in r.links && !r.links[c].serverEnd
  }

  /** The server consumes the first `n` messages on the wire. */
  lemma {:induction false} ConsumesTable(home: Home, P: (seq<Action>, State) -> bool, s: State, c: ConnId, l: Link,
      n: nat) returns (r: State)
    requires Follows(home, P) && P([], s) && s.table.Valid()
    requires c in s.links && l == s.links[c] && l.serverEnd && n <= |l.toServer|
    ensures r.table.Valid() && P(Consumes(c, n), r) && Consumed(s, c, l, n, r)
  {
    if n == 0 {
      r := s;
      assert s == State(s.table, s.links[c := l.(toServer := l.toServer[0..])]);
    } else {
      var m := ConsumesTable(home, P, s, c, l, n - 1);
      r := ConsumeOne(home, P, Consumes(c, n - 1), s, c, l, m, n - 1);
    }
  }

  lemma ConsumeOne(home: Home, P: (seq<Action>, State) -> bool, actions: seq<Action>, s: State, c: ConnId, l: Link,
      m: State, n: nat) returns (r: State)
    requires Follows(home, P) && P(actions, m) && s.table.Valid() && m.table.Valid()
    requires c in s.links && l == s.links[c] && l.serverEnd && n < |l.toServer| && Consumed(s, c, l, n, m)
    ensures r.table.Valid() && P(actions + [Consume(c, 0)], r) && Consumed(s, c, l, n + 1, r)
  {
    r := Step(home, m, Consume(c, 0));
    FollowsStep(home, P, actions, m, Consume(c, 0), r);
    StepValid(home, m, Consume(c, 0));
    assert l.toServer[..n + 1][..n] == l.toServer[..n];
    match ConsumeAll(s.table, c, l.toServer[..n])
    case Some(t) => ConsumeNext(home, s, c, l, t, n);
    case None =>
  }

  /** The server has consumed `n` messages, and consumes one more. */
  lemma ConsumeNext(home: Home, s: State, c: ConnId, l: Link, t: Table, n: nat)
    requires c in s.links && l == s.links[c] && l.serverEnd && n < |l.toServer| && t.Valid()
    ensures var r := Step(home, State(t, s.links[c := l.(toServer := l.toServer[n..])]), Consume(c, 0));
            match OnMessage(t, c, l.toServer[n])
            case Some(u) => r == State(u, s.links[c := l.(toServer := l.toServer[n + 1..])])
            case None => c in r.links && !r.links[c].serverEnd
  {
    var rest := l.(toServer := l.toServer[n..]);
    assert rest.toServer[0] == l.toServer[n] && rest.toServer[1..] == l.toServer[n + 1..];
    SameLinks(s, c, rest, l.(toServer := l.toServer[n + 1..]));
  }

  /** The server, consuming all that is on the wire, closes the connection if and only if there is a
      redundant removal. */
  lemma WireDropsExactly(home: Home, s: State, c: ConnId)
    requires s.table.Valid() && c in s.links && s.links[c].serverEnd && NoTimeout(s.links[c].toServer)
    ensures var ms := s.links[c].toServer;
            var r := Steps(home, s, Consumes(c, |ms|));
            c in r.links && (!r.links[c].serverEnd <==> HasRedundant(s.table, ms))
  {
    var l := s.links[c];
    var P := FollowsFrom(home, s);
    var r := ConsumesTable(home, P, s, c, l, |l.toServer|);
    assert Steps(home, s, Consumes(c, |l.toServer|)) == r;
    assert l.toServer[..|l.toServer|] == l.toServer;
    ConsumeExactly(s.table, c, l.toServer);
  }

  /** `msgs` are what notifications `notis` become when they are sent. */
  ghost predicate AllBecome(procs: ProcMap, notis: seq<Noti>, msgs: seq<Option<Msg>>) {
    && |msgs| == |notis|
    && forall i :: 0 <= i < |notis| ==> notis[i] != Shutdown(Done) && Becomes(procs, notis[i], msgs[i])
  }

  function Drains(c: ConnId, msgs: seq<Option<Msg>>): seq<Action> {
    if msgs == [] then [] else Drains(c, msgs[..|msgs| - 1]) + [Drain(c, msgs[|msgs| - 1])]
  }

  function Sendings(msgs: seq<Option<Msg>>): seq<Msg> {
    if msgs == [] then [] else Sendings(msgs[..|msgs| - 1]) + Opt(msgs[|msgs| - 1])
  }

  /** The agent has sent its first `n` notifications. */
  ghost function Drained(s: State, c: ConnId, l: Link, msgs: seq<Option<Msg>>, n: nat): State
    requires n <= |msgs| == |l.notis|
  {
    s.(links := s.links[c := l.(notis := l.notis[n..], toServer := l.toServer + Sendings(msgs[..n]))])
  }

  lemma {:induction false} DrainsWire(home: Home, P: (seq<Action>, State) -> bool, s: State, c: ConnId, l: Link,
      msgs: seq<Option<Msg>>, n: nat)
    requires Follows(home, P) && P([], s)
    requires s.table.Valid() && c in s.links && l == s.links[c] && l.agentEnd && l.intact
    requires AllBecome(l.procs, l.notis, msgs) && n <= |msgs|
    ensures P(Drains(c, msgs[..n]), Drained(s, c, l, msgs, n))
  {
    if n == 0 {
      assert l.toServer + [] == l.toServer && l.notis[0..] == l.notis && msgs[..0] == [];
      assert Drained(s, c, l, msgs, 0) == s;
    } else {
      DrainsWire(home, P, s, c, l, msgs, n - 1);
      var some := msgs[..n];
      assert some[..n - 1] == msgs[..n - 1] && some[n - 1] == msgs[n - 1];
      assert l.toServer + Sendings(some) == l.toServer + Sendings(msgs[..n - 1]) + Opt(msgs[n - 1]);
      DrainedNext(home, P, Drains(c, msgs[..n - 1]), s, c, l, msgs, n - 1);
    }
  }

  lemma DrainedNext(home: Home, P: (seq<Action>, State) -> bool, actions: seq<Action>, s: State, c: ConnId, l: Link,
      msgs: seq<Option<Msg>>, n: nat)
    requires Follows(home, P) && s.table.Valid() && c in s.links && l == s.links[c] && l.agentEnd && l.intact
    requires AllBecome(l.procs, l.notis, msgs) && n < |msgs| && P(actions, Drained(s, c, l, msgs, n))
    requires l.toServer + Sendings(msgs[..n + 1]) == l.toServer + Sendings(msgs[..n]) + Opt(msgs[n])
    ensures P(actions + [Drain(c, msgs[n])], Drained(s, c, l, msgs, n + 1))
  {
    DrainNext(home, s, c, l, msgs, n, l.toServer + Sendings(msgs[..n]));
    FollowsStep(home, P, actions, Drained(s, c, l, msgs, n), Drain(c, msgs[n]), Drained(s, c, l, msgs, n + 1));
  }

  lemma DrainNext(home: Home, s: State, c: ConnId, l: Link, msgs: seq<Option<Msg>>, n: nat, wire: seq<Msg>)
    requires s.table.Valid() && c in s.links && l == s.links[c] && l.agentEnd && l.intact
    requires AllBecome(l.procs, l.notis, msgs) && n < |msgs|
    ensures Step(home, s.(links := s.links[c := l.(notis := l.notis[n..], toServer := wire)]), Drain(c, msgs[n]))
         == s.(links := s.links[c := l.(notis := l.notis[n + 1..], toServer := wire + Opt(msgs[n]))])
  {
    var before := l.(notis := l.notis[n..], toServer := wire);
    DrainOne(home, s.(links := s.links[c := before]), c, before, msgs[n]);
    assert l.notis[n..][1..] == l.notis[n + 1..];
    SameLinks(s, c, before, l.(notis := l.notis[n + 1..], toServer := wire + Opt(msgs[n])));
  }

  lemma DrainOne(home: Home, s: State, c: ConnId, l: Link, msg: Option<Msg>)
    requires s.table.Valid() && c in s.links && l == s.links[c] && l.agentEnd && l.intact
    requires l.notis != [] && l.notis[0] != Shutdown(Done) && Becomes(l.procs, l.notis[0], msg)
    ensures Step(home, s, Drain(c, msg))
         == s.(links := s.links[c := l.(notis := l.notis[1..], toServer := l.toServer + Opt(msg))])
  {
  }

  /** Everything that is under way: what is on the wire, and after it what the notifications become.
      When all of it has arrived, the connection has been closed if and only if there is a redundant
      removal in it. */
  lemma UnderWayDropsExactly(home: Home, s: State, c: ConnId, msgs: seq<Option<Msg>>)
    requires Inv(home, s) && c in s.links && Up(s.links[c]) && s.links[c].agentEnd
    requires AllBecome(s.links[c].procs, s.links[c].notis, msgs)
    ensures var stream := s.links[c].toServer + Sendings(msgs);
            var r := Steps(home, s, Drains(c, msgs) + Consumes(c, |stream|));
            c in r.links && (!r.links[c].serverEnd <==> HasRedundant(s.table, stream))
  {
    var l := s.links[c];
    var stream := l.toServer + Sendings(msgs);
    var sent := Drained(s, c, l, msgs, |msgs|);
    assert msgs[..|msgs|] == msgs;
    var P := FollowsFrom(home, s);
    DrainsWire(home, P, s, c, l, msgs, |msgs|);
    assert Steps(home, s, Drains(c, msgs)) == sent;
    StepsSplit(home, s, Drains(c, msgs), Consumes(c, |stream|));
    SendingsTimeless(l.procs, l.notis, msgs);
    assert NoTimeout(l.toServer) by { WireTimeless(home, c, l); }
    WireDropsExactly(home, sent, c);
  }

  lemma WireTimeless(home: Home, c: ConnId, l: Link)
    requires LinkInv(home, c, l)
    ensures NoTimeout(l.toServer)
  {
    forall i | 0 <= i < |l.toServer| ensures !l.toServer[i].ConnectionTimeout? {
      assert MsgInv(home, c, l.toServer[i]);
    }
  }

  lemma {:induction false} SendingsTimeless(procs: ProcMap, notis: seq<Noti>, msgs: seq<Option<Msg>>)
    requires AllBecome(procs, notis, msgs)
    ensures NoTimeout(Sendings(msgs))
  {
    if msgs != [] {
      var last := |msgs| - 1;
      assert Becomes(procs, notis[last], msgs[last]);
      SendingsTimeless(procs, notis[..last], msgs[..last]);
    }
  }

  //----------------------------------------------------------------------------
  // Runs that come there

  /** A request that the server makes, whatever is under way to it, and the agent's handling of it. */
  lemma AskedAndAnswered(home: Home, s: State, c: ConnId, r: Request, after: ProcMap, emitted: seq<Noti>,
      rsp: Option<Msg>, l: Link)
    requires s.table.Valid() && c in s.links && l == s.links[c]
    requires Up(l) && l.agentEnd && l.toAgent == [] && Sendable(home, c, r) && Handles(l.procs, r, after, emitted, rsp)
    ensures Steps(home, s, [Send(c, r), Handle(c, after, emitted, rsp)])
         == s.(links := s.links[c := l.(procs := after, notis := l.notis + emitted, toServer := l.toServer + Opt(rsp))])
  {
    TwoSteps(home, s, Send(c, r), Handle(c, after, emitted, rsp));
    Asked(home, s, c, r, l);
    Answered(home, s, c, r, after, emitted, rsp, l);
  }

  lemma Asked(home: Home, s: State, c: ConnId, r: Request, l: Link)
    requires s.table.Valid() && c in s.links && l == s.links[c]
    requires l.serverEnd && l.toAgent == [] && Sendable(home, c, r)
    ensures Step(home, s, Send(c, r)) == s.(links := s.links[c := l.(toAgent := [r])])
  {
    assert [] + [r] == [r];
  }

  lemma Answered(home: Home, s: State, c: ConnId, r: Request, after: ProcMap, emitted: seq<Noti>,
      rsp: Option<Msg>, l: Link)
    requires s.table.Valid() && c in s.links && l == s.links[c] && l.agentEnd && l.intact && l.toAgent == []
    requires Handles(l.procs, r, after, emitted, rsp)
    ensures Step(home, s.(links := s.links[c := l.(toAgent := [r])]), Handle(c, after, emitted, rsp))
         == s.(links := s.links[c := l.(procs := after, notis := l.notis + emitted, toServer := l.toServer + Opt(rsp))])
  {
    assert [r][1..] == [];
    SameLinks(s, c, l.(toAgent := [r]),
              l.(procs := after, notis := l.notis + emitted, toServer := l.toServer + Opt(rsp)));
  }

  /** A proc that has ended, on a connection that is ready. */
  predicate CanDelete(s: State, c: ConnId, p: ProcId) {
    Ready(s, c) && p in s.links[c].procs && !s.links[c].procs[p]
  }

  function Deletion(s: State, c: ConnId, p: ProcId): seq<Action>
    requires c in s.links
  {
    [Send(c, DeleteRequest(p)), Handle(c, s.links[c].procs - {p}, [Delete(p)], None)]
  }

  function Question(s: State, c: ConnId, p: ProcId): seq<Action>
    requires c in s.links
  {
    [Send(c, ResultRequest(p)), Handle(c, s.links[c].procs - {p}, [], Some(ProcUnknown(p)))]
  }

  /** The agent has deleted the proc. */
  lemma Deleted(home: Home, s: State, c: ConnId, p: ProcId, l: Link)
    requires s.table.Valid() && CanDelete(s, c, p) && home(p) == c && l == s.links[c]
    ensures Steps(home, s, Deletion(s, c, p))
         == s.(links := s.links[c := l.(procs := l.procs - {p}, notis := [Delete(p)])])
  {
    AskedAndAnswered(home, s, c, DeleteRequest(p), l.procs - {p}, [Delete(p)], None, l);
    assert [] + [Delete(p)] == [Delete(p)] && l.toServer + [] == l.toServer;
  }

  /** The server asks about the proc after it has asked for the deletion; the agent answers before it
      sends the notification, and the answer overtakes it. */
  lemma OvertakingDrops(home: Home, s: State, c: ConnId, p: ProcId)
    requires Inv(home, s) && CanDelete(s, c, p) && home(p) == c
    ensures var r := Steps(home, s, Deletion(s, c, p) + Question(s, c, p)
                                    + ([Consume(c, 0)] + [Drain(c, Some(ProcDelete(p))), Consume(c, 0)]));
            c in r.links && !r.links[c].serverEnd
  {
    var l := s.links[c];
    var s1 := s.(links := s.links[c := l.(procs := l.procs - {p}, notis := [Delete(p)])]);
    Deleted(home, s, c, p, l);
    ReadyTracked(home, s, c, p);
    AskedAndAnswered(home, s1, c, ResultRequest(p), l.procs - {p}, [], Some(ProcUnknown(p)), s1.links[c]);
    var s2 := s.(links := s.links[c := l.(procs := l.procs - {p}, notis := [Delete(p)], toServer := [ProcUnknown(p)])]);
    assert [Delete(p)] + [] == [Delete(p)] && [] + [ProcUnknown(p)] == [ProcUnknown(p)];
    SameLinks(s, c, s1.links[c], s2.links[c]);
    StepsSplit(home, s, Deletion(s, c, p), Question(s, c, p));
    OvertakenDeleteDropsConnection(home, s2, c, p, s2.links[c]);
    StepsSplit(home, s, Deletion(s, c, p) + Question(s, c, p),
               [Consume(c, 0)] + [Drain(c, Some(ProcDelete(p))), Consume(c, 0)]);
  }

  /** The agent sends the notification, and then answers a request that the server made before it
      heard: nothing overtakes anything, and still the server is told twice. */
  lemma InOrderDrops(home: Home, s: State, c: ConnId, p: ProcId)
    requires Inv(home, s) && CanDelete(s, c, p) && home(p) == c
    ensures var r := Steps(home, s, Deletion(s, c, p) + [Drain(c, Some(ProcDelete(p)))] + Question(s, c, p)
                                    + Consumes(c, 2));
            c in r.links && !r.links[c].serverEnd
  {
    var s2 := Notified(s, c, p, [ProcDelete(p)]);
    var ms := [ProcDelete(p), ProcUnknown(p)];
    var first := Deletion(s, c, p) + [Drain(c, Some(ProcDelete(p)))];
    DeletedAndTold(home, s, c, p);
    ToldAndAsked(home, s, c, p);
    StepsSplit(home, s, first, Question(s, c, p));
    StepsSplit(home, s, first + Question(s, c, p), Consumes(c, 2));
    WireDropsExactly(home, Notified(s, c, p, ms), c);
    TwiceRemoved(s.table, p);
  }

  /** The agent has deleted the proc and has nothing more to tell; `wire` is on the wire. */
  function Notified(s: State, c: ConnId, p: ProcId, wire: seq<Msg>): State
    requires c in s.links
  {
    s.(links := s.links[c := s.links[c].(procs := s.links[c].procs - {p}, notis := [], toServer := wire)])
  }

  lemma DeletedAndTold(home: Home, s: State, c: ConnId, p: ProcId)
    requires s.table.Valid() && CanDelete(s, c, p) && home(p) == c
    ensures Steps(home, s, Deletion(s, c, p) + [Drain(c, Some(ProcDelete(p)))]) == Notified(s, c, p, [ProcDelete(p)])
  {
    var l := s.links[c];
    var s1 := s.(links := s.links[c := l.(procs := l.procs - {p}, notis := [Delete(p)])]);
    Deleted(home, s, c, p, l);
    StepsNext(home, s, Deletion(s, c, p), Drain(c, Some(ProcDelete(p))));
    NotificationSent(home, s1, c, ProcDelete(p), s1.links[c]);
    SameLinks(s, c, s1.links[c], Notified(s, c, p, [ProcDelete(p)]).links[c]);
  }

  lemma ToldAndAsked(home: Home, s: State, c: ConnId, p: ProcId)
    requires s.table.Valid() && CanDelete(s, c, p) && home(p) == c
    ensures Steps(home, Notified(s, c, p, [ProcDelete(p)]), Question(s, c, p))
         == Notified(s, c, p, [ProcDelete(p), ProcUnknown(p)])
  {
    var told := Notified(s, c, p, [ProcDelete(p)]);
    var l := told.links[c];
    AskedAndAnswered(home, told, c, ResultRequest(p), l.procs, [], Some(ProcUnknown(p)), l);
    assert l.toServer + [ProcUnknown(p)] == [ProcDelete(p), ProcUnknown(p)] && l.notis + [] == [];
    SameLinks(s, c, l, Notified(s, c, p, [ProcDelete(p), ProcUnknown(p)]).links[c]);
  }

  lemma TwiceRemoved(t: Table, p: ProcId)
    requires t.Valid()
    ensures Redundant(t, [ProcDelete(p), ProcUnknown(p)], 1)
  {
    assert [ProcDelete(p), ProcUnknown(p)][..1] == [ProcDelete(p)];
  }

  /** The link of a connection at first. */
  function NewLink(joining: Joining, serverEnd: bool, agentEnd: bool): Link {
    Link(map[], [], agentEnd, joining, serverEnd, serverEnd, [], [])
  }

  function OneLink(c: ConnId, l: Link): State {
    State(EMPTY, map[c := l])
  }

  lemma BootStep(home: Home, c: ConnId)
    ensures Step(home, INIT, Boot(c)) == OneLink(c, NewLink(Idle, false, false))
  {
  }

  lemma ConnectStep(home: Home, c: ConnId)
    ensures Step(home, OneLink(c, NewLink(Idle, false, false)), Connect(c))
         == OneLink(c, NewLink(Sent({}), false, false))
  {
    var none: ProcMap := map[];
    assert none.Keys == {};
  }

  lemma RegisterStep(home: Home, c: ConnId)
    ensures Step(home, OneLink(c, NewLink(Sent({}), false, false)), Register(c, EMPTY))
         == OneLink(c, NewLink(Accepted, true, false))
  {
    assert Reconciled(EMPTY, c, {}, EMPTY);
  }

  lemma SubscribeStep(home: Home, c: ConnId)
    ensures Step(home, OneLink(c, NewLink(Accepted, true, false)), Subscribe(c))
         == OneLink(c, NewLink(Idle, true, true))
  {
  }

  /** A connection becomes ready: the agent starts, connects, registers and subscribes. */
  lemma ReadyReached(home: Home, c: ConnId)
    ensures var s := Tracking.Run(home, [Boot(c), Connect(c), Register(c, EMPTY), Subscribe(c)]);
            Ready(s, c) && s == OneLink(c, NewLink(Idle, true, true))
  {
    var P := FollowsFrom(home, INIT);
    Connected(home, P, c);
    Joined(home, P, [Boot(c), Connect(c)], c);
    assert [Boot(c), Connect(c)] + [Register(c, EMPTY)] + [Subscribe(c)]
        == [Boot(c), Connect(c), Register(c, EMPTY), Subscribe(c)];
  }

  lemma Connected(home: Home, P: (seq<Action>, State) -> bool, c: ConnId)
    requires Follows(home, P) && P([], INIT)
    ensures P([Boot(c), Connect(c)], OneLink(c, NewLink(Sent({}), false, false)))
  {
    var booted := OneLink(c, NewLink(Idle, false, false));
    BootStep(home, c);
    FollowsStep(home, P, [], INIT, Boot(c), booted);
    ConnectStep(home, c);
    FollowsStep(home, P, [] + [Boot(c)], booted, Connect(c), OneLink(c, NewLink(Sent({}), false, false)));
    assert [] + [Boot(c)] + [Connect(c)] == [Boot(c), Connect(c)];
  }

  lemma Joined(home: Home, P: (seq<Action>, State) -> bool, actions: seq<Action>, c: ConnId)
    requires Follows(home, P) && P(actions, OneLink(c, NewLink(Sent({}), false, false)))
    ensures P(actions + [Register(c, EMPTY)] + [Subscribe(c)], OneLink(c, NewLink(Idle, true, true)))
  {
    var accepted := OneLink(c, NewLink(Accepted, true, false));
    RegisterStep(home, c);
    FollowsStep(home, P, actions, OneLink(c, NewLink(Sent({}), false, false)), Register(c, EMPTY), accepted);
    SubscribeStep(home, c);
    FollowsStep(home, P, actions + [Register(c, EMPTY)], accepted, Subscribe(c), OneLink(c, NewLink(Idle, true, true)));
  }

  /** And a proc is started on it, and ends: so both of the runs above are runs of the system. */
  lemma CanDeleteReached(home: Home, p: ProcId) returns (actions: seq<Action>)
    ensures Inv(home, Tracking.Run(home, actions)) && CanDelete(Tracking.Run(home, actions), home(p), p)
  {
    var c := home(p);
    var boot := [Boot(c), Connect(c), Register(c, EMPTY), Subscribe(c)];
    ReadyReached(home, c);
    var start, t := StartedAfter(home, boot, c, p);
    SettledAfter(home, boot + start, t, c, p);
    actions := boot + start + [Settle(c, p)];
    RunInv(home, actions);
  }

  lemma StartedAfter(home: Home, boot: seq<Action>, c: ConnId, p: ProcId) returns (start: seq<Action>, t: State)
    requires Ready(Tracking.Run(home, boot), c) && Tracking.Run(home, boot).table == EMPTY && home(p) == c
    ensures Tracking.Run(home, boot + start) == t && t.table.Valid() && Ready(t, c) && p in t.links[c].procs
  {
    RunInv(home, boot);
    start, t := StartedFrom(home, Tracking.Run(home, boot), c, p);
    StepsSplit(home, INIT, boot, start);
  }

  lemma SettledAfter(home: Home, actions: seq<Action>, t: State, c: ConnId, p: ProcId)
    requires Tracking.Run(home, actions) == t && t.table.Valid() && Ready(t, c) && p in t.links[c].procs
    ensures Tracking.Run(home, actions + [Settle(c, p)]) == Settled(t, c, p) && CanDelete(Settled(t, c, p), c, p)
  {
    StepsNext(home, INIT, actions, Settle(c, p));
    SettleStep(home, t, c, p);
  }

  function Settled(t: State, c: ConnId, p: ProcId): State
    requires c in t.links
  {
    t.(links := t.links[c := t.links[c].(procs := t.links[c].procs[p := false])])
  }

  lemma SettleStep(home: Home, t: State, c: ConnId, p: ProcId)
    requires t.table.Valid() && c in t.links && p in t.links[c].procs
    ensures Step(home, t, Settle(c, p)) == Settled(t, c, p)
  {
  }

  lemma StartedFrom(home: Home, s: State, c: ConnId, p: ProcId) returns (start: seq<Action>, t: State)
    requires Inv(home, s) && Ready(s, c) && home(p) == c && p !in s.table.tracked
    ensures Steps(home, s, start) == t && t.table.Valid() && Ready(t, c) && p in t.links[c].procs
  {
    start := [RequestStart(c, p), Handle(c, s.links[c].procs[p := true], [Start(p)], None)]
             + [Drain(c, Some(ProcResult(p, ""))), Consume(c, 0)];
    StartRoundTrip(home, s, c, p, "");
    t := Steps(home, s, start);
  }
}
