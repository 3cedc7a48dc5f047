# Procstar, verified

Procstar is a process supervisor.  A Rust agent forks, wires, watches and reaps processes; a Python
server tracks them over websockets that may break and be opened again.  This project models the
parts of both where the state is complicated, and proves what they are meant to guarantee.
`dafny verify dfyconfig.toml` checks all of it.

## What is modelled

| file | module | subject |
|---|---|---|
| proto.dfy | Proto | the messages between server and agent |
| routing.dfy, proc.dfy | Routing, Proc | the server's process table: `Routing` specifies it on values, `Proc` has the mutable objects |
| server.dfy | Server | reconciliation of proc ids when an agent registers |
| agent.dfy | Agent | what an agent may do and answer for each request; how notifications become messages |
| tracking.dfy | Tracking | the tracking protocol as a state machine: two queues per agent, disconnects, registration |
| dropping.dfy | Dropping | when the messages under way on a connection make the server close it |
| recovery.dfy | Recovery | exchanges on a connection that works; what breaks it, and what repairs it |
| registry.dfy, conn.dfy | Registries, Conn | connections, groups, reconnect timers and subscriptions: `Registries` on values, `Conn` mutable |
| serving.dfy | Serving | serve tasks, reconnect timers and waiting for connections, interleaved at awaits |
| lifecycle.dfy | Lifecycle | how waiters return, what subscribers are told, and how a connection ends |
| spec.dfy | Spec | fd names, and the validator of fd specs |
| wiring.dfy | Wiring | pipes and fds across fork, `dup2` and `close` |
| shared_procs.dfy | SharedProcs | the agent's procs, notifications and shutdown state, and the handling of requests |
| waiting.dfy | Waiting | waiting until no procs remain, or none are running |
| reaping.dfy | Reaping | SIGCHLD, reaping and finalisation, with a kernel that reuses pids |
| cleanup.dfy | Cleanup | finalising systemd units within a budget that may run out at any await |
| error_pipe.dfy | ErrorPipe | the framing of errors that a child reports before exec |
| capture.dfy | Capture | output captured in memory, and a client that polls it |

Code that changes objects in place is modelled by classes and methods, which are proved against
functions on values; protocols are state machines, of which an action is what happens between two
awaits, since both event loops are single-threaded.  A disabled action does nothing, so that every
sequence of actions is a run, and results about `Run` are about every run.

Assumptions:

- A proc id is used on one connection only (`Home` in `Tracking`).
- The agent runs without HTTP and without `--exit`, so its procs change only by the requests it handles
  and by their own ends.  Starting the procs of one request is one step, although slices are set up at
  awaits in between.
- When a websocket is replaced, what the old one had buffered is dropped.  A failed send delivers
  nothing.  Sending a start request and `create` are one step.  A `KeyError` of `on_message` ends
  the connection.
- A late Register (`RegisterLate`) is the Register of a websocket that the agent has given up; what it
  may deliver to the agent is over-approximated.
- The agent subscribes to notifications after the server has accepted it; nothing changes its procs in
  between.
- `pipe` and `mkstemp` return fds that no spec of the batch is about; `Dup` names an fd that some spec of
  the batch is about; `pipe`, and `close` and `dup2` of open fds, succeed.
- A client that polls captured output has at most one request or reply under way.
- The broadcast channel never lags by 1024 notifications, writes are not short, `wait4` is not
  interrupted, and no task is cancelled from outside.
- systemd answers truthfully, a scope that has ended does not start again, and a stopped slice stays
  stopped; otherwise it does anything.
- What is said of procs in a batch holds for any order of them; the agent takes them in the order of ids.

## Where the code falls short

- **A second removal drops the connection.**  A ProcDelete or ProcUnknown for an id that is not tracked is a
  `KeyError` (python/procstar/agent/proc.py:272), after which the server closes the websocket.
  `Dropping.UnderWayDropsExactly`: of everything under way on a connection, on the wire and in the
  agent's notifications, this happens if and only if it holds a removal of an id that, after the
  messages before it, is not tracked.  Two runs come there from every quiet state with a proc that has
  ended, for a server that asks for the deletion of a proc and then about it: in
  `Dropping.OvertakingDrops` the answer overtakes the notification of the deletion, and in
  `Dropping.InOrderDrops` nothing overtakes anything.  Registration repairs it
  (`Recovery.Reconnects`).
- **A slice that cannot be set up leaves pipe ends and a child behind.**  `start_procs` returns between the
  fork and the handlers' work in the agent (src/procs.rs:921-922), and neither handlers nor pipes close
  pipe ends when they are dropped.  `Wiring.Process.StartAccepted`: the agent is then left without ends
  between procs if and only if no end was waiting and the proc asks for none; `Wiring.BatchLeaks` is an
  accepted batch where it is not, and by `Wiring.LeakInherited` all later children inherit what is left,
  so that readers wait for them too.  `Reaping.ReapedIffAttached`: the forked process itself is reaped,
  now or later, if and only if the proc has been attached, which this one is not;
  `Reaping.AbandonedReached` is a run.  (Without the eventfd's value the child never execs.)
- **A timer can pop an open connection.**  A reconnect timer pops whatever is registered under its
  connection's id (python/procstar/agent/server.py:280-288).  `Serving.FirePopsOpenExactly`: it
  unregisters an open connection exactly if an open one is registered then, which is never its own.
  `Serving.AllAloneExactly`: every connection object with a serve task or a timer stays registered, all
  along a run, if and only if whoever pops a connection leaves no other serve task of it behind; then
  (`Serving.AlonePopsOwn`, `Serving.TimeoutsDelivered`) timers pop their own connections, which are not open,
  and all processes of these are told.  Otherwise (`Serving.FireTellsExactly`) no process is told when a
  timer pops another object, since an assertion fails first.  `Serving.OrphanTimerPopsOpen`: from every
  state a run leads there, with three websockets of one id whose serve tasks overlap.
- **A range that is not within the captured output panics** the agent's task (src/fd.rs:487), rather than
  being refused: `Capture.RangeExactly` and `Capture.CaptureMemory.GetData` say for which ranges.
- `Connections._add` reports a changed group with a variable that is not bound on that path
  (python/procstar/agent/conn.py:285), so the error raised is an UnboundLocalError rather than the
  RuntimeError its caller expects; the state is unchanged in either case, and the model has that.

## Model

| member | source | states |
|---|---|---|
| Routing.OnMessageRouted | python/procstar/agent/proc.py:230-301 | a message is queued for exactly the live objects it names, or for those of its connection if it is a timeout; every unknown id it mentions gets one new object; a removal untracks; it fails exactly on the removal of an unknown id |
| Routing.MessageQueued | python/procstar/agent/proc.py:254-297 | results, data and errors of requests about a proc become the last message of its object, which is made if there is none |
| Routing.MessageRemoves | python/procstar/agent/proc.py:268-281 | a removal is the last message of the object, whose id is not tracked any more; it fails exactly for an unknown id |
| Routing.MessageLists | python/procstar/agent/proc.py:254-258 | a list makes the ids in it tracked, and queues nothing |
| Routing.MessageTimesOut | python/procstar/agent/proc.py:249-252 | a timeout is queued for every tracked object of the connection, and for no other |
| Routing.RoutingIsProjection | python/procstar/agent/proc.py:220-301 | over any run, an object's queue is the subsequence, in order, of the messages that reach it since it was made |
| Routing.RemovedStaysSilent | python/procstar/agent/proc.py:268-281 | once an object's id has been removed, the object never gets another message, also when the id is used again |
| Proc.Process.OnMessage | python/procstar/agent/proc.py:112-113 | appends the message to the object's queue |
| Proc.Processes.Create | python/procstar/agent/proc.py:220-228 | makes a tracked object, or fails on a known id and changes nothing |
| Proc.Processes.GetProc | python/procstar/agent/proc.py:239-247 | gives the tracked object of an id, made if there is none |
| Proc.Processes.Pop | python/procstar/agent/proc.py:268-281 | untracks an id after queueing the message for its object, or fails on an unknown id |
| Proc.Processes.DeliverAll | python/procstar/agent/proc.py:254-297 | what visiting a list of ids in order does to the table |
| Proc.Processes.SendByConn | python/procstar/agent/proc.py:249-252 | in whatever order the dictionary is visited, exactly the tracked objects of the connection get the message |
| Proc.Processes.OnMessage | python/procstar/agent/proc.py:230-301 | the objects change as the specification's table does; a `KeyError` changes nothing |
| Server.Reconcile | python/procstar/agent/server.py:222-236 | makes the ids tracked for a connection equal to those registered: new ids get objects, missing ones ProcUnknown, which they are told once; fails exactly if an id belongs to another connection; asks for the results of the common ids |
| Server.CreateAll | python/procstar/agent/server.py:226-228 | makes objects for exactly the new ids, in any order, or fails exactly if one of them is tracked |
| Server.DropAll | python/procstar/agent/server.py:229-232 | tells exactly the missing ids' objects that they are unknown, and untracks the ids |
| Tracking.RunInv | src/proto.rs:189-286 | every action keeps the agreement of server and agent, id by id, through everything that is under way |
| Tracking.TrackingInvariant | src/agent.rs:163-184 | in every run, every proc of an agent whose connection is up is known to the server once the messages on the wire and then the unsent notifications have arrived, although responses overtake notifications |
| Tracking.RegisterEqualizes | python/procstar/agent/server.py:222-236 | registration makes the ids tracked for the connection equal to those the agent has |
| Tracking.NoSilentLoss | python/procstar/agent/server.py:319-334 | in every run with disconnects, when a connection is up and quiet, every object made for a start request is tracked and its proc is at the agent, or its queue holds a ProcDelete, ProcUnknown, timeout or start error |
| Tracking.QuietAgreement | src/proto.rs:189-286 | when a connection is up and quiet, server and agent have the same ids, but for those the server has had an error or a timeout for |
| Tracking.StartRoundTrip | python/procstar/agent/server.py:319-334 | from every reachable quiet state, the exchange of a start request ends with the proc at the agent, and its object tracked with one result |
| Tracking.DeleteRoundTrip | src/proto.rs:276-284 | the exchange of a delete request ends with both sides having forgotten the proc, and its object told so |
| Tracking.OvertakenDeleteDropsConnection | python/procstar/agent/proc.py:268-273 | when ProcUnknown is on the wire and the deletion is still to be sent, consuming both makes the server close the websocket; `Dropping.OvertakingDrops` has the run that comes there |
| Dropping.ConsumeExactly | python/procstar/agent/proc.py:268-281 | consuming a stream fails if and only if it removes an id that is not tracked at that point; otherwise every id has the status that replaying the stream gives it |
| Dropping.WireDropsExactly | python/procstar/agent/server.py:238-273 | the server, consuming what is on the wire, closes the connection if and only if a removal in it is redundant |
| Dropping.UnderWayDropsExactly | src/agent.rs:322-361 | so for the wire followed by what the agent's notifications become |
| Dropping.OvertakingDrops | src/proto.rs:216-225 | from every reachable quiet state with a proc that has ended: an answer that overtakes the notification of the deletion leads to the closing |
| Dropping.InOrderDrops | src/proto.rs:216-225 | from the same states, a notification followed by the answer to an earlier question does too |
| Dropping.ReadyReached | src/agent.rs:129-160 | an agent that starts, connects, registers and subscribes has a quiet connection that is up |
| Dropping.CanDeleteReached | python/procstar/agent/server.py:319-334 | a run leads to a quiet connection with a proc that has ended |
| Recovery.AnswerRoundTrip | src/proto.rs:216-273 | from every reachable quiet state, the result of a proc, its data, or the error of a request about it gets to its object, and nothing else changes |
| Recovery.UnknownRoundTrip | src/proto.rs:216-225 | asking about a proc that the agent does not have makes the server forget it, and tells its object |
| Recovery.EndRoundTrip | src/agent.rs:163-184 | when a proc ends, its object receives its result |
| Recovery.ServerCloses | python/procstar/agent/server.py:262-272 | after the server has closed its end the agent receives the first requests at most |
| Recovery.AgentCloses | src/agent.rs:300-310 | after the agent has closed its end the server receives the first messages at most, and notifications are lost; the procs stay |
| Recovery.SendingFails | src/agent.rs:186-194 | once sending fails, nothing that the agent sends arrives until it registers again |
| Recovery.DoneCloses | src/agent.rs:340-347 | an agent that tells that it is done closes its end, without sending what it has left to tell |
| Recovery.LateRegistration | python/procstar/agent/server.py:200-236 | a Register of a websocket that the agent has given up is reconciled, but its connection is not up |
| Recovery.ClosedEnds | python/procstar/agent/conn.py:159-185 | an end that is closed sends and receives nothing |
| Recovery.NothingLost | src/agent.rs:300-361 | while a connection stays up, messages and requests under way are consumed in order, one at a time, and added to at the end |
| Recovery.TimeOutTells | python/procstar/agent/proc.py:249-252 | when a connection times out, exactly its tracked procs are told |
| Recovery.CanReconcile | python/procstar/agent/server.py:222-236 | reconciling succeeds if no id is tracked for another connection |
| Recovery.Reconnects | python/procstar/agent/server.py:200-236 | after every run, whatever has broken: if the agent, the same or started anew, connects, registers and subscribes, the connection is up and quiet, and the server tracks exactly the procs that the agent has; the ids registered never make the server fail |
| Registries.OpenInGroupComplete | python/procstar/agent/conn.py:322-331 | the group index finds the same connections as a search of all of them by group, open and active |
| Registries.AddEffect | python/procstar/agent/conn.py:231-304 | adding keeps the index and the timers in agreement, registers the id for one object, and changes no other |
| Registries.AddFailsExactly | python/procstar/agent/conn.py:283-285 | adding fails exactly for a known connection of another group |
| Registries.ForgetValid | python/procstar/agent/conn.py:306-313 | removing an entry keeps the index in agreement, and leaves no empty group |
| Registries.PopValid | python/procstar/agent/conn.py:306-320 | popping removes exactly the entry and its timer, tells every subscriber, and keeps index and timers in agreement |
| Registries.SetTimerEffect | python/procstar/agent/conn.py:196-208 | a connection has the new timer and no other, and no other connection's timer changes |
| Registries.CancelTimerValid | python/procstar/agent/conn.py:210-213 | a connection has no timer afterwards, and no other connection's timer changes |
| Conn.Connections.Add | python/procstar/agent/conn.py:231-304 | the objects change as the specification's registry does; a changed group changes nothing |
| Conn.Connections.GetOpenConnsInGroup | python/procstar/agent/conn.py:322-331 | returns exactly the open, active connections of the group |
| Conn.Connections.SetReconnectTimeout | python/procstar/agent/conn.py:196-208 | replaces the pending timer of the connection |
| Conn.Connections.CancelReconnectTimeout | python/procstar/agent/conn.py:210-213 | removes it |
| Conn.Connections.Pop | python/procstar/agent/conn.py:306-320 | removes the entry from map and group and cancels its timer, or fails on an unknown id |
| Serving.ServedOrTimed | python/procstar/agent/server.py:74-84 | in every run with a timeout configured, every registered connection has a serve task or exactly one pending timer |
| Serving.TimedIsClosed | python/procstar/agent/server.py:200-216 | in every run, a pending timer's connection has no open websocket |
| Serving.WaiterMissesNothing | python/procstar/agent/conn.py:361-415 | in every run, a waiter with no event to read has no connection to find, by group or by id |
| Serving.StepInv | python/procstar/agent/server.py:162-294 | every action of overlapping serve tasks, timers and waiters keeps: open connections have their own task and no timer, registered ones a task or a timer, blocked waiters nothing to find |
| Serving.FirePopsOpenExactly | python/procstar/agent/server.py:280-288 | a firing timer unregisters an open connection if and only if an open one is registered under its connection's id, and then its own connection is not the one registered |
| Serving.AlonePopsOwn | python/procstar/agent/server.py:274-294 | in every run where whoever pops leaves no serve task behind, timers and tasks pop their own connection, and no timer pops an open one |
| Serving.AloneExactly | python/procstar/agent/server.py:274-294 | an action keeps every connection object with a task or a timer registered if and only if whoever pops a connection by it leaves no serve task of it behind |
| Serving.AllAloneExactly | python/procstar/agent/server.py:274-294 | so for whole runs: none of its states has an orphan if and only if whoever pops is alone, all along |
| Serving.FireTellsExactly | python/procstar/agent/server.py:287-290 | in every run, a firing timer tells each process of its connection, if it pops its own connection, and otherwise none |
| Serving.TimeoutsDelivered | python/procstar/agent/server.py:287-290 | in every run where whoever pops is alone, every connection popped by a timer has all its processes told |
| Serving.OrphanTimerPopsOpen | python/procstar/agent/server.py:274-294 | from every state with a timeout, overlapping serve tasks lead to a timer that pops an open connection and tells nobody |
| Lifecycle.ReturnsExactly | python/procstar/agent/conn.py:361-415 | a waiter that begins to wait or wakes up returns if and only if there is an open, active connection of the group, or an open one with the id; otherwise it waits for the next event |
| Lifecycle.GivesUp | python/procstar/agent/conn.py:361-415 | a waiter that times out stops waiting; no other subscriber is affected |
| Lifecycle.ChangesPublished | python/procstar/agent/server.py:253-260 | whatever registers or removes a connection, or changes its websocket or shutdown state, every subscriber is told last |
| Lifecycle.FailurePublished | python/procstar/agent/server.py:268-272 | a serve task that fails tells every subscriber |
| Lifecycle.LostThenTimedOut | python/procstar/agent/server.py:274-294 | when a websocket is lost, the connection stays registered and gets a timer; if that fires, the connection is unregistered and its processes are told |
| Lifecycle.DoneThenGone | python/procstar/agent/server.py:253-276 | when the agent has said that it is done, the connection is unregistered with its serve task, without a timer |
| Lifecycle.ServesWhileOpen | python/procstar/agent/server.py:238-266 | a serve task neither leaves its loop without an exception nor ends while its websocket is open |
| Lifecycle.ShutDownRecorded | python/procstar/agent/server.py:253-260 | a shutdown state that an agent reports is recorded, and keeps its connection from being chosen unless it is active |
| Lifecycle.ComesBack | python/procstar/agent/server.py:200-216 | a connection that registers again keeps its object, and has no timer |
| Lifecycle.OtherGroupRefused | python/procstar/agent/conn.py:283-285 | a registration for another group changes no connection |
| Spec.FdNameRoundTrip | src/fd.rs:21-28 | parsing the name of an fd gives the fd, for every 32-bit number |
| Spec.GetFdNameInjective | src/fd.rs:21-28 | different fds have different names |
| Spec.ParseFdExactly | src/spec.rs:234-241 | "stdin", "stdout" and "stderr" are fds 0, 1 and 2; any other name is an fd if and only if it is an optional sign and digits, and of their value, within 32 bits |
| Spec.NumberValueExactly | src/spec.rs:239-239 | a further digit makes the value of digits ten times as much, and adds itself |
| Spec.GetFdNameExactly | src/fd.rs:21-28 | fds 0, 1 and 2 have the standard names; any other is called by its number in decimal |
| Spec.IntNameExactly | src/spec.rs:292-294 | numbers are printed in decimal, with a minus sign if negative and without superfluous zeros |
| Spec.ValidateProcsFds | src/spec.rs:254-297 | accepts exactly the specs whose fds have names of their own and whose pipe ends match one to one; otherwise reports an error that they have; no writing end is inserted twice |
| Spec.AcceptedExactly | src/spec.rs:245-297 | what is accepted, fd by fd: all names are of fds, no two of a proc of the same; every fd that is written to a pipe is read by exactly one fd, and every fd that reads from one names an fd that is written |
| Spec.CheckNames | src/spec.rs:256-263 | finds a name that does not parse or repeats an fd, or there is none |
| Spec.CheckAllNames | src/spec.rs:255-263 | so for all procs |
| Spec.CollectWrites | src/spec.rs:265-274 | collects the writing ends of a proc; each is new, so the assertion holds |
| Spec.MatchReads | src/spec.rs:278-291 | removes every end that is read from, or finds a source that does not parse or that is read from more often than written |
| Spec.MatchAllReads | src/spec.rs:275-291 | so for all procs: what is left over are the writing ends that nobody reads from |
| Spec.WritesOnce | src/spec.rs:265-275 | with names of their own, no two fds of any procs ask for the same writing end |
| Spec.ResultPerHandler | src/procs.rs:141-157 | a result has one entry per fd, with what its handler reports |
| Spec.AcceptedReportsAll | src/procs.rs:141-157 | a proc of an accepted spec reports every fd of the spec, and no other |
| Wiring.WriteEndsNamed | src/fd.rs:294-326 | under the meaning of its specs a proc holds a writing end exactly where they name it, directly or by `Dup` |
| Wiring.ReadEndsNamed | src/fd.rs:328-339 | and a reading end exactly where they name what to read from |
| Wiring.MeaningWired | src/fd.rs:409-472 | the meaning of specs with distinct fds, fd by fd: open to the pipe end, capture, temporary file, path or /dev/null that the spec says, closed, or open to what the duplicated fd is; no other fd is affected; ready exactly if every path opens, every fd to close is inherited and every fd to duplicate is open |
| Wiring.Process.GetReadFd | src/fd.rs:217-233 | gives the reading end of the pipe, made at most once; the other end waits; unwrapping succeeds |
| Wiring.Process.GetWriteFd | src/fd.rs:238-254 | gives the writing end of the pipe, made at most once |
| Wiring.Process.ClosePipes | src/fd.rs:257-270 | closes exactly the ends that wait, and counts them |
| Wiring.Process.MakeFdHandler | src/fd.rs:294-346 | the handler of an fd holds what its spec asks for; of the ends, exactly that one is taken |
| Wiring.Process.MakeFdHandlers | src/procs.rs:860-863 | the handlers hold what their specs ask for, no fd twice, and every end asked for is taken |
| Wiring.Process.InChild | src/fd.rs:409-472 | attaches the fd to what its spec says, without the agent's own fds for it, and affects no other fd; fails exactly if the spec cannot be carried out |
| Wiring.Process.RunChild | src/procs.rs:883-890 | every fd of the child is open to exactly what its spec says, and all others are as inherited; it may exec exactly if all specs can be carried out |
| Wiring.Process.InParent | src/fd.rs:372-407 | closes the end given to the child, and nothing else |
| Wiring.Process.RunParent | src/procs.rs:928-938 | the agent closes exactly the ends that the proc's specs ask for |
| Wiring.Process.StartOne | src/procs.rs:837-970 | a proc whose slice is set up: after the round the agent has, besides ends that wait, what it had before and captures |
| Wiring.Process.StartAccepted | src/procs.rs:835-977 | for accepted specs in any order: every fd of each child is open to exactly what its spec says, and it holds ends between procs exactly where its spec names them; if all slices are set up, the agent has closed each end once, holds none, has opened nothing but captures and can read each of them, and no end is left over; if the slice of a proc is not, the agent holds no end exactly if none waited and that proc asks for none |
| Wiring.Process.StartProcs | src/procs.rs:806-977 | refused specs open and start nothing; accepted ones are wired as above, up to a proc whose slice is not set up |
| Wiring.Process.StartFailing | src/procs.rs:921-922 | a proc whose slice is not set up: its child is wired, the agent closes temporary files only, and is without ends between procs exactly as said |
| Wiring.Process.DropHandlers | src/fd.rs:155-163 | dropping handlers closes their temporary files, and nothing else |
| Wiring.BatchLeaks | src/procs.rs:921-922 | for an accepted batch of a writer and a reader, the agent keeps ends, whichever slice fails |
| Wiring.LeakInherited | src/procs.rs:866-890 | a child of a later batch has every fd that the agent has kept open, unless its spec is about that fd |
| SharedProcs.NextFollowed | src/procs.rs:305-413 | after every operation an idling agent has procs, and the notifications lead from the procs before to the procs after |
| SharedProcs.DoneOnce | src/procs.rs:476-492 | what leaves an idling agent without procs leads to Done and announces that once; nothing else but a request announces a shutdown |
| SharedProcs.RunFollowed | src/procs.rs:415-427 | in every run, who subscribes at any moment and follows the notifications knows the procs there are |
| SharedProcs.Procs.Recv | src/procs.rs:260-267 | reading a notification keeps a subscriber's knowledge right |
| SharedProcs.Procs.SetShutdown | src/procs.rs:476-480 | with `check_idling` it terminates; announces the state, and Done if there are no procs and the state is Idling |
| SharedProcs.Procs.CheckIdling | src/procs.rs:486-492 | moves from Idling to Done exactly if there are no procs |
| SharedProcs.Procs.InsertProc | src/procs.rs:305-309 | adds the proc and tells every subscriber |
| SharedProcs.Procs.EndProc | src/procs.rs:959-967 | every subscriber is told exactly that the proc of the object is not running, also when its id is used again; nothing changes |
| SharedProcs.Procs.StopProc | src/procs.rs:713-723 | a proc object stops running; nothing is announced |
| SharedProcs.NextView | src/procs.rs:305-413 | which procs are running after each operation; the end of an object that is no longer in the map makes no difference |
| SharedProcs.Procs.RequestShutdown | src/procs.rs:476-480 | the state is set and announced; without procs, Idling is followed by Done, which is announced after it |
| SharedProcs.Procs.RemoveIfNotRunning | src/procs.rs:349-367 | removes a proc that is not running; the shutdown is announced before the deletion; the error says which case it is, and then nothing changes |
| SharedProcs.Procs.PopProc | src/procs.rs:369-380 | removes the first proc in the order of ids, running or not, and announces the deletion before the shutdown |
| SharedProcs.FirstUnique | src/procs.rs:369-372 | ids are ordered, so there is only one first proc |
| SharedProcs.BelowExactly | src/procs.rs:270-272 | ids are ordered by their first different character, a prefix first |
| SharedProcs.DeletesInOrder | src/procs.rs:406-409 | one deletion for each id, in order |
| SharedProcs.Procs.CollectResults | src/procs.rs:392-413 | removes all procs, returns each id once, in order, and announces each deletion, and then the shutdown |
| SharedProcs.Procs.StartProcs | src/procs.rs:806-970 | fails with nothing started exactly if an id is in use, the specs are invalid or the agent is shutting down; otherwise all procs before the first whose slice fails are started, in order, and it fails exactly if there is one |
| SharedProcs.Procs.HandleIncoming | src/proto.rs:189-286 | request by request, what the agent does, whom it tells and what it answers; a start request starts all procs, or those before a slice that fails, or none exactly if it is refused; and it is what `Agent.Handles` allows, on which the tracking results rest |
| SharedProcs.Procs.NotificationToMessage | src/agent.rs:163-184 | a start or an end becomes the result of the proc, if it is still there; a deletion and a shutdown become their messages; this is what `Agent.Becomes` allows |
| Waiting.DeletionNotMissed | src/procs.rs:462-473 | in every run, if a waiter waits for the deletion of a proc that is not there, the deletion is in its queue |
| Waiting.EndNotMissed | src/procs.rs:444-459 | in every run, if a waiter waits for a proc object that has announced its end, the end or a deletion is in its queue |
| Waiting.ReturnsWhenDone | src/procs.rs:444-473 | a waiter returns only when no procs remain, or none are running |
| Waiting.DeletedUnblocks | src/procs.rs:462-473 | a waiter whose proc has gone reads as far as the deletion at the latest, and returns or waits for a proc that is there |
| Waiting.EndedUnblocks | src/procs.rs:444-459 | a waiter whose proc object has announced its end reads as far as that at the latest, and returns or waits for a proc that is running |
| Waiting.WaitIdleBegins | src/procs.rs:462-473 | a waiter for no procs to remain waits, for the first to be deleted, exactly if there are procs |
| Waiting.WaitRunningBegins | src/procs.rs:444-459 | a waiter for no procs to be running waits, for the first to end, exactly if one is running |
| Reaping.DeadChildNoticed | src/sig.rs:84-119 | in every run, for any number of children per watcher, a dead child whose task is idle has a signal pending or a version unseen |
| Reaping.DeadChildReaped | src/procs.rs:687-697 | delivering and passing on the signal makes the task of a dead child reap it |
| Reaping.AbandonedForever | src/procs.rs:921-922 | a forked proc that `start_procs` has not attached is never attached or reaped, and its process stays a child of the agent, whatever happens |
| Reaping.ReapedIffAttached | src/procs.rs:680-697 | when `start_procs` has returned, a proc can be reaped, now or later, if and only if it has been attached |
| Reaping.AbandonedReached | src/procs.rs:921-922 | a run to a dead child that is never reaped |
| Reaping.NeverPanics | src/sig.rs:86-91 | in every run, no task waits on a channel without sender, waits for a pid that is no child, or records a termination twice |
| Reaping.StepInv | src/procs.rs:680-727 | every action keeps: children belong to one unreaped proc each, receivers have a sender, dead children are yet to be noticed |
| Reaping.SignalsReachOwn | src/procs.rs:104-117 | with pids reused, a signal to a proc reaches its own process until that is reaped and nothing afterwards; each proc is reaped at most once |
| Reaping.PidReused | src/procs.rs:104-108 | a run in which a pid is used again, by a stranger and by a proc: a signal to the first proc reaches neither |
| Reaping.NeverRunsAgain | src/procs.rs:119-127 | a proc that is not running never is again |
| Reaping.StateMeans | src/procs.rs:119-127 | in every run, a proc is in error exactly if it has errors, else terminated exactly if it has been reaped and finalised, else running |
| Reaping.ErrorsStay | src/procs.rs:119-127 | a proc with errors stays in error |
| Reaping.DeadChildTerminates | src/procs.rs:687-727 | a dead child whose signal is delivered, passed on and seen is finalised, has terminated unless it has errors, and can be deleted |
| Reaping.RunningKept | src/procs.rs:349-362 | a running proc cannot be deleted |
| Reaping.WatcherEnds | src/sig.rs:105-119 | the watcher of a batch ends at the next signal when nobody waits any more |
| Reaping.RemovedIsOver | src/procs.rs:349-367 | a proc that has been removed has been reaped and finalised, or has errors |
| Cleanup.EvidenceNext | src/procs.rs:518-524 | recording a result keeps the record at the last failure, else a success |
| Cleanup.UnitsFinal.RecordScopeResult | src/procs.rs:518-524 | a result replaces the one recorded, unless it is "success"; the record is the evidence of all results seen |
| Cleanup.UnitsFinal.RecordAccounting | src/procs.rs:528-532 | a read that gives accounting replaces the one recorded; a failed one keeps it |
| Cleanup.StopUnit | src/procs.rs:537-554 | true exactly if the job's result is "done" or "skipped", or the unit is gone |
| Cleanup.SettleScope | src/procs.rs:560-599 | true exactly if the scope is gone, is inactive, or has failed and been reset, and then it is at rest; the result is recorded before the reset |
| Cleanup.StopSlice | src/procs.rs:654-658 | reads the accounting and then stops the slice, whatever the read returns |
| Cleanup.OnePass | src/procs.rs:648-658 | stops and settles the scope, reads the accounting and stops the slice, whatever the replies; true exactly if stops and settling were |
| Cleanup.PassOkExactly | src/procs.rs:648-658 | a pass is all right exactly if the stops are answered "done" or "skipped" or the units are gone, and the scope is settled |
| Cleanup.FinalizeUnitsInner | src/procs.rs:640-678 | one pass, and a second exactly if the first was not all right |
| Cleanup.FinalizeUnits | src/procs.rs:620-638 | complete exactly if not cut and the last pass was all right, and then the slice has stopped and the scope is gone or inactive; the evidence of all calls is kept, and a cut is never complete; if the first pass goes well, it is the only one |
| ErrorPipe.ErrorWriter.Write | src/err_pipe.rs:37-47 | writes the length as two bytes, the low one first, and then the bytes; a message over 65535 bytes writes nothing |
| ErrorPipe.GetErrors | src/err_pipe.rs:66-100 | reads the entries of a stream, and stops at its end or at a failure |
| ErrorPipe.RoundTrip | src/err_pipe.rs:37-100 | reading what has been written gives exactly the messages |
| ErrorPipe.CutStream | src/err_pipe.rs:66-100 | a stream cut after any number of bytes gives exactly the complete messages, and one failure exactly if the cut is after a length and before the end of its message |
| Capture.RangeExactly | src/fd.rs:484-489 | a range within the output carries exactly that part of it, and no other range of 64-bit numbers is answered |
| Capture.CaptureMemory.Drain | src/fd.rs:348-370 | appends what is read, up to the end |
| Capture.OutputExactly | src/fd.rs:358-370 | that is everything before the first empty read, and nothing after it |
| Capture.CaptureMemory.GetData | src/fd.rs:475-496 | a range of 64-bit numbers gets exactly that part of the output if it is within the output; any other is an index out of range |
| Capture.PollingIsPrefix | src/proto.rs:244-263 | in every run, a client that asks for everything from its last stop on never makes the agent panic, and has received exactly the output up to its last stop |
| Capture.PollCatchesUp | src/proto.rs:244-263 | one more poll, with nothing under way, gets everything captured |
| Capture.CapturedExactly | src/fd.rs:348-370 | nothing that is written is lost, as long as it fits |
| Capture.PollRecovers | src/proto.rs:244-263 | after every run, with a disconnect at the end, one poll gets everything that has been written |

## Left out

- `Server.reconnect`: it makes a Process without knowing whether the agent has the proc.
- Serve tasks and waiters as code: `Serving`, `Waiting` and `Reaping` have what they do between awaits as
  functions of a state, and `Conn`, `Proc` and `SharedProcs` have the objects that they change; the local
  variables of a task are in its state.
- HTTP, TLS, access tokens, serialization, argv, environments, open flags, logging and the formatting of results.
- Real system calls and `/proc`: fd tables, `wait` and `kill` are abstract.
- D-Bus and cgroup files: `Cleanup.Systemd` is any systemd that keeps to its contracts.
- The error pipe and the eventfd of each child among the fds of `Wiring`; both close at exec.
- Captures in temporary files, while the child runs: agent and child share a file offset.
- Removal of running procs by `pop` and `collect_results` in `Reaping`; `SharedProcs` has them.
- HTTP requests and `--exit`, which also change an agent's procs, and the signals that request a shutdown.
- The order of Delete and ShutDown messages, and any order of shutdown states: the code guarantees neither.
- A pending timer whose connection is no longer registered: nothing is claimed about its registration.
- Which connections may time out: in `Tracking`, any that is not being served may, with or without a timer.
- Errors of reading the error pipe other than its end, which add an entry and end the reading.
- UTF-8: the text of errors is bytes, which `from_utf8_lossy` leaves as they are when they were a string.
- Proc.Processes.SendByConn: does not model the order in which the dictionary is visited.
