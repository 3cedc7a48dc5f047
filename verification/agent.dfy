/** What an agent does with one request, and how a notification becomes a message
    (src/proto.rs, src/agent.rs).  A proc is represented by whether it is running. */
module Agent {
  import opened Proto
  import Spec

  datatype Noti =
    | Start(procId: ProcId)
    | NotRunning(procId: ProcId)
    | Delete(procId: ProcId)
    | Shutdown(state: ShutdownState)

  type ProcMap = map<ProcId, bool>

  function Starts(ids: seq<ProcId>): seq<Noti> {
    seq(|ids|, i requires 0 <= i < |ids| => Start(ids[i]))
  }

  /** Handling request `r` with procs `before` may leave procs `after`, emit `notis` and
      answer `rsp`.  A start may fail before any proc is made, or after the first few. */
  ghost predicate Handles(before: ProcMap, r: Request, after: ProcMap, notis: seq<Noti>, rsp: Option<Msg>) {
    match r
    case Registered => after == before && notis == [] && rsp == Some(RequestError(r, "unexpected"))
    case StartRequest(ids) =>
      var made := |notis|;
      && made <= |ids| && notis == Starts(ids[..made])
      && after.Keys == before.Keys + (set p | p in ids[..made])
      && (forall p :: p in before ==> after[p] == before[p])
      && (rsp.None? || (rsp.value.RequestError? && rsp.value.request == r))
      && (rsp.None? ==> made == |ids|)
      && ((exists p :: p in ids && p in before) ==> made == 0 && rsp.Some?)
    case ListRequest =>
      && after == before && notis == []
      && rsp.Some? && rsp.value.ProcidList? && (set p | p in rsp.value.ids) == before.Keys
    case ResultRequest(p) =>
      && after == before && notis == [] && rsp.Some?
      && (if p in before then rsp.value.ProcResult? && rsp.value.procId == p else rsp.value == ProcUnknown(p))
    case SignalRequest(p, _) =>
      && after == before && notis == []
      && (if p in before then rsp.None? || (rsp.value.RequestError? && rsp.value.request == r)
          else rsp == Some(ProcUnknown(p)))
    case FdDataRequest(p, fd, _, _) =>
      && after == before && notis == [] && rsp.Some?
      && (if Spec.ParseFd(fd).None? then rsp.value.RequestError? && rsp.value.request == r
          else if p in before then || (rsp.value.ProcFdData? && rsp.value.procId == p)
                                   || (rsp.value.RequestError? && rsp.value.request == r)
          else rsp.value == ProcUnknown(p))
    case DeleteRequest(p) =>
      if p !in before then after == before && notis == [] && rsp == Some(ProcUnknown(p))
      else if before[p] then
        after == before && notis == [] && rsp.Some? && rsp.value.RequestError? && rsp.value.request == r
      else
        && after == before - {p} && rsp.None?
        && (notis == [Delete(p)] || (after == map[] && notis == [Shutdown(Done), Delete(p)]))
  }

  /** `notification_to_message`: results are looked up when the notification is sent. */
  ghost predicate Becomes(procs: ProcMap, n: Noti, m: Option<Msg>) {
    match n
    case Start(p) => if p in procs then m.Some? && m.value.ProcResult? && m.value.procId == p else m.None?
    case NotRunning(p) => if p in procs then m.Some? && m.value.ProcResult? && m.value.procId == p else m.None?
    case Delete(p) => m == Some(ProcDelete(p))
    case Shutdown(state) => m == Some(ShutDown(state))
  }
}
