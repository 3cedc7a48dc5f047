/** The messages exchanged by the server and an agent over a websocket
    (python/procstar/proto.py, src/proto.rs). */
module Proto {
  type ProcId = string
  type ConnId = string
  type GroupId = string

  datatype Option<+T> = None | Some(value: T)

  datatype ShutdownState = Active | Idling | Done

  /** The keys of a dictionary, in iteration order: no key occurs twice. */
  type Keys = ids: seq<ProcId> | forall i, j :: 0 <= i < j < |ids| ==> ids[i] != ids[j]
    witness []

  /** Messages from the server to an agent.  `StartRequest` carries the keys of its specs. */
  datatype Request =
    | Registered
    | StartRequest(ids: Keys)
    | ListRequest
    | ResultRequest(procId: ProcId)
    | SignalRequest(procId: ProcId, signum: int)
    | FdDataRequest(procId: ProcId, fd: string, start: int, stop: Option<int>)
    | DeleteRequest(procId: ProcId)

  /** Messages an agent sends to the server, and the `ConnectionTimeout` the server makes itself.
      Results and data are opaque payloads. */
  datatype Msg =
    | RequestError(request: Request, err: string)
    | ProcUnknown(procId: ProcId)
    | ProcidList(ids: seq<ProcId>)
    | ProcResult(procId: ProcId, res: string)
    | ProcFdData(procId: ProcId, data: string)
    | ProcDelete(procId: ProcId)
    | ShutDown(state: ShutdownState)
    | ConnectionTimeout

  /** True for the two messages after which the server forgets the proc. */
  predicate Removes(m: Msg, p: ProcId) {
    (m.ProcDelete? || m.ProcUnknown?) && m.procId == p
  }

  /** Whether a request refers to `p`, through its `proc_id` or the keys of its specs. */
  predicate RequestNames(r: Request, p: ProcId) {
    match r
    case Registered | ListRequest => false
    case StartRequest(ids) => p in ids
    case ResultRequest(q) => p == q
    case SignalRequest(q, _) => p == q
    case FdDataRequest(q, _, _, _) => p == q
    case DeleteRequest(q) => p == q
  }

  /** Whether a message is addressed to proc `p` by id. */
  predicate Names(m: Msg, p: ProcId) {
    match m
    case RequestError(r, _) => RequestNames(r, p)
    case ProcUnknown(q) => p == q
    case ProcResult(q, _) => p == q
    case ProcFdData(q, _) => p == q
    case ProcDelete(q) => p == q
    case ProcidList(_) | ShutDown(_) | ConnectionTimeout => false
  }

  /** The ids a message makes the server look up or create; lists are included. */
  predicate Mentions(m: Msg, p: ProcId) {
    Names(m, p) || (m.ProcidList? && p in m.ids)
  }

  /** A start request that could not be carried out for `p`. */
  predicate StartError(m: Msg, p: ProcId) {
    m.RequestError? && m.request.StartRequest? && p in m.request.ids
  }
}
