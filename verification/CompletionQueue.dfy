/** What the program relies on of a gRPC completion queue. An operation is started with a tag, which
    is pending until the operation ends and ready until it is delivered, once, with its `ok` flag.
    `AsyncNext` answers SHUTDOWN exactly when the queue has been shut down and owes no tag. */
module CompletionQueue {

  datatype Cq = Cq(pending: set<nat>, ready: map<nat, bool>, down: bool)

  datatype Answer =
    | Event(tag: nat, ok: bool)              // GOT_EVENT
    | Timeout                                // TIMEOUT, at once: the deadline is in the past
    | Shutdown                               // SHUTDOWN

  const FRESH := Cq({}, map[], false)

  /** The tags the queue still has to deliver. */
  function Outstanding(q: Cq): set<nat> { q.pending + q.ready.Keys }

  /** Shut down and fully delivered. */
  predicate Drained(q: Cq) { q.down && q.pending == {} && q.ready == map[] }

  /** No tag is both pending and ready. */
  predicate Proper(q: Cq) { q.pending !! q.ready.Keys }

  /** An operation is started with `tag`. */
  function Register(q: Cq, tag: nat): Cq { q.(pending := q.pending + {tag}) }

  /** The operation with `tag` ends. */
  function MakeReady(q: Cq, tag: nat, ok: bool): Cq {
    if tag in q.pending then q.(pending := q.pending - {tag}, ready := q.ready[tag := ok]) else q
  }

  function ShutDown(q: Cq): Cq { q.(down := true) }

  /** The answers that `AsyncNext` may give in this state. */
  predicate MayAnswer(q: Cq, a: Answer) {
    match a
    case Event(tag, ok) => tag in q.ready && q.ready[tag] == ok
    case Timeout => !Drained(q)
    case Shutdown => Drained(q)
  }

  /** `tag` has been delivered. */
  function Delivered(q: Cq, tag: nat): Cq { q.(ready := q.ready - {tag}) }
}
