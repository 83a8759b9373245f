/** What pkg/calls/subsystem.go remembers of its calls beside the table: the channels on which the thread of a call
    waits, the ring notifications, and whose participant was seen. It is all gone with the process. */
module CallMemory {
  import opened Results
  import opened CallTable

  type EventId = string

  datatype Memory = Memory(
    /** The channels by call: the join that answered holds while it is unread, and whether the others are closed. */
    answered: map<CallId, Option<User>>, declined: map<CallId, bool>, ended: map<CallId, bool>,
    /** The call that a ring notification announced. */
    notifies: map<EventId, CallId>,
    /** The calls whose participant has been seen. */
    seen: set<CallId>)

  const NOTHING := Memory(map[], map[], map[], map[], {})

  datatype Channel = AnswerChannel | DeclineChannel | EndedChannel

  /** The blocks that hold one of the mutexes. */
  datatype MemOp =
    | Makes(c: Channel, id: CallId)
    | Drops(c: Channel, id: CallId)
    | TakesJoin(id: CallId)
    | Joins(id: CallId, joiner: User)
    | Remembers(notify: EventId, id: CallId)
    | Declines(notify: EventId)
    | Marks(id: CallId)

  predicate HasChannel(m: Memory, c: Channel, id: CallId) {
    match c
    case AnswerChannel => id in m.answered
    case DeclineChannel => id in m.declined
    case EndedChannel => id in m.ended
  }

  /** A channel that is there stays as it is. */
  function Make(m: Memory, c: Channel, id: CallId): Memory {
    match c
    case AnswerChannel => if id in m.answered then m else m.(answered := m.answered[id := None])
    case DeclineChannel => if id in m.declined then m else m.(declined := m.declined[id := false])
    case EndedChannel => if id in m.ended then m else m.(ended := m.ended[id := false])
  }

  function Drop(m: Memory, c: Channel, id: CallId): Memory {
    match c
    case AnswerChannel => m.(answered := m.answered - {id})
    case DeclineChannel => m.(declined := m.declined - {id})
    case EndedChannel => m.(ended := m.ended - {id})
  }

  /** The thread of the call has no join to read. */
  predicate TakesIn(m: Memory, id: CallId) {
    id in m.answered && m.answered[id] == None
  }

  /** A join that comes while an earlier one is unread is dropped. */
  function Join(m: Memory, id: CallId, joiner: User): Memory {
    if TakesIn(m, id) then m.(answered := m.answered[id := Some(joiner)]) else m
  }

  function Announced(m: Memory, notify: EventId): Option<CallId> {
    if notify in m.notifies then Some(m.notifies[notify]) else None
  }

  /** Somebody waits for the decline. */
  predicate Awaited(m: Memory, notify: EventId) {
    notify in m.notifies && m.notifies[notify] in m.declined
  }

  function Decline(m: Memory, notify: EventId): Memory {
    if Awaited(m, notify) then m.(declined := m.declined[m.notifies[notify] := true]) else m
  }

  /** takeNotifications. */
  function WithoutNotifies(m: Memory, id: CallId): Memory {
    m.(notifies := map e | e in m.notifies && m.notifies[e] != id :: m.notifies[e])
  }

  /** signalEnded. */
  function CloseEnded(m: Memory, id: CallId): Memory {
    if id in m.ended then m.(ended := m.ended[id := true]) else m
  }

  /** forgetSeen. */
  function Forget(m: Memory, id: CallId): Memory {
    m.(seen := m.seen - {id})
  }

  predicate CanApply(m: Memory, op: MemOp) {
    op.TakesJoin? ==> op.id in m.answered && m.answered[op.id].Some?
  }

  function Apply(m: Memory, op: MemOp): Memory
    requires CanApply(m, op)
  {
    match op
    case Makes(c, id) => Make(m, c, id)
    case Drops(c, id) => Drop(m, c, id)
    case TakesJoin(id) => m.(answered := m.answered[id := None])
    case Joins(id, joiner) => Join(m, id, joiner)
    case Remembers(notify, id) => m.(notifies := m.notifies[notify := id])
    case Declines(notify) => Decline(m, notify)
    case Marks(id) => m.(seen := m.seen + {id})
  }

  /** The channels of the call are there as they were, and what they hold they keep: a join that is unread, and that
      they are closed. */
  ghost predicate KeepsChannels(m: Memory, n: Memory, id: CallId) {
    && (id in n.answered <==> id in m.answered) && (id in n.declined <==> id in m.declined)
    && (id in n.ended <==> id in m.ended)
    && (id in m.answered && m.answered[id].Some? ==> n.answered[id] == m.answered[id])
    && (id in m.declined && m.declined[id] ==> n.declined[id])
    && (id in m.ended && m.ended[id] ==> n.ended[id])
  }

  /** The thread of the call makes its channels, reads its joins and drops its channels. */
  predicate OnOwn(op: MemOp) {
    op.Makes? || op.Drops? || op.TakesJoin?
  }

  /** Whatever else happens to the memory leaves the channels of a call to its thread: they are signalled on, and the
      first join is the one that stays. */
  lemma OthersKeepChannels(m: Memory, op: MemOp, id: CallId)
    requires CanApply(m, op) && !(OnOwn(op) && op.id == id)
    ensures KeepsChannels(m, Apply(m, op), id)
  {
  }
}
