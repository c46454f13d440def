/** The outbox relay (services/ticket/internal/outbox/relay.go) as a transition system: any
    number of relays over one table, one whole-second clock and one append-only topic.

    Taken as given: a row selected FOR UPDATE stays locked until its transaction ends; SKIP
    LOCKED passes over locked rows; a single-row update waits for the row's lock. */
module OutboxModel {
  import opened Basics
  import B = BookingModel

  type RowId = nat
  type RelayId = nat

  /** The delivery columns of one outbox row beside its content. */
  datatype Row = Row(
    content: B.OutboxRow,
    attempts: nat,
    availableAt: int,
    lockedUntil: Option<int>,
    publishedAt: Option<int>)

  /** A message of the topic; `row` is history, it names the outbox row it came from. */
  datatype Message = Message(row: RowId, topic: string, key: string, payload: Payload)

  /** Where one call of publishOne stands. */
  datatype Relay =
    | Idle
    | Selected(id: RowId, attempts: nat)
    | Leasing(id: RowId, attempts: nat, until: int)
    | Publishing(id: RowId, attempts: nat, until: int)
    | Marking(id: RowId, attempts: nat, until: int)
    | Retrying(id: RowId, attempts: nat, until: int)
  {
    predicate HoldsLock() { Selected? || Leasing? }
    predicate Claimed() { Publishing? || Marking? || Retrying? }
  }

  /** `claims` and `calls` are history: the lease times of each row's committed claims, and
      the attempt numbers under which PublishEnvelope was called for it. */
  datatype State = State(
    now: int,
    rows: map<RowId, Row>,
    rowLocks: map<RowId, RelayId>,
    relays: map<RelayId, Relay>,
    log: seq<Message>,
    claims: map<RowId, seq<int>>,
    calls: map<RowId, seq<nat>>)

  datatype Step =
    | Enqueue(id: RowId, content: B.OutboxRow, availableAt: int)
    | Tick(seconds: nat)
    | Select(r: RelayId, id: RowId)
    | Lease(r: RelayId)
    | CommitClaim(r: RelayId, ack: Ack)
    | DecodeFails(r: RelayId)
    | Publish(r: RelayId, ack: Ack)
    | Mark(r: RelayId, ack: Ack)
    | Retry(r: RelayId, ack: Ack)
    | Die(r: RelayId)

  const LEASE := 120
  const MAX_SHIFT := 8
  const MAX_DELAY := 300

  function Pow2(n: nat): nat { if n == 0 then 1 else 2 * Pow2(n - 1) }

  /** delaySeconds of a failed attempt. */
  function Delay(attempts: nat): nat { Min(Pow2(Min(attempts, MAX_SHIFT)), MAX_DELAY) }

  function RelayAt(s: State, r: RelayId): Relay { if r in s.relays then s.relays[r] else Idle }

  predicate IsEligible(row: Row, now: int) {
    row.publishedAt.None? && row.availableAt <= now && (row.lockedUntil.Some? ==> row.lockedUntil.value < now)
  }

  function MessageOf(id: RowId, content: B.OutboxRow): Message {
    Message(id, content.topic, content.key, content.payload)
  }

  /** `id` is what SELECT ... ORDER BY id LIMIT 1 FOR UPDATE SKIP LOCKED returns. */
  predicate IsLowest(s: State, id: RowId) {
    && id in s.rows && IsEligible(s.rows[id], s.now) && id !in s.rowLocks
    && forall i :: i in s.rows && i < id && i !in s.rowLocks ==> !IsEligible(s.rows[i], s.now)
  }

  predicate Enabled(s: State, step: Step) {
    match step
    case Enqueue(id, _, availableAt) => id !in s.rows && availableAt <= s.now
    case Tick(_) => true
    case Select(r, id) => RelayAt(s, r).Idle? && IsLowest(s, id)
    case Lease(r) => RelayAt(s, r).Selected?
    case CommitClaim(r, _) => RelayAt(s, r).Leasing? && RelayAt(s, r).id in s.rows
    case DecodeFails(r) => RelayAt(s, r).Publishing?
    case Publish(r, _) => RelayAt(s, r).Publishing? && RelayAt(s, r).id in s.rows
    case Mark(r, _) => RelayAt(s, r).Marking? && RelayAt(s, r).id in s.rows && RelayAt(s, r).id !in s.rowLocks
    case Retry(r, _) => RelayAt(s, r).Retrying? && RelayAt(s, r).id in s.rows && RelayAt(s, r).id !in s.rowLocks
    case Die(r) => !RelayAt(s, r).Idle?
  }

  function Goto(s: State, r: RelayId, relay: Relay): State { s.(relays := s.relays[r := relay]) }

  function SetRow(s: State, id: RowId, row: Row): State { s.(rows := s.rows[id := row]) }

  function Claims(s: State, id: RowId): seq<int> { if id in s.claims then s.claims[id] else [] }

  function Calls(s: State, id: RowId): seq<nat> { if id in s.calls then s.calls[id] else [] }

  /** The relay's current transaction or call is over. */
  function Leave(s: State, r: RelayId): State {
    s.(relays := s.relays[r := Idle], rowLocks := Without(s.rowLocks, r))
  }

  function DoSelect(s: State, r: RelayId, id: RowId): State
    requires id in s.rows
  {
    s.(relays := s.relays[r := Selected(id, s.rows[id].attempts)], rowLocks := s.rowLocks[id := r])
  }

  /** SET locked_until = now + 2 minutes, attempts = attempts + 1, still uncommitted. */
  function DoLease(s: State, r: RelayId): State
    requires RelayAt(s, r).Selected?
  {
    Goto(s, r, Leasing(RelayAt(s, r).id, RelayAt(s, r).attempts, s.now + LEASE))
  }

  function ApplyClaim(s: State, id: RowId, until: int): State
    requires id in s.rows
  {
    s.(rows := s.rows[id := s.rows[id].(lockedUntil := Some(until), attempts := s.rows[id].attempts + 1)],
       claims := s.claims[id := Claims(s, id) + [until - LEASE]])
  }

  function DoCommitClaim(s: State, r: RelayId, ack: Ack): State
    requires RelayAt(s, r).Leasing? && RelayAt(s, r).id in s.rows
  {
    var Leasing(id, attempts, until) := RelayAt(s, r);
    (if ack.Applied() then ApplyClaim(s, id, until) else s)
      .(rowLocks := Without(s.rowLocks, r),
        relays := s.relays[r := if ack.Acked? then Publishing(id, attempts + 1, until) else Idle])
  }

  /** PublishEnvelope: the broker appends and acknowledges, or the call fails and the
      message may or may not be in the log. */
  function DoPublish(s: State, r: RelayId, ack: Ack): State
    requires RelayAt(s, r).Publishing? && RelayAt(s, r).id in s.rows
  {
    var Publishing(id, k, until) := RelayAt(s, r);
    s.(calls := s.calls[id := Calls(s, id) + [k]],
       log := if ack.Applied() then s.log + [MessageOf(id, s.rows[id].content)] else s.log,
       relays := s.relays[r := if ack.Acked? then Marking(id, k, until) else Retrying(id, k, until)])
  }

  function DoMark(s: State, r: RelayId, ack: Ack): State
    requires RelayAt(s, r).Marking? && RelayAt(s, r).id in s.rows
  {
    var id := RelayAt(s, r).id;
    Leave(if ack.Applied() then SetRow(s, id, s.rows[id].(publishedAt := Some(s.now), lockedUntil := None)) else s, r)
  }

  function DoRetry(s: State, r: RelayId, ack: Ack): State
    requires RelayAt(s, r).Retrying? && RelayAt(s, r).id in s.rows
  {
    var Retrying(id, k, _) := RelayAt(s, r);
    Leave(if ack.Applied() then SetRow(s, id, s.rows[id].(lockedUntil := None, availableAt := s.now + Delay(k)))
        else s, r)
  }

  function Effect(s: State, step: Step): State
    requires Enabled(s, step)
  {
    match step
    case Enqueue(id, content, availableAt) => SetRow(s, id, Row(content, 0, availableAt, None, None))
    case Tick(seconds) => s.(now := s.now + seconds)
    case Select(r, id) => DoSelect(s, r, id)
    case Lease(r) => DoLease(s, r)
    case CommitClaim(r, ack) => DoCommitClaim(s, r, ack)
    case DecodeFails(r) =>
      var Publishing(id, k, until) := RelayAt(s, r);
      Goto(s, r, Retrying(id, k, until))
    case Publish(r, ack) => DoPublish(s, r, ack)
    case Mark(r, ack) => DoMark(s, r, ack)
    case Retry(r, ack) => DoRetry(s, r, ack)
    case Die(r) => Leave(s, r)
  }

  function Next(s: State, step: Step): State {
    if Enabled(s, step) then Effect(s, step) else s
  }

  function Run(s: State, steps: seq<Step>): State
    decreases |steps|
  {
    if steps == [] then s else Run(Next(s, steps[0]), steps[1..])
  }

  lemma {:induction false} RunConcat(s: State, xs: seq<Step>, ys: seq<Step>)
    ensures Run(s, xs + ys) == Run(Run(s, xs), ys)
    decreases |xs|
  {
    if xs == [] {
      assert xs + ys == ys;
    } else {
      RunConcat(Next(s, xs[0]), xs[1..], ys);
      assert (xs + ys)[1..] == xs[1..] + ys;
    }
  }

  lemma RunOne(s: State, step: Step)
    ensures Run(s, [step]) == Next(s, step)
  {
    hide Next;
    assert [step][1..] == [];
  }

  lemma RunSnoc(s: State, t: seq<Step>, step: Step)
    ensures Run(s, t + [step]) == Next(Run(s, t), step)
  {
    RunConcat(s, t, [step]);
    RunOne(Run(s, t), step);
  }

  lemma RunTwo(s: State, a: Step, b: Step)
    ensures Run(s, [a, b]) == Next(Next(s, a), b)
  {
    hide Run, Next;
    RunOne(s, a);
    RunOne(Next(s, a), b);
    RunConcat(s, [a], [b]);
    assert [a] + [b] == [a, b];
  }

  lemma RunThree(s: State, a: Step, b: Step, c: Step)
    ensures Run(s, [a, b, c]) == Next(Next(Next(s, a), b), c)
  {
    hide Run, Next;
    RunTwo(s, a, b);
    RunOne(Next(Next(s, a), b), c);
    RunConcat(s, [a, b], [c]);
    assert [a, b] + [c] == [a, b, c];
  }

  predicate Initial(s: State) {
    s.rows == map[] && s.rowLocks == map[] && s.relays == map[] && s.log == [] && s.claims == map[] && s.calls == map[]
  }
}
