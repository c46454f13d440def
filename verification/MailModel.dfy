/** The email service as a transition system: one consumer loop over the single partition
    (services/shared/pkg/kafka/consumer.go), its ticket handler
    (services/email/internal/consumer/consumer.go) and the background retry loop
    (services/email/internal/sender/retry.go), interleaved statement by statement over one
    status table. */
module MailModel {
  import opened Basics

  type MailId = nat

  /** What decoding a message's value yields: no envelope, an envelope whose payload the
      handler cannot read, or a ticket payload. */
  datatype Body = Garbled | Unreadable | Purchased(payload: Payload)

  datatype Message = Message(topic: string, body: Body)

  datatype Status = Pending | Sent | Failed | Dead

  /** A row of email_status. recipient_hash holds the address. */
  datatype Row = Row(ref: string, user: nat, recipient: string, status: Status, retryCount: nat,
      lastAttempt: Option<int>)

  /** A successful provider.Send, tagged with the booking and the address. */
  datatype Delivery = Delivery(ref: string, to: string)

  /** What the handler's email tells its reader. */
  datatype Confirmation = Confirmation(to: string, ref: string, name: string, date: string, venue: string,
      quantity: int)

  /** The arguments of SendConfirmationEmail. */
  function ConfirmationOf(pay: Payload, to: string): Confirmation {
    Confirmation(to, pay.ref, pay.info.name, pay.info.date, pay.info.venue, pay.quantity)
  }

  /** How the loop was done with a message. */
  datatype Verdict = Handled | NoHandler | Undecodable | HandlerError

  datatype Consumer =
    | Reading
    | Finding(off: nat, pay: Payload)
    | Fetching(off: nat, pay: Payload)
    | Creating(off: nat, pay: Payload, to: string)
    | Sending(off: nat, pay: Payload, id: MailId, to: string)
    | Recording(off: nat, pay: Payload, id: MailId, status: Status)
    | Committing(off: nat)

  /** A record as read by FindPendingRetries. */
  datatype Record = Record(id: MailId, row: Row)

  datatype Retrier =
    | Sleeping
    | Working(queue: seq<Record>)
    | Updating(id: MailId, status: Status, queue: seq<Record>)

  /** `verdicts`, `delivered`, `told`, `handlerSends` and `retrySends` are history: how the
      loop was done with each message, the successful sends in order, what those of the
      handler said (the retry loop's email names no booking), the bookings the handler called
      the provider for, and when the retry loop called it for each row. */
  datatype State = State(
    topics: set<string>,
    position: nat,
    committed: nat,
    consumer: Consumer,
    rows: map<MailId, Row>,
    nextId: MailId,
    retrier: Retrier,
    now: int,
    verdicts: map<nat, set<Verdict>>,
    delivered: seq<Delivery>,
    told: seq<Confirmation>,
    handlerSends: seq<string>,
    retrySends: map<MailId, seq<int>>)

  datatype Step =
    | Read
    | Find(fails: bool)
    | Fetch(email: Option<string>)
    | Create(ack: Ack)
    | Send(ok: bool)
    | Store(ack: Ack)
    | CommitOffset(ack: Ack)
    | Restart
    | Poll(order: seq<MailId>)
    | RetryHead(ok: bool)
    | RetryRecord(ack: Ack)
    | RetryDies
    | Tick(seconds: nat)

  const MAX_RETRIES: nat := 5

  /** retryBackoffs, in seconds. */
  const BACKOFFS: seq<nat> := [60, 300, 900, 3600, 14400]

  function Backoff(retryCount: nat): nat {
    if retryCount < |BACKOFFS| then BACKOFFS[retryCount] else BACKOFFS[|BACKOFFS| - 1]
  }

  predicate HasRef(rows: map<MailId, Row>, ref: string) { exists id :: id in rows && rows[id].ref == ref }

  predicate IsPending(row: Row) { row.status == Pending || row.status == Failed }

  /** ORDER BY last_attempt_at IS NULL DESC, last_attempt_at ASC. */
  predicate Before(a: Row, b: Row) {
    a.lastAttempt.None? || (b.lastAttempt.Some? && a.lastAttempt.value <= b.lastAttempt.value)
  }

  /** `order` lists the pending rows, each once, in the query's order. */
  predicate IsListing(rows: map<MailId, Row>, order: seq<MailId>) {
    && (forall i :: 0 <= i < |order| ==> order[i] in rows && IsPending(rows[order[i]]))
    && (forall i, j :: 0 <= i < j < |order| ==>
          && order[i] != order[j] && order[i] in rows && order[j] in rows
          && Before(rows[order[i]], rows[order[j]]))
    && (forall id :: id in rows && IsPending(rows[id]) ==> id in order)
  }

  function RecordsOf(rows: map<MailId, Row>, order: seq<MailId>): (r: seq<Record>)
    requires forall i :: 0 <= i < |order| ==> order[i] in rows
    ensures |r| == |order|
    ensures forall i :: 0 <= i < |r| ==> r[i] == Record(order[i], rows[order[i]])
  {
    seq(|order|, i requires 0 <= i < |order| => Record(order[i], rows[order[i]]))
  }

  predicate Enabled(log: seq<Message>, s: State, step: Step) {
    match step
    case Read => s.consumer.Reading? && s.position < |log|
    case Find(_) => s.consumer.Finding?
    case Fetch(_) => s.consumer.Fetching?
    case Create(_) => s.consumer.Creating?
    case Send(_) => s.consumer.Sending?
    case Store(_) => s.consumer.Recording?
    case CommitOffset(_) => s.consumer.Committing?
    case Restart => true
    case Poll(order) => s.retrier.Sleeping? && IsListing(s.rows, order)
    case RetryHead(_) => s.retrier.Working?
    case RetryRecord(_) => s.retrier.Updating?
    case RetryDies => true
    case Tick(_) => true
  }

  /** The loop is done with the message at `off`. */
  function Judge(s: State, off: nat, verdict: Verdict, next: Consumer): (r: State)
    ensures r == s.(consumer := r.consumer, verdicts := r.verdicts)
  {
    s.(consumer := next,
       verdicts := s.verdicts[off := (if off in s.verdicts then s.verdicts[off] else {}) + {verdict}])
  }

  /** ReadMessage, the handler lookup and the envelope decoding. */
  function DoRead(log: seq<Message>, s: State): (r: State)
    requires s.position < |log|
    ensures r == s.(position := r.position, consumer := r.consumer, verdicts := r.verdicts)
  {
    var off := s.position;
    var s1 := s.(position := off + 1);
    if log[off].topic !in s.topics then Judge(s1, off, NoHandler, Reading)
    else match log[off].body
      case Garbled => Judge(s1, off, Undecodable, Reading)
      case Unreadable => Judge(s1, off, HandlerError, Reading)
      case Purchased(pay) => s1.(consumer := Finding(off, pay))
  }

  /** FindByBookingRef: a known booking is done with at once. */
  function DoFind(s: State, fails: bool): (r: State)
    requires s.consumer.Finding?
    ensures r == s.(consumer := r.consumer, verdicts := r.verdicts)
  {
    var Finding(off, pay) := s.consumer;
    if fails then Judge(s, off, HandlerError, Reading)
    else if HasRef(s.rows, pay.ref) then Judge(s, off, Handled, Committing(off))
    else s.(consumer := Fetching(off, pay))
  }

  function DoFetch(s: State, email: Option<string>): (r: State)
    requires s.consumer.Fetching?
    ensures r == s.(consumer := r.consumer, verdicts := r.verdicts)
  {
    var Fetching(off, pay) := s.consumer;
    if email.Some? then s.(consumer := Creating(off, pay, email.value))
    else Judge(s, off, HandlerError, Reading)
  }

  /** INSERT INTO email_status. */
  function Insert(s: State, pay: Payload, to: string): State {
    s.(rows := s.rows[s.nextId := Row(pay.ref, pay.user, to, Pending, 0, None)], nextId := s.nextId + 1)
  }

  function DoCreate(s: State, ack: Ack): (r: State)
    requires s.consumer.Creating?
    ensures r == s.(rows := r.rows, nextId := r.nextId, consumer := r.consumer, verdicts := r.verdicts)
  {
    var Creating(off, pay, to) := s.consumer;
    var s1 := if ack.Applied() then Insert(s, pay, to) else s;
    if ack.Acked? then s1.(consumer := Sending(off, pay, s.nextId, to)) else Judge(s1, off, HandlerError, Reading)
  }

  function DoSend(s: State, ok: bool): (r: State)
    requires s.consumer.Sending?
    ensures r == s.(consumer := r.consumer, delivered := r.delivered, told := r.told, handlerSends := r.handlerSends)
  {
    var Sending(off, pay, id, to) := s.consumer;
    s.(consumer := Recording(off, pay, id, if ok then Sent else Failed),
       delivered := if ok then s.delivered + [Delivery(pay.ref, to)] else s.delivered,
       told := if ok then s.told + [ConfirmationOf(pay, to)] else s.told,
       handlerSends := s.handlerSends + [pay.ref])
  }

  /** UPDATE email_status SET status, last_attempt_at WHERE id: retry_count is not written. */
  function UpdateStatus(s: State, id: MailId, status: Status): (r: State)
    ensures r == s.(rows := r.rows)
  {
    if id in s.rows then s.(rows := s.rows[id := s.rows[id].(status := status, lastAttempt := Some(s.now))]) else s
  }

  function DoStore(s: State, ack: Ack): (r: State)
    requires s.consumer.Recording?
    ensures r == s.(rows := r.rows, consumer := r.consumer, verdicts := r.verdicts)
  {
    var Recording(off, pay, id, status) := s.consumer;
    var s1 := if ack.Applied() then UpdateStatus(s, id, status) else s;
    if ack.Acked? then Judge(s1, off, Handled, Committing(off)) else Judge(s1, off, HandlerError, Reading)
  }

  function DoCommitOffset(s: State, ack: Ack): (r: State)
    requires s.consumer.Committing?
    ensures r == s.(consumer := r.consumer, committed := r.committed)
  {
    s.(consumer := Reading, committed := if ack.Applied() then s.consumer.off + 1 else s.committed)
  }

  /** When the retry loop called the provider for row `id`. */
  function Retries(s: State, id: MailId): seq<int> { if id in s.retrySends then s.retrySends[id] else [] }

  /** processRetry on the first record of the queue, up to its database update. */
  function DoRetryHead(s: State, ok: bool): (r: State)
    requires s.retrier.Working?
    ensures r == s.(retrier := r.retrier, delivered := r.delivered, retrySends := r.retrySends)
  {
    if s.retrier.queue == [] then s.(retrier := Sleeping)
    else
      var Record(id, row) := s.retrier.queue[0];
      var rest := s.retrier.queue[1..];
      if MAX_RETRIES <= row.retryCount then s.(retrier := Updating(id, Dead, rest))
      else if row.lastAttempt.Some? && s.now < row.lastAttempt.value + Backoff(row.retryCount)
          then s.(retrier := Working(rest))
      else
        var s1 := s.(retrySends := s.retrySends[id := Retries(s, id) + [s.now]]);
        if ok then
          s1.(retrier := Updating(id, Sent, rest), delivered := s.delivered + [Delivery(row.ref, row.recipient)])
        else s1.(retrier := Updating(id, if MAX_RETRIES <= row.retryCount + 1 then Dead else Failed, rest))
  }

  function DoRetryRecord(s: State, ack: Ack): (r: State)
    requires s.retrier.Updating?
    ensures r == s.(rows := r.rows, retrier := r.retrier)
  {
    var Updating(id, status, rest) := s.retrier;
    (if ack.Applied() then UpdateStatus(s, id, status) else s).(retrier := Working(rest))
  }

  function Effect(log: seq<Message>, s: State, step: Step): State
    requires Enabled(log, s, step)
  {
    match step
    case Read => DoRead(log, s)
    case Find(fails) => DoFind(s, fails)
    case Fetch(email) => DoFetch(s, email)
    case Create(ack) => DoCreate(s, ack)
    case Send(ok) => DoSend(s, ok)
    case Store(ack) => DoStore(s, ack)
    case CommitOffset(ack) => DoCommitOffset(s, ack)
    case Restart => s.(consumer := Reading, position := s.committed)
    case Poll(order) => s.(retrier := Working(RecordsOf(s.rows, order)))
    case RetryHead(ok) => DoRetryHead(s, ok)
    case RetryRecord(ack) => DoRetryRecord(s, ack)
    case RetryDies => s.(retrier := Sleeping)
    case Tick(seconds) => s.(now := s.now + seconds)
  }

  function Next(log: seq<Message>, s: State, step: Step): State {
    if Enabled(log, s, step) then Effect(log, s, step) else s
  }

  /** The broker appends while the service runs. */
  datatype Event = Append(message: Message) | Local(step: Step)

  datatype World = World(log: seq<Message>, mail: State)

  function NextWorld(w: World, event: Event): World {
    match event
    case Append(message) => w.(log := w.log + [message])
    case Local(step) => w.(mail := Next(w.log, w.mail, step))
  }

  function Run(w: World, events: seq<Event>): World
    decreases |events|
  {
    if events == [] then w else Run(NextWorld(w, events[0]), events[1..])
  }

  lemma RunCons(w: World, event: Event, events: seq<Event>)
    ensures Run(w, [event] + events) == Run(NextWorld(w, event), events)
  {
    hide NextWorld;
    assert ([event] + events)[1..] == events;
  }

  lemma RunEmpty(w: World)
    ensures Run(w, []) == w
  {
  }

  lemma {:induction false} RunAppend(w: World, xs: seq<Event>, ys: seq<Event>)
    ensures Run(w, xs + ys) == Run(Run(w, xs), ys)
    decreases |xs|
  {
    hide NextWorld;
    if xs == [] {
      assert xs + ys == ys;
    } else {
      RunAppend(NextWorld(w, xs[0]), xs[1..], ys);
      assert (xs + ys)[1..] == xs[1..] + ys;
    }
  }

  lemma RunThree(w: World, events: seq<Event>)
    requires |events| == 3
    ensures Run(w, events) == NextWorld(NextWorld(NextWorld(w, events[0]), events[1]), events[2])
  {
    hide NextWorld, Run;
    var w1 := NextWorld(w, events[0]);
    var w2 := NextWorld(w1, events[1]);
    RunCons(w, events[0], [events[1], events[2]]);
    RunCons(w1, events[1], [events[2]]);
    RunCons(w2, events[2], []);
    RunEmpty(NextWorld(w2, events[2]));
    assert [events[0]] + [events[1], events[2]] == events;
    assert [events[1]] + [events[2]] == [events[1], events[2]];
    assert [events[2]] + [] == [events[2]];
  }

  lemma RunSnoc(w: World, t: seq<Event>, event: Event)
    ensures Run(w, t + [event]) == NextWorld(Run(w, t), event)
  {
    RunAppend(w, t, [event]);
    RunCons(Run(w, t), event, []);
    RunEmpty(NextWorld(Run(w, t), event));
    assert [event] + [] == [event];
  }

  predicate Initial(s: State) {
    && s.position == 0 && s.committed == 0 && s.consumer.Reading? && s.rows == map[] && s.retrier.Sleeping?
    && s.verdicts == map[] && s.delivered == [] && s.told == [] && s.handlerSends == [] && s.retrySends == map[]
  }
}
