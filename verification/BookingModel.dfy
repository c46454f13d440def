/** Purchase (services/ticket/internal/service/purchase_service.go) as a transition system
    whose steps are single SQL statements of any number of concurrent requests.

    Taken as given about the server: a statement is atomic; the rows of `events` and
    `event_fencing_tokens` touched by the conditional update stay locked until the
    transaction ends; a transaction's writes appear at commit and vanish at rollback;
    LAST_INSERT_ID belongs to the connection; booking_ref and the outbox event_id are unique. */
module BookingModel {
  import opened Basics
  import opened BookingLog

  type ProcId = nat
  type Conn = nat

  datatype EventRow = EventRow(info: EventInfo, remaining: nat)

  datatype TokenRow = TokenRow(issued: nat, accepted: nat)

  datatype Ticket = Ticket(id: nat, ref: string, user: nat, event: EventId, quantity: int)

  datatype OutboxRow = OutboxRow(eventId: string, topic: string, key: string, payload: Payload)

  datatype Request = Request(user: nat, event: EventId, quantity: int)

  datatype Outcome =
    | Booked(ref: string)
    | InvalidQuantity
    | EventNotFound
    | EventPast
    | LockNotAcquired
    | StaleToken
    | Insufficient(remaining: nat)
    | Failed
    | CommitUncertain
    | Crashed

  /** The new column values the conditional update wrote inside its transaction. */
  datatype Write = Write(remaining: nat, accepted: nat)

  /** Where a request stands: which statement it executed last. */
  datatype Pc =
    | Start
    | Read(info: EventInfo)
    | Pinned(info: EventInfo, conn: Conn)
    | Seeded(info: EventInfo, conn: Conn)
    | Issued(info: EventInfo, conn: Conn)
    | Tokened(info: EventInfo, token: nat)
    | Leased(info: EventInfo, token: nat)
    | InTx(info: EventInfo, token: nat, conn: Conn)
    | Rejected(info: EventInfo, token: nat, conn: Conn)
    | Reserved(info: EventInfo, token: nat, conn: Conn, write: Write, tries: nat)
    | Ticketed(info: EventInfo, token: nat, conn: Conn, write: Write, ticket: Ticket)
    | Queued(info: EventInfo, token: nat, conn: Conn, write: Write, ticket: Ticket, rowId: nat, row: OutboxRow)
    | Done(outcome: Outcome)
  {
    predicate BeforeIssue() { Start? || Read? || Pinned? || Seeded? }
    predicate HasInfo() { !Start? && !Done? }
    predicate HasConn() { Pinned? || Seeded? || Issued? || InTx? || Rejected? || HasWrite() }
    predicate HasToken() { Tokened? || Leased? || InTx? || Rejected? || HasWrite() }
    predicate HasLock() { Rejected? || HasWrite() }
    predicate HasWrite() { Reserved? || HasTicket() }
    predicate HasTicket() { Ticketed? || Queued? }
  }

  datatype Proc = Proc(req: Request, pc: Pc)

  /** History: which booking and which request one sale belongs to. */
  datatype Buyer = Buyer(ref: string, proc: ProcId)

  /** History: where a booking's sale and outbox row are. */
  datatype Place = Place(slot: nat, row: nat)

  /** The committed rows. */
  datatype Tables = Tables(
    events: map<EventId, EventRow>,
    tokens: map<EventId, TokenRow>,
    tickets: map<string, Ticket>,
    outbox: map<nat, OutboxRow>)

  /** Auto-increment counters, row locks by event, pinned connections and each
      connection's last insert id. */
  datatype Server = Server(
    nextTicket: nat,
    nextRow: nat,
    locks: map<EventId, ProcId>,
    pins: map<Conn, ProcId>,
    lastId: map<Conn, nat>)

  /** What happened so far: written by steps, read by none. */
  datatype History = History(
    stock: map<EventId, nat>,
    issuedTo: map<EventId, seq<ProcId>>,
    log: Log,
    buyers: map<EventId, seq<Buyer>>,
    places: map<string, Place>)

  datatype State = State(db: Tables, srv: Server, past: History, procs: map<ProcId, Proc>)

  datatype Step =
    | Begin(p: ProcId, req: Request)
    | ReadEvent(p: ProcId, past: bool)
    | PinConn(p: ProcId, c: Conn)
    | SeedToken(p: ProcId, ack: Ack)
    | IssueToken(p: ProcId, ack: Ack)
    | SelectToken(p: ProcId)
    | Acquire(p: ProcId, granted: bool)
    | BeginTx(p: ProcId, c: Conn)
    | Reserve(p: ProcId)
    | Diagnose(p: ProcId)
    | InsertTicket(p: ProcId, ref: string, spurious: bool)
    | GiveUp(p: ProcId)
    | InsertOutbox(p: ProcId, eventId: string)
    | Commit(p: ProcId, ack: Ack)
    | Abort(p: ProcId, crashed: bool)

  const MAX_RETRIES: nat := 5
  const TICKET_TOPIC := "ticket.purchased"

  /** The value LAST_INSERT_ID() returns on a connection. */
  function LastInsertId(srv: Server, c: Conn): nat { if c in srv.lastId then srv.lastId[c] else 0 }

  /** The row locks of an event are free, or already held by `p`. */
  predicate LockFree(srv: Server, e: EventId, p: ProcId) { e in srv.locks ==> srv.locks[e] == p }

  /** Some other open transaction has inserted this booking_ref. */
  predicate RefPending(s: State, p: ProcId, ref: string) {
    exists q :: q in s.procs && q != p && s.procs[q].pc.HasTicket() && s.procs[q].pc.ticket.ref == ref
  }

  /** This outbox event_id is committed, or inserted by another open transaction. */
  predicate EventIdTaken(s: State, p: ProcId, eventId: string) {
    || (exists id :: id in s.db.outbox && s.db.outbox[id].eventId == eventId)
    || (exists q :: q in s.procs && q != p && s.procs[q].pc.Queued? && s.procs[q].pc.row.eventId == eventId)
  }

  /** NewTicketPurchasedEvent: the payload describes the ticket and the event as read. */
  function PayloadOf(t: Ticket, info: EventInfo): Payload {
    Payload(t.ref, t.user, t.event, info, t.quantity)
  }

  function RowOf(t: Ticket, info: EventInfo, eventId: string): OutboxRow {
    OutboxRow(eventId, TICKET_TOPIC, t.ref, PayloadOf(t, info))
  }

  function Accepted(db: Tables, e: EventId): nat { if e in db.tokens then db.tokens[e].accepted else 0 }

  /** The WHERE clause of the conditional update. */
  predicate Accepts(db: Tables, e: EventId, quantity: int, token: nat) {
    && e in db.events && e in db.tokens
    && quantity <= db.events[e].remaining
    && db.tokens[e].accepted < token
  }

  /** The statement `step` can run now: its request is at the right point, and no row or
      connection it needs is held by another request. */
  predicate Enabled(s: State, step: Step) {
    if step.Begin? then step.p !in s.procs
    else if step.p !in s.procs then false
    else
      var Proc(req, pc) := s.procs[step.p];
      match step
      case ReadEvent(_, _) => pc.Start?
      case PinConn(_, c) => pc.Read? && c !in s.srv.pins
      case SeedToken(p, _) => pc.Pinned? && LockFree(s.srv, req.event, p)
      case IssueToken(p, _) => pc.Seeded? && LockFree(s.srv, req.event, p)
      case SelectToken(_) => pc.Issued?
      case Acquire(_, _) => pc.Tokened?
      case BeginTx(_, c) => pc.Leased? && c !in s.srv.pins
      case Reserve(p) => pc.InTx? && LockFree(s.srv, req.event, p)
      case Diagnose(_) => pc.Rejected?
      case InsertTicket(p, ref, spurious) => pc.Reserved? && pc.tries < MAX_RETRIES
          && (spurious || !RefPending(s, p, ref))
      case GiveUp(_) => pc.Reserved? && MAX_RETRIES <= pc.tries
      case InsertOutbox(p, eventId) => pc.Ticketed? && !EventIdTaken(s, p, eventId)
      case Commit(_, _) => pc.Queued?
      case Abort(_, _) => !pc.Done?
  }

  function Goto(s: State, p: ProcId, pc: Pc): State
    requires p in s.procs
  {
    s.(procs := s.procs[p := s.procs[p].(pc := pc)])
  }

  function Pin(s: State, p: ProcId, c: Conn): State { s.(srv := s.srv.(pins := s.srv.pins[c := p])) }

  function Unpin(s: State, p: ProcId): State { s.(srv := s.srv.(pins := Without(s.srv.pins, p))) }

  /** The request returns: its transaction is over, its locks and connections are free. */
  function Finish(s: State, p: ProcId, outcome: Outcome): State
    requires p in s.procs
  {
    var s1 := Goto(Unpin(s, p), p, Done(outcome));
    s1.(srv := s1.srv.(locks := Without(s.srv.locks, p)))
  }

  function Seed(s: State, e: EventId): State {
    if e in s.db.tokens then s else s.(db := s.db.(tokens := s.db.tokens[e := TokenRow(0, 0)]))
  }

  function Issue(s: State, p: ProcId, e: EventId, c: Conn): State
    requires e in s.db.tokens
  {
    var n := s.db.tokens[e].issued + 1;
    var holders := if e in s.past.issuedTo then s.past.issuedTo[e] else [];
    s.(db := s.db.(tokens := s.db.tokens[e := s.db.tokens[e].(issued := n)]),
       srv := s.srv.(lastId := s.srv.lastId[c := n]),
       past := s.past.(issuedTo := s.past.issuedTo[e := holders + [p]]))
  }

  predicate Installable(s: State, p: ProcId) {
    && p in s.procs && s.procs[p].pc.Queued?
    && s.procs[p].req.event in s.db.events && s.procs[p].req.event in s.db.tokens
    && s.procs[p].req.event in s.past.log && s.procs[p].req.event in s.past.buyers
  }

  /** COMMIT: the transaction's writes to the four tables become visible together. */
  function Install(s: State, p: ProcId): State
    requires Installable(s, p)
  {
    var pc := s.procs[p].pc;
    var e := s.procs[p].req.event;
    var ref := pc.ticket.ref;
    s.(db := Tables(
         s.db.events[e := s.db.events[e].(remaining := pc.write.remaining)],
         s.db.tokens[e := s.db.tokens[e].(accepted := pc.write.accepted)],
         s.db.tickets[ref := pc.ticket],
         s.db.outbox[pc.rowId := pc.row]),
       past := s.past.(
         log := Apply(s.past.log, Append(e, Sale(pc.token, pc.ticket.quantity))),
         buyers := s.past.buyers[e := s.past.buyers[e] + [Buyer(ref, p)]],
         places := s.past.places[ref := Place(|s.past.log[e]|, pc.rowId)]))
  }

  /** No booking was committed: inventory, accepted tokens, tickets and outbox are as before. */
  ghost predicate KeepsBookings(s: State, s': State) {
    && s'.db == s.db.(tokens := s'.db.tokens)
    && s'.past == s.past.(issuedTo := s'.past.issuedTo)
    && (forall e :: Accepted(s'.db, e) == Accepted(s.db, e))
  }

  function Holders(past: History, e: EventId): seq<ProcId> { if e in past.issuedTo then past.issuedTo[e] else [] }

  /** A step of `p` that commits nothing: it moves only `p`, issues at most one token, to
      `p`, and tells `p` neither that it booked nor, unless a token at least as new is
      accepted, that its token is stale. */
  ghost predicate Quiet(s: State, s': State, p: ProcId) {
    && KeepsBookings(s, s')
    && p in s.procs && p in s'.procs && s'.procs == s.procs[p := s'.procs[p]]
    && var Proc(req, pc) := s.procs[p];
       var pc' := s'.procs[p].pc;
       && s'.procs[p].req == req
       && (forall e :: Holders(s'.past, e) == Holders(s.past, e)
             || (pc.Seeded? && e == req.event && Holders(s'.past, e) == Holders(s.past, e) + [p]))
       && (pc'.Done? ==> !pc'.outcome.Booked?)
       && (pc' == Done(StaleToken) ==> pc.Rejected? && pc.token <= Accepted(s.db, req.event))
  }

  /** Lines 46-60: read the event, refuse one that is missing or past. */
  function DoReadEvent(s: State, p: ProcId, past: bool): (r: State)
    requires p in s.procs && s.procs[p].pc.Start?
    ensures r.db == s.db && r.past == s.past && Quiet(s, r, p)
  {
    var e := s.procs[p].req.event;
    if e !in s.db.events then Finish(s, p, EventNotFound)
    else if past then Finish(s, p, EventPast)
    else Goto(s, p, Read(s.db.events[e].info))
  }

  function DoPinConn(s: State, p: ProcId, c: Conn): (r: State)
    requires p in s.procs && s.procs[p].pc.Read?
    ensures r.db == s.db && r.past == s.past && Quiet(s, r, p)
  {
    Pin(Goto(s, p, Pinned(s.procs[p].pc.info, c)), p, c)
  }

  /** INSERT IGNORE of the event's token row. */
  function DoSeedToken(s: State, p: ProcId, ack: Ack): (r: State)
    requires p in s.procs && s.procs[p].pc.Pinned?
    ensures Quiet(s, r, p)
  {
    var pc := s.procs[p].pc;
    var s1 := if ack.Applied() then Seed(s, s.procs[p].req.event) else s;
    if ack.Acked? then Goto(s1, p, Seeded(pc.info, pc.conn)) else Finish(s1, p, Failed)
  }

  /** SET last_issued_token = LAST_INSERT_ID(last_issued_token + 1). */
  function DoIssueToken(s: State, p: ProcId, ack: Ack): (r: State)
    requires p in s.procs && s.procs[p].pc.Seeded?
    ensures Quiet(s, r, p)
  {
    var Proc(req, pc) := s.procs[p];
    if req.event !in s.db.tokens then Finish(s, p, Failed)
    else
      var s1 := if ack.Applied() then Issue(s, p, req.event, pc.conn) else s;
      if ack.Acked? then Goto(s1, p, Issued(pc.info, pc.conn)) else Finish(s1, p, Failed)
  }

  /** SELECT LAST_INSERT_ID(); the connection goes back to the pool. */
  function DoSelectToken(s: State, p: ProcId): (r: State)
    requires p in s.procs && s.procs[p].pc.Issued?
    ensures r.db == s.db && r.past == s.past && Quiet(s, r, p)
  {
    var pc := s.procs[p].pc;
    Unpin(Goto(s, p, Tokened(pc.info, LastInsertId(s.srv, pc.conn))), p)
  }

  /** The advisory Redis lease: granted or refused arbitrarily. */
  function DoAcquire(s: State, p: ProcId, granted: bool): (r: State)
    requires p in s.procs && s.procs[p].pc.Tokened?
    ensures r.db == s.db && r.past == s.past && Quiet(s, r, p)
  {
    var pc := s.procs[p].pc;
    if granted then Goto(s, p, Leased(pc.info, pc.token)) else Finish(s, p, LockNotAcquired)
  }

  function DoBeginTx(s: State, p: ProcId, c: Conn): (r: State)
    requires p in s.procs && s.procs[p].pc.Leased?
    ensures r.db == s.db && r.past == s.past && Quiet(s, r, p)
  {
    var pc := s.procs[p].pc;
    Pin(Goto(s, p, InTx(pc.info, pc.token, c)), p, c)
  }

  /** The conditional update; it locks the event's rows whether or not it changes them. */
  function DoReserve(s: State, p: ProcId): (r: State)
    requires p in s.procs && s.procs[p].pc.InTx?
    ensures r.db == s.db && r.past == s.past && Quiet(s, r, p)
  {
    var Proc(req, pc) := s.procs[p];
    var pc' :=
      if Accepts(s.db, req.event, req.quantity, pc.token)
      then Reserved(pc.info, pc.token, pc.conn, Write(s.db.events[req.event].remaining - req.quantity, pc.token), 0)
      else Rejected(pc.info, pc.token, pc.conn);
    Goto(s, p, pc').(srv := s.srv.(locks := s.srv.locks[req.event := p]))
  }

  /** Lines 99-113: no row was changed; say why. */
  function DoDiagnose(s: State, p: ProcId): (r: State)
    requires p in s.procs && s.procs[p].pc.Rejected?
    ensures r.db == s.db && r.past == s.past && Quiet(s, r, p)
  {
    var Proc(req, pc) := s.procs[p];
    if req.event !in s.db.events || req.event !in s.db.tokens then Finish(s, p, Failed)
    else if pc.token <= s.db.tokens[req.event].accepted then Finish(s, p, StaleToken)
    else Finish(s, p, Insufficient(s.db.events[req.event].remaining))
  }

  /** One attempt of CreateWithTx. A duplicate booking_ref, or an error that reads like
      one, costs an attempt. */
  function DoInsertTicket(s: State, p: ProcId, ref: string, spurious: bool): (r: State)
    requires p in s.procs && s.procs[p].pc.Reserved?
    ensures r.db == s.db && r.past == s.past && Quiet(s, r, p)
  {
    var Proc(req, pc) := s.procs[p];
    if ref in s.db.tickets || spurious then Goto(s, p, pc.(tries := pc.tries + 1))
    else
      var n := s.srv.nextTicket;
      var ticket := Ticket(n, ref, req.user, req.event, req.quantity);
      Goto(s, p, Ticketed(pc.info, pc.token, pc.conn, pc.write, ticket))
        .(srv := s.srv.(nextTicket := n + 1, lastId := s.srv.lastId[pc.conn := n]))
  }

  function DoInsertOutbox(s: State, p: ProcId, eventId: string): (r: State)
    requires p in s.procs && s.procs[p].pc.Ticketed?
    ensures r.db == s.db && r.past == s.past && Quiet(s, r, p)
  {
    var pc := s.procs[p].pc;
    var n := s.srv.nextRow;
    Goto(s, p, Queued(pc.info, pc.token, pc.conn, pc.write, pc.ticket, n, RowOf(pc.ticket, pc.info, eventId)))
      .(srv := s.srv.(nextRow := n + 1, lastId := s.srv.lastId[pc.conn := n]))
  }

  function DoCommit(s: State, p: ProcId, ack: Ack): State
    requires p in s.procs && s.procs[p].pc.Queued?
  {
    if !Installable(s, p) then Finish(s, p, Failed)
    else
      Finish(if ack.Applied() then Install(s, p) else s, p,
             if ack.Acked? then Booked(s.procs[p].pc.ticket.ref) else CommitUncertain)
  }

  function Effect(s: State, step: Step): State
    requires Enabled(s, step)
  {
    match step
    case Begin(p, req) =>
      s.(procs := s.procs[p := Proc(req, if req.quantity <= 0 then Done(InvalidQuantity) else Start)])
    case ReadEvent(p, past) => DoReadEvent(s, p, past)
    case PinConn(p, c) => DoPinConn(s, p, c)
    case SeedToken(p, ack) => DoSeedToken(s, p, ack)
    case IssueToken(p, ack) => DoIssueToken(s, p, ack)
    case SelectToken(p) => DoSelectToken(s, p)
    case Acquire(p, granted) => DoAcquire(s, p, granted)
    case BeginTx(p, c) => DoBeginTx(s, p, c)
    case Reserve(p) => DoReserve(s, p)
    case Diagnose(p) => DoDiagnose(s, p)
    case InsertTicket(p, ref, spurious) => DoInsertTicket(s, p, ref, spurious)
    case GiveUp(p) => Finish(s, p, Failed)
    case InsertOutbox(p, eventId) => DoInsertOutbox(s, p, eventId)
    case Commit(p, ack) => DoCommit(s, p, ack)
    case Abort(p, crashed) => Finish(s, p, if crashed then Crashed else Failed)
  }

  /** One step; a statement that has to wait for a lock changes nothing. */
  function Next(s: State, step: Step): State {
    if Enabled(s, step) then Effect(s, step) else s
  }

  function Run(s: State, steps: seq<Step>): State
    decreases |steps|
  {
    if steps == [] then s else Run(Next(s, steps[0]), steps[1..])
  }

  lemma {:induction false} RunConcat(s: State, xs: seq<Step>, ys: seq<Step>)
    ensures Run(s, xs + ys) == Run(Run(s, xs), ys)
    decreases |xs|
  {
    if xs == [] {
      assert xs + ys == ys;
    } else {
      RunConcat(Next(s, xs[0]), xs[1..], ys);
      assert (xs + ys)[1..] == xs[1..] + ys;
    }
  }

  lemma RunSnoc(s: State, t: seq<Step>, step: Step)
    ensures Run(s, t + [step]) == Next(Run(s, t), step)
  {
    RunConcat(s, t, [step]);
  }

  lemma RunThree(s: State, a: Step, b: Step, c: Step)
    ensures Run(s, [a, b, c]) == Next(Next(Next(s, a), b), c)
  {
    hide Next;
    assert [a, b, c][1..] == [b, c] && [b, c][1..] == [c] && [c][1..] == [];
    assert Run(Next(s, a), [b, c]) == Run(Next(Next(s, a), b), [c]);
  }

  /** A platform whose events are on sale and whose purchase history is empty. */
  predicate Initial(s: State) {
    && s.past.stock.Keys == s.db.events.Keys
    && (forall e :: e in s.db.events ==> s.past.stock[e] == s.db.events[e].remaining)
    && s.db.tokens == map[] && s.db.tickets == map[] && s.db.outbox == map[]
    && s.srv.locks == map[] && s.srv.pins == map[] && s.procs == map[]
    && s.past.issuedTo == map[] && s.past.places == map[]
    && s.past.log == (map e | e in s.db.events :: []) && s.past.buyers == (map e | e in s.db.events :: [])
  }
}
