/** What a request gets when nothing stands in its way: the purchase system is not safe by
    refusing everybody. */
module BookingProgress {
  import opened Basics
  import opened BookingLog
  import opened BookingModel
  import opened BookingInvariant
  import opened BookingSteps
  import opened BookingTheorems

  /** The statements of one request up to its token. */
  function TokenSteps(p: ProcId, req: Request, c: Conn): seq<Step> {
    [Begin(p, req), ReadEvent(p, false), PinConn(p, c)] + [SeedToken(p, Acked), IssueToken(p, Acked), SelectToken(p)]
  }

  /** Its lease and transaction; of the diagnosis and the inserts only those run that apply. */
  function BookSteps(p: ProcId, c: Conn, ref: string, eventId: string): seq<Step> {
    [Acquire(p, true), BeginTx(p, c), Reserve(p)]
    + [Diagnose(p), InsertTicket(p, ref, false), InsertOutbox(p, eventId)] + [Commit(p, Acked)]
  }

  /** Nobody holds what the request needs, and its random names are new. */
  ghost predicate Unhindered(s: State, p: ProcId, req: Request, c: Conn, ref: string, eventId: string) {
    && p !in s.procs && c !in s.srv.pins && req.event !in s.srv.locks
    && ref !in s.db.tickets && !RefPending(s, p, ref) && !EventIdTaken(s, p, eventId)
  }

  /** The answer by the inventory alone. */
  function Answer(db: Tables, req: Request, ref: string): Outcome {
    if req.quantity <= 0 then InvalidQuantity
    else if req.event !in db.events then EventNotFound
    else if req.quantity <= db.events[req.event].remaining then Booked(ref)
    else Insufficient(db.events[req.event].remaining)
  }

  /** `s'` differs from `s` only in the tokens of `e`, in `p` and in what `p` holds. */
  ghost predicate OnlyMoved(s: State, s': State, p: ProcId, req: Request) {
    && s'.db.events == s.db.events && s'.db.tickets == s.db.tickets && s'.db.outbox == s.db.outbox
    && s'.past.log == s.past.log && s'.past.buyers == s.past.buyers
    && p in s'.procs && s'.procs == s.procs[p := s'.procs[p]] && s'.procs[p].req == req
  }

  lemma {:induction false} DoneStutters(s: State, p: ProcId, steps: seq<Step>)
    requires p in s.procs && s.procs[p].pc.Done?
    requires forall i :: 0 <= i < |steps| ==> steps[i].p == p
    ensures Run(s, steps) == s
    decreases |steps|
  {
    if steps != [] {
      DoneStutters(s, p, steps[1..]);
    }
  }

  lemma MovedTwice(a: State, b: State, c: State, p: ProcId, req: Request)
    requires OnlyMoved(a, b, p, req) && OnlyMoved(b, c, p, req)
    ensures OnlyMoved(a, c, p, req)
  {
  }

  lemma BeginPhase(s: State, p: ProcId, req: Request)
    requires p !in s.procs && 0 < req.quantity
    ensures var s' := Next(s, Begin(p, req));
      OnlyMoved(s, s', p, req) && s'.db == s.db && s'.srv == s.srv && s'.procs[p].pc == Start
  {
  }

  lemma ReadPhase(s: State, p: ProcId)
    requires p in s.procs && s.procs[p].pc.Start? && s.procs[p].req.event in s.db.events
    ensures var s' := Next(s, ReadEvent(p, false));
      var req := s.procs[p].req;
      && OnlyMoved(s, s', p, req) && s'.db == s.db && s'.srv == s.srv
      && s'.procs[p].pc == Read(s.db.events[req.event].info)
  {
  }

  lemma PinPhase(s: State, p: ProcId, c: Conn)
    requires p in s.procs && s.procs[p].pc.Read? && c !in s.srv.pins
    ensures var s' := Next(s, PinConn(p, c));
      var Proc(req, pc) := s.procs[p];
      && OnlyMoved(s, s', p, req) && s'.db == s.db && s'.srv.locks == s.srv.locks && Holding(s', p, c)
      && s'.procs[p].pc == Pinned(pc.info, c)
  {
  }

  predicate Holding(s: State, p: ProcId, c: Conn) { c in s.srv.pins && s.srv.pins[c] == p }

  lemma SeedPhase(s: State, p: ProcId, c: Conn)
    requires p in s.procs && s.procs[p].pc.Pinned? && s.procs[p].req.event !in s.srv.locks && Holding(s, p, c)
    ensures var s' := Next(s, SeedToken(p, Acked));
      var Proc(req, pc) := s.procs[p];
      && OnlyMoved(s, s', p, req) && s'.srv == s.srv
      && s'.procs[p].pc == Seeded(pc.info, pc.conn) && req.event in s'.db.tokens
      && IssuedCount(s'.db, req.event) == IssuedCount(s.db, req.event)
      && Accepted(s'.db, req.event) == Accepted(s.db, req.event)
  {
  }

  lemma IssuePhase(s: State, p: ProcId, c: Conn)
    requires p in s.procs && s.procs[p].pc.Seeded? && s.procs[p].req.event !in s.srv.locks && Holding(s, p, c)
    requires s.procs[p].req.event in s.db.tokens
    ensures var s' := Next(s, IssueToken(p, Acked));
      var Proc(req, pc) := s.procs[p];
      && OnlyMoved(s, s', p, req) && s'.srv.locks == s.srv.locks && Holding(s', p, c)
      && s'.procs[p].pc == Issued(pc.info, pc.conn)
      && LastInsertId(s'.srv, pc.conn) == IssuedCount(s.db, req.event) + 1
      && req.event in s'.db.tokens && Accepted(s'.db, req.event) == Accepted(s.db, req.event)
  {
  }

  lemma SelectPhase(s: State, p: ProcId, c: Conn)
    requires p in s.procs && s.procs[p].pc.Issued? && Holding(s, p, c)
    ensures var s' := Next(s, SelectToken(p));
      var Proc(req, pc) := s.procs[p];
      && OnlyMoved(s, s', p, req) && s'.srv.locks == s.srv.locks && c !in s'.srv.pins && s'.db == s.db
      && s'.procs[p].pc == Tokened(pc.info, LastInsertId(s.srv, pc.conn))
  {
  }

  /** Up to its token: the request's own, newer than every accepted one. */
  lemma TokenPhase(s: State, p: ProcId, c: Conn)
    requires p in s.procs && s.procs[p].pc.Read? && s.procs[p].req.event !in s.srv.locks && c !in s.srv.pins
    ensures var s' := Next(Next(Next(Next(s, PinConn(p, c)), SeedToken(p, Acked)), IssueToken(p, Acked)),
              SelectToken(p));
      var Proc(req, pc) := s.procs[p];
      && OnlyMoved(s, s', p, req) && s'.srv.locks == s.srv.locks && c !in s'.srv.pins
      && s'.procs[p].pc == Tokened(pc.info, IssuedCount(s.db, req.event) + 1)
      && req.event in s'.db.tokens && Accepted(s'.db, req.event) == Accepted(s.db, req.event)
  {
    hide Next, OnlyMoved, Holding;
    var req := s.procs[p].req;
    PinPhase(s, p, c);
    var s1 := Next(s, PinConn(p, c));
    MovedInProcs(s, s1, p, req);
    SeedPhase(s1, p, c);
    var s2 := Next(s1, SeedToken(p, Acked));
    MovedInProcs(s1, s2, p, req);
    IssuePhase(s2, p, c);
    var s3 := Next(s2, IssueToken(p, Acked));
    MovedInProcs(s2, s3, p, req);
    SelectPhase(s3, p, c);
    MovedTwice(s, s1, s2, p, req);
    MovedTwice(s, s2, s3, p, req);
    MovedTwice(s, s3, Next(s3, SelectToken(p)), p, req);
  }

  lemma MovedInProcs(s: State, s': State, p: ProcId, req: Request)
    requires OnlyMoved(s, s', p, req)
    ensures p in s'.procs && s'.procs[p].req == req
  {
  }

  lemma AcquirePhase(s: State, p: ProcId, granted: bool)
    requires p in s.procs && s.procs[p].pc.Tokened?
    ensures var s' := Next(s, Acquire(p, granted));
      var Proc(req, pc) := s.procs[p];
      && OnlyMoved(s, s', p, req) && s'.db == s.db
      && s'.procs[p].pc == (if granted then Leased(pc.info, pc.token) else Done(LockNotAcquired))
      && (granted ==> s'.srv == s.srv)
  {
  }

  lemma BeginTxPhase(s: State, p: ProcId, c: Conn)
    requires p in s.procs && s.procs[p].pc.Leased? && c !in s.srv.pins
    ensures var s' := Next(s, BeginTx(p, c));
      var Proc(req, pc) := s.procs[p];
      && OnlyMoved(s, s', p, req) && s'.db == s.db && s'.srv.locks == s.srv.locks
      && s'.procs[p].pc == InTx(pc.info, pc.token, c)
  {
  }

  lemma ReservePhase(s: State, p: ProcId)
    requires p in s.procs && s.procs[p].pc.InTx? && s.procs[p].req.event !in s.srv.locks
    ensures var s' := Next(s, Reserve(p));
      var Proc(req, pc) := s.procs[p];
      && OnlyMoved(s, s', p, req) && s'.db == s.db
      && s'.procs[p].pc ==
           if Accepts(s.db, req.event, req.quantity, pc.token)
           then Reserved(pc.info, pc.token, pc.conn, Write(s.db.events[req.event].remaining - req.quantity, pc.token),
               0)
           else Rejected(pc.info, pc.token, pc.conn)
  {
  }

  lemma TicketPhase(s: State, p: ProcId, ref: string)
    requires p in s.procs && s.procs[p].pc.Reserved? && s.procs[p].pc.tries < MAX_RETRIES
    requires ref !in s.db.tickets && !RefPending(s, p, ref)
    ensures var s' := Next(s, InsertTicket(p, ref, false));
      var Proc(req, pc) := s.procs[p];
      && OnlyMoved(s, s', p, req) && s'.db == s.db
      && var pc' := s'.procs[p].pc;
         pc' == Ticketed(pc.info, pc.token, pc.conn, pc.write,
             Ticket(s.srv.nextTicket, ref, req.user, req.event, req.quantity))
  {
  }

  lemma OutboxPhase(s: State, p: ProcId, eventId: string)
    requires p in s.procs && s.procs[p].pc.Ticketed? && !EventIdTaken(s, p, eventId)
    ensures var s' := Next(s, InsertOutbox(p, eventId));
      var Proc(req, pc) := s.procs[p];
      && OnlyMoved(s, s', p, req) && s'.db == s.db
      && var pc' := s'.procs[p].pc;
         pc'.Queued? && pc'.write == pc.write && pc'.ticket == pc.ticket && Tells(pc'.row, pc.ticket, pc.info)
  {
  }

  /** The one new outbox row announces the ticket. */
  ghost predicate RowAdded(before: map<nat, OutboxRow>, after: map<nat, OutboxRow>, id: nat, t: Ticket,
      info: EventInfo)
  {
    id in after && after == before[id := after[id]] && Tells(after[id], t, info)
  }

  /** What the request's own statements leave behind. */
  ghost predicate Answered(s: State, s': State, p: ProcId, req: Request, ref: string) {
    var answer := Answer(s.db, req, ref);
    && p in s'.procs && s'.procs[p] == Proc(req, Done(answer))
    && (answer.Booked? ==>
          && s'.db.events == s.db.events[req.event :=
              s.db.events[req.event].(remaining := s.db.events[req.event].remaining - req.quantity)]
          && ref in s'.db.tickets
          && var t := s'.db.tickets[ref];
             && s'.db.tickets == s.db.tickets[ref := t]
             && t.ref == ref && t.user == req.user && t.event == req.event && t.quantity == req.quantity
             && exists id :: RowAdded(s.db.outbox, s'.db.outbox, id, t, s.db.events[req.event].info))
    && (!answer.Booked? ==> s'.db.events == s.db.events && s'.db.tickets == s.db.tickets && s'.db.outbox == s.db.outbox)
  }

  lemma AnsweredLater(s: State, s1: State, s': State, p: ProcId, req: Request, ref: string)
    requires OnlyMoved(s, s1, p, req) && Answered(s1, s', p, req, ref)
    ensures Answered(s, s', p, req, ref)
  {
  }

  /** The commit of what was reserved is the booking that was asked for. */
  lemma CommitAnswers(s: State, p: ProcId)
    requires Installable(s, p) && 0 < s.procs[p].req.quantity
    requires var Proc(req, pc) := s.procs[p];
      && pc.write.remaining as int == s.db.events[req.event].remaining - req.quantity
      && pc.ticket.user == req.user && pc.ticket.event == req.event && pc.ticket.quantity == req.quantity
      && Tells(pc.row, pc.ticket, s.db.events[req.event].info)
    ensures Answered(s, Next(s, Commit(p, Acked)), p, s.procs[p].req, s.procs[p].pc.ticket.ref)
  {
    hide Tells;
    var Proc(req, pc) := s.procs[p];
    var s' := Next(s, Commit(p, Acked));
    assert RowAdded(s.db.outbox, s'.db.outbox, pc.rowId, pc.ticket, s.db.events[req.event].info);
  }

  /** The diagnosis of a request whose token is the newest is the inventory's answer. */
  lemma DiagnoseAnswers(s: State, p: ProcId, ref: string)
    requires p in s.procs && s.procs[p].pc.Rejected?
    requires var Proc(req, pc) := s.procs[p];
      && req.event in s.db.events && req.event in s.db.tokens && 0 < req.quantity
      && s.db.events[req.event].remaining < req.quantity && Accepted(s.db, req.event) < pc.token
    ensures Answered(s, Next(s, Diagnose(p)), p, s.procs[p].req, ref)
  {
  }

  /** Moving `p` alone takes no name from it. */
  lemma NamesStayFree(s: State, s': State, p: ProcId, ref: string, eventId: string)
    requires p in s'.procs && OnlyMoved(s, s', p, s'.procs[p].req)
    ensures !RefPending(s, p, ref) ==> !RefPending(s', p, ref)
    ensures !EventIdTaken(s, p, eventId) ==> !EventIdTaken(s', p, eventId)
  {
  }

  lemma DoneStays(s: State, p: ProcId, step: Step)
    requires p in s.procs && s.procs[p].pc.Done? && step.p == p
    ensures Next(s, step) == s
  {
  }

  // ---- The run of one request ----

  /** What an accepted reservation leads to. */
  lemma ReservedAnswers(s: State, p: ProcId, ref: string, eventId: string)
    requires p in s.procs && s.procs[p].pc.Reserved? && s.procs[p].pc.tries == 0
    requires ref !in s.db.tickets && !RefPending(s, p, ref) && !EventIdTaken(s, p, eventId)
    requires var Proc(req, pc) := s.procs[p];
      && 0 < req.quantity && Accepts(s.db, req.event, req.quantity, pc.token)
      && pc.write.remaining as int == s.db.events[req.event].remaining - req.quantity
      && pc.info == s.db.events[req.event].info && req.event in s.past.log && req.event in s.past.buyers
    ensures var s' := Next(Next(Next(Next(s, Diagnose(p)), InsertTicket(p, ref, false)), InsertOutbox(p, eventId)),
              Commit(p, Acked));
      Answered(s, s', p, s.procs[p].req, ref)
  {
    hide RefPending, EventIdTaken, Answered, DoDiagnose, DoInsertTicket, DoInsertOutbox, DoCommit;
    var req := s.procs[p].req;
    assert Next(s, Diagnose(p)) == s;
    TicketPhase(s, p, ref);
    var s1 := Next(s, InsertTicket(p, ref, false));
    NamesStayFree(s, s1, p, ref, eventId);
    OutboxPhase(s1, p, eventId);
    var s2 := Next(s1, InsertOutbox(p, eventId));
    CommitAnswers(s2, p);
    AnsweredLater(s1, s2, Next(s2, Commit(p, Acked)), p, req, ref);
    AnsweredLater(s, s1, Next(s2, Commit(p, Acked)), p, req, ref);
  }

  lemma RejectedAnswers(s: State, p: ProcId, ref: string, eventId: string)
    requires p in s.procs && s.procs[p].pc.Rejected?
    requires var Proc(req, pc) := s.procs[p];
      && req.event in s.db.events && req.event in s.db.tokens && 0 < req.quantity
      && s.db.events[req.event].remaining < req.quantity && Accepted(s.db, req.event) < pc.token
    ensures var s' := Next(Next(Next(Next(s, Diagnose(p)), InsertTicket(p, ref, false)), InsertOutbox(p, eventId)),
              Commit(p, Acked));
      Answered(s, s', p, s.procs[p].req, ref)
  {
    hide Next;
    DiagnoseAnswers(s, p, ref);
    var s1 := Next(s, Diagnose(p));
    DoneStays(s1, p, InsertTicket(p, ref, false));
    DoneStays(s1, p, InsertOutbox(p, eventId));
    DoneStays(s1, p, Commit(p, Acked));
  }

  lemma BookStepsAnswer(s: State, p: ProcId, c: Conn, ref: string, eventId: string)
    requires p in s.procs && s.procs[p].pc.Tokened? && s.procs[p].req.event !in s.srv.locks && c !in s.srv.pins
    requires ref !in s.db.tickets && !RefPending(s, p, ref) && !EventIdTaken(s, p, eventId)
    requires var Proc(req, pc) := s.procs[p];
      && 0 < req.quantity && req.event in s.db.events && req.event in s.db.tokens
      && Accepted(s.db, req.event) < pc.token && pc.info == s.db.events[req.event].info
      && req.event in s.past.log && req.event in s.past.buyers
    ensures Answered(s, Run(s, BookSteps(p, c, ref, eventId)), p, s.procs[p].req, ref)
  {
    hide Next, Answered;
    var xs, ys := [Acquire(p, true), BeginTx(p, c), Reserve(p)],
                  [Diagnose(p), InsertTicket(p, ref, false), InsertOutbox(p, eventId)];
    RunThree(s, xs[0], xs[1], xs[2]);
    AcquirePhase(s, p, true);
    var s0 := Next(s, xs[0]);
    BeginTxPhase(s0, p, c);
    var s1 := Next(s0, xs[1]);
    MovedTwice(s, s0, s1, p, s.procs[p].req);
    ReservePhase(s1, p);
    var s2 := Run(s, xs);
    MovedTwice(s, s1, s2, p, s.procs[p].req);
    NamesStayFree(s, s2, p, ref, eventId);
    RunThree(s2, ys[0], ys[1], ys[2]);
    RunConcat(s, xs, ys);
    RunConcat(s, xs + ys, [Commit(p, Acked)]);
    assert Run(Run(s2, ys), [Commit(p, Acked)]) == Next(Run(s2, ys), Commit(p, Acked));
    if s2.procs[p].pc.Reserved? {
      ReservedAnswers(s2, p, ref, eventId);
    } else {
      RejectedAnswers(s2, p, ref, eventId);
    }
    AnsweredLater(s, s2, Run(s, BookSteps(p, c, ref, eventId)), p, s.procs[p].req, ref);
  }

  lemma TokenStepsIssue(s: State, p: ProcId, req: Request, c: Conn)
    requires p !in s.procs && c !in s.srv.pins && req.event !in s.srv.locks
    requires 0 < req.quantity && req.event in s.db.events
    ensures var s' := Run(s, TokenSteps(p, req, c));
      && OnlyMoved(s, s', p, req) && s'.srv.locks == s.srv.locks && c !in s'.srv.pins
      && s'.procs[p].pc == Tokened(s.db.events[req.event].info, IssuedCount(s.db, req.event) + 1)
      && req.event in s'.db.tokens && Accepted(s'.db, req.event) == Accepted(s.db, req.event)
  {
    hide Next;
    var xs, ys := [Begin(p, req), ReadEvent(p, false), PinConn(p, c)],
        [SeedToken(p, Acked), IssueToken(p, Acked), SelectToken(p)];
    RunThree(s, xs[0], xs[1], xs[2]);
    BeginPhase(s, p, req);
    var s1 := Next(s, xs[0]);
    ReadPhase(s1, p);
    var s2 := Next(s1, xs[1]);
    TokenPhase(s2, p, c);
    RunThree(Run(s, xs), ys[0], ys[1], ys[2]);
    RunConcat(s, xs, ys);
    MovedTwice(s, s1, s2, p, req);
    MovedTwice(s, s2, Run(s, TokenSteps(p, req, c)), p, req);
  }

  lemma RefusedAtOnce(s: State, p: ProcId, req: Request, c: Conn, ref: string, eventId: string)
    requires p !in s.procs && (req.quantity <= 0 || req.event !in s.db.events)
    ensures Answered(s, Run(s, TokenSteps(p, req, c) + BookSteps(p, c, ref, eventId)), p, req, ref)
  {
    var steps := TokenSteps(p, req, c) + BookSteps(p, c, ref, eventId);
    var xs := [Begin(p, req), ReadEvent(p, false), PinConn(p, c)];
    var s2 := Next(Next(s, Begin(p, req)), ReadEvent(p, false));
    assert steps == xs + steps[3..];
    RunThree(s, xs[0], xs[1], xs[2]);
    DoneStays(s2, p, xs[2]);
    RunConcat(s, xs, steps[3..]);
    DoneStutters(s2, p, steps[3..]);
  }

  lemma InvLogs(s: State)
    requires Inv(s)
    ensures s.past.log.Keys == s.past.buyers.Keys == s.db.events.Keys
    ensures forall e :: e in s.db.events ==> Accepted(s.db, e) <= IssuedCount(s.db, e)
  {
    InvParts(s);
  }

  /** Main result: in every reachable state, a request that nobody hinders is answered by the
      inventory alone: it is booked exactly when its quantity is positive and in stock, for
      its token is newer than every accepted one. */
  lemma UnhinderedRequestIsAnswered(init: State, steps: seq<Step>, p: ProcId, req: Request, c: Conn, ref: string,
          eventId: string)
    requires Initial(init) && Unhindered(Run(init, steps), p, req, c, ref, eventId)
    ensures var s := Run(init, steps);
      Answered(s, Run(s, TokenSteps(p, req, c) + BookSteps(p, c, ref, eventId)), p, req, ref)
  {
    hide Next, Answered, Inv, TokenSteps, BookSteps, RefPending, EventIdTaken;
    InitialInv(init);
    RunKeepsInv(init, steps);
    var s := Run(init, steps);
    if req.quantity <= 0 || req.event !in s.db.events {
      RefusedAtOnce(s, p, req, c, ref, eventId);
    } else {
      TokenStepsIssue(s, p, req, c);
      var s1 := Run(s, TokenSteps(p, req, c));
      InvLogs(s);
      NamesStayFree(s, s1, p, ref, eventId);
      BookStepsAnswer(s1, p, c, ref, eventId);
      AnsweredLater(s, s1, Run(s1, BookSteps(p, c, ref, eventId)), p, req, ref);
      RunConcat(s, TokenSteps(p, req, c), BookSteps(p, c, ref, eventId));
    }
  }
}
