/** The purchase service itself: the Go control flow over a mutable database, with other
    requests running between any two statements. Its methods are proved against the
    transition system. */
module PurchaseService {
  import opened Basics
  import opened BookingLog
  import opened BookingModel
  import opened BookingInvariant
  import opened BookingSteps
  import opened BookingTheorems
  import opened BookingProgress
  import opened BookingRefusals
  import opened TicketRepo

  ghost predicate Good(s: State) { Inv(s) && OutcomesOk(s) }

  lemma GoodNext(s: State, step: Step)
    requires Good(s)
    ensures Good(Next(s, step))
  {
    hide Inv, OutcomesOk, Next;
    StepKeepsInv(s, step);
    StepKeepsOutcomes(s, step);
  }

  lemma SeededHasRow(s: State, p: ProcId)
    requires Good(s) && p in s.procs && s.procs[p].pc.Seeded?
    ensures s.procs[p].req.event in s.db.tokens
  {
    InvFacts(s, p);
  }

  lemma QueuedInstallable(s: State, p: ProcId)
    requires Good(s) && p in s.procs && s.procs[p].pc.Queued?
    ensures Installable(s, p)
  {
    InvFacts(s, p);
    InvParts(s);
  }

  lemma RejectedFacts(s: State, p: ProcId)
    requires Good(s) && p in s.procs && s.procs[p].pc.Rejected?
    ensures var Proc(req, pc) := s.procs[p];
      && req.event in s.db.events && req.event in s.db.tokens
      && !Accepts(s.db, req.event, req.quantity, pc.token)
  {
    InvFacts(s, p);
  }

  lemma TokenIsOwn(s: State, p: ProcId)
    requires Good(s) && p in s.procs && s.procs[p].pc.HasToken()
    ensures Owns(s.past, p, s.procs[p].req.event, s.procs[p].pc.token)
  {
    TokenFacts(s, p);
  }

  lemma TicketedIsNew(s: State, p: ProcId)
    requires Good(s) && p in s.procs && s.procs[p].pc.HasTicket()
    ensures s.procs[p].pc.ticket.ref !in s.db.tickets
  {
    InvFacts(s, p);
  }

  /** What a purchase is given from outside: whether the clock finds the event past, whether
      the lock server grants the lease, the draws for its booking_ref, its outbox event_id. */
  datatype Givens = Givens(past: bool, granted: bool, draws: seq<Draw>, eventId: string)

  /** The first drawn booking_ref that no ticket has. */
  function FirstFree(tickets: map<string, Ticket>, draws: seq<Draw>): Option<string> {
    if draws == [] then None
    else if RefOf(draws[0]) !in tickets then Some(RefOf(draws[0]))
    else FirstFree(tickets, draws[1..])
  }

  ghost predicate IsDrawn(draws: seq<Draw>, ref: string) { exists i :: 0 <= i < |draws| && ref == RefOf(draws[i]) }

  /** No open transaction has inserted a drawn booking_ref. */
  ghost predicate NonePending(s: State, p: ProcId, draws: seq<Draw>) {
    forall i :: 0 <= i < |draws| ==> !RefPending(s, p, RefOf(draws[i]))
  }

  lemma NotMoved(s: State, p: ProcId, req: Request)
    requires p in s.procs && s.procs[p].req == req
    ensures OnlyMoved(s, s, p, req)
  {
  }

  lemma PendingStays(s: State, s': State, p: ProcId, req: Request, ref: string)
    requires OnlyMoved(s, s', p, req) && !RefPending(s, p, ref)
    ensures !RefPending(s', p, ref)
  {
    hide RefPending;
    NamesStayFree(s, s', p, ref, "");
  }

  class Database {
    /** The calm environment: no other request runs between the statements of one, no
        statement fails. */
    const calm: bool
    var db: Tables
    var srv: Server
    var past: History
    var procs: map<ProcId, Proc>

    function View(): State
      reads this
    {
      State(db, srv, past, procs)
    }

    /** `p` stands at `pc` in a good state reached from `s` by the steps `t`. */
    ghost predicate At(s: State, t: seq<Step>, p: ProcId, req: Request, pc: Pc)
      reads this
    {
      View() == Run(s, t) && Good(View()) && p in procs && procs[p] == Proc(req, pc)
    }

    method Take(step: Step)
      requires Good(View())
      modifies this
      ensures View() == Next(old(View()), step) && Good(View())
    {
      hide Good, Next;
      GoodNext(View(), step);
      var s := Next(View(), step);
      db, srv, past, procs := s.db, s.srv, s.past, s.procs;
    }

    /** Any number of statements of other requests, in any order. */
    method Others(p: ProcId, ghost s: State, ghost t: seq<Step>, ghost req: Request, ghost pc: Pc)
            returns (ghost t': seq<Step>)
      requires At(s, t, p, req, pc)
      modifies this
      ensures At(s, t', p, req, pc)
      ensures calm ==> View() == old(View())
    {
      hide Good, Run, Next;
      t' := t;
      if calm { return; }
      var steps: seq<Step> := *;
      for i := 0 to |steps|
        invariant At(s, t', p, req, pc)
      {
        if steps[i].p != p {
          StepSparesProc(View(), steps[i], p);
          RunSnoc(s, t', steps[i]);
          Take(steps[i]);
          t' := t' + [steps[i]];
        }
      }
    }

    method Advance(p: ProcId, pc: Pc)
      requires p in procs
      modifies this`procs
      ensures View() == Goto(old(View()), p, pc)
    {
      procs := procs[p := procs[p].(pc := pc)];
    }

    method InsertIgnoreToken(e: EventId)
      modifies this`db
      ensures View() == Seed(old(View()), e)
    {
      if e !in db.tokens {
        db := db.(tokens := db.tokens[e := TokenRow(0, 0)]);
      }
    }

    method IncrementIssued(p: ProcId, e: EventId, c: Conn)
      requires e in db.tokens
      modifies this
      ensures View() == Issue(old(View()), p, e, c)
    {
      var n := db.tokens[e].issued + 1;
      db := db.(tokens := db.tokens[e := db.tokens[e].(issued := n)]);
      srv := srv.(lastId := srv.lastId[c := n]);
      past := past.(issuedTo := past.issuedTo[e := Holders(past, e) + [p]]);
    }

    /** The request ends: the deferred rollback frees its locks and connections. */
    method End(p: ProcId, outcome: Outcome)
      requires p in procs
      modifies this
      ensures View() == Finish(old(View()), p, outcome)
    {
      procs := procs[p := procs[p].(pc := Done(outcome))];
      srv := srv.(locks := Without(srv.locks, p), pins := Without(srv.pins, p));
    }

    method Rollback(p: ProcId, ghost s: State, ghost t: seq<Step>, ghost req: Request, ghost pc: Pc)
      returns (stop: Option<Outcome>, ghost t': seq<Step>)
      requires At(s, t, p, req, pc) && !pc.Done?
      modifies this
      ensures stop == Some(Failed) && At(s, t', p, req, Done(Failed))
    {
      hide Good, Run;
      GoodNext(View(), Abort(p, false));
      RunSnoc(s, t, Abort(p, false));
      End(p, Failed);
      return Some(Failed), t + [Abort(p, false)];
    }

    /** readEvent and the date check; `past` is the clock's verdict. */
    method ReadEvent(p: ProcId, e: EventId, past: bool, ghost s: State, ghost t: seq<Step>, ghost req: Request)
      returns (stop: Option<Outcome>, info: EventInfo, ghost t': seq<Step>)
      requires At(s, t, p, req, Start) && e == req.event
      modifies this
      ensures stop.None? ==> At(s, t', p, req, Read(info))
      ensures stop.Some? ==> At(s, t', p, req, Done(stop.value)) && stop.value in {EventNotFound, EventPast, Failed}
      ensures stop == Some(EventNotFound) ==> e !in db.events
      ensures stop.None? ==> e in db.events
      ensures (past ==> stop.Some?) && (stop == Some(EventPast) ==> past)
      ensures calm ==> View() == Next(old(View()), BookingModel.ReadEvent(p, past))
      ensures calm && e in old(db).events ==> stop == if past then Some(EventPast) else None
    {
      hide Good, Run;
      info := EventInfo("", "", "");
      t' := Others(p, s, t, req, Start);
      var fails: bool := *;
      if fails && !calm {
        stop, t' := Rollback(p, s, t', req, Start);
        return;
      }
      ghost var step := BookingModel.ReadEvent(p, past);
      GoodNext(View(), step);
      RunSnoc(s, t', step);
      t' := t' + [step];
      if e !in db.events {
        End(p, EventNotFound);
        return Some(EventNotFound), info, t';
      }
      if past {
        End(p, EventPast);
        return Some(EventPast), info, t';
      }
      info := db.events[e].info;
      Advance(p, Read(info));
      stop := None;
    }

    /** The pool's next connection, a free one if the environment is calm. */
    method AnyConn() returns (c: Conn)
      ensures calm ==> c !in srv.pins
    {
      c := *;
      if calm {
        ghost var free := AboveAll(srv.pins.Keys);
        assert free !in srv.pins;
        c :| c !in srv.pins;
      }
    }

    /** eventDB.Conn: pins a free connection of the pool. */
    method PinConn(p: ProcId, info: EventInfo, ghost s: State, ghost t: seq<Step>, ghost req: Request)
      returns (stop: Option<Outcome>, c: Conn, ghost t': seq<Step>)
      requires At(s, t, p, req, Read(info))
      modifies this
      ensures stop.None? ==> At(s, t', p, req, Pinned(info, c))
      ensures stop.Some? ==> At(s, t', p, req, Done(stop.value)) && stop.value == Failed
      ensures calm ==> stop.None? && c !in old(srv.pins) && View() == Next(old(View()), BookingModel.PinConn(p, c))
    {
      hide Good, Run;
      t' := Others(p, s, t, req, Read(info));
      c := AnyConn();
      if c in srv.pins {
        stop, t' := Rollback(p, s, t', req, Read(info));
        return;
      }
      ghost var step := BookingModel.PinConn(p, c);
      GoodNext(View(), step);
      RunSnoc(s, t', step);
      t' := t' + [step];
      Advance(p, Pinned(info, c));
      srv := srv.(pins := srv.pins[c := p]);
      stop := None;
    }

    /** INSERT IGNORE INTO event_fencing_tokens. */
    method SeedToken(p: ProcId, e: EventId, info: EventInfo, c: Conn, ghost s: State, ghost t: seq<Step>,
            ghost req: Request)
      returns (stop: Option<Outcome>, ghost t': seq<Step>)
      requires At(s, t, p, req, Pinned(info, c)) && e == req.event
      modifies this
      ensures stop.None? ==> At(s, t', p, req, Seeded(info, c))
      ensures stop.Some? ==> At(s, t', p, req, Done(stop.value)) && stop.value == Failed
      ensures calm && e !in old(srv.locks) ==>
                stop.None? && View() == Next(old(View()), BookingModel.SeedToken(p, Acked))
    {
      hide Good, Run;
      t' := Others(p, s, t, req, Pinned(info, c));
      var fails: bool := *;
      if fails && !calm {
        stop, t' := Rollback(p, s, t', req, Pinned(info, c));
        return;
      }
      if e in srv.locks && srv.locks[e] != p {  // lock wait timeout
        stop, t' := Rollback(p, s, t', req, Pinned(info, c));
        return;
      }
      var ack: Ack := *;
      if calm { ack := Acked; }
      ghost var step := BookingModel.SeedToken(p, ack);
      GoodNext(View(), step);
      RunSnoc(s, t', step);
      t' := t' + [step];
      if ack.Applied() { InsertIgnoreToken(e); }
      if !ack.Acked? {
        End(p, Failed);
        return Some(Failed), t';
      }
      Advance(p, Seeded(info, c));
      stop := None;
    }

    /** UPDATE ... SET last_issued_token = LAST_INSERT_ID(last_issued_token + 1). */
    method IssueToken(p: ProcId, e: EventId, info: EventInfo, c: Conn, ghost s: State, ghost t: seq<Step>,
            ghost req: Request)
      returns (stop: Option<Outcome>, ghost t': seq<Step>)
      requires At(s, t, p, req, Seeded(info, c)) && e == req.event
      modifies this
      ensures stop.None? ==> At(s, t', p, req, Issued(info, c))
      ensures stop.Some? ==> At(s, t', p, req, Done(stop.value)) && stop.value == Failed
      ensures calm && e !in old(srv.locks) ==>
                stop.None? && View() == Next(old(View()), BookingModel.IssueToken(p, Acked))
    {
      hide Good, Run, DoIssueToken;
      t' := Others(p, s, t, req, Seeded(info, c));
      var fails: bool := *;
      if fails && !calm {
        stop, t' := Rollback(p, s, t', req, Seeded(info, c));
        return;
      }
      if e in srv.locks && srv.locks[e] != p {  // lock wait timeout
        stop, t' := Rollback(p, s, t', req, Seeded(info, c));
        return;
      }
      SeededHasRow(View(), p);
      var ack: Ack := *;
      if calm { ack := Acked; }
      ghost var step := BookingModel.IssueToken(p, ack);
      GoodNext(View(), step);
      RunSnoc(s, t', step);
      t' := t' + [step];
      UpdateIssued(p, e, info, c, ack);
      stop := if ack.Acked? then None else Some(Failed);
    }

    method UpdateIssued(p: ProcId, e: EventId, info: EventInfo, c: Conn, ack: Ack)
      requires p in procs && procs[p].pc == Seeded(info, c) && e == procs[p].req.event && e in db.tokens
      modifies this
      ensures View() == DoIssueToken(old(View()), p, ack)
      ensures procs[p].pc == if ack.Acked? then Issued(info, c) else Done(Failed)
    {
      if ack.Applied() { IncrementIssued(p, e, c); }
      if ack.Acked? {
        Advance(p, Issued(info, c));
      } else {
        End(p, Failed);
      }
    }

    /** SELECT LAST_INSERT_ID() on the same connection, which then returns to the pool. */
    method SelectToken(p: ProcId, info: EventInfo, c: Conn, ghost s: State, ghost t: seq<Step>, ghost req: Request)
      returns (stop: Option<Outcome>, token: nat, ghost t': seq<Step>)
      requires At(s, t, p, req, Issued(info, c))
      modifies this
      ensures stop.None? ==> At(s, t', p, req, Tokened(info, token))
      ensures stop.Some? ==> At(s, t', p, req, Done(stop.value)) && stop.value == Failed
      ensures calm ==> stop.None? && View() == Next(old(View()), BookingModel.SelectToken(p))
    {
      hide Good, Run;
      token := 0;
      t' := Others(p, s, t, req, Issued(info, c));
      var fails: bool := *;
      if fails && !calm {
        stop, t' := Rollback(p, s, t', req, Issued(info, c));
        return;
      }
      ghost var step := BookingModel.SelectToken(p);
      GoodNext(View(), step);
      RunSnoc(s, t', step);
      t' := t' + [step];
      token := LastInsertId(srv, c);
      Advance(p, Tokened(info, token));
      srv := srv.(pins := Without(srv.pins, p));
      stop := None;
    }

    /** The Redis lease; `granted` is the lock server's answer, whoever else holds it. */
    method AcquireLease(p: ProcId, info: EventInfo, token: nat, granted: bool, ghost s: State, ghost t: seq<Step>,
        ghost req: Request)
      returns (stop: Option<Outcome>, ghost t': seq<Step>)
      requires At(s, t, p, req, Tokened(info, token))
      modifies this
      ensures stop.None? ==> At(s, t', p, req, Leased(info, token))
      ensures stop.Some? ==> At(s, t', p, req, Done(stop.value)) && stop.value in {LockNotAcquired, Failed}
      ensures (!granted ==> stop.Some?) && (stop == Some(LockNotAcquired) ==> !granted)
      ensures calm ==>
                && stop == (if granted then None else Some(LockNotAcquired))
                && View() == Next(old(View()), BookingModel.Acquire(p, granted))
    {
      hide Good, Run;
      t' := Others(p, s, t, req, Tokened(info, token));
      var fails: bool := *;
      if fails && !calm {
        stop, t' := Rollback(p, s, t', req, Tokened(info, token));
        return;
      }
      ghost var step := BookingModel.Acquire(p, granted);
      GoodNext(View(), step);
      RunSnoc(s, t', step);
      t' := t' + [step];
      if !granted {
        End(p, LockNotAcquired);
        return Some(LockNotAcquired), t';
      }
      Advance(p, Leased(info, token));
      stop := None;
    }

    method BeginTx(p: ProcId, info: EventInfo, token: nat, ghost s: State, ghost t: seq<Step>, ghost req: Request)
      returns (stop: Option<Outcome>, c: Conn, ghost t': seq<Step>)
      requires At(s, t, p, req, Leased(info, token))
      modifies this
      ensures stop.None? ==> At(s, t', p, req, InTx(info, token, c))
      ensures stop.Some? ==> At(s, t', p, req, Done(stop.value)) && stop.value == Failed
      ensures calm ==> stop.None? && c !in old(srv.pins) && View() == Next(old(View()), BookingModel.BeginTx(p, c))
    {
      hide Good, Run;
      t' := Others(p, s, t, req, Leased(info, token));
      c := AnyConn();
      if c in srv.pins {
        stop, t' := Rollback(p, s, t', req, Leased(info, token));
        return;
      }
      ghost var step := BookingModel.BeginTx(p, c);
      GoodNext(View(), step);
      RunSnoc(s, t', step);
      t' := t' + [step];
      Advance(p, InTx(info, token, c));
      srv := srv.(pins := srv.pins[c := p]);
      stop := None;
    }

    /** UPDATE ... WHERE remaining_count >= quantity AND token > last_accepted_token. */
    method UpdateInventory(p: ProcId, quantity: int, token: nat, e: EventId, info: EventInfo, c: Conn)
      returns (rowsAffected: nat, write: Write)
      requires p in procs && procs[p].pc == InTx(info, token, c)
      requires e == procs[p].req.event && quantity == procs[p].req.quantity
      modifies this
      ensures View() == DoReserve(old(View()), p)
      ensures procs[p].pc == if rowsAffected == 0 then Rejected(info, token, c) else Reserved(info, token, c, write, 0)
      ensures db == old(db)
      ensures rowsAffected != 0 <==>
                e in db.events && e in db.tokens && quantity <= db.events[e].remaining && db.tokens[e].accepted < token
      ensures rowsAffected != 0 ==>
                write.remaining as int == db.events[e].remaining - quantity && write.accepted == token
    {
      rowsAffected, write := 0, Write(0, 0);
      srv := srv.(locks := srv.locks[e := p]);
      if e in db.events && e in db.tokens && quantity <= db.events[e].remaining && db.tokens[e].accepted < token {
        rowsAffected, write := 2, Write(db.events[e].remaining - quantity, token);
        Advance(p, Reserved(info, token, c, write, 0));
      } else {
        Advance(p, Rejected(info, token, c));
      }
    }

    /** The conditional update; its writes stay in the transaction. */
    method ReserveInventory(p: ProcId, quantity: int, token: nat, e: EventId, info: EventInfo, c: Conn, ghost s: State,
            ghost t: seq<Step>, ghost req: Request)
      returns (stop: Option<Outcome>, rowsAffected: nat, write: Write, ghost t': seq<Step>)
      requires At(s, t, p, req, InTx(info, token, c)) && e == req.event && quantity == req.quantity
      modifies this
      ensures stop.None? && rowsAffected == 0 ==> At(s, t', p, req, Rejected(info, token, c))
      ensures stop.None? && rowsAffected != 0 ==> At(s, t', p, req, Reserved(info, token, c, write, 0))
      ensures stop.None? && e in db.events && e in db.tokens ==>
                && (rowsAffected != 0 <==> quantity <= db.events[e].remaining && db.tokens[e].accepted < token)
                && (rowsAffected != 0 ==>
                      write.remaining as int == db.events[e].remaining - quantity && write.accepted == token)
      ensures stop.Some? ==> At(s, t', p, req, Done(stop.value)) && stop.value == Failed
      ensures calm && e !in old(srv.locks) ==> stop.None? && View() == Next(old(View()), BookingModel.Reserve(p))
    {
      hide Good, Run, DoReserve;
      rowsAffected, write := 0, Write(0, 0);
      t' := Others(p, s, t, req, InTx(info, token, c));
      var fails: bool := *;
      if fails && !calm {
        stop, t' := Rollback(p, s, t', req, InTx(info, token, c));
        return;
      }
      if e in srv.locks && srv.locks[e] != p {  // lock wait timeout
        stop, t' := Rollback(p, s, t', req, InTx(info, token, c));
        return;
      }
      ghost var step := BookingModel.Reserve(p);
      GoodNext(View(), step);
      RunSnoc(s, t', step);
      t' := t' + [step];
      rowsAffected, write := UpdateInventory(p, quantity, token, e, info, c);
      stop := None;
    }

    /** SELECT remaining_count, last_accepted_token under the row locks, then the two error returns. */
    method Diagnose(p: ProcId, token: nat, e: EventId, info: EventInfo, c: Conn, ghost s: State, ghost t: seq<Step>,
            ghost req: Request)
      returns (outcome: Outcome, ghost t': seq<Step>)
      requires At(s, t, p, req, Rejected(info, token, c)) && e == req.event
      modifies this
      ensures At(s, t', p, req, Done(outcome)) && (outcome.Failed? || outcome.StaleToken? || outcome.Insufficient?)
      ensures outcome.Insufficient? ==> e in db.events && outcome.remaining == db.events[e].remaining < req.quantity
      ensures outcome.Insufficient? || outcome.StaleToken? ==>
                e in db.tokens && (outcome.StaleToken? <==> token <= db.tokens[e].accepted)
      ensures calm ==> View() == Next(old(View()), BookingModel.Diagnose(p))
    {
      hide Good, Run;
      t' := Others(p, s, t, req, Rejected(info, token, c));
      var fails: bool := *;
      if fails && !calm {
        var stop: Option<Outcome>;
        stop, t' := Rollback(p, s, t', req, Rejected(info, token, c));
        return Failed, t';
      }
      RejectedFacts(View(), p);
      ghost var step := BookingModel.Diagnose(p);
      GoodNext(View(), step);
      RunSnoc(s, t', step);
      t' := t' + [step];
      var remaining, lastAccepted := db.events[e].remaining, db.tokens[e].accepted;
      outcome := if token <= lastAccepted then StaleToken else Insufficient(remaining);
      End(p, outcome);
    }

    /** nextFencingToken: three statements on one pinned connection. */
    method NextFencingToken(p: ProcId, e: EventId, info: EventInfo, ghost s: State, ghost t: seq<Step>,
            ghost req: Request)
      returns (stop: Option<Outcome>, token: nat, ghost t': seq<Step>)
      requires At(s, t, p, req, Read(info)) && e == req.event
      modifies this
      ensures stop.None? ==> At(s, t', p, req, Tokened(info, token)) && Owns(past, p, e, token)
      ensures stop.Some? ==> At(s, t', p, req, Done(stop.value)) && stop.value == Failed
      ensures calm && e !in old(srv.locks) ==>
                && stop.None? && token == IssuedCount(old(db), e) + 1
                && OnlyMoved(old(View()), View(), p, req) && srv.locks == old(srv.locks)
                && e in db.tokens && Accepted(db, e) == Accepted(old(db), e)
    {
      hide Good, Next, OnlyMoved, Run;
      token := 0;
      ghost var s0 := View();
      var c: Conn;
      stop, c, t' := PinConn(p, info, s, t, req);
      if stop.Some? { return; }
      if calm { PinPhase(s0, p, c); }
      if calm && e !in s0.srv.locks { TokenPhase(s0, p, c); }
      stop, t' := SeedToken(p, e, info, c, s, t', req);
      if stop.Some? { return; }
      if calm && e !in s0.srv.locks { SeedPhase(Next(s0, BookingModel.PinConn(p, c)), p, c); }
      stop, t' := IssueToken(p, e, info, c, s, t', req);
      if stop.Some? { return; }
      stop, token, t' := SelectToken(p, info, c, s, t', req);
      if stop.None? { TokenIsOwn(View(), p); }
    }

    /** One INSERT INTO tickets; the server answers with the new row or with an error text. */
    method ExecInsertTicket(p: ProcId, ref: string, user: nat, e: EventId, quantity: int,
        info: EventInfo, token: nat, c: Conn, write: Write, tries: nat, ghost s: State, ghost t: seq<Step>,
            ghost req: Request)
      returns (error: Option<string>, ticket: Ticket, ghost t': seq<Step>)
      requires At(s, t, p, req, Reserved(info, token, c, write, tries)) && tries < MAX_RETRIES
      requires req == Request(user, e, quantity)
      modifies this
      ensures error.None? ==>
                At(s, t', p, req, Ticketed(info, token, c, write, ticket))
                    && ticket == Ticket(ticket.id, ref, user, e, quantity)
      ensures error.Some? ==> At(s, t', p, req, Reserved(info, token, c, write, tries))
      ensures ref in db.tickets ==> error.Some? && SaysDuplicate(error.value)
      ensures calm && ref !in old(db).tickets && !RefPending(old(View()), p, ref) ==>
                error.None? && View() == Next(old(View()), BookingModel.InsertTicket(p, ref, false))
      ensures calm && ref in old(db).tickets ==> View() == old(View())
    {
      hide Good, Run;
      ticket := Ticket(srv.nextTicket, ref, user, e, quantity);
      t' := Others(p, s, t, req, Reserved(info, token, c, write, tries));
      if ref in db.tickets {
        error := Some("Duplicate entry '" + ref + "' for key 'tickets.booking_ref'");
        assert OccursAt(error.value, "Duplicate entry", 0);
        return;
      }
      error := *;
      if error.Some? && !calm { return; }
      if RefPending(View(), p, ref) {
        return Some("Lock wait timeout exceeded"), ticket, t';
      }
      ghost var step := BookingModel.InsertTicket(p, ref, false);
      GoodNext(View(), step);
      RunSnoc(s, t', step);
      t' := t' + [step];
      var n := srv.nextTicket;
      ticket := Ticket(n, ref, user, e, quantity);
      srv := srv.(nextTicket := n + 1, lastId := srv.lastId[c := n]);
      Advance(p, Ticketed(info, token, c, write, ticket));
      error := None;
    }

    /** One turn of CreateWithTx's loop: the ticket is made, or an attempt is used up by a
        duplicate booking_ref, or the booking is rolled back. */
    method CreateAttempt(p: ProcId, draw: Draw, user: nat, e: EventId, quantity: int,
        info: EventInfo, token: nat, c: Conn, write: Write, tries: nat, ghost s: State, ghost t: seq<Step>,
        ghost req: Request)
      returns (stop: Option<Outcome>, made: bool, ticket: Ticket, ghost t': seq<Step>)
      requires At(s, t, p, req, Reserved(info, token, c, write, tries))
      requires tries < MAX_RETRIES && req == Request(user, e, quantity)
      modifies this
      ensures made ==>
                && stop.None? && At(s, t', p, req, Ticketed(info, token, c, write, ticket))
                && ticket == Ticket(ticket.id, RefOf(draw), user, e, quantity)
      ensures !made && stop.None? ==> At(s, t', p, req, Reserved(info, token, c, write, tries + 1))
      ensures stop.Some? ==> At(s, t', p, req, Done(stop.value)) && stop.value == Failed
      ensures calm && RefOf(draw) !in old(db).tickets && !RefPending(old(View()), p, RefOf(draw)) ==>
                made && View() == Next(old(View()), BookingModel.InsertTicket(p, RefOf(draw), false))
      ensures calm && RefOf(draw) in old(db).tickets ==>
                !made && stop.None? && OnlyMoved(old(View()), View(), p, req) && db == old(db)
    {
      hide Good, Run, RefPending;
      made, ticket, t' := false, Ticket(0, "", user, e, quantity), t;
      var ok, ref := GenerateBookingRef(draw, calm);
      if !ok {
        stop, t' := Rollback(p, s, t', req, Reserved(info, token, c, write, tries));
        return;
      }
      var error: Option<string>;
      error, ticket, t' := ExecInsertTicket(p, ref, user, e, quantity, info, token, c, write, tries, s, t', req);
      if error.None? {
        stop, made := None, true;
        return;
      }
      var duplicate := IsDuplicateKey(error.value);
      if !duplicate {
        stop, t' := Rollback(p, s, t', req, Reserved(info, token, c, write, tries));
        return;
      }
      ghost var step := BookingModel.InsertTicket(p, ref, true);
      GoodNext(View(), step);
      RunSnoc(s, t', step);
      t' := t' + [step];
      Advance(p, Reserved(info, token, c, write, tries + 1));
      stop := None;
    }

    /** CreateWithTx: a fresh booking_ref per attempt, at most MAX_RETRIES attempts. In a calm
        environment it takes the first drawn booking_ref that is free. */
    method CreateWithTx(p: ProcId, draws: seq<Draw>, user: nat, e: EventId, quantity: int,
        info: EventInfo, token: nat, c: Conn, write: Write, ghost s: State, ghost t: seq<Step>, ghost req: Request)
      returns (stop: Option<Outcome>, ticket: Ticket, ghost t': seq<Step>)
      requires At(s, t, p, req, Reserved(info, token, c, write, 0)) && req == Request(user, e, quantity)
      requires |draws| == 5
      modifies this
      ensures stop.None? ==>
                && At(s, t', p, req, Ticketed(info, token, c, write, ticket))
                && WellFormedRef(ticket.ref) && IsDrawn(draws, ticket.ref) && ticket.ref !in db.tickets
                && ticket == Ticket(ticket.id, ticket.ref, user, e, quantity)
      ensures stop.Some? ==> At(s, t', p, req, Done(stop.value)) && stop.value == Failed
      ensures calm && NonePending(old(View()), p, draws) ==>
                && db == old(db)
                && (match FirstFree(old(db).tickets, draws)
                    case Some(ref) => stop.None? && ticket.ref == ref && OnlyMoved(old(View()), View(), p, req)
                    case None => stop == Some(Failed))
    {
      hide Good, Run, Next, RefPending, OnlyMoved;
      ticket := Ticket(0, "", user, e, quantity);
      t' := t;
      ghost var s0 := View();
      NotMoved(s0, p, req);
      var attempt := 0;
      while attempt < MAX_RETRIES
        invariant attempt <= MAX_RETRIES
        invariant At(s, t', p, req, Reserved(info, token, c, write, attempt))
        invariant calm && NonePending(s0, p, draws) ==>
            && OnlyMoved(s0, View(), p, req) && db == s0.db
            && FirstFree(s0.db.tickets, draws) == FirstFree(s0.db.tickets, draws[attempt..])
      {
        ghost var s1 := View();
        var made: bool;
        stop, made, ticket, t' :=
          CreateAttempt(p, draws[attempt], user, e, quantity, info, token, c, write, attempt, s, t', req);
        if calm && NonePending(s0, p, draws) {
          PendingStays(s0, s1, p, req, RefOf(draws[attempt]));
          if RefOf(draws[attempt]) !in s1.db.tickets { TicketPhase(s1, p, RefOf(draws[attempt])); }
          MovedTwice(s0, s1, View(), p, req);
        }
        if made {
          DrawOfRef(draws[attempt]);
          TicketedIsNew(View(), p);
          return;
        }
        if stop.Some? { return; }
        attempt := attempt + 1;
      }
      stop, t' := GiveUp(p, s, t', req, Reserved(info, token, c, write, attempt));
    }

    /** "failed after 5 retries", and the deferred rollback. */
    method GiveUp(p: ProcId, ghost s: State, ghost t: seq<Step>, ghost req: Request, ghost pc: Pc)
      returns (stop: Option<Outcome>, ghost t': seq<Step>)
      requires At(s, t, p, req, pc) && pc.Reserved? && MAX_RETRIES <= pc.tries
      modifies this
      ensures stop == Some(Failed) && At(s, t', p, req, Done(Failed)) && db == old(db)
    {
      hide Good, Run;
      GoodNext(View(), BookingModel.GiveUp(p));
      RunSnoc(s, t, BookingModel.GiveUp(p));
      End(p, Failed);
      return Some(Failed), t + [BookingModel.GiveUp(p)];
    }

    /** INSERT INTO outbox_events; the event_id comes from the clock and may collide. */
    method InsertOutbox(p: ProcId, eventId: string, info: EventInfo, token: nat, c: Conn, write: Write, ticket: Ticket,
        ghost s: State, ghost t: seq<Step>, ghost req: Request)
      returns (stop: Option<Outcome>, rowId: nat, row: OutboxRow, ghost t': seq<Step>)
      requires At(s, t, p, req, Ticketed(info, token, c, write, ticket))
      modifies this
      ensures stop.None? ==>
                At(s, t', p, req, Queued(info, token, c, write, ticket, rowId, row))
                    && row.eventId == eventId && Tells(row, ticket, info)
      ensures stop.Some? ==> At(s, t', p, req, Done(stop.value)) && stop.value == Failed
      ensures calm && !EventIdTaken(old(View()), p, eventId) ==>
                stop.None? && View() == Next(old(View()), BookingModel.InsertOutbox(p, eventId))
    {
      hide Good, Run;
      rowId, row := srv.nextRow, RowOf(ticket, info, eventId);
      t' := Others(p, s, t, req, Ticketed(info, token, c, write, ticket));
      var fails: bool := *;
      if fails && !calm {
        stop, t' := Rollback(p, s, t', req, Ticketed(info, token, c, write, ticket));
        return;
      }
      if EventIdTaken(View(), p, eventId) {
        stop, t' := Rollback(p, s, t', req, Ticketed(info, token, c, write, ticket));
        return;
      }
      ghost var step := BookingModel.InsertOutbox(p, eventId);
      GoodNext(View(), step);
      RunSnoc(s, t', step);
      t' := t' + [step];
      rowId := srv.nextRow;
      srv := srv.(nextRow := rowId + 1, lastId := srv.lastId[c := rowId]);
      Advance(p, Queued(info, token, c, write, ticket, rowId, row));
      stop := None;
    }

    /** The four tables change together. */
    method InstallWrites(p: ProcId, e: EventId, token: nat, write: Write, ticket: Ticket, rowId: nat, row: OutboxRow)
      requires Installable(View(), p) && e == procs[p].req.event
      requires var pc := procs[p].pc;
        pc.token == token && pc.write == write && pc.ticket == ticket && pc.rowId == rowId && pc.row == row
      modifies this
      ensures View() == Install(old(View()), p)
    {
      db := Tables(
        db.events[e := db.events[e].(remaining := write.remaining)],
        db.tokens[e := db.tokens[e].(accepted := write.accepted)],
        db.tickets[ticket.ref := ticket],
        db.outbox[rowId := row]);
      past := past.(
        log := Apply(past.log, Append(e, Sale(token, ticket.quantity))),
        buyers := past.buyers[e := past.buyers[e] + [Buyer(ticket.ref, p)]],
        places := past.places[ticket.ref := Place(|past.log[e]|, rowId)]);
    }

    /** COMMIT, whose answer may be lost. */
    method Commit(p: ProcId, e: EventId, info: EventInfo, token: nat, c: Conn, write: Write, ticket: Ticket,
            rowId: nat, row: OutboxRow, ghost s: State, ghost t: seq<Step>, ghost req: Request)
      returns (outcome: Outcome, ghost t': seq<Step>)
      requires At(s, t, p, req, Queued(info, token, c, write, ticket, rowId, row)) && e == req.event
      modifies this
      ensures At(s, t', p, req, Done(outcome)) && outcome in {Booked(ticket.ref), CommitUncertain}
      ensures outcome.Booked? ==>
                && rowId in db.outbox && db.outbox[rowId] == row
                && ticket.ref in db.tickets && db.tickets[ticket.ref] == ticket
                && e in db.events && info == db.events[e].info
      ensures calm ==> View() == Next(old(View()), BookingModel.Commit(p, Acked))
    {
      hide Good, Run, DoCommit;
      t' := Others(p, s, t, req, Queued(info, token, c, write, ticket, rowId, row));
      QueuedInstallable(View(), p);
      QueuedInfo(View(), p);
      var ack: Ack := *;
      if calm { ack := Acked; }
      ghost var step := BookingModel.Commit(p, ack);
      GoodNext(View(), step);
      RunSnoc(s, t', step);
      t' := t' + [step];
      outcome := EndTx(p, e, token, write, ticket, rowId, row, ack);
    }

    /** The writes take effect or not, and the locks are free. */
    method EndTx(p: ProcId, e: EventId, token: nat, write: Write, ticket: Ticket, rowId: nat, row: OutboxRow, ack: Ack)
      returns (outcome: Outcome)
      requires Installable(View(), p) && e == procs[p].req.event
      requires var pc := procs[p].pc;
        pc.token == token && pc.write == write && pc.ticket == ticket && pc.rowId == rowId && pc.row == row
      modifies this
      ensures View() == DoCommit(old(View()), p, ack)
      ensures outcome == if ack.Acked? then Booked(ticket.ref) else CommitUncertain
      ensures p in procs && procs[p] == Proc(old(procs)[p].req, Done(outcome))
      ensures ack.Acked? ==>
                && rowId in db.outbox && db.outbox[rowId] == row
                && ticket.ref in db.tickets && db.tickets[ticket.ref] == ticket
                && e in db.events && db.events[e].info == old(db).events[e].info
    {
      if ack.Applied() { InstallWrites(p, e, token, write, ticket, rowId, row); }
      outcome := if ack.Acked? then Booked(ticket.ref) else CommitUncertain;
      End(p, outcome);
    }
  }

  /** The ticket and the outbox row that a successful purchase leaves behind. */
  ghost predicate BookedFor(db: Tables, req: Request, given: Givens, ref: string, rowId: nat) {
    && WellFormedRef(ref) && IsDrawn(given.draws, ref)
    && ref in db.tickets && rowId in db.outbox && req.event in db.events
    && var t := db.tickets[ref];
       && t == Ticket(t.id, ref, req.user, req.event, req.quantity)
       && Tells(db.outbox[rowId], t, db.events[req.event].info) && db.outbox[rowId].eventId == given.eventId
  }

  lemma QueuedInfo(s: State, p: ProcId)
    requires Good(s) && p in s.procs && s.procs[p].pc.HasInfo()
    ensures s.procs[p].req.event in s.db.events && s.procs[p].pc.info == s.db.events[s.procs[p].req.event].info
  {
    InvFacts(s, p);
  }

  lemma StaleFact(s: State, p: ProcId)
    requires Good(s) && p in s.procs && s.procs[p].pc == Done(StaleToken)
    ensures StaleIsTrue(s.past, p, s.procs[p].req.event)
  {
    hide Inv;
    assert OutcomeOk(s, p);
  }

  /** Nothing keeps `p` from its event's rows, and no open transaction holds its given. */
  ghost predicate Clear(s: State, p: ProcId, e: EventId, given: Givens) {
    e !in s.srv.locks && NonePending(s, p, given.draws) && !EventIdTaken(s, p, given.eventId)
  }

  /** The request ends with `outcome`, and nothing is sold. */
  ghost predicate Refused(s: State, s': State, p: ProcId, req: Request, outcome: Outcome) {
    && p in s'.procs && s'.procs[p] == Proc(req, Done(outcome))
    && s'.db.events == s.db.events && s'.db.tickets == s.db.tickets && s'.db.outbox == s.db.outbox
  }

  /** What a purchase leaves behind in a calm environment: a refusal by the clock or the lock
      server; or the inventory's answer, with the first free booking_ref; or, if all of them
      are taken where it could be booked, nothing. */
  ghost predicate CalmAnswer(s: State, s': State, p: ProcId, req: Request, given: Givens) {
    var free := FirstFree(s.db.tickets, given.draws);
    if 0 < req.quantity && req.event in s.db.events && given.past then Refused(s, s', p, req, EventPast)
    else if 0 < req.quantity && req.event in s.db.events && !given.granted then
      Refused(s, s', p, req, LockNotAcquired)
    else if free.None? && Answer(s.db, req, "").Booked? then Refused(s, s', p, req, Failed)
    else Answered(s, s', p, req, if free.Some? then free.value else "")
  }

  lemma CalmAnswerLater(s: State, s1: State, s': State, p: ProcId, req: Request, given: Givens)
    requires OnlyMoved(s, s1, p, req) && CalmAnswer(s1, s', p, req, given)
    ensures CalmAnswer(s, s', p, req, given)
  {
    hide FirstFree;
  }

  /** The transaction's statements in a calm environment, up to the reservation. */
  lemma CalmReserve(s: State, p: ProcId, given: Givens)
    requires Good(s) && p in s.procs && s.procs[p].pc.InTx? && Clear(s, p, s.procs[p].req.event, given)
    ensures var s' := Next(s, Reserve(p));
      && OnlyMoved(s, s', p, s.procs[p].req) && s'.db == s.db
      && NonePending(s', p, given.draws) && !EventIdTaken(s', p, given.eventId)
      && (s'.procs[p].pc.Reserved? <==>
          Accepts(s.db, s.procs[p].req.event, s.procs[p].req.quantity, s.procs[p].pc.token))
  {
    hide Good, RefPending, EventIdTaken;
    ReservePhase(s, p);
    var s' := Next(s, Reserve(p));
    forall i | 0 <= i < |given.draws| ensures !RefPending(s', p, RefOf(given.draws[i])) {
      PendingStays(s, s', p, s.procs[p].req, RefOf(given.draws[i]));
    }
    NamesStayFree(s, s', p, "", given.eventId);
  }

  lemma CalmRefusal(s: State, s1: State, p: ProcId, given: Givens)
    requires Good(s1) && p in s1.procs && s1.procs[p].pc.Rejected? && OnlyMoved(s, s1, p, s1.procs[p].req)
    requires !given.past && given.granted
    requires 0 < s1.procs[p].req.quantity && Accepted(s1.db, s1.procs[p].req.event) < s1.procs[p].pc.token
    ensures CalmAnswer(s, Next(s1, Diagnose(p)), p, s1.procs[p].req, given)
  {
    hide Good, Answered, Next, FirstFree;
    var req := s1.procs[p].req;
    var free := FirstFree(s.db.tickets, given.draws);
    var ref := if free.Some? then free.value else "";
    RejectedFacts(s1, p);
    DiagnoseAnswers(s1, p, ref);
    AnsweredLater(s, s1, Next(s1, Diagnose(p)), p, req, ref);
  }

  /** Every booking_ref is taken: nothing is sold. */
  lemma CalmCollisions(s: State, s': State, p: ProcId, req: Request, given: Givens)
    requires FirstFree(s.db.tickets, given.draws).None? && 0 < req.quantity && !given.past && given.granted
    requires req.event in s.db.events && req.quantity <= s.db.events[req.event].remaining
    requires p in s'.procs && s'.procs[p] == Proc(req, Done(Failed)) && s'.db == s.db
    ensures CalmAnswer(s, s', p, req, given)
  {
    hide FirstFree;
  }

  lemma CalmBooking(s: State, s2: State, p: ProcId, given: Givens)
    requires p in s2.procs && s2.procs[p].pc.Ticketed? && OnlyMoved(s, s2, p, s2.procs[p].req)
    requires FirstFree(s.db.tickets, given.draws) == Some(s2.procs[p].pc.ticket.ref)
    requires !given.past && given.granted
    requires !EventIdTaken(s2, p, given.eventId) && Good(Next(s2, InsertOutbox(p, given.eventId)))
    ensures CalmAnswer(s, Next(Next(s2, InsertOutbox(p, given.eventId)), Commit(p, Acked)), p, s2.procs[p].req, given)
  {
    hide Good, Answered, Next, EventIdTaken, FirstFree;
    OutboxPhase(s2, p, given.eventId);
    var s3 := Next(s2, InsertOutbox(p, given.eventId));
    QueuedInstallable(s3, p);
    QueuedWrite(s3, p);
    CommitAnswers(s3, p);
    MovedTwice(s, s2, s3, p, s2.procs[p].req);
    AnsweredLater(s, s3, Next(s3, Commit(p, Acked)), p, s2.procs[p].req, s2.procs[p].pc.ticket.ref);
  }

  lemma QueuedWrite(s: State, p: ProcId)
    requires Good(s) && p in s.procs && s.procs[p].pc.Queued?
    ensures var Proc(req, pc) := s.procs[p];
      && 0 < req.quantity && req.event in s.db.events
      && pc.write.remaining as int == s.db.events[req.event].remaining - req.quantity
      && pc.ticket.user == req.user && pc.ticket.event == req.event && pc.ticket.quantity == req.quantity
      && Tells(pc.row, pc.ticket, s.db.events[req.event].info)
  {
    InvFacts(s, p);
  }

  /** A request that is refused before it reads its token. */
  lemma CalmStop(s: State, p: ProcId, req: Request, given: Givens)
    requires p !in s.procs && (req.quantity <= 0 || req.event !in s.db.events || given.past)
    ensures var s1 := Next(s, Begin(p, req));
      CalmAnswer(s, if req.quantity <= 0 then s1 else Next(s1, ReadEvent(p, given.past)), p, req, given)
  {
    hide FirstFree;
  }

  /** From the first read to the token. */
  lemma CalmStart(s: State, p: ProcId, req: Request)
    requires p !in s.procs && 0 < req.quantity && req.event in s.db.events
    ensures var s2 := Next(Next(s, Begin(p, req)), ReadEvent(p, false));
      OnlyMoved(s, s2, p, req) && s2.db == s.db && s2.srv == s.srv
  {
    hide Next;
    BeginPhase(s, p, req);
    ReadPhase(Next(s, Begin(p, req)), p);
    MovedTwice(s, Next(s, Begin(p, req)), Next(Next(s, Begin(p, req)), ReadEvent(p, false)), p, req);
  }

  /** A request whose lease is refused. */
  lemma CalmRefusedLease(s: State, s': State, p: ProcId, req: Request, given: Givens)
    requires OnlyMoved(s, s', p, req) && s'.procs[p].pc == Done(LockNotAcquired)
    requires 0 < req.quantity && req.event in s.db.events && !given.past && !given.granted
    ensures CalmAnswer(s, s', p, req, given)
  {
  }

  lemma ClearStays(s: State, s': State, p: ProcId, req: Request, given: Givens)
    requires OnlyMoved(s, s', p, req) && s'.srv.locks == s.srv.locks && Clear(s, p, req.event, given)
    ensures Clear(s', p, req.event, given)
  {
    hide RefPending, EventIdTaken;
    forall i | 0 <= i < |given.draws| ensures !RefPending(s', p, RefOf(given.draws[i])) {
      PendingStays(s, s', p, req, RefOf(given.draws[i]));
    }
    NamesStayFree(s, s', p, "", given.eventId);
  }

  class PurchaseService {
    const eventDB: Database

    constructor (eventDB: Database)
      ensures this.eventDB == eventDB
    {
      this.eventDB := eventDB;
    }

    /** Purchase, for the request `p`, with what it will be given from outside. Other requests
        may run, and the request itself may be refused or fail, between any two statements. In
        a calm environment it is answered by the clock, the lock server and the inventory, and
        booked under the first free booking_ref. */
    method Purchase(p: ProcId, userID: nat, eventID: EventId, quantity: int, given: Givens)
      returns (result: Outcome, ghost rowId: nat, ghost trace: seq<Step>)
      requires Good(eventDB.View()) && p !in eventDB.procs && |given.draws| == 5
      modifies eventDB
      ensures eventDB.At(old(eventDB.View()), trace, p, Request(userID, eventID, quantity), Done(result))
      ensures result == InvalidQuantity <==> quantity <= 0
      ensures result.Booked? ==> BookedFor(eventDB.db, Request(userID, eventID, quantity), given, result.ref, rowId)
      ensures result == StaleToken ==> StaleIsTrue(eventDB.past, p, eventID)
      ensures result.Insufficient? ==>
                eventID in eventDB.db.events && result.remaining == eventDB.db.events[eventID].remaining < quantity
      ensures !result.Booked? && !result.CommitUncertain? ==> SoldNothing(eventDB.past, p)
      ensures given.past || !given.granted ==> !result.Booked? && !result.CommitUncertain?
      ensures result == EventNotFound ==> eventID !in eventDB.db.events
      ensures (result == EventPast ==> given.past) && (result == LockNotAcquired ==> !given.granted)
      ensures eventDB.calm && Clear(old(eventDB.View()), p, eventID, given) ==>
                CalmAnswer(old(eventDB.View()), eventDB.View(), p, Request(userID, eventID, quantity), given)
    {
      ghost var s := eventDB.View();
      var req := Request(userID, eventID, quantity);
      result, rowId, trace := Submit(p, req, given, s);
      hide Good, Clear, CalmAnswer;
      if !result.Booked? && !result.CommitUncertain? { RefusedSoldNothing(eventDB.View(), p); }
      if result == StaleToken { StaleFact(eventDB.View(), p); }
    }

    method Submit(p: ProcId, req: Request, given: Givens, ghost s: State)
      returns (result: Outcome, ghost rowId: nat, ghost t: seq<Step>)
      requires Good(eventDB.View()) && p !in eventDB.procs && s == eventDB.View() && |given.draws| == 5
      modifies eventDB
      ensures eventDB.At(s, t, p, req, Done(result))
      ensures result == InvalidQuantity <==> req.quantity <= 0
      ensures result.Booked? ==> BookedFor(eventDB.db, req, given, result.ref, rowId)
      ensures result.Insufficient? ==>
                && req.event in eventDB.db.events
                && result.remaining == eventDB.db.events[req.event].remaining < req.quantity
      ensures given.past || !given.granted ==> !result.Booked? && !result.CommitUncertain?
      ensures result == EventNotFound ==> req.event !in eventDB.db.events
      ensures (result == EventPast ==> given.past) && (result == LockNotAcquired ==> !given.granted)
      ensures eventDB.calm && Clear(s, p, req.event, given) ==> CalmAnswer(s, eventDB.View(), p, req, given)
    {
      var stop: Option<Outcome>, info: EventInfo;
      stop, info, t := Arrive(p, req, given, s);
      rowId := 0;
      hide Good, Run, Clear, CalmAnswer, OnlyMoved, BookedFor;
      if stop.Some? { return stop.value, rowId, t; }
      ghost var s1 := eventDB.View();
      result, rowId, t := Proceed(p, info, given, s, t, req);
      if eventDB.calm && Clear(s, p, req.event, given) {
        ClearStays(s, s1, p, req, given);
        CalmAnswerLater(s, s1, eventDB.View(), p, req, given);
      }
    }

    /** Lines 62-150: the token, the lease and the booking transaction. */
    method Proceed(p: ProcId, info: EventInfo, given: Givens, ghost s: State, ghost t: seq<Step>, req: Request)
      returns (result: Outcome, ghost rowId: nat, ghost t': seq<Step>)
      requires eventDB.At(s, t, p, req, Read(info)) && 0 < req.quantity && |given.draws| == 5
      requires !given.past && req.event in eventDB.db.events
      modifies eventDB
      ensures eventDB.At(s, t', p, req, Done(result))
      ensures result !in {InvalidQuantity, EventNotFound, EventPast}
      ensures result.Booked? ==> BookedFor(eventDB.db, req, given, result.ref, rowId)
      ensures result.Insufficient? ==>
                && req.event in eventDB.db.events
                && result.remaining == eventDB.db.events[req.event].remaining < req.quantity
      ensures !given.granted ==> !result.Booked? && !result.CommitUncertain?
      ensures result == LockNotAcquired ==> !given.granted
      ensures eventDB.calm && Clear(old(eventDB.View()), p, req.event, given) ==>
                CalmAnswer(old(eventDB.View()), eventDB.View(), p, req, given)
    {
      hide Good, Run, Clear, CalmAnswer, OnlyMoved, BookedFor;
      ghost var s1 := eventDB.View();
      var stop: Option<Outcome>, token: nat, c: Conn;
      stop, token, c, t' := Approach(p, info, given.granted, s, t, req);
      ClearLocks(s1, p, req.event, given);
      rowId := 0;
      if stop.Some? {
        if eventDB.calm && Clear(s1, p, req.event, given) { CalmRefusedLease(s1, eventDB.View(), p, req, given); }
        return stop.value, rowId, t';
      }
      ghost var s2 := eventDB.View();
      result, rowId, t' := Book(p, info, token, c, given, s, t', req);
      if eventDB.calm && Clear(s1, p, req.event, given) {
        TokenIsNewest(s1, req.event);
        ClearStays(s1, s2, p, req, given);
        CalmAnswerLater(s1, s2, eventDB.View(), p, req, given);
      }
    }

    /** From the token to the beginning of the transaction. */
    method Approach(p: ProcId, info: EventInfo, granted: bool, ghost s: State, ghost t: seq<Step>, req: Request)
      returns (stop: Option<Outcome>, token: nat, c: Conn, ghost t': seq<Step>)
      requires eventDB.At(s, t, p, req, Read(info))
      modifies eventDB
      ensures stop.None? ==> eventDB.At(s, t', p, req, InTx(info, token, c))
      ensures stop.Some? ==> eventDB.At(s, t', p, req, Done(stop.value)) && stop.value in {LockNotAcquired, Failed}
      ensures (!granted ==> stop.Some?) && (stop == Some(LockNotAcquired) ==> !granted)
      ensures eventDB.calm && req.event !in old(eventDB.srv.locks) && !granted ==>
                stop == Some(LockNotAcquired) && OnlyMoved(old(eventDB.View()), eventDB.View(), p, req)
      ensures eventDB.calm && req.event !in old(eventDB.srv.locks) && granted ==>
                && stop.None? && token == IssuedCount(old(eventDB.db), req.event) + 1
                && OnlyMoved(old(eventDB.View()), eventDB.View(), p, req) && eventDB.srv.locks == old(eventDB.srv.locks)
                && Accepted(eventDB.db, req.event) == Accepted(old(eventDB.db), req.event)
    {
      hide Good, Run, Next, OnlyMoved;
      ghost var s1 := eventDB.View();
      c := 0;
      stop, token, t' := eventDB.NextFencingToken(p, req.event, info, s, t, req);
      if stop.Some? { return; }
      ghost var s2 := eventDB.View();
      stop, t' := eventDB.AcquireLease(p, info, token, granted, s, t', req);
      ghost var s3 := eventDB.View();
      if eventDB.calm { AcquirePhase(s2, p, granted); }
      if stop.Some? {
        if eventDB.calm && req.event !in s1.srv.locks { MovedTwice(s1, s2, s3, p, req); }
        return;
      }
      stop, c, t' := eventDB.BeginTx(p, info, token, s, t', req);
      if eventDB.calm && req.event !in s1.srv.locks {
        BeginTxPhase(s3, p, c);
        MovedTwice(s1, s2, s3, p, req);
        MovedTwice(s1, s3, eventDB.View(), p, req);
      }
    }

    /** Lines 42-60. */
    method Arrive(p: ProcId, req: Request, given: Givens, ghost s: State)
            returns (stop: Option<Outcome>, info: EventInfo, ghost t: seq<Step>)
      requires Good(eventDB.View()) && p !in eventDB.procs && s == eventDB.View()
      modifies eventDB
      ensures stop.None? ==> eventDB.At(s, t, p, req, Read(info)) && 0 < req.quantity
      ensures stop.Some? ==>
                eventDB.At(s, t, p, req, Done(stop.value))
                && stop.value in {InvalidQuantity, EventNotFound, EventPast, Failed}
      ensures stop == Some(InvalidQuantity) <==> req.quantity <= 0
      ensures (given.past ==> stop.Some?) && (stop == Some(EventPast) ==> given.past)
      ensures stop == Some(EventNotFound) ==> req.event !in eventDB.db.events
      ensures stop.None? ==> req.event in eventDB.db.events
      ensures eventDB.calm && stop.Some? ==> CalmAnswer(s, eventDB.View(), p, req, given)
      ensures eventDB.calm && stop.None? ==>
                OnlyMoved(s, eventDB.View(), p, req) && eventDB.db == s.db && eventDB.srv == s.srv
                    && req.event in s.db.events
    {
      hide Good, CalmAnswer;
      info := EventInfo("", "", "");
      assert Run(s, []) == s;
      RunSnoc(s, [], Begin(p, req));
      t := [Begin(p, req)];
      assert [] + t == t;
      eventDB.Take(Begin(p, req));
      if req.quantity <= 0 {
        CalmStop(s, p, req, given);
        return Some(InvalidQuantity), info, t;
      }
      stop, info, t := eventDB.ReadEvent(p, req.event, given.past, s, t, req);
      if eventDB.calm {
        if req.event in s.db.events && !given.past {
          CalmStart(s, p, req);
        } else {
          CalmStop(s, p, req, given);
        }
      }
    }

    /** The booking transaction. */
    method Book(p: ProcId, info: EventInfo, token: nat, c: Conn, given: Givens, ghost s: State, ghost t: seq<Step>,
        req: Request)
      returns (result: Outcome, ghost rowId: nat, ghost t': seq<Step>)
      requires eventDB.At(s, t, p, req, InTx(info, token, c)) && 0 < req.quantity && |given.draws| == 5
      modifies eventDB
      ensures eventDB.At(s, t', p, req, Done(result))
      ensures result !in {InvalidQuantity, EventNotFound, EventPast, LockNotAcquired}
      ensures result.Booked? ==> BookedFor(eventDB.db, req, given, result.ref, rowId)
      ensures result.Insufficient? ==>
                && req.event in eventDB.db.events
                && result.remaining == eventDB.db.events[req.event].remaining < req.quantity
      ensures eventDB.calm && Clear(old(eventDB.View()), p, req.event, given) && !given.past && given.granted
                && Accepted(old(eventDB.db), req.event) < token ==>
                CalmAnswer(old(eventDB.View()), eventDB.View(), p, req, given)
    {
      hide Inv, OutcomesOk, Run, Next, CalmAnswer, OnlyMoved, RefPending, EventIdTaken, FirstFree;
      var Request(userID, eventID, quantity) := req;
      rowId := 0;
      ghost var s0 := eventDB.View();
      ghost var calmly := eventDB.calm && Clear(s0, p, eventID, given) && !given.past && given.granted
        && Accepted(s0.db, eventID) < token;
      var stop: Option<Outcome>, rowsAffected: nat, write: Write, ticket: Ticket, id: nat, row: OutboxRow;
      stop, rowsAffected, write, t' := eventDB.ReserveInventory(p, quantity, token, eventID, info, c, s, t, req);
      if stop.Some? { return stop.value, rowId, t'; }
      ghost var s1 := eventDB.View();
      if calmly { CalmReserve(s0, p, given); }
      if rowsAffected == 0 {
        result, t' := eventDB.Diagnose(p, token, eventID, info, c, s, t', req);
        if calmly { CalmRefusal(s0, s1, p, given); }
        return;
      }
      stop, ticket, t' :=
        eventDB.CreateWithTx(p, given.draws, userID, eventID, quantity, info, token, c, write, s, t', req);
      ghost var s2 := eventDB.View();
      if stop.Some? {
        if calmly { CalmCollisions(s0, s2, p, req, given); }
        return stop.value, rowId, t';
      }
      if calmly {
        MovedTwice(s0, s1, s2, p, req);
        NamesStayFree(s1, s2, p, "", given.eventId);
      }
      stop, id, row, t' := eventDB.InsertOutbox(p, given.eventId, info, token, c, write, ticket, s, t', req);
      if stop.Some? { return stop.value, rowId, t'; }
      result, t' := eventDB.Commit(p, eventID, info, token, c, write, ticket, id, row, s, t', req);
      rowId := id;
      if calmly { CalmBooking(s0, s2, p, given); }
    }
  }

  lemma ClearLocks(s: State, p: ProcId, e: EventId, given: Givens)
    ensures Clear(s, p, e, given) ==> e !in s.srv.locks
  {
  }

  lemma TokenIsNewest(s: State, e: EventId)
    requires Good(s) && e in s.db.events
    ensures Accepted(s.db, e) <= IssuedCount(s.db, e)
  {
    InvLogs(s);
  }
}
