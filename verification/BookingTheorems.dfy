/** What holds of every run of the purchase system, whatever the interleaving, the Redis
    lock's answers, the failed statements and the crashes. */
module BookingTheorems {
  import opened Basics
  import opened BookingLog
  import opened BookingModel
  import opened BookingInvariant
  import opened BookingSteps

  lemma StepKeepsInv(s: State, step: Step)
    requires Inv(s)
    ensures Inv(Next(s, step))
  {
    hide Inv, Finish, DoReadEvent, DoPinConn, DoSeedToken, DoIssueToken, DoSelectToken, DoAcquire, DoBeginTx,
      DoReserve, DoDiagnose, DoInsertTicket, DoInsertOutbox, DoCommit;
    if Enabled(s, step) {
      match step
      case Begin(p, req) => BeginKeepsInv(s, p, req);
      case ReadEvent(p, past) => ReadEventKeepsInv(s, p, past);
      case PinConn(p, c) => PinConnKeepsInv(s, p, c);
      case SeedToken(p, ack) => SeedTokenKeepsInv(s, p, ack);
      case IssueToken(p, ack) => IssueTokenKeepsInv(s, p, ack);
      case SelectToken(p) => SelectTokenKeepsInv(s, p);
      case Acquire(p, granted) => AcquireKeepsInv(s, p, granted);
      case BeginTx(p, c) => BeginTxKeepsInv(s, p, c);
      case Reserve(p) => ReserveKeepsInv(s, p);
      case Diagnose(p) => DiagnoseKeepsInv(s, p);
      case InsertTicket(p, ref, spurious) => InsertTicketKeepsInv(s, p, ref, spurious);
      case GiveUp(p) => FinishKeepsInv(s, p, Failed);
      case InsertOutbox(p, eventId) => InsertOutboxKeepsInv(s, p, eventId);
      case Commit(p, ack) => CommitKeepsInv(s, p, ack);
      case Abort(p, crashed) => FinishKeepsInv(s, p, if crashed then Crashed else Failed);
    }
  }

  lemma {:induction false} RunKeepsInv(s: State, steps: seq<Step>)
    requires Inv(s)
    ensures Inv(Run(s, steps))
    decreases |steps|
  {
    hide Inv, Next;
    if steps != [] {
      StepKeepsInv(s, steps[0]);
      RunKeepsInv(Next(s, steps[0]), steps[1..]);
    }
  }

  /** The step commits a booking: `p`'s transaction becomes visible. */
  predicate Books(s: State, step: Step) {
    step.Commit? && Enabled(s, step) && step.ack.Applied() && Installable(s, step.p)
  }

  /** The sale a step adds to the booking log. */
  function SalesIn(s: State, step: Step): seq<Append> {
    if Books(s, step) then
      var Proc(req, pc) := s.procs[step.p];
      [Append(req.event, Sale(pc.token, pc.ticket.quantity))]
    else []
  }

  function SalesOf(s: State, steps: seq<Step>): seq<Append>
    decreases |steps|
  {
    if steps == [] then [] else SalesIn(s, steps[0]) + SalesOf(Next(s, steps[0]), steps[1..])
  }

  /** All or nothing, one step: whatever is not an applied commit (a failed statement, a
      fifth booking_ref collision, a refused outbox insert, a rollback, a crash) leaves
      inventory, accepted tokens, tickets, outbox and booking log as they were. */
  lemma OnlyCommitBooks(s: State, step: Step)
    requires !Books(s, step)
    ensures KeepsBookings(s, Next(s, step))
  {
    hide DoReadEvent, DoPinConn, DoSeedToken, DoIssueToken, DoSelectToken, DoAcquire, DoBeginTx,
      DoReserve, DoDiagnose, DoInsertTicket, DoInsertOutbox;
  }

  lemma StepRefines(s: State, step: Step)
    requires Inv(s)
    ensures Next(s, step).past.stock == s.past.stock
    ensures Runs(s.past.stock, s.past.log, SalesIn(s, step), Next(s, step).past.log)
  {
    hide TablesOk, HoldersOk;
    if Books(s, step) {
      InvParts(s);
      InvFacts(s, step.p);
      assert EventOk(s.db, s.past, s.procs[step.p].req.event);
      var a := SalesIn(s, step)[0];
      assert SalesIn(s, step)[1..] == [];
      assert Legal(s.past.stock, s.past.log, a);
      assert Next(s, step).past.log == Apply(s.past.log, a);
    } else {
      OnlyCommitBooks(s, step);
    }
  }

  lemma {:induction false} RunRefines(s: State, steps: seq<Step>)
    requires Inv(s)
    ensures Run(s, steps).past.stock == s.past.stock
    ensures Runs(s.past.stock, s.past.log, SalesOf(s, steps), Run(s, steps).past.log)
    decreases |steps|
  {
    hide Inv, Next, SalesIn;
    if steps != [] {
      var s1 := Next(s, steps[0]);
      StepKeepsInv(s, steps[0]);
      StepRefines(s, steps[0]);
      RunRefines(s1, steps[1..]);
      RunsConcat(s.past.stock, s.past.log, SalesIn(s, steps[0]), s1.past.log, SalesOf(s1, steps[1..]),
          Run(s, steps).past.log);
    }
  }

  /** Main result: every interleaving refines the atomic booking log, and the two mutable
      columns are functions of it. */
  lemma PurchasesRefineBookingLog(init: State, steps: seq<Step>)
    requires Initial(init)
    ensures var s := Run(init, steps);
      && Runs(init.past.stock, init.past.log, SalesOf(init, steps), s.past.log)
      && Sound(init.past.stock, s.past.log)
      && s.db.events.Keys == s.past.log.Keys
      && (forall e :: e in s.db.events ==>
            && e in init.past.stock
            && s.db.events[e].remaining as int == init.past.stock[e] - Sold(s.past.log[e])
            && Accepted(s.db, e) == LastToken(s.past.log[e])
            && Accepted(s.db, e) <= IssuedCount(s.db, e))
  {
    var s := Run(init, steps);
    assert Inv(s) by { InitialInv(init); RunKeepsInv(init, steps); }
    assert Runs(init.past.stock, init.past.log, SalesOf(init, steps), s.past.log)
        && s.past.stock == init.past.stock by {
      InitialInv(init);
      RunRefines(init, steps);
    }
    RunsSound(init.past.stock, init.past.log, SalesOf(init, steps), s.past.log);
    InvParts(s);
    assert forall e :: e in s.db.events ==> EventOk(s.db, s.past, e);
  }

  // ---- Conservation over the tickets table ----

  function QuantityFor(tickets: map<string, Ticket>, ref: string, e: EventId): int
    requires ref in tickets
  {
    if tickets[ref].event == e then tickets[ref].quantity else 0
  }

  /** Total quantity of the given tickets that are for event `e`. */
  ghost function QuantitySold(tickets: map<string, Ticket>, refs: set<string>, e: EventId): int
    requires refs <= tickets.Keys
  {
    if refs == {} then 0
    else
      var ref :| ref in refs;
      QuantityFor(tickets, ref, e) + QuantitySold(tickets, refs - {ref}, e)
  }

  lemma {:induction false} QuantitySplit(tickets: map<string, Ticket>, refs: set<string>, e: EventId, ref: string)
    requires refs <= tickets.Keys && ref in refs
    ensures QuantitySold(tickets, refs, e) == QuantityFor(tickets, ref, e) + QuantitySold(tickets, refs - {ref}, e)
    decreases refs
  {
    var first :| first in refs
      && QuantitySold(tickets, refs, e) == QuantityFor(tickets, first, e) + QuantitySold(tickets, refs - {first}, e);
    if first != ref {
      QuantitySplit(tickets, refs - {first}, e, ref);
      QuantitySplit(tickets, refs - {ref}, e, first);
      assert refs - {first} - {ref} == refs - {ref} - {first};
    }
  }

  lemma {:induction false} QuantityAgree(a: map<string, Ticket>, b: map<string, Ticket>, refs: set<string>, e: EventId)
    requires refs <= a.Keys && refs <= b.Keys
    requires forall ref :: ref in refs ==> a[ref] == b[ref]
    ensures QuantitySold(a, refs, e) == QuantitySold(b, refs, e)
    decreases refs
  {
    if refs != {} {
      var ref :| ref in refs;
      QuantitySplit(a, refs, e, ref);
      QuantitySplit(b, refs, e, ref);
      QuantityAgree(a, b, refs - {ref}, e);
    }
  }

  /** The tickets table and the booking log agree on what was sold. */
  ghost predicate SumsOk(s: State) {
    forall e :: e in s.past.log ==> QuantitySold(s.db.tickets, s.db.tickets.Keys, e) == Sold(s.past.log[e])
  }

  lemma StepKeepsSums(s: State, step: Step)
    requires Inv(s) && SumsOk(s)
    ensures SumsOk(Next(s, step))
  {
    hide TablesOk, HoldersOk;
    if Books(s, step) {
      InvFacts(s, step.p);
      var s' := Next(s, step);
      var Proc(req, pc) := s.procs[step.p];
      var ref := pc.ticket.ref;
      assert s'.db.tickets == s.db.tickets[ref := pc.ticket];
      forall e | e in s'.past.log
        ensures QuantitySold(s'.db.tickets, s'.db.tickets.Keys, e) == Sold(s'.past.log[e])
      {
        QuantitySplit(s'.db.tickets, s'.db.tickets.Keys, e, ref);
        assert s'.db.tickets.Keys - {ref} == s.db.tickets.Keys;
        QuantityAgree(s.db.tickets, s'.db.tickets, s.db.tickets.Keys, e);
        var log := s'.past.log[e];
        assert e == req.event ==> log[..|log| - 1] == s.past.log[e];
      }
    } else {
      OnlyCommitBooks(s, step);
    }
  }

  lemma {:induction false} RunKeepsSums(s: State, steps: seq<Step>)
    requires Inv(s) && SumsOk(s)
    ensures SumsOk(Run(s, steps))
    decreases |steps|
  {
    hide Inv, Next, SumsOk;
    if steps != [] {
      StepKeepsInv(s, steps[0]);
      StepKeepsSums(s, steps[0]);
      RunKeepsSums(Next(s, steps[0]), steps[1..]);
    }
  }

  /** Main result: no oversell. Inventory plus the quantities of the committed tickets is
      the initial stock, and inventory never goes below zero. */
  lemma Conservation(init: State, steps: seq<Step>, e: EventId)
    requires Initial(init) && e in init.db.events
    ensures var s := Run(init, steps);
      && e in s.db.events && 0 <= s.db.events[e].remaining
      && s.db.events[e].remaining + QuantitySold(s.db.tickets, s.db.tickets.Keys, e) == init.db.events[e].remaining
  {
    var s := Run(init, steps);
    InitialInv(init);
    RunKeepsInv(init, steps);
    RunKeepsSums(init, steps);
    RunRefines(init, steps);
    RunsKeepEvents(init.past.stock, init.past.log, SalesOf(init, steps), s.past.log);
    InvParts(s);
    assert EventOk(s.db, s.past, e);
  }

  lemma {:induction false} RunsKeepEvents(stock: map<EventId, nat>, before: Log, appends: seq<Append>, after: Log)
    requires Runs(stock, before, appends, after)
    ensures after.Keys == before.Keys
  {
    if appends != [] {
      RunsKeepEvents(stock, Apply(before, appends[0]), appends[1..], after);
    }
  }

  // ---- Tokens ----

  lemma TokenFacts(s: State, p: ProcId)
    requires Inv(s) && p in s.procs && s.procs[p].pc.HasToken()
    ensures var Proc(req, pc) := s.procs[p];
      && Owns(s.past, p, req.event, pc.token)
      && 1 <= pc.token <= IssuedCount(s.db, req.event)
      && Accepted(s.db, req.event) <= IssuedCount(s.db, req.event)
  {
    hide TicketsOk, LogOk, OutboxOk, HoldersOk, OwnersOk, PendingOk;
    assert ProcOk(s.db, s.srv, s.past, p, s.procs[p]);
    assert EventOk(s.db, s.past, s.procs[p].req.event);
  }

  /** Main result: a request that has read its token holds the one its own update issued;
      tokens count the updates of the event in order, and two requests never share one. */
  lemma TokensAreOwnUpdates(init: State, steps: seq<Step>, p: ProcId)
    requires Initial(init)
    requires p in Run(init, steps).procs && Run(init, steps).procs[p].pc.HasToken()
    ensures var s := Run(init, steps);
      var Proc(req, pc) := s.procs[p];
      && Owns(s.past, p, req.event, pc.token)
      && 1 <= pc.token <= IssuedCount(s.db, req.event)
      && Accepted(s.db, req.event) <= IssuedCount(s.db, req.event)
      && (forall q :: q in s.procs && q != p && s.procs[q].pc.HasToken() && s.procs[q].req.event == req.event
            ==> s.procs[q].pc.token != pc.token)
  {
    hide Inv;
    InitialInv(init);
    RunKeepsInv(init, steps);
    var s := Run(init, steps);
    TokenFacts(s, p);
    forall q | q in s.procs && q != p && s.procs[q].pc.HasToken() && s.procs[q].req.event == s.procs[p].req.event
      ensures s.procs[q].pc.token != s.procs[p].pc.token
    {
      TokenFacts(s, q);
    }
  }

  // ---- All or nothing ----

  /** The token accepted for a committed ticket. */
  function TokenOf(s: State, ref: string): nat
    requires ref in s.db.tickets && ref in s.past.places
    requires s.db.tickets[ref].event in s.past.log
    requires s.past.places[ref].slot < |s.past.log[s.db.tickets[ref].event]|
  {
    s.past.log[s.db.tickets[ref].event][s.past.places[ref].slot].token
  }

  ghost predicate HasSale(s: State, ref: string) {
    && ref in s.db.tickets && ref in s.past.places
    && s.db.tickets[ref].event in s.past.log
    && s.past.places[ref].slot < |s.past.log[s.db.tickets[ref].event]|
    && 1 <= TokenOf(s, ref) <= Accepted(s.db, s.db.tickets[ref].event)
  }

  /** Main result: committed tickets and outbox rows are in bijection by booking_ref, each
      row carries its ticket's data, and tickets of one event have distinct accepted tokens. */
  lemma TicketsMatchOutbox(init: State, steps: seq<Step>)
    requires Initial(init)
    ensures var s := Run(init, steps);
      && (forall ref :: ref in s.db.tickets ==> exists id :: id in s.db.outbox && s.db.outbox[id].key == ref)
      && (forall id :: id in s.db.outbox ==>
            && s.db.outbox[id].key in s.db.tickets
            && var t := s.db.tickets[s.db.outbox[id].key];
               && t.event in s.db.events
               && Tells(s.db.outbox[id], t, s.db.events[t.event].info))
      && (forall i, j :: i in s.db.outbox && j in s.db.outbox && i != j ==> s.db.outbox[i].key != s.db.outbox[j].key)
      && (forall ref :: ref in s.db.tickets ==> HasSale(s, ref))
      && (forall a, b ::
            a in s.db.tickets && b in s.db.tickets && a != b && s.db.tickets[a].event == s.db.tickets[b].event
            ==> TokenOf(s, a) != TokenOf(s, b))
  {
    var s := Run(init, steps);
    InitialInv(init);
    RunKeepsInv(init, steps);
    InvParts(s);
    TicketFacts(s);
  }

  lemma TicketHasRow(s: State, ref: string)
    requires TicketsOk(s.db, s.past) && LogOk(s.db, s.past) && EventsOk(s.db, s.past)
    requires ref in s.db.tickets
    ensures exists id :: id in s.db.outbox && s.db.outbox[id].key == ref
    ensures HasSale(s, ref)
  {
    assert TicketOk(s.db, s.past, ref);
    assert s.past.places[ref].row in s.db.outbox;
    var e := s.db.tickets[ref].event;
    assert SaleOk(s.db, s.past, e, s.past.places[ref].slot);
    assert EventOk(s.db, s.past, e);
    LastTokenIsLargest(s.past.log[e]);
  }

  lemma RowHasTicket(s: State, id: nat)
    requires TicketsOk(s.db, s.past) && OutboxOk(s.db, s.past) && id in s.db.outbox
    ensures s.db.outbox[id].key in s.past.places && s.past.places[s.db.outbox[id].key].row == id
    ensures s.db.outbox[id].key in s.db.tickets
    ensures var t := s.db.tickets[s.db.outbox[id].key];
      && t.event in s.db.events
      && Tells(s.db.outbox[id], t, s.db.events[t.event].info)
  {
    assert OutboxRowOk(s.db, s.past, id);
    assert TicketOk(s.db, s.past, s.db.outbox[id].key);
  }

  lemma TicketTokensDiffer(s: State, a: string, b: string)
    requires TicketsOk(s.db, s.past) && LogOk(s.db, s.past)
    requires a in s.db.tickets && b in s.db.tickets && a != b && s.db.tickets[a].event == s.db.tickets[b].event
    requires HasSale(s, a) && HasSale(s, b)
    ensures TokenOf(s, a) != TokenOf(s, b)
  {
    assert TicketOk(s.db, s.past, a) && TicketOk(s.db, s.past, b);
  }

  lemma TicketFacts(s: State)
    requires TicketsOk(s.db, s.past) && OutboxOk(s.db, s.past) && LogOk(s.db, s.past) && EventsOk(s.db, s.past)
    ensures forall ref :: ref in s.db.tickets ==> exists id :: id in s.db.outbox && s.db.outbox[id].key == ref
    ensures forall id :: id in s.db.outbox ==>
              && s.db.outbox[id].key in s.db.tickets
              && var t := s.db.tickets[s.db.outbox[id].key];
                 && t.event in s.db.events
                 && Tells(s.db.outbox[id], t, s.db.events[t.event].info)
    ensures forall i, j :: i in s.db.outbox && j in s.db.outbox && i != j ==> s.db.outbox[i].key != s.db.outbox[j].key
    ensures forall ref :: ref in s.db.tickets ==> HasSale(s, ref)
    ensures forall a, b ::
              a in s.db.tickets && b in s.db.tickets && a != b && s.db.tickets[a].event == s.db.tickets[b].event
              ==> TokenOf(s, a) != TokenOf(s, b)
  {
    hide TicketsOk, OutboxOk, LogOk, EventsOk;
    forall ref | ref in s.db.tickets
      ensures (exists id :: id in s.db.outbox && s.db.outbox[id].key == ref) && HasSale(s, ref)
    {
      TicketHasRow(s, ref);
    }
    forall id | id in s.db.outbox
      ensures s.db.outbox[id].key in s.past.places && s.past.places[s.db.outbox[id].key].row == id
      ensures s.db.outbox[id].key in s.db.tickets
      ensures var t := s.db.tickets[s.db.outbox[id].key];
        && t.event in s.db.events
        && Tells(s.db.outbox[id], t, s.db.events[t.event].info)
    {
      RowHasTicket(s, id);
    }
    forall a, b | a in s.db.tickets && b in s.db.tickets && a != b && s.db.tickets[a].event == s.db.tickets[b].event
      ensures TokenOf(s, a) != TokenOf(s, b)
    {
      TicketTokensDiffer(s, a, b);
    }
  }

  // ---- Outcomes ----

  /** What a returned request may conclude from its outcome, now and in every later state. */
  ghost predicate OutcomeOk(s: State, p: ProcId)
    requires p in s.procs
  {
    var Proc(req, pc) := s.procs[p];
    && (pc == Done(StaleToken) ==> StaleIsTrue(s.past, p, req.event))
    && (pc.Done? && pc.outcome.Booked? ==>
          && pc.outcome.ref in s.db.tickets
          && var t := s.db.tickets[pc.outcome.ref];
             t.user == req.user && t.event == req.event && t.quantity == req.quantity)
  }

  /** `p` owns a token of `e`, and a strictly newer one has been accepted. */
  ghost predicate StaleIsTrue(past: History, p: ProcId, e: EventId) {
    && e in past.log
    && (exists t: nat :: Owns(past, p, e, t))
    && (forall t: nat :: Owns(past, p, e, t) ==> t < LastToken(past.log[e]))
  }

  /** Only requests that were told so, or were left uncertain at commit, have a sale. */
  ghost predicate SellerOk(s: State, e: EventId, k: nat)
    requires e in s.past.buyers && k < |s.past.buyers[e]|
  {
    var Buyer(ref, proc) := s.past.buyers[e][k];
    proc in s.procs && s.procs[proc].pc in {Done(Booked(ref)), Done(CommitUncertain)}
  }

  ghost predicate OutcomesOk(s: State) {
    && (forall p :: p in s.procs ==> OutcomeOk(s, p))
    && (forall e, k :: e in s.past.buyers && 0 <= k < |s.past.buyers[e]| ==> SellerOk(s, e, k))
  }

  lemma QuietStep(s: State, step: Step)
    requires Enabled(s, step) && !step.Begin? && !Books(s, step)
    ensures Quiet(s, Next(s, step), step.p) && !s.procs[step.p].pc.Done?
  {
    hide Quiet, DoReadEvent, DoPinConn, DoSeedToken, DoIssueToken, DoSelectToken, DoAcquire, DoBeginTx,
      DoReserve, DoDiagnose, DoInsertTicket, DoInsertOutbox, DoCommit, Finish;
    match step
    case Commit(p, ack) => CommitIsQuiet(s, p, ack);
    case GiveUp(p) => FinishIsQuiet(s, p, Failed);
    case Abort(p, crashed) => FinishIsQuiet(s, p, if crashed then Crashed else Failed);
    case _ =>
  }

  lemma FinishIsQuiet(s: State, p: ProcId, outcome: Outcome)
    requires p in s.procs && !outcome.Booked? && !outcome.StaleToken?
    ensures Quiet(s, Finish(s, p, outcome), p)
  {
  }

  /** A commit that is not applied. */
  lemma CommitIsQuiet(s: State, p: ProcId, ack: Ack)
    requires p in s.procs && s.procs[p].pc.Queued? && (!ack.Applied() || !Installable(s, p))
    ensures Quiet(s, DoCommit(s, p, ack), p)
  {
    hide Finish, Quiet;
    FinishIsQuiet(s, p, Failed);
    FinishIsQuiet(s, p, CommitUncertain);
  }

  /** Diagnosis under the row locks: the newest accepted token is another request's, so a
      token that is not newer than it is strictly older. */
  lemma StaleMeansOlder(s: State, p: ProcId)
    requires Inv(s) && p in s.procs && s.procs[p].pc.Rejected?
    requires s.procs[p].pc.token <= Accepted(s.db, s.procs[p].req.event)
    ensures StaleIsTrue(s.past, p, s.procs[p].req.event)
  {
    hide Inv, HoldersOk;
    var Proc(req, pc) := s.procs[p];
    var e := req.event;
    LastSaleOwner(s, p);
    forall t: nat | Owns(s.past, p, e, t)
      ensures t < LastToken(s.past.log[e])
    {
      OneTokenEach(s, p, e, t, pc.token);
    }
  }

  lemma OneTokenEach(s: State, p: ProcId, e: EventId, t: nat, u: nat)
    requires HoldersOk(s) && Owns(s.past, p, e, t) && Owns(s.past, p, e, u)
    ensures t == u
  {
  }

  /** The accepted token is the last sale's, and its seller is not `p`, which is not done. */
  lemma LastSaleOwner(s: State, p: ProcId)
    requires Inv(s) && p in s.procs && s.procs[p].pc.Rejected?
    requires s.procs[p].pc.token <= Accepted(s.db, s.procs[p].req.event)
    ensures var Proc(req, pc) := s.procs[p];
      && HoldersOk(s) && req.event in s.past.log && Owns(s.past, p, req.event, pc.token)
      && pc.token < LastToken(s.past.log[req.event])
  {
    hide TicketsOk, OutboxOk, OwnersOk, PendingOk;
    var e := s.procs[p].req.event;
    assert ProcOk(s.db, s.srv, s.past, p, s.procs[p]);
    assert EventOk(s.db, s.past, e);
    var k := |s.past.log[e]| - 1;
    assert SaleOk(s.db, s.past, e, k);
    assert s.past.buyers[e][k].proc != p;
  }

  lemma InvEvent(s: State, e: EventId)
    requires Inv(s) && e in s.db.events
    ensures EventOk(s.db, s.past, e)
  {
    InvParts(s);
  }

  lemma QuietKeepsOutcome(s: State, s': State, p: ProcId, q: ProcId)
    requires Inv(s) && Quiet(s, s', p) && !s.procs[p].pc.Done?
    requires q in s.procs && OutcomeOk(s, q)
    ensures OutcomeOk(s', q)
  {
    hide Inv;
    if q == p && s'.procs[p].pc == Done(StaleToken) {
      StaleMeansOlder(s, p);
    }
    var e := s.procs[q].req.event;
    assert forall t: nat :: t <= |Holders(s.past, e)| ==> (Owns(s'.past, q, e, t) <==> Owns(s.past, q, e, t));
  }

  lemma QuietKeepsOutcomes(s: State, s': State, p: ProcId)
    requires Inv(s) && OutcomesOk(s) && Quiet(s, s', p) && !s.procs[p].pc.Done?
    ensures OutcomesOk(s')
  {
    hide Inv, OutcomeOk;
    forall q | q in s'.procs
      ensures OutcomeOk(s', q)
    {
      QuietKeepsOutcome(s, s', p, q);
    }
    forall e, k | e in s'.past.buyers && 0 <= k < |s'.past.buyers[e]|
      ensures SellerOk(s', e, k)
    {
      assert SellerOk(s, e, k);
    }
  }

  lemma BookingKeepsOutcome(s: State, p: ProcId, ack: Ack, q: ProcId)
    requires Installable(s, p) && ack.Applied()
    requires ProcOk(s.db, s.srv, s.past, p, s.procs[p]) && EventOk(s.db, s.past, s.procs[p].req.event)
    requires q in s.procs && OutcomeOk(s, q)
    ensures OutcomeOk(DoCommit(s, p, ack), q)
  {
    var s' := DoCommit(s, p, ack);
    var e := s.procs[q].req.event;
    assert Holders(s'.past, e) == Holders(s.past, e);
    assert forall t: nat :: Owns(s'.past, q, e, t) <==> Owns(s.past, q, e, t);
  }

  lemma BookingKeepsOutcomes(s: State, p: ProcId, ack: Ack)
    requires Inv(s) && OutcomesOk(s) && Installable(s, p) && ack.Applied()
    ensures OutcomesOk(DoCommit(s, p, ack))
  {
    hide TablesOk, EventsOk, HoldersOk, ProcsOk, OwnersOk, PendingOk, ProcOk, EventOk, OutcomeOk;
    var s' := DoCommit(s, p, ack);
    InvFacts(s, p);
    InvEvent(s, s.procs[p].req.event);
    forall q | q in s'.procs
      ensures OutcomeOk(s', q)
    {
      BookingKeepsOutcome(s, p, ack, q);
    }
    forall e, k | e in s'.past.buyers && 0 <= k < |s'.past.buyers[e]|
      ensures SellerOk(s', e, k)
    {
      assert k < |s.past.buyers[e]| ==> SellerOk(s, e, k);
    }
  }

  lemma StepKeepsOutcomes(s: State, step: Step)
    requires Inv(s) && OutcomesOk(s)
    ensures OutcomesOk(Next(s, step))
  {
    hide Inv, DoReadEvent, DoPinConn, DoSeedToken, DoIssueToken, DoSelectToken, DoAcquire, DoBeginTx,
      DoReserve, DoDiagnose, DoInsertTicket, DoInsertOutbox, DoCommit, Quiet;
    if Books(s, step) {
      BookingKeepsOutcomes(s, step.p, step.ack);
    } else if Enabled(s, step) && !step.Begin? {
      QuietStep(s, step);
      QuietKeepsOutcomes(s, Next(s, step), step.p);
    } else if Enabled(s, step) {
      BeginKeepsOutcomes(s, step.p, step.req);
    }
  }

  lemma BeginKeepsOutcomes(s: State, p: ProcId, req: Request)
    requires OutcomesOk(s) && p !in s.procs
    ensures OutcomesOk(Effect(s, Begin(p, req)))
  {
    var s' := Effect(s, Begin(p, req));
    forall q | q in s'.procs
      ensures OutcomeOk(s', q)
    {
      assert q != p ==> OutcomeOk(s, q);
    }
    forall e, k | e in s'.past.buyers && 0 <= k < |s'.past.buyers[e]|
      ensures SellerOk(s', e, k)
    {
      assert SellerOk(s, e, k);
    }
  }

  lemma {:induction false} RunKeepsOutcomes(s: State, steps: seq<Step>)
    requires Inv(s) && OutcomesOk(s)
    ensures OutcomesOk(Run(s, steps))
    decreases |steps|
  {
    hide Inv, Next, OutcomesOk;
    if steps != [] {
      StepKeepsInv(s, steps[0]);
      StepKeepsOutcomes(s, steps[0]);
      RunKeepsOutcomes(Next(s, steps[0]), steps[1..]);
    }
  }

  /** The position of the last sale of `e` belongs to some other request's booking. */
  ghost predicate NewerBooking(s: State, p: ProcId, e: EventId, k: nat) {
    && e in s.past.log && e in s.past.buyers && k < |s.past.log[e]| && k < |s.past.buyers[e]|
    && s.past.buyers[e][k].proc != p
    && s.past.buyers[e][k].ref in s.db.tickets
    && (exists t: nat :: Owns(s.past, p, e, t))
    && (forall t: nat :: Owns(s.past, p, e, t) ==> t < s.past.log[e][k].token)
  }

  /** Main result: a request told "stale token" really was overtaken: another request has
      committed a ticket for the same event with a strictly newer token. */
  lemma StaleIsTruthful(init: State, steps: seq<Step>, p: ProcId)
    requires Initial(init)
    requires p in Run(init, steps).procs && Run(init, steps).procs[p].pc == Done(StaleToken)
    ensures var s := Run(init, steps); exists k: nat :: NewerBooking(s, p, s.procs[p].req.event, k)
  {
    hide TicketsOk, OutboxOk, OwnersOk, PendingOk, HoldersOk, ProcsOk;
    var s := Run(init, steps);
    InitialInv(init);
    RunKeepsInv(init, steps);
    RunKeepsOutcomes(init, steps);
    var e := s.procs[p].req.event;
    assert OutcomeOk(s, p);
    assert EventOk(s.db, s.past, e) || e !in s.db.events;
    var k := |s.past.log[e]| - 1;
    assert SaleOk(s.db, s.past, e, k);
    assert SellerOk(s, e, k);
    assert NewerBooking(s, p, e, k);
  }

  /** Main result: rejections say why. Holding the row locks since its update, a request that
      changed no row is told "stale" exactly when its token is overtaken, and otherwise it is
      told the true remaining count, which is below what it asked for. */
  lemma RejectionsAreTruthful(init: State, steps: seq<Step>, p: ProcId)
    requires Initial(init)
    requires p in Run(init, steps).procs && Run(init, steps).procs[p].pc.Rejected?
    ensures var s := Run(init, steps);
      var Proc(req, pc) := s.procs[p];
      var outcome := Next(s, Diagnose(p)).procs[p].pc;
      && req.event in s.db.events
      && (StaleIsTrue(s.past, p, req.event) <==> outcome == Done(StaleToken))
      && (outcome != Done(StaleToken) ==>
            && outcome == Done(Insufficient(s.db.events[req.event].remaining))
            && s.db.events[req.event].remaining < req.quantity)
  {
    hide TicketsOk, LogOk, OutboxOk, OwnersOk, PendingOk, HoldersOk;
    var s := Run(init, steps);
    InitialInv(init);
    RunKeepsInv(init, steps);
    var Proc(req, pc) := s.procs[p];
    assert ProcOk(s.db, s.srv, s.past, p, s.procs[p]);
    assert EventOk(s.db, s.past, req.event);
    if pc.token <= Accepted(s.db, req.event) {
      StaleMeansOlder(s, p);
    }
  }

  /** Main result: whoever is told "booked" has its ticket, and no request sells twice or
      sells without being told so or left uncertain at commit. */
  lemma OutcomesAreTruthful(init: State, steps: seq<Step>)
    requires Initial(init)
    ensures var s := Run(init, steps);
      && (forall p :: p in s.procs ==> OutcomeOk(s, p))
      && (forall e, k :: e in s.past.buyers && 0 <= k < |s.past.buyers[e]| ==> SellerOk(s, e, k))
      && (forall e, i, j :: e in s.past.buyers && 0 <= i < j < |s.past.buyers[e]|
            ==> s.past.buyers[e][i].proc != s.past.buyers[e][j].proc)
  {
    var s := Run(init, steps);
    assert Inv(s) && OutcomesOk(s) by {
      InitialInv(init);
      RunKeepsInv(init, steps);
      RunKeepsOutcomes(init, steps);
    }
    InvParts(s);
    forall e, i, j | e in s.past.buyers && 0 <= i < j < |s.past.buyers[e]|
      ensures s.past.buyers[e][i].proc != s.past.buyers[e][j].proc
    {
      SellersDiffer(s, e, i, j);
    }
  }

  lemma SellersDiffer(s: State, e: EventId, i: nat, j: nat)
    requires LogOk(s.db, s.past) && HoldersOk(s) && e in s.past.buyers && i < j < |s.past.buyers[e]|
    ensures s.past.buyers[e][i].proc != s.past.buyers[e][j].proc
  {
    assert SaleOk(s.db, s.past, e, i) && SaleOk(s.db, s.past, e, j);
  }
}
