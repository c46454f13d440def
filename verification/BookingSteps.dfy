/** Every step keeps the invariant: one lemma per step. */
module BookingSteps {
  import opened Basics
  import opened BookingLog
  import opened BookingModel
  import opened BookingInvariant

  /** What a step of `p` leaves alone for every other request. */
  ghost predicate Spares(srv: Server, srv': Server, p: ProcId) {
    && (forall e :: (e in srv.locks && srv.locks[e] != p) <==> (e in srv'.locks && srv'.locks[e] != p))
    && (forall e :: e in srv.locks && srv.locks[e] != p ==> srv'.locks[e] == srv.locks[e])
    && (forall c :: (c in srv.pins && srv.pins[c] != p) <==> (c in srv'.pins && srv'.pins[c] != p))
    && (forall c :: c in srv.pins && srv.pins[c] != p ==>
          srv'.pins[c] == srv.pins[c] && LastInsertId(srv', c) == LastInsertId(srv, c))
    && srv.nextRow <= srv'.nextRow
  }

  /** `p` owns no lock or connection that it is not at a point to hold. */
  ghost predicate HoldsOnly(srv: Server, p: ProcId, proc: Proc) {
    && (forall e :: e in srv.locks && srv.locks[e] == p ==> proc.pc.HasLock() && proc.req.event == e)
    && (forall c :: c in srv.pins && srv.pins[c] == p ==> proc.pc.HasConn() && proc.pc.conn == c)
  }

  /** A step that touches no committed row and moves only its own request keeps the
      invariant if it keeps the facts about that request. */
  lemma MoveKeepsInv(s: State, s': State, p: ProcId)
    requires Inv(s) && p in s.procs && !s.procs[p].pc.Done?
    requires s'.db == s.db && s'.past == s.past && Spares(s.srv, s'.srv, p)
    requires p in s'.procs && s'.procs == s.procs[p := s'.procs[p]] && s'.procs[p].req == s.procs[p].req
    requires s'.procs[p].pc.BeforeIssue() ==> s.procs[p].pc.BeforeIssue()
    requires ProcOk(s.db, s'.srv, s.past, p, s'.procs[p])
    requires HoldsOnly(s'.srv, p, s'.procs[p])
    requires forall q :: q in s.procs && q != p ==>
              Apart(s'.procs[p].pc, s.procs[q].pc) && Apart(s.procs[q].pc, s'.procs[p].pc)
    ensures Inv(s')
  {
    hide TablesOk, HoldersOk, ProcsOk, OwnersOk, PendingOk, ProcOk, Apart, Spares, HoldsOnly;
    MoveKeepsHolders(s, s', p);
    MoveKeepsProcs(s, s', p);
    MoveKeepsOwners(s, s', p);
    MoveKeepsPending(s, s', p);
    assert s.srv.nextRow <= s'.srv.nextRow by { SparesRows(s.srv, s'.srv, p); }
  }

  lemma SparesRows(srv: Server, srv': Server, p: ProcId)
    requires Spares(srv, srv', p)
    ensures srv.nextRow <= srv'.nextRow
  {
  }

  lemma MoveKeepsHolders(s: State, s': State, p: ProcId)
    requires HoldersOk(s) && p in s.procs && !s.procs[p].pc.Done? && s'.past == s.past
    requires p in s'.procs && s'.procs == s.procs[p := s'.procs[p]] && s'.procs[p].req == s.procs[p].req
    requires s'.procs[p].pc.BeforeIssue() ==> s.procs[p].pc.BeforeIssue()
    ensures HoldersOk(s')
  {
  }

  lemma MoveKeepsOwners(s: State, s': State, p: ProcId)
    requires OwnersOk(s.srv, s.procs) && p in s.procs && Spares(s.srv, s'.srv, p)
    requires p in s'.procs && s'.procs == s.procs[p := s'.procs[p]]
    requires HoldsOnly(s'.srv, p, s'.procs[p])
    ensures OwnersOk(s'.srv, s'.procs)
  {
  }

  lemma MoveKeepsPending(s: State, s': State, p: ProcId)
    requires PendingOk(s.procs)
    requires p in s'.procs && s'.procs == s.procs[p := s'.procs[p]]
    requires forall q :: q in s.procs && q != p ==>
              Apart(s'.procs[p].pc, s.procs[q].pc) && Apart(s.procs[q].pc, s'.procs[p].pc)
    ensures PendingOk(s'.procs)
  {
    hide Apart;
  }

  lemma MoveKeepsProcs(s: State, s': State, p: ProcId)
    requires ProcsOk(s) && p in s.procs
    requires s'.db == s.db && s'.past == s.past && Spares(s.srv, s'.srv, p)
    requires p in s'.procs && s'.procs == s.procs[p := s'.procs[p]]
    requires ProcOk(s.db, s'.srv, s.past, p, s'.procs[p])
    ensures ProcsOk(s')
  {
    hide RowOf, Accepts;
    forall q | q in s'.procs
      ensures ProcOk(s'.db, s'.srv, s'.past, q, s'.procs[q])
    {
      assert ProcOk(s.db, s.srv, s.past, q, s.procs[q]);
    }
  }

  lemma InvParts(s: State)
    requires Inv(s)
    ensures TablesOk(s.db, s.past) && EventsOk(s.db, s.past) && HoldersOk(s) && ProcsOk(s)
    ensures OwnersOk(s.srv, s.procs) && PendingOk(s.procs)
    ensures TicketsOk(s.db, s.past) && LogOk(s.db, s.past) && OutboxOk(s.db, s.past)
    ensures forall e :: e in s.past.log && e in s.past.buyers ==> |s.past.buyers[e]| == |s.past.log[e]|
  {
    hide EventsOk, TicketsOk, OutboxOk, HoldersOk, ProcsOk, OwnersOk, PendingOk;
  }

  lemma InvFacts(s: State, p: ProcId)
    requires Inv(s) && p in s.procs
    ensures ProcOk(s.db, s.srv, s.past, p, s.procs[p]) && PendingOk(s.procs)
    ensures forall id :: id in s.db.outbox ==> id < s.srv.nextRow
    ensures HoldsOnly(s.srv, p, s.procs[p])
    ensures forall q :: q in s.procs && s.procs[q].pc.Queued? ==> s.procs[q].pc.rowId < s.srv.nextRow
  {
    hide TablesOk, HoldersOk;
    assert forall q :: q in s.procs ==> ProcOk(s.db, s.srv, s.past, q, s.procs[q]);
  }

  lemma FinishKeepsInv(s: State, p: ProcId, outcome: Outcome)
    requires Inv(s) && p in s.procs && !s.procs[p].pc.Done?
    ensures Inv(Finish(s, p, outcome))
  {
    hide Inv;
    InvFacts(s, p);
    MoveKeepsInv(s, Finish(s, p, outcome), p);
  }

  lemma BeginKeepsInv(s: State, p: ProcId, req: Request)
    requires Inv(s) && Enabled(s, Begin(p, req))
    ensures Inv(Effect(s, Begin(p, req)))
  {
    hide TablesOk, HoldersOk, ProcsOk, OwnersOk, PendingOk;
    BeginKeepsHolders(s, p, req);
    BeginKeepsProcs(s, p, req);
    BeginKeepsOwners(s, p, req);
  }

  lemma BeginKeepsHolders(s: State, p: ProcId, req: Request)
    requires HoldersOk(s) && p !in s.procs
    ensures HoldersOk(Effect(s, Begin(p, req)))
  {
  }

  lemma BeginKeepsProcs(s: State, p: ProcId, req: Request)
    requires ProcsOk(s) && p !in s.procs
    ensures ProcsOk(Effect(s, Begin(p, req)))
  {
    hide ProcOk;
    var s' := Effect(s, Begin(p, req));
    assert ProcOk(s.db, s.srv, s.past, p, s'.procs[p]) by { NewProcOk(s, p, s'.procs[p]); }
  }

  lemma NewProcOk(s: State, p: ProcId, proc: Proc)
    requires (proc.pc == Start && 0 < proc.req.quantity) || proc.pc.Done?
    ensures ProcOk(s.db, s.srv, s.past, p, proc)
  {
  }

  lemma BeginKeepsOwners(s: State, p: ProcId, req: Request)
    requires OwnersOk(s.srv, s.procs) && PendingOk(s.procs) && p !in s.procs
    ensures var s' := Effect(s, Begin(p, req)); OwnersOk(s'.srv, s'.procs) && PendingOk(s'.procs)
  {
  }

  lemma ReadEventKeepsInv(s: State, p: ProcId, past: bool)
    requires Inv(s) && p in s.procs && s.procs[p].pc.Start?
    ensures Inv(DoReadEvent(s, p, past))
  {
    hide Inv;
    if s.procs[p].req.event !in s.db.events {
      FinishKeepsInv(s, p, EventNotFound);
    } else if past {
      FinishKeepsInv(s, p, EventPast);
    } else {
      InvFacts(s, p);
      MoveKeepsInv(s, DoReadEvent(s, p, past), p);
    }
  }

  lemma PinConnKeepsInv(s: State, p: ProcId, c: Conn)
    requires Inv(s) && p in s.procs && s.procs[p].pc.Read? && c !in s.srv.pins
    ensures Inv(DoPinConn(s, p, c))
  {
    hide Inv;
    InvFacts(s, p);
    MoveKeepsInv(s, DoPinConn(s, p, c), p);
  }

  lemma SelectTokenKeepsInv(s: State, p: ProcId)
    requires Inv(s) && p in s.procs && s.procs[p].pc.Issued?
    ensures Inv(DoSelectToken(s, p))
  {
    hide Inv;
    InvFacts(s, p);
    MoveKeepsInv(s, DoSelectToken(s, p), p);
  }

  lemma AcquireKeepsInv(s: State, p: ProcId, granted: bool)
    requires Inv(s) && p in s.procs && s.procs[p].pc.Tokened?
    ensures Inv(DoAcquire(s, p, granted))
  {
    hide Inv;
    if granted {
      InvFacts(s, p);
      MoveKeepsInv(s, DoAcquire(s, p, granted), p);
    } else {
      FinishKeepsInv(s, p, LockNotAcquired);
    }
  }

  lemma BeginTxKeepsInv(s: State, p: ProcId, c: Conn)
    requires Inv(s) && p in s.procs && s.procs[p].pc.Leased? && c !in s.srv.pins
    ensures Inv(DoBeginTx(s, p, c))
  {
    hide Inv;
    InvFacts(s, p);
    MoveKeepsInv(s, DoBeginTx(s, p, c), p);
  }

  lemma ReserveKeepsInv(s: State, p: ProcId)
    requires Inv(s) && p in s.procs && s.procs[p].pc.InTx? && LockFree(s.srv, s.procs[p].req.event, p)
    ensures Inv(DoReserve(s, p))
  {
    hide Inv;
    InvFacts(s, p);
    MoveKeepsInv(s, DoReserve(s, p), p);
  }

  lemma DiagnoseKeepsInv(s: State, p: ProcId)
    requires Inv(s) && p in s.procs && s.procs[p].pc.Rejected?
    ensures Inv(DoDiagnose(s, p))
  {
    hide Inv;
    var Proc(req, pc) := s.procs[p];
    InvFacts(s, p);
    FinishKeepsInv(s, p, StaleToken);
    FinishKeepsInv(s, p, Insufficient(s.db.events[req.event].remaining));
  }

  lemma InsertTicketKeepsInv(s: State, p: ProcId, ref: string, spurious: bool)
    requires Inv(s) && p in s.procs && s.procs[p].pc.Reserved? && (spurious || !RefPending(s, p, ref))
    ensures Inv(DoInsertTicket(s, p, ref, spurious))
  {
    hide Inv;
    InvFacts(s, p);
    MoveKeepsInv(s, DoInsertTicket(s, p, ref, spurious), p);
  }

  lemma InsertOutboxKeepsInv(s: State, p: ProcId, eventId: string)
    requires Inv(s) && p in s.procs && s.procs[p].pc.Ticketed? && !EventIdTaken(s, p, eventId)
    ensures Inv(DoInsertOutbox(s, p, eventId))
    ensures var s' := DoInsertOutbox(s, p, eventId);
      var Proc(req, pc) := s'.procs[p];
      && pc.Queued? && pc.ticket == s.procs[p].pc.ticket && pc.row.eventId == eventId && pc.rowId !in s.db.outbox
      && req.event in s.db.events && Tells(pc.row, pc.ticket, s.db.events[req.event].info)
  {
    hide Inv;
    InvFacts(s, p);
    MoveKeepsInv(s, DoInsertOutbox(s, p, eventId), p);
  }

  /** Tables that differ only in their token rows. */
  lemma TokensChangeTables(db: Tables, past: History, db': Tables, past': History)
    requires TablesOk(db, past)
    requires db' == db.(tokens := db'.tokens) && past' == past.(issuedTo := past'.issuedTo)
    requires EventsOk(db', past')
    requires forall e, i :: 0 <= i < |Holders(past, e)| ==>
              i < |Holders(past', e)| && Holders(past', e)[i] == Holders(past, e)[i]
    ensures TablesOk(db', past')
  {
    hide EventsOk;
    assert TicketsOk(db', past') by {
      assert forall ref :: ref in db.tickets ==> TicketOk(db, past, ref);
    }
    assert OutboxOk(db', past') by {
      assert forall id :: id in db.outbox ==> OutboxRowOk(db, past, id);
    }
    forall e, k | e in past'.log && 0 <= k < |past'.log[e]|
      ensures SaleOk(db', past', e, k)
    {
      assert SaleOk(db, past, e, k);
    }
  }

  lemma SeedKeepsEvents(s: State, e: EventId)
    requires EventsOk(s.db, s.past) && e in s.db.events
    ensures EventsOk(Seed(s, e).db, s.past)
  {
    hide EventOk, Sold;
    var db' := Seed(s, e).db;
    forall f | f in s.db.events ensures EventOk(db', s.past, f) {
      SeedKeepsEvent(s, e, f);
    }
  }

  lemma SeedKeepsEvent(s: State, e: EventId, f: EventId)
    requires f in s.db.events && EventOk(s.db, s.past, f)
    ensures EventOk(Seed(s, e).db, s.past, f)
  {
    hide Sold;
  }

  lemma SeedKeepsProcs(s: State, e: EventId)
    requires ProcsOk(s)
    ensures ProcsOk(Seed(s, e))
  {
    var s' := Seed(s, e);
    forall q | q in s'.procs
      ensures ProcOk(s'.db, s'.srv, s'.past, q, s'.procs[q])
    {
      assert ProcOk(s.db, s.srv, s.past, q, s.procs[q]);
    }
  }

  lemma SeedKeepsInv(s: State, e: EventId)
    requires Inv(s) && e in s.db.events
    ensures Inv(Seed(s, e))
  {
    hide TablesOk, EventsOk, ProcsOk, OwnersOk, PendingOk;
    var s' := Seed(s, e);
    InvParts(s);
    SeedKeepsEvents(s, e);
    TokensChangeTables(s.db, s.past, s'.db, s'.past);
    SeedKeepsProcs(s, e);
  }

  lemma SeedTokenKeepsInv(s: State, p: ProcId, ack: Ack)
    requires Inv(s) && p in s.procs && s.procs[p].pc.Pinned?
    ensures Inv(DoSeedToken(s, p, ack))
  {
    hide Inv;
    InvFacts(s, p);
    var e := s.procs[p].req.event;
    SeedKeepsInv(s, e);
    var s1 := if ack.Applied() then Seed(s, e) else s;
    InvFacts(s1, p);
    if ack.Acked? { MoveKeepsInv(s1, DoSeedToken(s, p, ack), p); } else { FinishKeepsInv(s1, p, Failed); }
  }

  function Issuing(s: State, p: ProcId): State
    requires p in s.procs && s.procs[p].pc.Seeded? && s.procs[p].req.event in s.db.tokens
  {
    var Proc(req, pc) := s.procs[p];
    Goto(Issue(s, p, req.event, pc.conn), p, Issued(pc.info, pc.conn))
  }

  lemma IssueKeepsEvents(s: State, p: ProcId, e: EventId, c: Conn)
    requires EventsOk(s.db, s.past) && e in s.db.tokens
    ensures EventsOk(Issue(s, p, e, c).db, Issue(s, p, e, c).past)
  {
    assert forall f :: f in s.db.events ==> EventOk(s.db, s.past, f);
  }

  lemma IssueKeepsProcs(s: State, p: ProcId)
    requires ProcsOk(s) && EventsOk(s.db, s.past)
    requires p in s.procs && s.procs[p].pc.Seeded? && s.procs[p].req.event in s.db.tokens
    ensures ProcsOk(Issuing(s, p))
  {
    hide ProcOk, EventOk, Issuing;
    var s' := Issuing(s, p);
    IssuingProcs(s, p);
    forall q | q in s'.procs
      ensures ProcOk(s'.db, s'.srv, s'.past, q, s'.procs[q])
    {
      assert ProcOk(s.db, s.srv, s.past, p, s.procs[p]) && ProcOk(s.db, s.srv, s.past, q, s.procs[q]);
      if q == p { IssuerOk(s, p); } else { IssueKeepsProc(s, p, q); }
    }
  }

  lemma IssuingProcs(s: State, p: ProcId)
    requires p in s.procs && s.procs[p].pc.Seeded? && s.procs[p].req.event in s.db.tokens
    ensures Issuing(s, p).procs.Keys == s.procs.Keys
    ensures s.db.tokens.Keys == Issuing(s, p).db.tokens.Keys
  {
  }

  lemma IssueKeepsProc(s: State, p: ProcId, q: ProcId)
    requires p in s.procs && s.procs[p].pc.Seeded? && s.procs[p].req.event in s.db.tokens
    requires ProcOk(s.db, s.srv, s.past, p, s.procs[p])
    requires q in s.procs && q != p && ProcOk(s.db, s.srv, s.past, q, s.procs[q])
    ensures var s' := Issuing(s, p); q in s'.procs && ProcOk(s'.db, s'.srv, s'.past, q, s'.procs[q])
  {
    IssueExtendsHolders(s, p);
  }

  lemma IssuerOk(s: State, p: ProcId)
    requires p in s.procs && s.procs[p].pc.Seeded? && s.procs[p].req.event in s.db.tokens && EventsOk(s.db, s.past)
    requires ProcOk(s.db, s.srv, s.past, p, s.procs[p])
    ensures var s' := Issuing(s, p); p in s'.procs && ProcOk(s'.db, s'.srv, s'.past, p, s'.procs[p])
  {
    assert EventOk(s.db, s.past, s.procs[p].req.event);
  }

  lemma IssueExtendsHolders(s: State, p: ProcId)
    requires p in s.procs && s.procs[p].pc.Seeded? && s.procs[p].req.event in s.db.tokens
    ensures forall f :: Holders(Issuing(s, p).past, f)
                     == Holders(s.past, f) + if f == s.procs[p].req.event then [p] else []
  {
  }

  lemma IssueKeepsHolders(s: State, p: ProcId)
    requires HoldersOk(s)
    requires p in s.procs && s.procs[p].pc.Seeded? && s.procs[p].req.event in s.db.tokens
    ensures HoldersOk(Issuing(s, p))
  {
    IssueExtendsHolders(s, p);
  }

  lemma IssueKeepsOwners(s: State, p: ProcId)
    requires OwnersOk(s.srv, s.procs) && PendingOk(s.procs)
    requires p in s.procs && s.procs[p].pc.Seeded? && s.procs[p].req.event in s.db.tokens
    ensures OwnersOk(Issuing(s, p).srv, Issuing(s, p).procs) && PendingOk(Issuing(s, p).procs)
  {
  }

  lemma IssuingKeepsInv(s: State, p: ProcId)
    requires Inv(s)
    requires p in s.procs && s.procs[p].pc.Seeded? && s.procs[p].req.event in s.db.tokens
    ensures Inv(Issuing(s, p))
  {
    hide TablesOk, EventsOk, ProcsOk, HoldersOk, OwnersOk, PendingOk;
    IssueKeepsOwners(s, p);
    var s' := Issuing(s, p);
    InvParts(s);
    IssueKeepsEvents(s, p, s.procs[p].req.event, s.procs[p].pc.conn);
    IssueExtendsHolders(s, p);
    TokensChangeTables(s.db, s.past, s'.db, s'.past);
    IssueKeepsProcs(s, p);
    IssueKeepsHolders(s, p);
  }

  lemma IssueTokenKeepsInv(s: State, p: ProcId, ack: Ack)
    requires Inv(s) && p in s.procs && s.procs[p].pc.Seeded?
    ensures Inv(DoIssueToken(s, p, ack))
  {
    hide Inv;
    InvFacts(s, p);
    IssuingKeepsInv(s, p);
    if ack.Applied() {
      FinishKeepsInv(Issuing(s, p), p, Failed);
      assert ack.Unknown? ==> DoIssueToken(s, p, ack) == Finish(Issuing(s, p), p, Failed) by {
        var e := s.procs[p].req.event;
        var a := Issue(s, p, e, s.procs[p].pc.conn);
        assert Finish(a, p, Failed).procs == Finish(Issuing(s, p), p, Failed).procs;
      }
    } else {
      FinishKeepsInv(s, p, Failed);
    }
  }

  function Booking(s: State, p: ProcId, outcome: Outcome): State
    requires Installable(s, p)
  {
    Finish(Install(s, p), p, outcome)
  }

  lemma InstallKeepsEvents(s: State, p: ProcId)
    requires Installable(s, p) && EventsOk(s.db, s.past) && ProcOk(s.db, s.srv, s.past, p, s.procs[p])
    ensures EventsOk(Install(s, p).db, Install(s, p).past)
  {
    var s' := Install(s, p);
    var Proc(req, pc) := s.procs[p];
    var e := req.event;
    var log := s'.past.log[e];
    assert log[..|log| - 1] == s.past.log[e];
    forall f | f in s'.db.events
      ensures EventOk(s'.db, s'.past, f)
    {
      assert EventOk(s.db, s.past, f);
    }
  }

  lemma InstallKeepsTickets(s: State, p: ProcId)
    requires Installable(s, p) && TicketsOk(s.db, s.past) && EventsOk(s.db, s.past)
    requires ProcOk(s.db, s.srv, s.past, p, s.procs[p])
    requires forall e :: e in s.past.log && e in s.past.buyers ==> |s.past.buyers[e]| == |s.past.log[e]|
    ensures TicketsOk(Install(s, p).db, Install(s, p).past)
  {
    hide EventOk;
    var s' := Install(s, p);
    forall ref | ref in s'.db.tickets
      ensures TicketOk(s'.db, s'.past, ref)
    {
      if ref != s.procs[p].pc.ticket.ref {
        assert TicketOk(s.db, s.past, ref);
      }
    }
  }

  lemma InstallKeepsLog(s: State, p: ProcId)
    requires Installable(s, p) && LogOk(s.db, s.past) && EventsOk(s.db, s.past)
    requires ProcOk(s.db, s.srv, s.past, p, s.procs[p])
    ensures LogOk(Install(s, p).db, Install(s, p).past)
  {
    hide SaleOk, EventOk, ProcOk, Install;
    var s' := Install(s, p);
    InstalledLogs(s, p);
    InstallKeepsIncreasing(s, p);
    forall f, k | f in s'.past.log && 0 <= k < |s'.past.log[f]|
      ensures SaleOk(s'.db, s'.past, f, k)
    {
      if f != s.procs[p].req.event || k < |s.past.log[f]| {
        assert SaleOk(s.db, s.past, f, k);
        InstallKeepsSale(s, p, f, k);
      } else {
        InstalledSaleOk(s, p);
      }
    }
  }

  lemma InstalledLogs(s: State, p: ProcId)
    requires Installable(s, p)
    ensures var s' := Install(s, p);
      var e := s.procs[p].req.event;
      && s'.past.log.Keys == s.past.log.Keys && s'.past.buyers.Keys == s.past.buyers.Keys
      && (forall f :: f in s.past.log ==> |s'.past.log[f]| == |s.past.log[f]| + if f == e then 1 else 0)
      && (forall f :: f in s.past.buyers ==> |s'.past.buyers[f]| == |s.past.buyers[f]| + if f == e then 1 else 0)
  {
  }

  lemma InstallKeepsIncreasing(s: State, p: ProcId)
    requires Installable(s, p) && LogOk(s.db, s.past) && EventsOk(s.db, s.past)
    requires ProcOk(s.db, s.srv, s.past, p, s.procs[p])
    ensures forall f :: f in Install(s, p).past.log ==> Increasing(Install(s, p).past.log[f])
  {
    hide SaleOk;
    var e := s.procs[p].req.event;
    assert EventOk(s.db, s.past, e);
    LastTokenIsLargest(s.past.log[e]);
  }

  lemma InstallKeepsSale(s: State, p: ProcId, f: EventId, k: nat)
    requires Installable(s, p) && ProcOk(s.db, s.srv, s.past, p, s.procs[p])
    requires f in s.past.log && k < |s.past.log[f]| && f in s.past.buyers && k < |s.past.buyers[f]|
    requires SaleOk(s.db, s.past, f, k)
    ensures var s' := Install(s, p);
      && f in s'.past.log && k < |s'.past.log[f]| && f in s'.past.buyers && k < |s'.past.buyers[f]|
      && SaleOk(s'.db, s'.past, f, k)
  {
  }

  lemma InstalledSaleOk(s: State, p: ProcId)
    requires Installable(s, p) && ProcOk(s.db, s.srv, s.past, p, s.procs[p])
    requires |s.past.buyers[s.procs[p].req.event]| == |s.past.log[s.procs[p].req.event]|
    ensures var s' := Install(s, p);
      var e := s.procs[p].req.event;
      var k := |s.past.log[e]|;
      && e in s'.past.log && k < |s'.past.log[e]| && e in s'.past.buyers && k < |s'.past.buyers[e]|
      && SaleOk(s'.db, s'.past, e, k)
  {
  }

  lemma InstallKeepsOutbox(s: State, p: ProcId)
    requires Installable(s, p) && OutboxOk(s.db, s.past)
    requires ProcOk(s.db, s.srv, s.past, p, s.procs[p])
    ensures OutboxOk(Install(s, p).db, Install(s, p).past)
  {
    var s' := Install(s, p);
    forall id | id in s'.db.outbox
      ensures OutboxRowOk(s'.db, s'.past, id)
    {
      if id in s.db.outbox {
        assert OutboxRowOk(s.db, s.past, id);
      }
    }
  }

  /** The other requests: no other one holds the event's lock, its booking_ref or its row. */
  lemma BookingKeepsProcs(s: State, p: ProcId, outcome: Outcome)
    requires Installable(s, p) && ProcsOk(s) && PendingOk(s.procs)
    ensures ProcsOk(Booking(s, p, outcome))
  {
    hide ProcOk, Apart, Booking;
    var s' := Booking(s, p, outcome);
    BookingMovesOne(s, p, outcome);
    forall q | q in s'.procs
      ensures ProcOk(s'.db, s'.srv, s'.past, q, s'.procs[q])
    {
      assert ProcOk(s.db, s.srv, s.past, p, s.procs[p]) && ProcOk(s.db, s.srv, s.past, q, s.procs[q]);
      if q == p {
        NewProcOk(s', p, s'.procs[p]);
      } else {
        assert Apart(s.procs[p].pc, s.procs[q].pc);
        BookingKeepsProc(s, p, outcome, q);
      }
    }
  }

  lemma BookingMovesOne(s: State, p: ProcId, outcome: Outcome)
    requires Installable(s, p)
    ensures Booking(s, p, outcome).procs.Keys == s.procs.Keys && Booking(s, p, outcome).procs[p].pc == Done(outcome)
  {
  }

  lemma BookingKeepsProc(s: State, p: ProcId, outcome: Outcome, q: ProcId)
    requires Installable(s, p) && ProcOk(s.db, s.srv, s.past, p, s.procs[p])
    requires q in s.procs && q != p && ProcOk(s.db, s.srv, s.past, q, s.procs[q]) && Apart(s.procs[p].pc, s.procs[q].pc)
    ensures var s' := Booking(s, p, outcome); q in s'.procs && ProcOk(s'.db, s'.srv, s'.past, q, s'.procs[q])
  {
  }

  lemma BookingKeepsHolders(s: State, p: ProcId, outcome: Outcome)
    requires Installable(s, p) && HoldersOk(s)
    ensures HoldersOk(Booking(s, p, outcome))
  {
    var s' := Booking(s, p, outcome);
    assert forall e :: Holders(s'.past, e) == Holders(s.past, e);
  }

  lemma BookingKeepsOwners(s: State, p: ProcId, outcome: Outcome)
    requires Installable(s, p) && OwnersOk(s.srv, s.procs)
    ensures OwnersOk(Booking(s, p, outcome).srv, Booking(s, p, outcome).procs)
  {
  }

  lemma BookingKeepsPending(s: State, p: ProcId, outcome: Outcome)
    requires Installable(s, p) && PendingOk(s.procs) && ProcOk(s.db, s.srv, s.past, p, s.procs[p])
    requires forall id :: id in s.db.outbox ==> id < s.srv.nextRow
    ensures PendingOk(Booking(s, p, outcome).procs)
    ensures forall id :: id in Install(s, p).db.outbox ==> id < s.srv.nextRow
  {
  }

  lemma BookingKeepsInv(s: State, p: ProcId, outcome: Outcome)
    requires Inv(s) && Installable(s, p)
    ensures Inv(Booking(s, p, outcome))
  {
    hide EventsOk, TicketsOk, LogOk, OutboxOk, ProcsOk, ProcOk, HoldersOk, OwnersOk, PendingOk, HoldsOnly;
    InvParts(s);
    InvFacts(s, p);
    BookingKeepsHolders(s, p, outcome);
    BookingKeepsOwners(s, p, outcome);
    BookingKeepsPending(s, p, outcome);
    InstallKeepsEvents(s, p);
    InstallKeepsTickets(s, p);
    InstallKeepsLog(s, p);
    InstallKeepsOutbox(s, p);
    BookingKeepsProcs(s, p, outcome);
  }

  lemma CommitKeepsInv(s: State, p: ProcId, ack: Ack)
    requires Inv(s) && p in s.procs && s.procs[p].pc.Queued?
    ensures Inv(DoCommit(s, p, ack))
  {
    hide Inv;
    var outcome := if ack.Acked? then Booked(s.procs[p].pc.ticket.ref) else CommitUncertain;
    if Installable(s, p) {
      BookingKeepsInv(s, p, outcome);
      FinishKeepsInv(s, p, outcome);
    } else {
      FinishKeepsInv(s, p, Failed);
    }
  }
}
