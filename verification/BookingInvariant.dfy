/** The inductive invariant of the purchase system: facts about the committed tables, then
    facts about each request, each lock and each pair of open transactions. */
module BookingInvariant {
  import opened Basics
  import opened BookingLog
  import opened BookingModel

  function IssuedCount(db: Tables, e: EventId): nat { if e in db.tokens then db.tokens[e].issued else 0 }

  /** `p` made the update that issued `token`. */
  predicate Owns(past: History, p: ProcId, e: EventId, token: nat) {
    1 <= token <= |Holders(past, e)| && Holders(past, e)[token - 1] == p
  }

  /** Per event: the inventory column is the stock minus the ledger's sales, the accepted
      token is the ledger's last one, and the issued counter counts the issuing updates. */
  ghost predicate EventOk(db: Tables, past: History, e: EventId)
    requires e in db.events
  {
    && e in past.stock && e in past.log
    && db.events[e].remaining as int == past.stock[e] - Sold(past.log[e])
    && Accepted(db, e) == LastToken(past.log[e])
    && Accepted(db, e) <= IssuedCount(db, e)
    && IssuedCount(db, e) == |Holders(past, e)|
  }

  ghost predicate EventsOk(db: Tables, past: History) {
    && past.log.Keys == db.events.Keys
    && (forall e :: e in db.tokens ==> e in db.events)
    && (forall e :: e in past.issuedTo ==> e in db.events)
    && (forall e :: e in db.events ==> EventOk(db, past, e))
  }

  /** The payload names the ticket's booking, user, event and quantity, and what the event's
      row says about the event. */
  predicate Describes(payload: Payload, t: Ticket, info: EventInfo) {
    && payload.ref == t.ref && payload.user == t.user && payload.event == t.event && payload.quantity == t.quantity
    && payload.info.name == info.name && payload.info.date == info.date && payload.info.venue == info.venue
  }

  /** An outbox row that announces a ticket to the email service. */
  predicate Tells(row: OutboxRow, t: Ticket, info: EventInfo) {
    row.topic == "ticket.purchased" && row.key == t.ref && Describes(row.payload, t, info)
  }

  /** A committed ticket has its own ledger entry and its own outbox row. */
  ghost predicate TicketOk(db: Tables, past: History, ref: string)
    requires ref in db.tickets
  {
    var t := db.tickets[ref];
    && t.ref == ref && t.event in db.events && t.event in past.log && t.event in past.buyers && ref in past.places
    && var Place(slot, row) := past.places[ref];
       && slot < |past.log[t.event]| && slot < |past.buyers[t.event]|
       && past.buyers[t.event][slot].ref == ref
       && past.log[t.event][slot].quantity == t.quantity
       && row in db.outbox
       && db.outbox[row] == RowOf(t, db.events[t.event].info, db.outbox[row].eventId)
  }

  ghost predicate TicketsOk(db: Tables, past: History) {
    forall ref :: ref in db.tickets ==> TicketOk(db, past, ref)
  }

  ghost predicate SaleOk(db: Tables, past: History, e: EventId, k: nat)
    requires e in past.log && k < |past.log[e]| && e in past.buyers && k < |past.buyers[e]|
  {
    var Buyer(ref, proc) := past.buyers[e][k];
    && ref in db.tickets && db.tickets[ref].event == e
    && ref in past.places && past.places[ref].slot == k
    && Owns(past, proc, e, past.log[e][k].token)
    && 0 < past.log[e][k].quantity
  }

  ghost predicate LogOk(db: Tables, past: History) {
    && past.buyers.Keys == past.log.Keys
    && (forall e :: e in past.log ==> |past.buyers[e]| == |past.log[e]| && Increasing(past.log[e]))
    && (forall e, k :: e in past.log && 0 <= k < |past.log[e]| ==> SaleOk(db, past, e, k))
  }

  ghost predicate OutboxRowOk(db: Tables, past: History, id: nat)
    requires id in db.outbox
  {
    var key := db.outbox[id].key;
    key in db.tickets && key in past.places && past.places[key].row == id
  }

  ghost predicate OutboxOk(db: Tables, past: History) {
    && (forall id :: id in db.outbox ==> OutboxRowOk(db, past, id))
    && (forall i, j :: i in db.outbox && j in db.outbox && i != j ==> db.outbox[i].eventId != db.outbox[j].eventId)
  }

  ghost predicate TablesOk(db: Tables, past: History) {
    EventsOk(db, past) && TicketsOk(db, past) && LogOk(db, past) && OutboxOk(db, past)
  }

  /** A request issues at most one token, and none before its update; sellers are done. */
  ghost predicate HoldersOk(s: State) {
    && (forall e, i :: 0 <= i < |Holders(s.past, e)| ==>
          && Holders(s.past, e)[i] in s.procs
          && s.procs[Holders(s.past, e)[i]].req.event == e
          && !s.procs[Holders(s.past, e)[i]].pc.BeforeIssue())
    && (forall e, i, j :: 0 <= i < j < |Holders(s.past, e)| ==> Holders(s.past, e)[i] != Holders(s.past, e)[j])
    && (forall e, k :: e in s.past.buyers && 0 <= k < |s.past.buyers[e]| ==>
          && s.past.buyers[e][k].proc in s.procs
          && s.procs[s.past.buyers[e][k].proc].pc.Done?)
  }

  /** Facts a request relies on, by program point. */
  ghost predicate ProcOk(db: Tables, srv: Server, past: History, p: ProcId, proc: Proc) {
    var Proc(req, pc) := proc;
    var e := req.event;
    && (!pc.Done? ==> 0 < req.quantity)
    && (pc.HasInfo() ==> e in db.events && pc.info == db.events[e].info)
    && (pc.HasConn() ==> pc.conn in srv.pins && srv.pins[pc.conn] == p)
    && (pc.Seeded? || pc.Issued? || pc.HasToken() ==> e in db.tokens)
    && (pc.Issued? ==> Owns(past, p, e, LastInsertId(srv, pc.conn)))
    && (pc.HasToken() ==> Owns(past, p, e, pc.token))
    && (pc.HasLock() ==> e in srv.locks && srv.locks[e] == p)
    && (pc.Rejected? ==> !Accepts(db, e, req.quantity, pc.token))
    && (pc.HasWrite() ==>
          && Accepts(db, e, req.quantity, pc.token)
          && pc.write == Write(db.events[e].remaining - req.quantity, pc.token))
    && (pc.HasTicket() ==>
          && pc.ticket.user == req.user && pc.ticket.event == e && pc.ticket.quantity == req.quantity
          && pc.ticket.ref !in db.tickets)
    && (pc.Queued? ==>
          && pc.row == RowOf(pc.ticket, pc.info, pc.row.eventId)
          && pc.rowId < srv.nextRow && pc.rowId !in db.outbox
          && (forall id :: id in db.outbox ==> db.outbox[id].eventId != pc.row.eventId))
  }

  ghost predicate ProcsOk(s: State) {
    forall p :: p in s.procs ==> ProcOk(s.db, s.srv, s.past, p, s.procs[p])
  }

  /** Locks and connections belong to requests at a point that holds them. */
  ghost predicate OwnersOk(srv: Server, procs: map<ProcId, Proc>) {
    && (forall e :: e in srv.locks ==>
          && srv.locks[e] in procs
          && procs[srv.locks[e]].pc.HasLock() && procs[srv.locks[e]].req.event == e)
    && (forall c :: c in srv.pins ==>
          && srv.pins[c] in procs
          && procs[srv.pins[c]].pc.HasConn() && procs[srv.pins[c]].pc.conn == c)
  }

  /** Two open transactions never hold the same new booking_ref, outbox id or event_id. */
  ghost predicate Apart(a: Pc, b: Pc) {
    && (a.HasTicket() && b.HasTicket() ==> a.ticket.ref != b.ticket.ref)
    && (a.Queued? && b.Queued? ==> a.rowId != b.rowId && a.row.eventId != b.row.eventId)
  }

  ghost predicate PendingOk(procs: map<ProcId, Proc>) {
    forall p, q :: p in procs && q in procs && p != q ==> Apart(procs[p].pc, procs[q].pc)
  }

  ghost predicate Inv(s: State) {
    && TablesOk(s.db, s.past)
    && (forall id :: id in s.db.outbox ==> id < s.srv.nextRow)
    && HoldersOk(s) && ProcsOk(s) && OwnersOk(s.srv, s.procs) && PendingOk(s.procs)
  }

  lemma InitialInv(s: State)
    requires Initial(s)
    ensures Inv(s)
  {
  }
}
