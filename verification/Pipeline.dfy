/** The three machines joined: a committed booking's outbox row becomes visible to the
    relays, and what the relays publish is what the email service reads. */
module Pipeline {
  import opened Basics
  import B = BookingModel
  import BI = BookingInvariant
  import BS = BookingSteps
  import BT = BookingTheorems
  import O = OutboxModel
  import OP = OutboxProofs
  import M = MailModel
  import MP = MailProofs
  import W = PayloadCodec

  /** `mailLog` is the topic as the email service decodes it. */
  datatype State = State(booking: B.State, outbox: O.State, mailLog: seq<M.Message>, mail: M.State)

  /** A statement of a purchase request, of a relay (or the relays' clock), or of the email
      service. `age` is how long before the commit the outbox row was inserted; `q` is what the
      handler will make of a message that the relay's step appends. */
  datatype Step =
    | Booking(b: B.Step, age: nat)
    | Relaying(o: O.Step, q: Option<Payload>)
    | Mailing(m: M.Step)

  /** A message as the email service decodes it: its payload went through the relay's and the
      consumer's untyped fields. */
  ghost predicate Decodes(m: O.Message, q: Option<Payload>) {
    0 <= m.payload.quantity && W.Journey(m.payload, q)
  }

  function Decoded(m: O.Message, q: Option<Payload>): M.Message {
    M.Message(m.topic, if q.Some? then M.Purchased(q.value) else M.Unreadable)
  }

  /** The relay's step, and the message it appends, if any, as it will be decoded. */
  ghost function Relay(s: State, o: O.Step, q: Option<Payload>): State {
    var outbox := O.Next(s.outbox, o);
    var n := |s.outbox.log|;
    if |outbox.log| == n + 1 && Decodes(outbox.log[n], q)
    then s.(outbox := outbox, mailLog := s.mailLog + [Decoded(outbox.log[n], q)])
    else if outbox.log == s.outbox.log then s.(outbox := outbox)
    else s
  }

  ghost function Next(s: State, step: Step): State {
    match step
    case Booking(b, age) =>
      var outbox :=
        if BT.Books(s.booking, b) then
          var pc := s.booking.procs[b.p].pc;
          O.Next(s.outbox, O.Enqueue(pc.rowId, pc.row, s.outbox.now - age))
        else s.outbox;
      s.(booking := B.Next(s.booking, b), outbox := outbox)
    case Relaying(o, q) =>
      if o.Enqueue? then s else Relay(s, o, q)
    case Mailing(m) =>
      s.(mail := M.Next(s.mailLog, s.mail, m))
  }

  ghost function Run(s: State, steps: seq<Step>): State
    decreases |steps|
  {
    if steps == [] then s else Run(Next(s, steps[0]), steps[1..])
  }

  predicate Initial(s: State) {
    B.Initial(s.booking) && O.Initial(s.outbox) && s.mailLog == [] && M.Initial(s.mail)
  }

  /** The relays see exactly the committed outbox rows, with their content. */
  ghost predicate Coupled(b: B.Tables, rows: map<O.RowId, O.Row>) {
    && rows.Keys == b.outbox.Keys
    && (forall id :: id in b.outbox ==> rows[id].content == b.outbox[id])
  }

  ghost predicate DecodedAs(m: O.Message, mail: M.Message) {
    exists q :: Decodes(m, q) && mail == Decoded(m, q)
  }

  /** The email service decodes the topic message by message. */
  ghost predicate InTune(log: seq<O.Message>, mailLog: seq<M.Message>) {
    |mailLog| == |log| && forall i :: 0 <= i < |log| ==> DecodedAs(log[i], mailLog[i])
  }

  ghost predicate Inv(s: State) {
    && BI.Inv(s.booking) && OP.Inv(s.outbox) && MP.Inv(s.mailLog, s.mail)
    && Coupled(s.booking.db, s.outbox.rows) && InTune(s.outbox.log, s.mailLog)
  }

  lemma BookingAddsRow(s: B.State, b: B.Step)
    requires BT.Books(s, b) && BI.Inv(s)
    ensures var pc := s.procs[b.p].pc;
      pc.Queued? && pc.rowId !in s.db.outbox && B.Next(s, b).db.outbox == s.db.outbox[pc.rowId := pc.row]
  {
    hide BI.Inv;
    BS.InvFacts(s, b.p);
  }

  lemma BookingKeepsCoupling(s: State, b: B.Step, age: nat)
    requires Inv(s)
    ensures var s' := Next(s, Booking(b, age)); Coupled(s'.booking.db, s'.outbox.rows) && s'.outbox.log == s.outbox.log
  {
    hide OP.Inv, MP.Inv, BI.Inv, B.Next, BT.Books;
    if BT.Books(s.booking, b) {
      IsQueued(s.booking, b);
      BookingAddsRow(s.booking, b);
    } else {
      BT.OnlyCommitBooks(s.booking, b);
    }
  }

  lemma BookingKeepsInv(s: State, b: B.Step, age: nat)
    requires Inv(s)
    ensures Inv(Next(s, Booking(b, age)))
  {
    hide BI.Inv, OP.Inv, MP.Inv, Coupled, InTune, B.Next, O.Next, BT.Books;
    BookingKeepsCoupling(s, b, age);
    BT.StepKeepsInv(s.booking, b);
    if BT.Books(s.booking, b) {
      IsQueued(s.booking, b);
      var pc := s.booking.procs[b.p].pc;
      OP.StepKeepsInv(s.outbox, O.Enqueue(pc.rowId, pc.row, s.outbox.now - age));
    }
  }

  /** The row of a booking can be claimed from the moment of its commit. */
  lemma CommittedIsEligible(s: State, b: B.Step, age: nat)
    requires Inv(s) && BT.Books(s.booking, b)
    ensures var id := s.booking.procs[b.p].pc.rowId;
      var s' := Next(s, Booking(b, age));
      && id !in s.outbox.rows && id in s'.outbox.rows && id in s'.booking.db.outbox
      && s'.outbox.rows[id].content == s'.booking.db.outbox[id] && s'.outbox.rows[id].attempts == 0
      && O.IsEligible(s'.outbox.rows[id], s'.outbox.now)
  {
    hide BI.Inv, OP.Inv, MP.Inv, InTune, B.Next;
    BookingAddsRow(s.booking, b);
  }

  lemma IsQueued(s: B.State, b: B.Step)
    requires BT.Books(s, b)
    ensures !b.Begin? && b.p in s.procs && s.procs[b.p].pc.Queued?
  {
  }

  /** The same rows with the same messages. */
  ghost predicate SameContent(s: O.State, s': O.State) {
    s'.rows.Keys == s.rows.Keys && forall id :: id in s.rows ==> s'.rows[id].content == s.rows[id].content
  }

  lemma WritesKeepContent(s: O.State, r: O.RelayId, ack: Ack)
    requires O.RelayAt(s, r).Leasing? || O.RelayAt(s, r).Marking? || O.RelayAt(s, r).Retrying?
    requires O.RelayAt(s, r).id in s.rows
    ensures O.RelayAt(s, r).Leasing? ==> SameContent(s, O.DoCommitClaim(s, r, ack))
    ensures O.RelayAt(s, r).Marking? ==> SameContent(s, O.DoMark(s, r, ack))
    ensures O.RelayAt(s, r).Retrying? ==> SameContent(s, O.DoRetry(s, r, ack))
  {
    hide O.Delay, O.Claims;
  }

  lemma RelayingRows(s: O.State, o: O.Step)
    requires !o.Enqueue?
    ensures SameContent(s, O.Next(s, o))
  {
    hide O.IsLowest, O.DoCommitClaim, O.DoMark, O.DoRetry;
    if O.Enabled(s, o) && (o.CommitClaim? || o.Mark? || o.Retry?) {
      WritesKeepContent(s, o.r, o.ack);
    }
  }

  lemma RelayingLog(s: O.State, o: O.Step)
    ensures O.Next(s, o).log == s.log || exists m :: O.Next(s, o).log == s.log + [m]
  {
    hide O.IsLowest, O.Delay, O.Calls, O.Claims, O.MessageOf;
  }

  /** What a relay step does to the log and to the rows' content. */
  lemma RelayingFrame(s: O.State, o: O.Step)
    requires !o.Enqueue?
    ensures O.Next(s, o).rows.Keys == s.rows.Keys
    ensures forall id :: id in s.rows ==> O.Next(s, o).rows[id].content == s.rows[id].content
    ensures O.Next(s, o).log == s.log || exists m :: O.Next(s, o).log == s.log + [m]
  {
    hide O.Next;
    RelayingRows(s, o);
    RelayingLog(s, o);
  }

  lemma TunedMore(log: seq<O.Message>, mailLog: seq<M.Message>, m: O.Message, q: Option<Payload>)
    requires InTune(log, mailLog) && Decodes(m, q)
    ensures InTune(log + [m], mailLog + [Decoded(m, q)])
  {
    hide Decodes, Decoded;
    assert DecodedAs(m, Decoded(m, q));
  }

  lemma RelayingKeepsInv(s: State, o: O.Step, q: Option<Payload>)
    requires Inv(s) && !o.Enqueue?
    ensures Inv(Relay(s, o, q))
  {
    hide BI.Inv, OP.Inv, MP.Inv, InTune, Decodes, O.Next;
    RelayingFrame(s.outbox, o);
    OP.StepKeepsInv(s.outbox, o);
    var log, log' := s.outbox.log, O.Next(s.outbox, o).log;
    if log' != log {
      var m :| log' == log + [m];
      if Decodes(m, q) {
        MP.AppendKeepsInv(s.mailLog, s.mail, Decoded(m, q));
        TunedMore(log, s.mailLog, m, q);
      }
    }
  }

  lemma StepKeepsInv(s: State, step: Step)
    requires Inv(s)
    ensures Inv(Next(s, step))
  {
    hide BI.Inv, OP.Inv, MP.Inv, Coupled, InTune, Relay, B.Next, O.Next, M.Next;
    match step
    case Booking(b, age) => BookingKeepsInv(s, b, age);
    case Relaying(o, q) => if !o.Enqueue? { RelayingKeepsInv(s, o, q); }
    case Mailing(m) => MP.StepKeepsInv(s.mailLog, s.mail, m);
  }

  lemma {:induction false} RunKeepsInv(s: State, steps: seq<Step>)
    requires Inv(s)
    ensures Inv(Run(s, steps))
    decreases |steps|
  {
    hide Inv, Next;
    if steps != [] {
      StepKeepsInv(s, steps[0]);
      RunKeepsInv(Next(s, steps[0]), steps[1..]);
    }
  }

  lemma InitialInv(s: State)
    requires Initial(s)
    ensures Inv(s)
  {
    hide BI.Inv, OP.Inv, MP.Inv;
    BI.InitialInv(s.booking);
    OP.InitialInv(s.outbox);
    MP.InitialInv(s.mailLog, s.mail);
  }

  /** The booking's event is stored under `id`: still to be published, or in the log. */
  ghost predicate Carried(s: State, ref: string, id: O.RowId) {
    && id in s.outbox.rows && s.outbox.rows[id].content.key == ref
    && (s.outbox.rows[id].publishedAt.None? || OP.Logged(s.outbox.log, id))
  }

  /** The message announces a committed ticket and carries its data. */
  ghost predicate Announces(s: State, m: O.Message) {
    && m.key in s.booking.db.tickets
    && var t := s.booking.db.tickets[m.key];
       && t.event in s.booking.db.events && BI.Describes(m.payload, t, s.booking.db.events[t.event].info)
       && t.ref == m.key && 0 < t.quantity && m.topic == "ticket.purchased"
  }

  lemma MessageAnnounces(s: State, i: nat)
    requires Inv(s) && i < |s.outbox.log|
    ensures Announces(s, s.outbox.log[i])
  {
    hide BI.Inv, MP.Inv, OP.RowsOk, OP.RelaysOk;
    var m := s.outbox.log[i];
    assert m == O.MessageOf(m.row, s.outbox.rows[m.row].content);
    RowAnnounces(s.booking, m.row);
  }

  lemma RowAnnounces(b: B.State, id: nat)
    requires BI.Inv(b) && id in b.db.outbox
    ensures b.db.outbox[id].key in b.db.tickets && b.db.outbox[id].topic == B.TICKET_TOPIC
    ensures var t := b.db.tickets[b.db.outbox[id].key];
      t.event in b.db.events && BI.Tells(b.db.outbox[id], t, b.db.events[t.event].info) && 0 < t.quantity
  {
    hide BI.Inv;
    BS.InvParts(b);
    hide BI.EventsOk, BI.LogOk, BI.HoldersOk, BI.ProcsOk;
    BT.RowHasTicket(b, id);
    assert BI.TicketOk(b.db, b.past, b.db.outbox[id].key);
    TicketIsPositive(b, b.db.outbox[id].key);
  }

  lemma TicketIsPositive(b: B.State, ref: string)
    requires BI.TicketsOk(b.db, b.past) && BI.LogOk(b.db, b.past) && ref in b.db.tickets
    ensures 0 < b.db.tickets[ref].quantity
  {
    assert BI.TicketOk(b.db, b.past, ref);
    assert BI.SaleOk(b.db, b.past, b.db.tickets[ref].event, b.past.places[ref].slot);
  }

  lemma TicketCarried(s: State, ref: string)
    requires Inv(s) && ref in s.booking.db.tickets
    ensures exists id :: Carried(s, ref, id)
  {
    hide BI.Inv, MP.Inv, OP.Logged;
    BS.InvParts(s.booking);
    BT.TicketHasRow(s.booking, ref);
    var id :| id in s.booking.db.outbox && s.booking.db.outbox[id].key == ref;
    assert OP.RowOk(s.outbox, id);
    assert Carried(s, ref, id);
  }

  /** Main result: no loss and no phantom. Across purchases, relays, crashes, slow relays and
      lost answers, the event of every committed ticket is still in the outbox or in the log,
      and every message of the log announces a committed ticket. */
  lemma NoLossNoPhantom(init: State, steps: seq<Step>)
    requires Initial(init)
    ensures var s := Run(init, steps);
      && (forall ref :: ref in s.booking.db.tickets ==> exists id :: Carried(s, ref, id))
      && (forall i :: 0 <= i < |s.outbox.log| ==> Announces(s, s.outbox.log[i]))
  {
    hide Inv, Carried, Announces;
    var s := Run(init, steps);
    InitialInv(init);
    RunKeepsInv(init, steps);
    forall ref | ref in s.booking.db.tickets ensures exists id :: Carried(s, ref, id) {
      TicketCarried(s, ref);
    }
    forall i | 0 <= i < |s.outbox.log| ensures Announces(s, s.outbox.log[i]) {
      MessageAnnounces(s, i);
    }
  }

  /** A message is decoded as what one journey makes of the committed ticket's payload. */
  lemma DecodedTicket(s: State, i: nat)
    requires Inv(s) && i < |s.outbox.log|
    ensures Announces(s, s.outbox.log[i]) && |s.mailLog| == |s.outbox.log|
    ensures exists q :: Decodes(s.outbox.log[i], q) && s.mailLog[i] == Decoded(s.outbox.log[i], q)
  {
    hide BI.Inv, OP.Inv, MP.Inv, Decodes, Announces;
    MessageAnnounces(s, i);
    assert DecodedAs(s.outbox.log[i], s.mailLog[i]);
  }

  /** Main result, end to end: an email_status row marked sent means that a Send to its
      recipient returned nil, that its booking is a committed ticket, and that it is the only
      row of that booking. Below 2^54 it is stored for the user who bought the ticket if and
      only if the id is at most 2^53 or even. */
  lemma SentMeansBookedAndDelivered(init: State, steps: seq<Step>, id: M.MailId)
    requires Initial(init)
    requires id in Run(init, steps).mail.rows && Run(init, steps).mail.rows[id].status == M.Sent
    ensures var s := Run(init, steps);
      var row := s.mail.rows[id];
      && M.Delivery(row.ref, row.recipient) in s.mail.delivered
      && row.ref in s.booking.db.tickets
      && (forall j :: j in s.mail.rows && j != id ==> s.mail.rows[j].ref != row.ref)
      && var user := s.booking.db.tickets[row.ref].user;
         user < W.TWO_54 ==> (row.user == user <==> W.Exact(user))
  {
    hide Inv, W.Exact;
    var s := Run(init, steps);
    InitialInv(init);
    RunKeepsInv(init, steps);
    RowFacts(s, id);
    RowHasTicket(s, id);
  }

  /** A status row belongs to the ticket that its message announced. */
  lemma RowHasTicket(s: State, id: M.MailId)
    requires Inv(s) && id in s.mail.rows && MP.FromLog(s.mailLog, s.mail.rows[id])
    ensures var row := s.mail.rows[id];
      && row.ref in s.booking.db.tickets
      && var user := s.booking.db.tickets[row.ref].user;
         user < W.TWO_54 ==> (row.user == user <==> W.Exact(user))
  {
    hide Inv, W.Exact, W.Journey;
    var row := s.mail.rows[id];
    var o :| 0 <= o < |s.mailLog| && s.mailLog[o].body.Purchased? && s.mailLog[o].body.payload.ref == row.ref
      && s.mailLog[o].body.payload.user == row.user;
    LogsAgree(s);
    DecodedTicket(s, o);
    var q :| Decodes(s.outbox.log[o], q) && s.mailLog[o] == Decoded(s.outbox.log[o], q);
    W.JourneyFields(s.outbox.log[o].payload, q.value);
    var user := s.outbox.log[o].payload.user;
    if user < W.TWO_54 { W.NumberSurvives(user, row.user); }
  }

  lemma LogsAgree(s: State)
    requires Inv(s)
    ensures |s.mailLog| == |s.outbox.log|
  {
  }

  lemma RowFacts(s: State, id: M.MailId)
    requires Inv(s) && id in s.mail.rows
    ensures MP.FromLog(s.mailLog, s.mail.rows[id])
    ensures s.mail.rows[id].status == M.Sent ==>
              M.Delivery(s.mail.rows[id].ref, s.mail.rows[id].recipient) in s.mail.delivered
    ensures forall j :: j in s.mail.rows && j != id ==> s.mail.rows[j].ref != s.mail.rows[id].ref
  {
    hide BI.Inv, OP.Inv, MP.SendsOk, MP.ConsumerOk, MP.VerdictsOk, MP.RetrierOk, MP.FromLog;
    assert MP.RowOk(s.mailLog, s.mail, id);
  }

  /** Main result: a message of the log whose numbers are below 2^54 is read by the handler as
      the data of the committed ticket if and only if each number is at most 2^53 or even. */
  lemma HandlerReadsTheTicket(init: State, steps: seq<Step>, i: nat)
    requires Initial(init) && i < |Run(init, steps).outbox.log|
    ensures var s := Run(init, steps);
      var m := s.outbox.log[i];
      && Announces(s, m) && i < |s.mailLog| && 0 <= m.payload.quantity
      && var t := s.booking.db.tickets[m.key];
         var body := s.mailLog[i].body;
         && s.mailLog[i].topic == "ticket.purchased"
         && (W.BelowTwo54(m.payload) ==>
               (body.Purchased? && BI.Describes(body.payload, t, s.booking.db.events[t.event].info)
                <==> W.AllExact(m.payload)))
  {
    hide Inv, W.Journey, W.AllExact;
    var s := Run(init, steps);
    InitialInv(init);
    RunKeepsInv(init, steps);
    DecodedTicket(s, i);
    var q :| Decodes(s.outbox.log[i], q) && s.mailLog[i] == Decoded(s.outbox.log[i], q);
    if W.BelowTwo54(s.outbox.log[i].payload) { W.PayloadArrivesExactly(s.outbox.log[i].payload); }
  }

  /** No relay step is held up by the choice of `q`: some decoding exists for every message. */
  lemma EveryMessageDecodes(s: State, o: O.Step) returns (q: Option<Payload>)
    requires Inv(s) && !o.Enqueue?
    ensures Next(s, Relaying(o, q)).outbox == O.Next(s.outbox, o)
  {
    hide BI.Inv, OP.Inv, MP.Inv, W.Journey, O.Next;
    RelayingFrame(s.outbox, o);
    var log' := O.Next(s.outbox, o).log;
    q := None;
    if log' != s.outbox.log {
      var m :| log' == s.outbox.log + [m];
      NewMessageIsTicket(s, o);
      q := W.JourneyExists(m.payload);
    }
  }

  lemma NewMessageIsTicket(s: State, o: O.Step)
    requires Inv(s) && !o.Enqueue?
    ensures var log' := O.Next(s.outbox, o).log;
      log' != [] && log' != s.outbox.log ==> 0 <= log'[|log'| - 1].payload.quantity
  {
    hide BI.Inv, OP.Inv, MP.Inv, O.Next;
    RelayingFrame(s.outbox, o);
    OP.StepKeepsInv(s.outbox, o);
    var outbox := O.Next(s.outbox, o);
    if outbox.log != [] && outbox.log != s.outbox.log {
      var i := |outbox.log| - 1;
      LastIsStored(outbox, i);
      RowAnnounces(s.booking, outbox.log[i].row);
    }
  }

  lemma LastIsStored(o: O.State, i: nat)
    requires OP.Inv(o) && i < |o.log|
    ensures o.log[i].row in o.rows && o.log[i] == O.MessageOf(o.log[i].row, o.rows[o.log[i].row].content)
  {
    hide OP.RowsOk, OP.RelaysOk;
  }

  /** The purchase statements of a pipeline run. */
  function BookingSteps(steps: seq<Step>): seq<B.Step> {
    if steps == [] then []
    else (if steps[0].Booking? then [steps[0].b] else []) + BookingSteps(steps[1..])
  }

  /** Relays and email service do not disturb purchases: everything proved of the purchase
      system alone holds inside the pipeline. */
  lemma {:induction false} PurchasesUndisturbed(s: State, steps: seq<Step>)
    ensures Run(s, steps).booking == B.Run(s.booking, BookingSteps(steps))
    decreases |steps|
  {
    hide B.Next, O.Next, M.Next, BT.Books;
    if steps != [] {
      PurchasesUndisturbed(Next(s, steps[0]), steps[1..]);
      if steps[0].Booking? {
        assert BookingSteps(steps)[1..] == BookingSteps(steps[1..]);
      } else {
        assert BookingSteps(steps) == BookingSteps(steps[1..]);
      }
    }
  }

  /** Main result: no oversell, with the whole pipeline running. */
  lemma PipelineConservation(init: State, steps: seq<Step>, e: nat)
    requires Initial(init) && e in init.booking.db.events
    ensures var b := Run(init, steps).booking;
      && e in b.db.events
      && b.db.events[e].remaining + BT.QuantitySold(b.db.tickets, b.db.tickets.Keys,
          e) == init.booking.db.events[e].remaining
  {
    PurchasesUndisturbed(init, steps);
    BT.Conservation(init.booking, BookingSteps(steps), e);
  }
}
