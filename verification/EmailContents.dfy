/** What the handler's confirmation emails say, end to end: the booking, event, date, venue
    and quantity of a committed ticket. */
module EmailContents {
  import opened Basics
  import BI = BookingInvariant
  import OP = OutboxProofs
  import B = BookingModel
  import M = MailModel
  import MP = MailProofs
  import W = PayloadCodec
  import opened Pipeline

  /** The email repeats a payload of the log. */
  ghost predicate Repeats(c: M.Confirmation, pay: Payload) {
    && c.ref == pay.ref && c.quantity == pay.quantity
    && c.name == pay.info.name && c.date == pay.info.date && c.venue == pay.info.venue
  }

  ghost predicate FromMessage(log: seq<M.Message>, c: M.Confirmation) {
    exists o :: 0 <= o < |log| && log[o].body.Purchased? && Repeats(c, log[o].body.payload)
  }

  ghost predicate ToldOk(log: seq<M.Message>, s: M.State) {
    forall k :: 0 <= k < |s.told| ==> FromMessage(log, s.told[k])
  }

  lemma MailStepKeepsTold(log: seq<M.Message>, s: M.State, step: M.Step)
    requires MP.Inv(log, s) && ToldOk(log, s)
    ensures ToldOk(log, M.Next(log, s, step))
  {
    hide MP.Inv, FromMessage, M.DoRead, M.DoFind, M.DoFetch, M.DoCreate, M.DoStore, M.DoRetryHead, M.DoRetryRecord,
      M.IsListing, M.RecordsOf;
    if step.Send? && s.consumer.Sending? && step.ok { SendTellsMessage(log, s); }
  }

  lemma SendTellsMessage(log: seq<M.Message>, s: M.State)
    requires MP.Inv(log, s) && s.consumer.Sending?
    ensures FromMessage(log, M.ConfirmationOf(s.consumer.pay, s.consumer.to))
  {
    hide MP.RowsOk, MP.SendsOk, MP.VerdictsOk, MP.RetrierOk;
    assert Repeats(M.ConfirmationOf(s.consumer.pay, s.consumer.to), log[s.consumer.off].body.payload);
  }

  lemma AppendKeepsTold(log: seq<M.Message>, s: M.State, m: M.Message)
    requires ToldOk(log, s)
    ensures ToldOk(log + [m], s)
  {
    hide Repeats;
    forall k | 0 <= k < |s.told| ensures FromMessage(log + [m], s.told[k]) {
      assert FromMessage(log, s.told[k]);
      var o :| 0 <= o < |log| && log[o].body.Purchased? && Repeats(s.told[k], log[o].body.payload);
      assert (log + [m])[o] == log[o];
    }
  }

  lemma StepKeepsTold(s: State, step: Step)
    requires Inv(s) && ToldOk(s.mailLog, s.mail)
    ensures ToldOk(Next(s, step).mailLog, Next(s, step).mail)
  {
    hide BI.Inv, OP.Inv, MP.Inv, Coupled, InTune, Decodes, ToldOk, B.Next, M.Next;
    var s' := Next(s, step);
    if step.Mailing? {
      MailStepKeepsTold(s.mailLog, s.mail, step.m);
    } else if s'.mailLog != s.mailLog {
      AppendKeepsTold(s.mailLog, s.mail, s'.mailLog[|s.mailLog|]);
      assert s'.mailLog == s.mailLog + [s'.mailLog[|s.mailLog|]];
    }
  }

  lemma {:induction false} RunKeepsTold(s: State, steps: seq<Step>)
    requires Inv(s) && ToldOk(s.mailLog, s.mail)
    ensures ToldOk(Run(s, steps).mailLog, Run(s, steps).mail)
    decreases |steps|
  {
    hide Inv, Next, ToldOk;
    if steps != [] {
      StepKeepsInv(s, steps[0]);
      StepKeepsTold(s, steps[0]);
      RunKeepsTold(Next(s, steps[0]), steps[1..]);
    }
  }

  /** What an email says about the ticket it confirms. */
  ghost predicate Confirms(c: M.Confirmation, t: B.Ticket, info: EventInfo) {
    && c.ref == t.ref && c.name == info.name && c.date == info.date && c.venue == info.venue
    && (0 <= t.quantity < W.TWO_54 ==> (c.quantity == t.quantity <==> W.Exact(t.quantity)))
  }

  /** Main result: every confirmation that the handler had delivered names a committed ticket
      and its event's name, date and venue; below 2^54 it gives the quantity that was bought
      if and only if that is at most 2^53 or even. */
  lemma ConfirmationsTellTheTicket(init: State, steps: seq<Step>, k: nat)
    requires Initial(init) && k < |Run(init, steps).mail.told|
    ensures var s := Run(init, steps);
      var c := s.mail.told[k];
      && c.ref in s.booking.db.tickets
      && var t := s.booking.db.tickets[c.ref];
         t.event in s.booking.db.events && 0 < t.quantity && Confirms(c, t, s.booking.db.events[t.event].info)
  {
    hide Inv, Confirms;
    var s := Run(init, steps);
    InitialInv(init);
    RunKeepsInv(init, steps);
    RunKeepsTold(init, steps);
    var o :| 0 <= o < |s.mailLog| && s.mailLog[o].body.Purchased? && Repeats(s.mail.told[k], s.mailLog[o].body.payload);
    LogsAgree(s);
    DecodedTicket(s, o);
    MessageConfirms(s, o, s.mail.told[k]);
  }

  lemma MessageConfirms(s: State, o: nat, c: M.Confirmation)
    requires o < |s.outbox.log| && |s.mailLog| == |s.outbox.log| && Announces(s, s.outbox.log[o])
    requires DecodedAs(s.outbox.log[o], s.mailLog[o])
    requires s.mailLog[o].body.Purchased? && Repeats(c, s.mailLog[o].body.payload)
    ensures c.ref in s.booking.db.tickets
    ensures var t := s.booking.db.tickets[c.ref];
      t.event in s.booking.db.events && 0 < t.quantity && Confirms(c, t, s.booking.db.events[t.event].info)
  {
    hide W.Journey, W.Exact;
    var m := s.outbox.log[o];
    var q :| Decodes(m, q) && s.mailLog[o] == Decoded(m, q);
    W.JourneyFields(m.payload, q.value);
    if m.payload.quantity < W.TWO_54 { W.NumberSurvives(m.payload.quantity, q.value.quantity); }
  }
}
