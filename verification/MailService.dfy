/** The email service's own control flow: the consumer loop and the ticket handler over a
    mutable status table, with the retry loop, the clock and the broker running between any
    two statements. */
module MailService {
  import opened Basics
  import opened MailModel
  import opened MailProofs
  import opened MailTheorems

  /** Events that are not the consumer's. */
  predicate Foreign(event: Event) {
    event.Append? || event.step.Poll? || event.step.RetryHead? || event.step.RetryRecord? || event.step.RetryDies?
        || event.step.Tick?
  }

  /** What the consumer may rely on across foreign events. */
  ghost predicate Undisturbed(w: World, w': World) {
    && w.log <= w'.log
    && w'.mail.consumer == w.mail.consumer && w'.mail.topics == w.mail.topics
    && w'.mail.position == w.mail.position && w'.mail.committed == w.mail.committed
    && w'.mail.verdicts == w.mail.verdicts && w'.mail.handlerSends == w.mail.handlerSends
    && (forall ref :: HasRef(w'.mail.rows, ref) <==> HasRef(w.mail.rows, ref))
  }

  lemma ForeignUndisturbed(w: World, event: Event)
    requires Foreign(event)
    ensures Undisturbed(w, NextWorld(w, event))
  {
    if event.Local? && event.step.RetryRecord? && w.mail.retrier.Updating? {
      UpdateHasRef(w.mail, w.mail.retrier.id, w.mail.retrier.status);
    }
  }

  /** What handling a new booking leaves behind when every call is answered: its row, with
      the outcome of the one send. */
  ghost predicate Recorded(s: State, s': State, pay: Payload, to: string, ok: bool) {
    && s'.rows == s.rows[s.nextId := Row(pay.ref, pay.user, to, if ok then Sent else Failed, 0, Some(s.now))]
    && s'.delivered == (if ok then s.delivered + [Delivery(pay.ref, to)] else s.delivered)
    && s'.told == (if ok then s.told + [Says(pay, to)] else s.told)
  }

  /** What the handler's email to `to` says about a payload. */
  function Says(pay: Payload, to: string): Confirmation {
    Confirmation(to, pay.ref, pay.info.name, pay.info.date, pay.info.venue, pay.quantity)
  }

  /** What the world answers while one message is handled: the user's address, if it can be
      had, and whether the provider accepts the email. */
  datatype Answers = Answers(email: Option<string>, accepts: bool)

  class EmailService {
    /** The calm environment: nothing runs between the consumer's calls, and the database and
        the broker answer every call. */
    const calm: bool
    var log: seq<Message>
    var mail: State

    function View(): World
      reads this
    {
      World(log, mail)
    }

    ghost predicate Reached(w: World, t: seq<Event>)
      reads this
    {
      View() == Run(w, t) && Inv(log, mail)
    }

    method Take(event: Event, ghost w: World, ghost t: seq<Event>) returns (ghost t': seq<Event>)
      requires Reached(w, t)
      modifies this
      ensures Reached(w, t') && View() == NextWorld(old(View()), event)
    {
      hide Inv, Run, Next;
      EventKeepsInv(View(), event);
      RunSnoc(w, t, event);
      var next := NextWorld(View(), event);
      log, mail := next.log, next.mail;
      t' := t + [event];
    }

    /** Any number of events of the retry loop, the clock and the broker. */
    method Others(ghost w: World, ghost t: seq<Event>) returns (ghost t': seq<Event>)
      requires Reached(w, t)
      modifies this
      ensures Reached(w, t') && Undisturbed(old(View()), View())
      ensures calm ==> View() == old(View())
    {
      hide Inv, Run, NextWorld;
      t' := t;
      if calm { return; }
      var events: seq<Event> := *;
      for i := 0 to |events|
        invariant Reached(w, t') && Undisturbed(old(View()), View())
      {
        if Foreign(events[i]) {
          ForeignUndisturbed(View(), events[i]);
          t' := Take(events[i], w, t');
        }
      }
    }

    /** repo.FindByBookingRef. */
    method FindByBookingRef(ref: string) returns (err: bool, existing: bool)
      requires mail.consumer.Finding? && mail.consumer.pay.ref == ref
      modifies this`mail
      ensures World(log, mail) == NextWorld(old(View()), Local(Find(err)))
      ensures !err ==> (existing <==> HasRef(old(mail).rows, ref))
      ensures calm ==> !err
    {
      err := *;
      if calm { err := false; }
      existing := false;
      if !err {
        existing := exists id :: id in mail.rows && mail.rows[id].ref == ref;
      }
      var off, pay := mail.consumer.off, mail.consumer.pay;
      if err {
        mail := Judge(mail, off, HandlerError, Reading);
      } else if existing {
        mail := Judge(mail, off, Handled, Committing(off));
      } else {
        mail := mail.(consumer := Fetching(off, pay));
      }
    }

    /** fetchUserEmail: `email` is the user's address, if it can be read and decrypted. */
    method FetchUserEmail(email: Option<string>)
      requires mail.consumer.Fetching?
      modifies this`mail
      ensures View() == NextWorld(old(View()), Local(Fetch(email)))
      ensures var Fetching(off, pay) := old(mail).consumer;
        mail.consumer == if email.Some? then Creating(off, pay, email.value) else Reading
    {
      var off, pay := mail.consumer.off, mail.consumer.pay;
      if email.None? {
        mail := Judge(mail, off, HandlerError, Reading);
      } else {
        mail := mail.(consumer := Creating(off, pay, email.value));
      }
    }

    /** consumer.ReadMessage, the handler lookup and the decoding of envelope and payload;
        what cannot be dispatched is skipped without a commit. */
    method ReadMessage() returns (dispatched: bool)
      requires mail.consumer == Reading && mail.position < |log|
      modifies this`mail
      ensures View() == NextWorld(old(View()), Local(Read))
      ensures dispatched <==> log[old(mail).position].topic in mail.topics && log[old(mail).position].body.Purchased?
      ensures mail.consumer ==
        if dispatched then Finding(old(mail).position, log[old(mail).position].body.payload) else Reading
    {
      var off := mail.position;
      var message := log[off];
      mail := mail.(position := off + 1);
      if message.topic !in mail.topics {
        mail := Judge(mail, off, NoHandler, Reading);
        return false;
      }
      if message.body.Garbled? {
        mail := Judge(mail, off, Undecodable, Reading);
        return false;
      }
      if message.body.Unreadable? {
        mail := Judge(mail, off, HandlerError, Reading);
        return false;
      }
      mail := mail.(consumer := Finding(off, message.body.payload));
      return true;
    }

    /** consumer.CommitMessage at the broker, whose answer may be lost. */
    method CommitAtBroker(ack: Ack)
      requires mail.consumer.Committing?
      modifies this`mail
      ensures View() == NextWorld(old(View()), Local(CommitOffset(ack)))
      ensures mail == old(mail).(consumer := Reading,
                                 committed := if ack.Applied() then old(mail).consumer.off + 1 else old(mail).committed)
    {
      var off := mail.consumer.off;
      if ack.Applied() { mail := mail.(committed := off + 1); }
      mail := mail.(consumer := Reading);
    }

    /** repo.Create: an INSERT whose answer may be lost. */
    method CreateStatus(pay: Payload, to: string) returns (err: bool, id: MailId, ghost ack: Ack)
      requires mail.consumer.Creating? && mail.consumer.pay == pay && mail.consumer.to == to
      modifies this`mail
      ensures (err <==> !ack.Acked?) && (calm ==> !err)
      ensures View() == NextWorld(old(View()), Local(Create(ack)))
      ensures mail.rows ==
        if ack.Applied() then old(mail).rows[old(mail).nextId := Row(pay.ref, pay.user, to, Pending, 0, None)]
        else old(mail).rows
      ensures !err ==> id == old(mail).nextId
      ensures !err ==> mail.consumer == Sending(old(mail).consumer.off, pay, id, to)
    {
      var answer: Ack := *;
      if calm { answer := Acked; }
      ack := answer;
      id := mail.nextId;
      var off := mail.consumer.off;
      var rows, nextId := mail.rows, mail.nextId;
      if answer.Applied() {
        rows, nextId := rows[id := Row(pay.ref, pay.user, to, Pending, 0, None)], id + 1;
      }
      err := !answer.Acked?;
      mail := mail.(rows := rows, nextId := nextId);
      if err {
        mail := Judge(mail, off, HandlerError, Reading);
      } else {
        mail := mail.(consumer := Sending(off, pay, id, to));
      }
    }

    /** sender.SendConfirmationEmail through the provider. */
    method SendConfirmation(pay: Payload, id: MailId, to: string, ok: bool)
      requires mail.consumer.Sending? && mail.consumer == Sending(mail.consumer.off, pay, id, to)
      modifies this`mail
      ensures View() == NextWorld(old(View()), Local(Send(ok)))
      ensures mail.told == if ok then old(mail).told + [Says(pay, to)] else old(mail).told
    {
      var off := mail.consumer.off;
      var delivered := if ok then mail.delivered + [Delivery(pay.ref, to)] else mail.delivered;
      var told := if ok then mail.told + [ConfirmationOf(pay, to)] else mail.told;
      mail := mail.(
        consumer := Recording(off, pay, id, if ok then Sent else Failed),
        delivered := delivered,
        told := told,
        handlerSends := mail.handlerSends + [pay.ref]);
    }

    /** repo.UpdateStatus, then the handler returns. */
    method StoreStatus(id: MailId, status: Status) returns (err: bool, ghost ack: Ack)
      requires mail.consumer.Recording? && mail.consumer.id == id && mail.consumer.status == status
      modifies this`mail
      ensures (err <==> !ack.Acked?) && (calm ==> !err)
      ensures View() == NextWorld(old(View()), Local(Store(ack)))
      ensures mail.rows ==
        if ack.Applied() && id in old(mail).rows
        then old(mail).rows[id := old(mail).rows[id].(status := status, lastAttempt := Some(mail.now))]
        else old(mail).rows
    {
      var answer: Ack := *;
      if calm { answer := Acked; }
      ack := answer;
      var off := mail.consumer.off;
      if answer.Applied() && id in mail.rows {
        mail := mail.(rows := mail.rows[id := mail.rows[id].(status := status, lastAttempt := Some(mail.now))]);
      }
      err := !answer.Acked?;
      mail := Judge(mail, off, if err then HandlerError else Handled, if err then Reading else Committing(off));
    }

    /** HandleTicketPurchased. Returning nil means the booking has its status row; the
        provider is called at most once, and not at all for a booking that has a row. */
    method HandleTicketPurchased(off: nat, pay: Payload, world: Answers, ghost w: World, ghost t: seq<Event>)
      returns (failed: bool, ghost t': seq<Event>)
      requires Reached(w, t) && mail.consumer == Finding(off, pay)
      modifies this
      ensures Reached(w, t')
      ensures mail.position == old(mail).position && mail.committed == old(mail).committed
                && mail.topics == old(mail).topics
      ensures off in mail.verdicts
      ensures failed ==> mail.consumer == Reading && HandlerError in mail.verdicts[off]
      ensures !failed ==>
                mail.consumer == Committing(off) && Handled in mail.verdicts[off] && HasRef(mail.rows, pay.ref)
      ensures mail.handlerSends == old(mail).handlerSends || mail.handlerSends == old(mail).handlerSends + [pay.ref]
      ensures HasRef(old(mail).rows, pay.ref) ==> mail.handlerSends == old(mail).handlerSends
      ensures !failed && !HasRef(old(mail).rows, pay.ref) ==> mail.handlerSends == old(mail).handlerSends + [pay.ref]
      ensures calm ==> log == old(log) && (failed <==> !HasRef(old(mail).rows, pay.ref) && world.email.None?)
      ensures calm && (HasRef(old(mail).rows, pay.ref) || world.email.None?) ==>
                mail.rows == old(mail).rows && mail.delivered == old(mail).delivered && mail.told == old(mail).told
      ensures world.email.None? && !HasRef(old(mail).rows, pay.ref) ==> failed
      ensures calm && !HasRef(old(mail).rows, pay.ref) && world.email.Some? ==>
                Recorded(old(mail), mail, pay, world.email.value, world.accepts)
    {
      hide Inv, Run, HasRef;
      t' := Others(w, t);
      var err, existing: bool;
      StepOf(w, t', Find(true));
      StepOf(w, t', Find(false));
      err, existing := FindByBookingRef(pay.ref);
      t' := t' + [Local(Find(err))];
      if err { return true, t'; }
      if existing { return false, t'; }

      t' := Others(w, t');
      StepOf(w, t', Fetch(world.email));
      FetchUserEmail(world.email);
      t' := t' + [Local(Fetch(world.email))];
      if world.email.None? { return true, t'; }

      failed, t' := Register(off, pay, world.email.value, world.accepts, w, t');
    }

    /** The second half of the handler: create the row, send, record the outcome. */
    method Register(off: nat, pay: Payload, to: string, ok: bool, ghost w: World, ghost t: seq<Event>)
      returns (failed: bool, ghost t': seq<Event>)
      requires Reached(w, t) && mail.consumer == Creating(off, pay, to)
      modifies this
      ensures Reached(w, t')
      ensures mail.position == old(mail).position && mail.committed == old(mail).committed
                && mail.topics == old(mail).topics
      ensures off in mail.verdicts
      ensures failed ==> mail.consumer == Reading && HandlerError in mail.verdicts[off]
      ensures !failed ==>
                mail.consumer == Committing(off) && Handled in mail.verdicts[off] && HasRef(mail.rows, pay.ref)
      ensures mail.handlerSends == old(mail).handlerSends || mail.handlerSends == old(mail).handlerSends + [pay.ref]
      ensures !failed ==> mail.handlerSends == old(mail).handlerSends + [pay.ref]
      ensures calm ==> !failed && log == old(log) && Recorded(old(mail), mail, pay, to, ok)
    {
      hide Inv, Run, HasRef;
      t' := Others(w, t);
      ghost var ack;
      var err: bool, id: MailId;
      StepOf(w, t', Create(Acked));
      StepOf(w, t', Create(Unknown(true)));
      StepOf(w, t', Create(Unknown(false)));
      err, id, ack := CreateStatus(pay, to);
      t' := t' + [Local(Create(ack))];
      if err { return true, t'; }

      failed, t' := SendAndStore(off, pay, id, to, ok, w, t');
    }

    /** The provider's call. */
    method CallProvider(off: nat, pay: Payload, id: MailId, to: string, ok: bool, ghost w: World, ghost t: seq<Event>)
      returns (ghost t': seq<Event>)
      requires Reached(w, t) && mail.consumer == Sending(off, pay, id, to)
      modifies this
      ensures Reached(w, t') && mail.consumer == Recording(off, pay, id, if ok then Sent else Failed)
      ensures mail.position == old(mail).position && mail.committed == old(mail).committed
                && mail.topics == old(mail).topics
      ensures HasRef(mail.rows, pay.ref)
      ensures mail.handlerSends == old(mail).handlerSends + [pay.ref]
      ensures calm ==> log == old(log) && mail.rows == old(mail).rows && mail.now == old(mail).now
      ensures calm ==> mail.delivered == old(mail).delivered + if ok then [Delivery(pay.ref, to)] else []
      ensures calm ==> mail.told == old(mail).told + if ok then [Says(pay, to)] else []
    {
      hide Inv, Run, HasRef;
      t' := Others(w, t);
      RowHasRef(View());
      StepOf(w, t', Send(ok));
      SendConfirmation(pay, id, to, ok);
      t' := t' + [Local(Send(ok))];
    }

    /** The record of the provider's answer. */
    method StoreOutcome(off: nat, pay: Payload, id: MailId, status: Status, ghost w: World, ghost t: seq<Event>)
      returns (failed: bool, ghost t': seq<Event>)
      requires Reached(w, t) && mail.consumer == Recording(off, pay, id, status) && HasRef(mail.rows, pay.ref)
      modifies this
      ensures Reached(w, t')
      ensures mail.position == old(mail).position && mail.committed == old(mail).committed
                && mail.topics == old(mail).topics
      ensures off in mail.verdicts && mail.handlerSends == old(mail).handlerSends
      ensures failed ==> mail.consumer == Reading && HandlerError in mail.verdicts[off]
      ensures !failed ==>
                mail.consumer == Committing(off) && Handled in mail.verdicts[off] && HasRef(mail.rows, pay.ref)
      ensures calm ==> !failed && log == old(log)
      ensures calm ==> mail.delivered == old(mail).delivered && mail.told == old(mail).told
      ensures calm && id in old(mail).rows ==>
                mail.rows == old(mail).rows[id :=
                    old(mail).rows[id].(status := status, lastAttempt := Some(old(mail).now))]
    {
      hide Inv, Run, HasRef;
      t' := Others(w, t);
      StepOf(w, t', Store(Acked));
      StepOf(w, t', Store(Unknown(true)));
      StepOf(w, t', Store(Unknown(false)));
      UpdateHasRef(mail, id, status);
      ghost var ack;
      failed, ack := StoreStatus(id, status);
      t' := t' + [Local(Store(ack))];
    }

    /** The provider's call and the record of its outcome. A failed send is recorded and still
        counts as handled. */
    method SendAndStore(off: nat, pay: Payload, id: MailId, to: string, ok: bool, ghost w: World, ghost t: seq<Event>)
      returns (failed: bool, ghost t': seq<Event>)
      requires Reached(w, t) && mail.consumer == Sending(off, pay, id, to)
      modifies this
      ensures Reached(w, t')
      ensures mail.position == old(mail).position && mail.committed == old(mail).committed
                && mail.topics == old(mail).topics
      ensures off in mail.verdicts
      ensures failed ==> mail.consumer == Reading && HandlerError in mail.verdicts[off]
      ensures !failed ==>
                mail.consumer == Committing(off) && Handled in mail.verdicts[off] && HasRef(mail.rows, pay.ref)
      ensures mail.handlerSends == old(mail).handlerSends + [pay.ref]
      ensures calm ==> !failed && log == old(log)
      ensures calm ==> mail.delivered == old(mail).delivered + if ok then [Delivery(pay.ref, to)] else []
      ensures calm ==> mail.told == old(mail).told + if ok then [Says(pay, to)] else []
      ensures calm && id in old(mail).rows ==>
                mail.rows == old(mail).rows[id :=
                    old(mail).rows[id].(status := if ok then Sent else Failed, lastAttempt := Some(old(mail).now))]
    {
      hide Inv, Run, HasRef;
      t' := CallProvider(off, pay, id, to, ok, w, t);
      failed, t' := StoreOutcome(off, pay, id, if ok then Sent else Failed, w, t');
    }

    lemma StepOf(w: World, t: seq<Event>, step: Step)
      requires Reached(w, t)
      ensures Inv(log, Next(log, mail, step)) && Run(w, t + [Local(step)]) == NextWorld(View(), Local(step))
    {
      hide Inv, Run, Next;
      EventKeepsInv(View(), Local(step));
      RunSnoc(w, t, Local(step));
    }

    /** Consume, for at most `n` messages: read, look up the handler, decode, dispatch,
        commit on nil. The commit may fail; the loop goes on in any case. */
    method Consume(n: nat, ghost w: World, ghost t: seq<Event>) returns (ghost t': seq<Event>)
      requires Reached(w, t) && mail.consumer == Reading
      modifies this
      ensures Reached(w, t') && mail.consumer == Reading
      ensures old(mail).committed <= mail.committed && old(mail).position <= mail.position
      ensures forall o :: old(mail).position <= o < mail.position ==>
                o < |log| && o in mail.verdicts && mail.verdicts[o] != {} && forall v :: v in mail.verdicts[o] ==>
                    VerdictOk(log, mail, o, v)
      ensures calm && old(mail).position <= |log| ==>
                log == old(log) && mail.position == Min(old(mail).position + n, |log|)
    {
      t' := t;
      var i := 0;
      while i < n
        invariant Reached(w, t') && mail.consumer == Reading
        invariant i <= n && old(mail).committed <= mail.committed && old(mail).position <= mail.position
        invariant calm && old(mail).position <= |log| ==>
                  log == old(log) && mail.position == Min(old(mail).position + i, |log|)
      {
        var world: Answers := *;
        t' := ConsumeOne(world, w, t');
        i := i + 1;
      }
      VerdictParts(log, mail);
    }

    /** One turn of the loop. */
    method ConsumeOne(world: Answers, ghost w: World, ghost t: seq<Event>) returns (ghost t': seq<Event>)
      requires Reached(w, t) && mail.consumer == Reading
      modifies this
      ensures Reached(w, t') && mail.consumer == Reading
      ensures old(mail).committed <= mail.committed && old(mail).position <= mail.position
      ensures calm ==> log == old(log) && mail.topics == old(mail).topics
      ensures calm && |log| <= old(mail).position ==> mail == old(mail)
      ensures calm && old(mail).position < |log| ==>
                && mail.position == old(mail).position + 1
                && var m := log[old(mail).position];
                   if m.topic in mail.topics && m.body.Purchased?
                      && (HasRef(old(mail).rows, m.body.payload.ref) || world.email.Some?)
                   then mail.committed == mail.position && HasRef(mail.rows, m.body.payload.ref)
                   else mail.committed == old(mail).committed && mail.rows == old(mail).rows
      ensures calm && old(mail).position < |log| ==>
                var m := log[old(mail).position];
                m.topic in mail.topics && m.body.Purchased? ==>
                  if HasRef(old(mail).rows, m.body.payload.ref)
                  then mail.rows == old(mail).rows && mail.delivered == old(mail).delivered
                  else world.email.Some? ==>
                    Recorded(old(mail), mail, m.body.payload, world.email.value, world.accepts)
    {
      hide Inv, Run, VerdictOk, HasRef;
      t' := Others(w, t);
      if |log| <= mail.position { return; }  // ReadMessage blocks
      StepOf(w, t', Read);
      var dispatched := ReadMessage();
      t' := t' + [Local(Read)];
      if !dispatched { return; }
      var Finding(off, pay) := mail.consumer;
      var failed;
      failed, t' := HandleTicketPurchased(off, pay, world, w, t');
      if failed { return; }
      t' := CommitMessage(off, w, t');
    }

    /** CommitMessage: the broker's answer may be lost. */
    method CommitMessage(off: nat, ghost w: World, ghost t: seq<Event>) returns (ghost t': seq<Event>)
      requires Reached(w, t) && mail.consumer == Committing(off)
      modifies this
      ensures Reached(w, t') && mail.consumer == Reading
      ensures mail.position == old(mail).position && mail.topics == old(mail).topics
                && old(mail).committed <= mail.committed
      ensures forall ref :: HasRef(mail.rows, ref) <==> HasRef(old(mail).rows, ref)
      ensures calm ==>
                log == old(log) && mail == old(mail).(consumer := Reading, committed := off + 1)
    {
      hide Inv, Run, HasRef;
      t' := Others(w, t);
      var ack: Ack := *;
      if calm { ack := Acked; }
      CommittedBelow(View());
      StepOf(w, t', CommitOffset(ack));
      CommitAtBroker(ack);
      t' := t' + [Local(CommitOffset(ack))];
    }
  }

  lemma RowHasRef(w: World)
    requires Inv(w.log, w.mail) && w.mail.consumer.Sending?
    ensures HasRef(w.mail.rows, w.mail.consumer.pay.ref)
  {
  }

  lemma CommittedBelow(w: World)
    requires Inv(w.log, w.mail) && w.mail.consumer.Committing?
    ensures w.mail.committed <= w.mail.consumer.off
  {
  }
}
