/** What the retry loop may do to a booking: whether "sent" is final, whether it is emailed
    again, and how its sends for one row are spread over time. */
module MailRetries {
  import opened Basics
  import opened MailModel
  import opened MailProofs

  // ---- Is "sent" final? ----

  predicate Queued(queue: seq<Record>, id: MailId) { exists i :: 0 <= i < |queue| && queue[i].id == id }

  /** Someone in flight may still write "failed" to the row: the handler has not yet stored
      the outcome of a send that can fail or failed, or the retry loop read the row while it
      was pending and is not done with it. */
  predicate MayStillFail(s: State, id: MailId) {
    || (s.consumer.Sending? && s.consumer.id == id)
    || (s.consumer.Recording? && s.consumer.id == id && s.consumer.status == Failed)
    || (!s.retrier.Sleeping? && Queued(s.retrier.queue, id))
    || (s.retrier.Updating? && s.retrier.id == id && s.retrier.status == Failed)
  }

  predicate OfRetrier(step: Step) {
    step.Poll? || step.RetryHead? || step.RetryRecord? || step.RetryDies?
  }

  /** What the consumer's steps leave alone. */
  lemma ConsumerFrame(log: seq<Message>, s: State, step: Step)
    requires !OfRetrier(step)
    ensures var s' := Next(log, s, step);
      && s'.retrier == s.retrier && s'.retrySends == s.retrySends
      && (!step.Create? && !step.Store? ==> s'.rows == s.rows)
      && (!step.Tick? ==> s'.now == s.now) && s.now <= s'.now
      && (step.Tick? ==> s'.consumer == s.consumer)
      && (!step.Send? ==> s'.delivered == s.delivered)
  {
    hide IsListing, DoRead, DoFind, DoFetch, DoCreate, DoSend, DoStore, DoCommitOffset, DoRetryHead, DoRetryRecord;
  }

  /** What the retry loop's steps leave alone. */
  lemma RetrierFrame(log: seq<Message>, s: State, step: Step)
    requires OfRetrier(step)
    ensures var s' := Next(log, s, step);
      && s'.consumer == s.consumer && s'.now == s.now
      && (!step.RetryRecord? ==> s'.rows == s.rows)
      && (!step.RetryHead? ==> s'.delivered == s.delivered && s'.retrySends == s.retrySends)
  {
    hide IsListing, DoRead, DoFind, DoFetch, DoCreate, DoSend, DoStore, DoCommitOffset, DoRetryHead, DoRetryRecord;
  }

  /** The consumer and the retry loop meet in the status table only. */
  lemma StepFrame(log: seq<Message>, s: State, step: Step)
    ensures var s' := Next(log, s, step);
      && (!step.Create? && !step.Store? && !step.RetryRecord? ==> s'.rows == s.rows)
      && (OfRetrier(step) || step.Tick? ==> s'.consumer == s.consumer)
      && (!OfRetrier(step) ==> s'.retrier == s.retrier)
      && (!step.RetryHead? ==> s'.retrySends == s.retrySends)
      && (!step.Send? && !step.RetryHead? ==> s'.delivered == s.delivered)
  {
    hide Next;
    if OfRetrier(step) { RetrierFrame(log, s, step); } else { ConsumerFrame(log, s, step); }
  }

  lemma StepKeepsStatus(log: seq<Message>, s: State, step: Step, id: MailId)
    requires Inv(log, s) && id in s.rows && s.rows[id].status == Sent && !MayStillFail(s, id)
    ensures var s' := Next(log, s, step); id in s'.rows && s'.rows[id].status == Sent
  {
    hide SendsOk, VerdictsOk, FromLog, HasRef, Queued, IsListing, DoRead, DoFind, DoFetch, DoSend, DoCommitOffset,
        DoRetryHead;
    StepFrame(log, s, step);
    assert RowOk(log, s, id);
  }

  /** Who may still fail the row, by the two loops. */
  predicate ConsumerMayFail(c: Consumer, id: MailId) {
    (c.Sending? && c.id == id) || (c.Recording? && c.id == id && c.status == Failed)
  }

  predicate RetrierMayFail(r: Retrier, id: MailId) {
    (!r.Sleeping? && Queued(r.queue, id)) || (r.Updating? && r.id == id && r.status == Failed)
  }

  lemma MayStillFailParts(s: State, id: MailId)
    ensures MayStillFail(s, id) <==> ConsumerMayFail(s.consumer, id) || RetrierMayFail(s.retrier, id)
  {
    hide Queued;
  }

  lemma ConsumerKeepsSettled(log: seq<Message>, s: State, step: Step, id: MailId)
    requires id in s.rows && id < s.nextId && !ConsumerMayFail(s.consumer, id) && !OfRetrier(step)
    ensures !ConsumerMayFail(Next(log, s, step).consumer, id)
  {
    hide HasRef;
  }

  lemma RetrierKeepsSettled(log: seq<Message>, s: State, step: Step, id: MailId)
    requires id in s.rows && s.rows[id].status == Sent && !RetrierMayFail(s.retrier, id) && OfRetrier(step)
    ensures !RetrierMayFail(Next(log, s, step).retrier, id)
  {
    if step.RetryHead? && s.retrier.Working? && s.retrier.queue != [] {
      assert s.retrier.queue[0].id != id;
      assert forall i :: 0 <= i < |s.retrier.queue[1..]| ==> s.retrier.queue[1..][i] == s.retrier.queue[i + 1];
    }
  }

  lemma StepKeepsSettled(log: seq<Message>, s: State, step: Step, id: MailId)
    requires Inv(log, s) && id in s.rows && s.rows[id].status == Sent && !MayStillFail(s, id)
    ensures !MayStillFail(Next(log, s, step), id)
  {
    hide Next, MayStillFail, ConsumerMayFail, RetrierMayFail, SendsOk, VerdictsOk, ConsumerOk, RetrierOk, FromLog;
    assert RowOk(log, s, id);
    MayStillFailParts(s, id);
    MayStillFailParts(Next(log, s, step), id);
    StepFrame(log, s, step);
    if OfRetrier(step) {
      RetrierKeepsSettled(log, s, step, id);
    } else {
      ConsumerKeepsSettled(log, s, step, id);
    }
  }

  lemma {:induction false} SentStays(w: World, events: seq<Event>, id: MailId)
    requires Inv(w.log, w.mail) && id in w.mail.rows && w.mail.rows[id].status == Sent && !MayStillFail(w.mail, id)
    ensures var s := Run(w, events).mail; id in s.rows && s.rows[id].status == Sent
    decreases |events|
  {
    hide Inv, Next, MayStillFail;
    if events != [] {
      EventKeepsInv(w, events[0]);
      if events[0].Local? {
        StepKeepsStatus(w.log, w.mail, events[0].step, id);
        StepKeepsSettled(w.log, w.mail, events[0].step, id);
      }
      SentStays(NextWorld(w, events[0]), events[1..], id);
    }
  }

  function StatusAfter(w: World, events: seq<Event>, id: MailId): Option<Status> {
    var s := Run(w, events).mail;
    if id in s.rows then Some(s.rows[id].status) else None
  }

  // ---- Driving the retry loop ----

  function Emails(delivered: seq<Delivery>, ref: string): nat {
    if delivered == [] then 0
    else
      var n := |delivered| - 1;
      Emails(delivered[..n], ref) + if delivered[n].ref == ref then 1 else 0
  }

  lemma {:induction false} EmailsGrow(a: seq<Delivery>, b: seq<Delivery>, ref: string)
    requires a <= b
    ensures Emails(a, ref) <= Emails(b, ref)
  {
    if |a| < |b| {
      EmailsGrow(a, b[..|b| - 1], ref);
    } else {
      assert a == b;
    }
  }

  /** What no step takes back: rows and their bookings, deliveries, and the retry loop's sends. */
  ghost predicate Grows(s: State, s': State) {
    && s.delivered <= s'.delivered
    && (forall id :: Retries(s, id) <= Retries(s', id))
    && (forall id :: id in s.rows ==> id in s'.rows && s'.rows[id].ref == s.rows[id].ref)
  }

  lemma DeliveredGrows(log: seq<Message>, s: State, step: Step)
    ensures s.delivered <= Next(log, s, step).delivered
  {
    hide HasRef, IsListing, DoRead, DoFind, DoFetch, DoCreate, DoStore, DoCommitOffset, DoRetryRecord;
    if !step.Send? && !step.RetryHead? { StepFrame(log, s, step); }
  }

  lemma RetriesGrow(log: seq<Message>, s: State, step: Step, id: MailId)
    ensures Retries(s, id) <= Retries(Next(log, s, step), id)
  {
    hide IsListing, DoRead, DoFind, DoFetch, DoCreate, DoStore;
    if !step.RetryHead? { StepFrame(log, s, step); }
  }

  lemma RowsGrow(log: seq<Message>, s: State, step: Step, id: MailId)
    requires id in s.rows && id < s.nextId
    ensures var s' := Next(log, s, step); id in s'.rows && s'.rows[id].ref == s.rows[id].ref
  {
    hide HasRef, IsListing, DoRead, DoFind, DoFetch, DoSend, DoCommitOffset, DoRetryHead;
    StepFrame(log, s, step);
  }

  lemma EventGrows(w: World, event: Event)
    requires Inv(w.log, w.mail)
    ensures Grows(w.mail, NextWorld(w, event).mail)
  {
    hide SendsOk, ConsumerOk, VerdictsOk, RetrierOk, FromLog, Next;
    if event.Local? {
      DeliveredGrows(w.log, w.mail, event.step);
      forall id ensures Retries(w.mail, id) <= Retries(NextWorld(w, event).mail, id) {
        RetriesGrow(w.log, w.mail, event.step, id);
      }
      forall id | id in w.mail.rows
        ensures id in NextWorld(w, event).mail.rows && NextWorld(w, event).mail.rows[id].ref == w.mail.rows[id].ref
      {
        assert RowOk(w.log, w.mail, id);
        RowsGrow(w.log, w.mail, event.step, id);
      }
    }
  }

  /** The retry loop has called the provider for row `id` with the answer `ok` and stored it. */
  ghost predicate Tried(w: World, w': World, id: MailId, ok: bool) {
    && Grows(w.mail, w'.mail) && Inv(w'.log, w'.mail)
    && id in w.mail.rows && id in w'.mail.rows
    && w'.mail.rows[id].status == (if ok then Sent else Failed)
    && |Retries(w.mail, id)| < |Retries(w'.mail, id)|
    && (ok ==> Emails(w.mail.delivered, w.mail.rows[id].ref) < Emails(w'.mail.delivered, w.mail.rows[id].ref))
  }

  lemma TriedLater(w: World, w1: World, w': World, id: MailId, ok: bool)
    requires Grows(w.mail, w1.mail) && Tried(w1, w', id, ok) && id in w.mail.rows
    ensures Tried(w, w', id, ok)
  {
    hide Inv;
    EmailsGrow(w.mail.delivered, w1.mail.delivered, w.mail.rows[id].ref);
    assert |Retries(w.mail, id)| <= |Retries(w1.mail, id)|;
  }

  /** One event more in front of a run that tries the row. */
  lemma TriedAfter(w: World, event: Event, events: seq<Event>, id: MailId, ok: bool)
    requires Inv(w.log, w.mail) && id in w.mail.rows
              && Tried(NextWorld(w, event), Run(NextWorld(w, event), events), id, ok)
    ensures Tried(w, Run(w, [event] + events), id, ok)
  {
    hide Inv, NextWorld, Tried, Grows;
    EventGrows(w, event);
    RunCons(w, event, events);
    TriedLater(w, NextWorld(w, event), Run(NextWorld(w, event), events), id, ok);
  }

  /** The seconds until the first rung of a record has passed. */
  function Wait(s: State, row: Row): nat {
    if row.lastAttempt.Some? && s.now < row.lastAttempt.value + 60 then row.lastAttempt.value + 60 - s.now else 0
  }

  lemma HeadIsTried(w: World, ok: bool)
    requires Inv(w.log, w.mail) && w.mail.retrier.Working? && w.mail.retrier.queue != []
    ensures var Record(id, row) := w.mail.retrier.queue[0];
      var w1 := NextWorld(w, Local(Tick(Wait(w.mail, row))));
      var w2 := NextWorld(w1, Local(RetryHead(ok)));
      Tried(w, NextWorld(w2, Local(RetryRecord(Acked))), id, ok)
  {
    hide Inv, NextWorld, Tried;
    HeadFacts(w.log, w.mail);
    var Record(id, row) := w.mail.retrier.queue[0];
    var w1 := NextWorld(w, Local(Tick(Wait(w.mail, row))));
    EventKeepsInv(w, Local(Tick(Wait(w.mail, row))));
    WaitPasses(w);
    var w2 := NextWorld(w1, Local(RetryHead(ok)));
    EventKeepsInv(w1, Local(RetryHead(ok)));
    var w3 := NextWorld(w2, Local(RetryRecord(Acked)));
    EventKeepsInv(w2, Local(RetryRecord(Acked)));
    DueIsTried(w1, ok);
    EventGrows(w, Local(Tick(Wait(w.mail, row))));
    TriedLater(w, w1, w3, id, ok);
  }

  /** The record at the head of the queue was last attempted a minute ago, or never. */
  predicate Due(s: State) {
    && s.retrier.Working? && s.retrier.queue != []
    && var row := s.retrier.queue[0].row;
       row.lastAttempt.Some? ==> row.lastAttempt.value + 60 <= s.now
  }

  lemma WaitPasses(w: World)
    requires w.mail.retrier.Working? && w.mail.retrier.queue != []
    ensures var w1 := NextWorld(w, Local(Tick(Wait(w.mail, w.mail.retrier.queue[0].row))));
      Due(w1.mail) && w1.mail.retrier == w.mail.retrier && w1.mail.rows == w.mail.rows
  {
  }

  lemma DueIsTried(w: World, ok: bool)
    requires Inv(w.log, w.mail) && Due(w.mail)
    ensures var id := w.mail.retrier.queue[0].id;
      Tried(w, NextWorld(NextWorld(w, Local(RetryHead(ok))), Local(RetryRecord(Acked))), id, ok)
  {
    hide Inv;
    HeadFacts(w.log, w.mail);
    var Record(id, row) := w.mail.retrier.queue[0];
    EventKeepsInv(w, Local(RetryHead(ok)));
    var w2 := NextWorld(w, Local(RetryHead(ok)));
    EventKeepsInv(w2, Local(RetryRecord(Acked)));
    assert w2.mail.retrier == Updating(id, if ok then Sent else Failed, w.mail.retrier.queue[1..]);
    EventGrows(w, Local(RetryHead(ok)));
    var w3 := NextWorld(w2, Local(RetryRecord(Acked)));
    assert w3.mail.delivered == w2.mail.delivered && w3.mail.retrySends == w2.mail.retrySends;
    if ok {
      assert w2.mail.delivered[..|w2.mail.delivered| - 1] == w.mail.delivered;
    }
  }

  /** No record of row `id` in the queue is due later than at `due`. */
  predicate DueBy(queue: seq<Record>, id: MailId, due: int) {
    forall i :: 0 <= i < |queue| && queue[i].id == id && queue[i].row.lastAttempt.Some? ==>
      queue[i].row.lastAttempt.value + 60 <= due
  }

  lemma {:induction false} SomeDue(queue: seq<Record>, id: MailId, now: int) returns (due: int)
    ensures now <= due && DueBy(queue, id, due)
  {
    due := now;
    if queue != [] {
      due := SomeDue(queue[1..], id, now);
      var row := queue[0].row;
      if row.lastAttempt.Some? && due < row.lastAttempt.value + 60 { due := row.lastAttempt.value + 60; }
      assert forall i :: 1 <= i < |queue| ==> queue[i] == queue[1..][i - 1];
    }
  }

  /** The retry loop reaches the record and sends, no later than it is due. */
  lemma {:induction false} QueuedIsTried(w: World, id: MailId, ok: bool, due: int) returns (events: seq<Event>)
    requires Inv(w.log, w.mail) && w.mail.retrier.Working? && Queued(w.mail.retrier.queue, id) && id in w.mail.rows
    requires DueBy(w.mail.retrier.queue, id, due) && w.mail.now <= due
    ensures Tried(w, Run(w, events), id, ok) && Run(w, events).mail.now <= due
    decreases |w.mail.retrier.queue|
  {
    hide Inv, Run, Tried;
    var queue := w.mail.retrier.queue;
    if queue[0].id == id {
      HeadIsTried(w, ok);
      events := [Local(Tick(Wait(w.mail, queue[0].row))), Local(RetryHead(ok)), Local(RetryRecord(Acked))];
      RunThree(w, events);
      HeadPasses(w, ok);
    } else {
      QueuedTail(queue, id);
      EventKeepsInv(w, Local(RetryHead(false)));
      EventGrows(w, Local(RetryHead(false)));
      var w1 := NextWorld(w, Local(RetryHead(false)));
      if w1.mail.retrier.Working? {
        events := QueuedIsTried(w1, id, ok, due);
      } else {
        EventKeepsInv(w1, Local(RetryRecord(Acked)));
        EventGrows(w1, Local(RetryRecord(Acked)));
        events := QueuedIsTried(NextWorld(w1, Local(RetryRecord(Acked))), id, ok, due);
        TriedAfter(w1, Local(RetryRecord(Acked)), events, id, ok);
        RunCons(w1, Local(RetryRecord(Acked)), events);
        events := [Local(RetryRecord(Acked))] + events;
      }
      TriedAfter(w, Local(RetryHead(false)), events, id, ok);
      RunCons(w, Local(RetryHead(false)), events);
      events := [Local(RetryHead(false))] + events;
    }
  }

  /** Trying the head of the queue takes as long as it is not due. */
  lemma HeadPasses(w: World, ok: bool)
    requires w.mail.retrier.Working? && w.mail.retrier.queue != []
    ensures var wait := Wait(w.mail, w.mail.retrier.queue[0].row);
      var w3 := NextWorld(NextWorld(NextWorld(w, Local(Tick(wait))), Local(RetryHead(ok))), Local(RetryRecord(Acked)));
      w3.mail.now == w.mail.now + wait
  {
  }

  lemma HeadFacts(log: seq<Message>, s: State)
    requires Inv(log, s) && s.retrier.Working? && s.retrier.queue != []
    ensures RecordOk(s, s.retrier.queue[0])
  {
    RetrierParts(log, s);
    assert RecordOk(s, s.retrier.queue[0]);
  }

  lemma QueuedTail(queue: seq<Record>, id: MailId)
    requires Queued(queue, id) && queue[0].id != id
    ensures Queued(queue[1..], id)
  {
    var i :| 0 <= i < |queue| && queue[i].id == id;
    assert queue[1..][i - 1] == queue[i];
  }

  lemma UpdatingKeepsRow(w: World, id: MailId)
    requires id in w.mail.rows
    ensures id in NextWorld(w, Local(RetryRecord(Acked))).mail.rows
  {
  }

  /** Whoever may still write "failed" can be driven to do so. */
  lemma CanFail(w: World, id: MailId) returns (events: seq<Event>)
    requires Inv(w.log, w.mail) && id in w.mail.rows && MayStillFail(w.mail, id)
    ensures StatusAfter(w, events, id) == Some(Failed)
  {
    hide Inv, Run, Grows;
    var s := w.mail;
    if s.consumer.Sending? && s.consumer.id == id {
      var w1 := NextWorld(w, Local(Send(false)));
      RunCons(w, Local(Send(false)), [Local(Store(Acked))]);
      RunCons(w1, Local(Store(Acked)), []);
      RunEmpty(NextWorld(w1, Local(Store(Acked))));
      events := [Local(Send(false))] + ([Local(Store(Acked))] + []);
      assert [Local(Store(Acked))] + [] == [Local(Store(Acked))];
    } else if s.consumer.Recording? && s.consumer.id == id && s.consumer.status == Failed {
      RunCons(w, Local(Store(Acked)), []);
      RunEmpty(NextWorld(w, Local(Store(Acked))));
      events := [Local(Store(Acked))] + [];
    } else if s.retrier.Updating? && s.retrier.id == id && s.retrier.status == Failed {
      RunCons(w, Local(RetryRecord(Acked)), []);
      RunEmpty(NextWorld(w, Local(RetryRecord(Acked))));
      events := [Local(RetryRecord(Acked))] + [];
    } else if s.retrier.Updating? {
      EventKeepsInv(w, Local(RetryRecord(Acked)));
      EventGrows(w, Local(RetryRecord(Acked)));
      UpdatingKeepsRow(w, id);
      var due := SomeDue(NextWorld(w, Local(RetryRecord(Acked))).mail.retrier.queue, id, w.mail.now);
      events := QueuedIsTried(NextWorld(w, Local(RetryRecord(Acked))), id, false, due);
      RunCons(w, Local(RetryRecord(Acked)), events);
      events := [Local(RetryRecord(Acked))] + events;
    } else {
      var due := SomeDue(w.mail.retrier.queue, id, w.mail.now);
      events := QueuedIsTried(w, id, false, due);
    }
  }

  /** Main result: exactly when "sent" is final. A sent row stays sent in every continuation
      if and only if nobody in flight may still write "failed" to it. */
  lemma SentIsFinalExactly(init: World, past: seq<Event>, id: MailId)
    requires Initial(init.mail) && StatusAfter(init, past, id) == Some(Sent)
    ensures var w := Run(init, past);
      (forall events: seq<Event> :: StatusAfter(w, events, id) == Some(Sent)) <==> !MayStillFail(w.mail, id)
  {
    hide Inv, Run, MayStillFail;
    var w := Run(init, past);
    InitialInv(init.log, init.mail);
    RunKeepsInv(init, past);
    if MayStillFail(w.mail, id) {
      var events := CanFail(w, id);
      assert StatusAfter(w, events, id) != Some(Sent);
    } else {
      forall events: seq<Event> ensures StatusAfter(w, events, id) == Some(Sent) {
        SentStays(w, events, id);
      }
    }
  }

  // ---- Two runs that the documentation does not expect ----

  /** The retry loop picks up the pending row while the handler is still sending: its send
      succeeds and the row becomes sent; then the handler's send fails and overwrites it. */
  lemma SentCanBeOverwritten(w: World, pay: Payload, to: string) returns (past: seq<Event>, more: seq<Event>)
    requires Initial(w.mail) && w.log == [Message("ticket.purchased", Purchased(pay))]
              && "ticket.purchased" in w.mail.topics
    ensures StatusAfter(w, past, w.mail.nextId) == Some(Sent)
    ensures StatusAfter(w, past + more, w.mail.nextId) == Some(Failed)
  {
    hide Run;
    var id := w.mail.nextId;
    var w4 := CreateRow(w, pay, to);
    var w7 := RetrySends(w4, pay, to, id);
    var creating := [Local(Read), Local(Find(false)), Local(Fetch(Some(to))), Local(Create(Acked))];
    var retrying := [Local(Poll([id])), Local(RetryHead(true)), Local(RetryRecord(Acked))];
    past := creating + retrying;
    RunThree(w4, retrying);
    RunAppend(w, creating, retrying);
    InitialInv(w.log, w.mail);
    RunKeepsInv(w, past);
    more := CanFail(w7, id);
    RunAppend(w, past, more);
  }

  /** The retry loop's send succeeds while the handler's is still to come. */
  lemma RetrySends(w4: World, pay: Payload, to: string, id: MailId) returns (w7: World)
    requires w4.mail.retrier.Sleeping? && w4.mail.consumer == Sending(0, pay, id, to)
    requires w4.mail.rows == map[id := Row(pay.ref, pay.user, to, Pending, 0, None)]
    ensures w7 == NextWorld(NextWorld(NextWorld(w4, Local(Poll([id]))), Local(RetryHead(true))),
                            Local(RetryRecord(Acked)))
    ensures id in w7.mail.rows && w7.mail.rows[id].status == Sent && w7.mail.consumer == Sending(0, pay, id, to)
    ensures MayStillFail(w7.mail, id)
  {
    hide NextWorld, MayStillFail;
    var w5 := PolledRow(w4, id);
    var w6 := HeadSent(w5, id);
    w7 := NextWorld(w6, Local(RetryRecord(Acked)));
    SendStored(w6, pay, to, id);
  }

  lemma PolledRow(w: World, id: MailId) returns (w': World)
    requires w.mail.retrier.Sleeping? && w.mail.rows.Keys == {id} && w.mail.rows[id].status == Pending
    ensures w' == NextWorld(w, Local(Poll([id])))
    ensures w'.log == w.log && w'.mail == w.mail.(retrier := Working([Record(id, w.mail.rows[id])]))
  {
    w' := NextWorld(w, Local(Poll([id])));
    assert IsListing(w.mail.rows, [id]);
    assert RecordsOf(w.mail.rows, [id]) == [Record(id, w.mail.rows[id])];
  }

  lemma HeadSent(w: World, id: MailId) returns (w': World)
    requires id in w.mail.rows && w.mail.retrier == Working([Record(id, w.mail.rows[id])])
    requires w.mail.rows[id].retryCount == 0 && w.mail.rows[id].lastAttempt.None?
    ensures w' == NextWorld(w, Local(RetryHead(true)))
    ensures w'.mail.rows == w.mail.rows && w'.mail.consumer == w.mail.consumer
    ensures w'.mail.retrier == Updating(id, Sent, [])
  {
    hide RecordsOf;
    w' := NextWorld(w, Local(RetryHead(true)));
    assert [Record(id, w.mail.rows[id])][1..] == [];
  }

  lemma SendStored(w: World, pay: Payload, to: string, id: MailId)
    requires id in w.mail.rows && w.mail.retrier == Updating(id, Sent, []) && w.mail.consumer == Sending(0, pay, id, to)
    ensures var w' := NextWorld(w, Local(RetryRecord(Acked)));
      && id in w'.mail.rows && w'.mail.rows[id].status == Sent && w'.mail.consumer == w.mail.consumer
      && MayStillFail(w'.mail, id)
  {
  }

  lemma CreateRow(w: World, pay: Payload, to: string) returns (w4: World)
    requires Initial(w.mail) && w.log == [Message("ticket.purchased", Purchased(pay))]
              && "ticket.purchased" in w.mail.topics
    ensures w4 == Run(w, [Local(Read), Local(Find(false)), Local(Fetch(Some(to))), Local(Create(Acked))])
    ensures w4.log == w.log && w4.mail.retrier.Sleeping? && w4.mail.consumer == Sending(0, pay, w.mail.nextId, to)
    ensures w4.mail.rows == map[w.mail.nextId := Row(pay.ref, pay.user, to, Pending, 0, None)]
    ensures w4.mail.delivered == [] && w4.mail.retrySends == map[] && w4.mail.now == w.mail.now
  {
    hide Run;
    var w1 := NextWorld(w, Local(Read));
    var w2 := NextWorld(w1, Local(Find(false)));
    var w3 := NextWorld(w2, Local(Fetch(Some(to))));
    w4 := NextWorld(w3, Local(Create(Acked)));
    RunThree(w, [Local(Read), Local(Find(false)), Local(Fetch(Some(to)))]);
    RunAppend(w, [Local(Read), Local(Find(false)), Local(Fetch(Some(to)))], [Local(Create(Acked))]);
    RunCons(w3, Local(Create(Acked)), []);
    RunEmpty(w4);
    assert [Local(Read), Local(Find(false)), Local(Fetch(Some(to)))] + [Local(Create(Acked))]
        == [Local(Read), Local(Find(false)), Local(Fetch(Some(to))), Local(Create(Acked))];
    assert [Local(Create(Acked))] + [] == [Local(Create(Acked))];
  }

  // ---- Is a booking emailed again? ----

  lemma {:induction false} FirstInOrder(rows: map<MailId, Row>, ids: set<MailId>) returns (m: MailId)
    requires ids != {} && ids <= rows.Keys
    ensures m in ids && forall i :: i in ids ==> Before(rows[m], rows[i])
    decreases ids
  {
    m :| m in ids;
    if ids != {m} {
      var first := FirstInOrder(rows, ids - {m});
      assert forall i :: i in ids ==> i == m || i in ids - {m};
      if !Before(rows[m], rows[first]) { m := first; }
    }
  }

  /** The query has an answer, whatever the table holds. */
  lemma {:induction false} InOrder(rows: map<MailId, Row>, ids: set<MailId>) returns (order: seq<MailId>)
    requires ids <= rows.Keys
    ensures forall i :: i in ids <==> i in order
    ensures forall i, j :: 0 <= i < j < |order| ==>
              order[i] != order[j] && order[i] in rows && order[j] in rows && Before(rows[order[i]], rows[order[j]])
    decreases ids
  {
    if ids == {} {
      order := [];
    } else {
      var m := FirstInOrder(rows, ids);
      var rest := InOrder(rows, ids - {m});
      assert forall i :: 0 <= i < |rest| ==> rest[i] in rest;
      order := [m] + rest;
    }
  }

  lemma ListingExists(rows: map<MailId, Row>) returns (order: seq<MailId>)
    ensures IsListing(rows, order)
  {
    var pending := set id | id in rows && IsPending(rows[id]);
    order := InOrder(rows, pending);
    assert forall i :: 0 <= i < |order| ==> order[i] in order;
  }

  /** A row that is not sent can be tried again a minute after its last attempt, or at once if
      that has passed: restart the loop and poll. */
  lemma PendingIsTried(w: World, id: MailId, ok: bool) returns (events: seq<Event>)
    requires Inv(w.log, w.mail) && id in w.mail.rows && IsPending(w.mail.rows[id])
    ensures Tried(w, Run(w, events), id, ok)
    ensures var last := w.mail.rows[id].lastAttempt;
      Run(w, events).mail.now <= if last.Some? && w.mail.now < last.value + 60 then last.value + 60 else w.mail.now
  {
    hide Inv, Run, Tried, IsListing;
    var due := w.mail.now + Wait(w.mail, w.mail.rows[id]);
    var order := ListingExists(w.mail.rows);
    var w1 := NextWorld(w, Local(RetryDies));
    EventKeepsInv(w, Local(RetryDies));
    var w2 := NextWorld(w1, Local(Poll(order)));
    EventKeepsInv(w1, Local(Poll(order)));
    PollQueues(w1, order, id);
    events := QueuedIsTried(w2, id, ok, due);
    TriedAfter(w1, Local(Poll(order)), events, id, ok);
    RunCons(w1, Local(Poll(order)), events);
    RunCons(w, Local(RetryDies), [Local(Poll(order))] + events);
    events := [Local(Poll(order))] + events;
    TriedAfter(w, Local(RetryDies), events, id, ok);
    events := [Local(RetryDies)] + events;
  }

  lemma PollQueues(w: World, order: seq<MailId>, id: MailId)
    requires w.mail.retrier.Sleeping? && IsListing(w.mail.rows, order) && id in w.mail.rows
              && IsPending(w.mail.rows[id])
    ensures var w' := NextWorld(w, Local(Poll(order)));
      && w'.mail.retrier.Working? && Queued(w'.mail.retrier.queue, id) && w'.mail.rows == w.mail.rows
      && w'.mail.now == w.mail.now && DueBy(w'.mail.retrier.queue, id, w.mail.now + Wait(w.mail, w.mail.rows[id]))
  {
    var i :| 0 <= i < |order| && order[i] == id;
    assert RecordsOf(w.mail.rows, order)[i].id == id;
  }

  /** FindPendingRetries: a poll reads every pending or failed row once, as it is stored, those
      never attempted first and then those whose last attempt is longest ago. */
  lemma PollReadsOldestFirst(log: seq<Message>, s: State, order: seq<MailId>)
    requires Enabled(log, s, Poll(order))
    ensures var retrier := Next(log, s, Poll(order)).retrier;
      && retrier.Working?
      && var queue := retrier.queue;
         && (forall i :: 0 <= i < |queue| ==> queue[i].id in s.rows && queue[i].row == s.rows[queue[i].id])
         && (forall i, j :: 0 <= i < j < |queue| ==>
               && queue[i].id != queue[j].id
               && (queue[j].row.lastAttempt.None? ==> queue[i].row.lastAttempt.None?)
               && (queue[i].row.lastAttempt.Some? && queue[j].row.lastAttempt.Some? ==>
                     queue[i].row.lastAttempt.value <= queue[j].row.lastAttempt.value))
         && forall id :: id in s.rows ==>
              (s.rows[id].status == Pending || s.rows[id].status == Failed <==> Queued(queue, id))
  {
    var queue := RecordsOf(s.rows, order);
    forall id | id in s.rows
      ensures s.rows[id].status == Pending || s.rows[id].status == Failed <==> Queued(queue, id)
    {
      if IsPending(s.rows[id]) {
        var i :| 0 <= i < |order| && order[i] == id;
        assert queue[i].id == id;
      }
    }
  }

  /** The booking's row is sent and nobody in flight may still fail it. */
  predicate Settled(s: State, id: MailId) {
    id in s.rows && s.rows[id].status == Sent && !MayStillFail(s, id)
  }

  lemma StepKeepsEmails(log: seq<Message>, s: State, step: Step, id: MailId)
    requires Inv(log, s) && Settled(s, id)
    ensures Emails(Next(log, s, step).delivered, s.rows[id].ref) == Emails(s.delivered, s.rows[id].ref)
  {
    hide VerdictsOk, FromLog, HasRef, IsListing, DoRead, DoFind, DoFetch, DoCreate, DoStore, DoCommitOffset;
    var s' := Next(log, s, step);
    if s'.delivered != s.delivered {
      StepFrame(log, s, step);
      var n := |s'.delivered| - 1;
      assert s'.delivered[..n] == s.delivered;
      if step.RetryHead? {
        assert RecordOk(s, s.retrier.queue[0]);
        assert s.retrier.queue[0].id != id;
      }
    }
  }

  lemma {:induction false} SettledIsQuiet(w: World, events: seq<Event>, id: MailId)
    requires Inv(w.log, w.mail) && Settled(w.mail, id)
    ensures Emails(Run(w, events).mail.delivered, w.mail.rows[id].ref) == Emails(w.mail.delivered, w.mail.rows[id].ref)
    decreases |events|
  {
    hide Inv, Next, MayStillFail, Grows;
    if events != [] {
      var w1 := NextWorld(w, events[0]);
      EventKeepsInv(w, events[0]);
      RefStays(w, events[0], id);
      if events[0].Local? {
        StepKeepsStatus(w.log, w.mail, events[0].step, id);
        StepKeepsSettled(w.log, w.mail, events[0].step, id);
        StepKeepsEmails(w.log, w.mail, events[0].step, id);
      }
      SettledIsQuiet(w1, events[1..], id);
    }
  }

  lemma RefStays(w: World, event: Event, id: MailId)
    requires Inv(w.log, w.mail) && id in w.mail.rows
    ensures var s := NextWorld(w, event).mail; id in s.rows && s.rows[id].ref == w.mail.rows[id].ref
  {
    hide Inv, NextWorld;
    EventGrows(w, event);
  }

  lemma UnsettledIsEmailed(w: World, id: MailId) returns (events: seq<Event>)
    requires Inv(w.log, w.mail) && id in w.mail.rows && !Settled(w.mail, id)
    ensures Emails(w.mail.delivered, w.mail.rows[id].ref) < Emails(Run(w, events).mail.delivered, w.mail.rows[id].ref)
  {
    hide Inv, Run, MayStillFail, Grows;
    if w.mail.rows[id].status == Sent {
      var failing := CanFail(w, id);
      var w1 := Run(w, failing);
      RunKeepsInv(w, failing);
      RunGrows(w, failing);
      GrowsParts(w, w1, id);
      var more := PendingIsTried(w1, id, true);
      RunAppend(w, failing, more);
      events := failing + more;
    } else {
      NotDead(w, id);
      events := PendingIsTried(w, id, true);
    }
  }

  lemma GrowsParts(w: World, w1: World, id: MailId)
    requires Grows(w.mail, w1.mail) && id in w.mail.rows
    ensures id in w1.mail.rows && w1.mail.rows[id].ref == w.mail.rows[id].ref
    ensures Emails(w.mail.delivered, w.mail.rows[id].ref) <= Emails(w1.mail.delivered, w.mail.rows[id].ref)
    ensures Retries(w.mail, id) <= Retries(w1.mail, id)
  {
    EmailsGrow(w.mail.delivered, w1.mail.delivered, w.mail.rows[id].ref);
  }

  lemma {:induction false} RunGrows(w: World, events: seq<Event>)
    requires Inv(w.log, w.mail)
    ensures Grows(w.mail, Run(w, events).mail)
    decreases |events|
  {
    hide Inv, NextWorld;
    if events != [] {
      EventKeepsInv(w, events[0]);
      EventGrows(w, events[0]);
      RunGrows(NextWorld(w, events[0]), events[1..]);
    }
  }

  lemma NotDead(w: World, id: MailId)
    requires Inv(w.log, w.mail) && id in w.mail.rows
    ensures w.mail.rows[id].status != Dead
  {
    hide SendsOk, ConsumerOk, VerdictsOk, RetrierOk, FromLog;
    assert RowOk(w.log, w.mail, id);
  }

  /** Main result, exactly when a booking gets no further email: once it has its row, no
      continuation delivers to it again if and only if the row is sent and nobody in flight
      may still write "failed" to it. */
  lemma NoFurtherEmailExactly(init: World, past: seq<Event>, id: MailId)
    requires Initial(init.mail) && id in Run(init, past).mail.rows
    ensures var w := Run(init, past);
      var ref := w.mail.rows[id].ref;
      (forall events: seq<Event> :: Emails(Run(w, events).mail.delivered, ref) == Emails(w.mail.delivered, ref)) <==>
          Settled(w.mail, id)
  {
    hide Inv, Run, Settled;
    var w := Run(init, past);
    var ref := w.mail.rows[id].ref;
    InitialInv(init.log, init.mail);
    RunKeepsInv(init, past);
    if Settled(w.mail, id) {
      forall events: seq<Event> ensures Emails(Run(w, events).mail.delivered, ref) == Emails(w.mail.delivered, ref) {
        SettledIsQuiet(w, events, id);
      }
    } else {
      var events := UnsettledIsEmailed(w, id);
      assert Emails(Run(w, events).mail.delivered, ref) != Emails(w.mail.delivered, ref);
    }
  }

  // ---- The retry loop's sends for one row ----

  /** Main result: their number has no bound. A row that is not sent can be tried any number
      of times, since its retry count stays 0. */
  lemma {:induction false} RetriesAreUnbounded(w: World, id: MailId, n: nat) returns (events: seq<Event>)
    requires Inv(w.log, w.mail) && id in w.mail.rows && IsPending(w.mail.rows[id])
    ensures |Retries(w.mail, id)| + n <= |Retries(Run(w, events).mail, id)|
    decreases n
  {
    hide Inv, Run, Grows;
    if n == 0 {
      events := [];
      RunEmpty(w);
    } else {
      var once := PendingIsTried(w, id, false);
      var w1 := Run(w, once);
      var more := RetriesAreUnbounded(w1, id, n - 1);
      RunAppend(w, once, more);
      events := once + more;
    }
  }

  ghost predicate MinuteApart(sends: seq<int>) {
    forall i :: 0 <= i < |sends| - 1 ==> sends[i] + 60 <= sends[i + 1]
  }

  lemma MinuteApartMore(sends: seq<int>, now: int)
    ensures MinuteApart(sends + [now]) <==> MinuteApart(sends) && (sends != [] ==> sends[|sends| - 1] + 60 <= now)
  {
    var more := sends + [now];
    assert forall i :: 0 <= i < |sends| ==> more[i] == sends[i];
    if MinuteApart(more) {
      assert forall i :: 0 <= i < |sends| - 1 ==> more[i] + 60 <= more[i + 1];
      if sends != [] { assert more[|sends| - 1] + 60 <= more[|sends|]; }
    }
  }

  predicate AfterLast(sends: seq<int>, lastAttempt: Option<int>) {
    sends != [] ==> lastAttempt.Some? && sends[|sends| - 1] <= lastAttempt.value
  }

  /** processRetry on the head of the queue: it sends once the first rung has passed, or not. */
  lemma HeadEffect(s: State, ok: bool)
    requires s.retrier.Working? && s.retrier.queue != [] && s.retrier.queue[0].row.retryCount == 0
    ensures var s' := DoRetryHead(s, ok);
      var Record(id, row) := s.retrier.queue[0];
      && !s'.retrier.Sleeping? && s'.retrier.queue == s.retrier.queue[1..]
          && (s'.retrier.Updating? ==> s'.retrier.id == id)
      && s'.rows == s.rows && s'.now == s.now
      && (forall i :: i != id ==> Retries(s', i) == Retries(s, i))
      && Retries(s', id) == (if Due(s) then Retries(s, id) + [s.now] else Retries(s, id))
      && (Due(s) ==> s'.retrier.Updating?)
  {
  }

  /** Main result, when the retry loop sends: the record whose turn has come is sent exactly if
      its last attempt, if any, is a minute old. As stored rows keep retry count 0, no later
      rung is ever waited for. */
  lemma TurnIsSentExactly(init: World, past: seq<Event>, ok: bool)
    requires Initial(init.mail)
    requires Run(init, past).mail.retrier.Working? && Run(init, past).mail.retrier.queue != []
    ensures var w := Run(init, past);
      var w' := NextWorld(w, Local(RetryHead(ok)));
      var Record(id, row) := w.mail.retrier.queue[0];
      if row.lastAttempt.None? || row.lastAttempt.value + 60 <= w.mail.now then
        && Retries(w'.mail, id) == Retries(w.mail, id) + [w.mail.now]
        && w'.mail.delivered == w.mail.delivered + (if ok then [Delivery(row.ref, row.recipient)] else [])
        && w'.mail.retrier == Updating(id, if ok then Sent else Failed, w.mail.retrier.queue[1..])
      else
        w'.mail == w.mail.(retrier := Working(w.mail.retrier.queue[1..]))
  {
    hide Inv, Run;
    InitialInv(init.log, init.mail);
    RunKeepsInv(init, past);
    HeadFacts(Run(init, past).log, Run(init, past).mail);
  }

  lemma NothingSent(s: State, ok: bool, id: MailId)
    requires s.retrier.Working? && s.retrier.queue == []
    ensures DoRetryHead(s, ok) == s.(retrier := Sleeping) && Retries(DoRetryHead(s, ok), id) == Retries(s, id)
  {
  }

  // ---- Exactly when two sends are less than a minute apart ----

  /** The event sends for row `id` from a record that does not know of the row's last send,
      less than a minute after it. */
  predicate Rushes(w: World, event: Event, id: MailId) {
    && event.Local? && event.step.RetryHead? && Due(w.mail) && w.mail.retrier.queue[0].id == id
    && !AfterLast(Retries(w.mail, id), w.mail.retrier.queue[0].row.lastAttempt)
    && w.mail.now < Retries(w.mail, id)[|Retries(w.mail, id)| - 1] + 60
  }

  predicate Rushed(w: World, events: seq<Event>, id: MailId)
    decreases |events|
  {
    events != [] && (Rushes(w, events[0], id) || Rushed(NextWorld(w, events[0]), events[1..], id))
  }

  lemma EventRushes(w: World, event: Event, id: MailId)
    requires Inv(w.log, w.mail)
    ensures MinuteApart(Retries(NextWorld(w, event).mail, id))
       <==> MinuteApart(Retries(w.mail, id)) && !Rushes(w, event, id)
  {
    hide Inv, MinuteApart, Retries, DoRetryHead;
    if event.Local? && event.step.RetryHead? && w.mail.retrier.Working? {
      if w.mail.retrier.queue != [] {
        HeadFacts(w.log, w.mail);
        HeadEffect(w.mail, event.step.ok);
        MinuteApartMore(Retries(w.mail, id), w.mail.now);
      } else {
        NothingSent(w.mail, event.step.ok, id);
      }
    } else {
      OtherEventSends(w, event, id);
    }
  }

  lemma OtherEventSends(w: World, event: Event, id: MailId)
    requires event.Append? || !event.step.RetryHead? || !w.mail.retrier.Working?
    ensures Retries(NextWorld(w, event).mail, id) == Retries(w.mail, id)
  {
    hide Effect;
    if event.Local? && !event.step.RetryHead? { StepFrame(w.log, w.mail, event.step); }
  }

  lemma {:induction false} RunRushes(w: World, events: seq<Event>, id: MailId)
    requires Inv(w.log, w.mail)
    ensures MinuteApart(Retries(Run(w, events).mail, id))
       <==> MinuteApart(Retries(w.mail, id)) && !Rushed(w, events, id)
    decreases |events|
  {
    hide Inv, MinuteApart, NextWorld, Rushes;
    if events != [] {
      EventKeepsInv(w, events[0]);
      EventRushes(w, events[0], id);
      RunRushes(NextWorld(w, events[0]), events[1..], id);
    }
  }

  /** Main result, exactly when the retry loop keeps its distance: over every run its sends for
      one row are at least a minute apart if and only if none of them was made, within the
      minute, from a record that did not know of the one before. */
  lemma RetriesAreMinuteApartExactly(init: World, events: seq<Event>, id: MailId)
    requires Initial(init.mail)
    ensures MinuteApart(Retries(Run(init, events).mail, id)) <==> !Rushed(init, events, id)
  {
    hide Inv, Rushed, Run;
    InitialInv(init.log, init.mail);
    RunRushes(init, events, id);
  }

  // ---- When every send of a row is recorded ----

  /** The event loses the record of a send for row `id`: its update is not applied, or the loop
      dies first. */
  predicate Forgets(w: World, event: Event, id: MailId) {
    && event.Local? && w.mail.retrier.Updating? && w.mail.retrier.id == id
    && (event.step.RetryDies? || (event.step.RetryRecord? && !event.step.ack.Applied()))
  }

  predicate Forgotten(w: World, events: seq<Event>, id: MailId)
    decreases |events|
  {
    events != [] && (Forgets(w, events[0], id) || Forgotten(NextWorld(w, events[0]), events[1..], id))
  }

  /** The last attempt stored for the row is no older than its last send; only while the update
      is on its way it may lag behind. */
  ghost predicate RowRemembers(s: State, id: MailId) {
    var sends := Retries(s, id);
    sends != [] ==>
      && id in s.rows && sends[|sends| - 1] <= s.now
      && ((s.retrier.Updating? && s.retrier.id == id) || AfterLast(sends, s.rows[id].lastAttempt))
  }

  /** So is the one in the only record of it in the queue. */
  ghost predicate QueueRemembers(s: State, id: MailId) {
    !s.retrier.Sleeping? ==>
      var queue := s.retrier.queue;
      && (forall i :: 0 <= i < |queue| && queue[i].id == id ==> AfterLast(Retries(s, id), queue[i].row.lastAttempt))
      && (forall i, j :: 0 <= i < j < |queue| && queue[i].id == id ==> queue[j].id != id)
      && (s.retrier.Updating? && s.retrier.id == id ==> forall i :: 0 <= i < |queue| ==> queue[i].id != id)
  }

  ghost predicate Remembers(s: State, id: MailId) { RowRemembers(s, id) && QueueRemembers(s, id) }

  lemma OtherStepAttempts(log: seq<Message>, s: State, step: Step, id: MailId)
    requires !OfRetrier(step)
    ensures var s' := Next(log, s, step);
      && s.now <= s'.now
      && (id in s.rows && id < s.nextId ==>
            id in s'.rows && (s'.rows[id].lastAttempt == s.rows[id].lastAttempt
                || s'.rows[id].lastAttempt == Some(s.now)))
  {
    hide HasRef, IsListing, DoRead, DoFind, DoFetch, DoSend, DoCommitOffset, DoRetryHead, DoRetryRecord;
    ConsumerFrame(log, s, step);
  }

  /** A step that is not the retry loop's moves no attempt into the past. */
  lemma OtherStepRemembers(log: seq<Message>, s: State, step: Step, id: MailId)
    requires Inv(log, s) && Remembers(s, id) && !OfRetrier(step)
    ensures Remembers(Next(log, s, step), id)
  {
    hide SendsOk, ConsumerOk, VerdictsOk, RetrierOk, FromLog, HasRef, Next;
    if id in s.rows { assert RowOk(log, s, id); }
    StepFrame(log, s, step);
    OtherStepAttempts(log, s, step, id);
  }

  lemma RecordRemembers(log: seq<Message>, s: State, ack: Ack, id: MailId)
    requires Remembers(s, id) && (s.retrier.Updating? && s.retrier.id == id ==> ack.Applied())
    ensures Remembers(Next(log, s, RetryRecord(ack)), id)
  {
  }

  lemma PollRemembers(log: seq<Message>, s: State, order: seq<MailId>, id: MailId)
    requires Remembers(s, id)
    ensures Remembers(Next(log, s, Poll(order)), id)
  {
  }

  lemma SendRemembers(log: seq<Message>, s: State, ok: bool, id: MailId)
    requires Remembers(s, id) && s.retrier.Working?
    requires s.retrier.queue != [] ==> RecordOk(s, s.retrier.queue[0])
    ensures Remembers(Next(log, s, RetryHead(ok)), id)
  {
    hide Retries, DoRetryHead;
    var queue := s.retrier.queue;
    if queue != [] {
      HeadEffect(s, ok);
      assert forall i :: 0 <= i < |queue[1..]| ==> queue[1..][i] == queue[i + 1];
    } else {
      NothingSent(s, ok, id);
    }
  }

  lemma EventRemembers(w: World, event: Event, id: MailId)
    requires Inv(w.log, w.mail) && Remembers(w.mail, id) && !Forgets(w, event, id)
    ensures Remembers(NextWorld(w, event).mail, id)
  {
    hide Inv, Remembers, Effect, IsListing;
    if event.Local? && Enabled(w.log, w.mail, event.step) {
      match event.step
      case Poll(order) => PollRemembers(w.log, w.mail, order, id);
      case RetryHead(ok) =>
        if w.mail.retrier.queue != [] { HeadFacts(w.log, w.mail); }
        SendRemembers(w.log, w.mail, ok, id);
      case RetryRecord(ack) => RecordRemembers(w.log, w.mail, ack, id);
      case RetryDies => DieRemembers(w.log, w.mail, id);
      case _ => OtherStepRemembers(w.log, w.mail, event.step, id);
    }
  }

  lemma DieRemembers(log: seq<Message>, s: State, id: MailId)
    requires Remembers(s, id) && !(s.retrier.Updating? && s.retrier.id == id)
    ensures Remembers(Next(log, s, RetryDies), id)
  {
  }

  /** What a record knows keeps the distance: no remembered send is rushed. */
  lemma RememberedIsNotRushed(w: World, event: Event, id: MailId)
    requires Remembers(w.mail, id)
    ensures !Rushes(w, event, id)
  {
  }

  lemma {:induction false} RushedIsForgotten(w: World, events: seq<Event>, id: MailId)
    requires Inv(w.log, w.mail) && Remembers(w.mail, id) && Rushed(w, events, id)
    ensures Forgotten(w, events, id)
    decreases |events|
  {
    hide Inv, Remembers, NextWorld, Forgets, Rushes;
    RememberedIsNotRushed(w, events[0], id);
    if !Forgets(w, events[0], id) {
      EventKeepsInv(w, events[0]);
      EventRemembers(w, events[0], id);
      RushedIsForgotten(NextWorld(w, events[0]), events[1..], id);
    }
  }

  /** Main result: as long as no send of this row is forgotten, the retry loop's sends for it
      are at least a minute apart, whatever the handler writes in between, however often the
      loop dies and whatever it forgets of other rows. */
  lemma RetriesAreMinuteApart(init: World, events: seq<Event>, id: MailId)
    requires Initial(init.mail) && !Forgotten(init, events, id)
    ensures MinuteApart(Retries(Run(init, events).mail, id))
  {
    hide Inv, Forgotten, Rushed, Run;
    InitialInv(init.log, init.mail);
    assert Remembers(init.mail, id);
    if Rushed(init, events, id) { RushedIsForgotten(init, events, id); }
    RetriesAreMinuteApartExactly(init, events, id);
  }

  /** The condition is needed: the loop dies between a failed send and its update, and after
      its restart it sends again at the same instant. */
  lemma ForgottenSendRepeats(w: World, pay: Payload, to: string) returns (events: seq<Event>)
    requires Initial(w.mail) && w.log == [Message("ticket.purchased", Purchased(pay))]
              && "ticket.purchased" in w.mail.topics
    ensures Retries(Run(w, events).mail, w.mail.nextId) == [w.mail.now, w.mail.now]
    ensures Rushed(w, events, w.mail.nextId)
  {
    hide Run;
    var id := w.mail.nextId;
    var w4 := CreateRow(w, pay, to);
    var creating := [Local(Read), Local(Find(false)), Local(Fetch(Some(to))), Local(Create(Acked))];
    var once := [Local(Poll([id])), Local(RetryHead(false)), Local(RetryDies)];
    var w7 := ForgottenSend(w4, id);
    var w10 := ForgottenSend(w7, id);
    RunThree(w4, once);
    RunThree(w7, once);
    RunAppend(w4, once, once);
    RunAppend(w, creating, once + once);
    events := creating + (once + once);
    TwiceAtOnce(w.mail.now);
    RetriesAreMinuteApartExactly(w, events, id);
  }

  lemma TwiceAtOnce(now: int)
    ensures !MinuteApart([now, now])
  {
    assert [now, now][0] + 60 > [now, now][1];
  }

  lemma ForgottenSend(w: World, id: MailId) returns (w': World)
    requires w.mail.retrier.Sleeping? && w.mail.rows.Keys == {id}
    requires var row := w.mail.rows[id]; IsPending(row) && row.retryCount == 0 && row.lastAttempt.None?
    ensures w' == NextWorld(NextWorld(NextWorld(w, Local(Poll([id]))), Local(RetryHead(false))), Local(RetryDies))
    ensures w'.mail == w.mail.(retrySends := w.mail.retrySends[id := Retries(w.mail, id) + [w.mail.now]])
  {
    var w1 := NextWorld(w, Local(Poll([id])));
    assert IsListing(w.mail.rows, [id]);
    assert w1.mail.retrier == Working([Record(id, w.mail.rows[id])]);
    w' := NextWorld(NextWorld(w1, Local(RetryHead(false))), Local(RetryDies));
  }

  /** A booking that is emailed twice: by the retry loop, which polls the pending row, and by
      the handler, whose own send is still on its way. */
  lemma EmailedTwice(w: World, pay: Payload, to: string) returns (events: seq<Event>)
    requires Initial(w.mail) && w.log == [Message("ticket.purchased", Purchased(pay))]
              && "ticket.purchased" in w.mail.topics
    ensures Run(w, events).mail.delivered == [Delivery(pay.ref, to), Delivery(pay.ref, to)]
  {
    hide Run;
    var id := w.mail.nextId;
    var w4 := CreateRow(w, pay, to);
    var w5 := NextWorld(w4, Local(Poll([id])));
    assert w5.mail.retrier == Working([Record(id, w4.mail.rows[id])]);
    var creating := [Local(Read), Local(Find(false)), Local(Fetch(Some(to))), Local(Create(Acked))];
    var sending := [Local(Poll([id])), Local(RetryHead(true)), Local(Send(true))];
    RunThree(w4, sending);
    RunAppend(w, creating, sending);
    events := creating + sending;
  }
}
