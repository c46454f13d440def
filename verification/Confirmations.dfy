/** Which bookings lose their confirmation for good: the handler error skips the commit, the
    loop goes on, and a later commit may leave a booking without a status row behind. */
module Confirmations {
  import opened Basics
  import opened MailModel
  import opened MailProofs
  import opened MailTheorems

  /** A ticket message of the booking on a registered topic lies at or above the committed
      offset. */
  ghost predicate Ahead(log: seq<Message>, s: State, ref: string) {
    exists o: nat :: s.committed <= o < |log| && IsTicket(log, s, o) && log[o].body.payload.ref == ref
  }

  predicate AllLocal(events: seq<Event>) { forall i :: 0 <= i < |events| ==> events[i].Local? }

  // ---- Behind the committed offset: no row any more ----

  lemma CreatesFromAhead(log: seq<Message>, s: State, ref: string)
    requires Inv(log, s) && s.consumer.Creating? && s.consumer.pay.ref == ref
    ensures Ahead(log, s, ref)
  {
    hide RowsOk, SendsOk, VerdictsOk, RetrierOk;
    assert IsTicket(log, s, s.consumer.off);
  }

  lemma StepCreatesNone(log: seq<Message>, s: State, step: Step, ref: string)
    requires Inv(log, s) && !HasRef(s.rows, ref) && !Ahead(log, s, ref)
    ensures !HasRef(Next(log, s, step).rows, ref)
  {
    hide Inv, Ahead, HasRef, IsListing, DoRead, DoFind, DoFetch, DoSend, DoCommitOffset, DoRetryHead;
    if step.Create? && s.consumer.Creating? && step.ack.Applied() {
      if s.consumer.pay.ref == ref { CreatesFromAhead(log, s, ref); }
      InsertKeepsOthers(s, s.consumer.pay, s.consumer.to, ref);
    } else if step.Store? && s.consumer.Recording? {
      UpdateHasRef(s, s.consumer.id, s.consumer.status);
    } else if step.RetryRecord? && s.retrier.Updating? {
      UpdateHasRef(s, s.retrier.id, s.retrier.status);
    }
  }

  lemma InsertKeepsOthers(s: State, pay: Payload, to: string, ref: string)
    requires pay.ref != ref && !HasRef(s.rows, ref)
    ensures !HasRef(Insert(s, pay, to).rows, ref)
  {
  }

  lemma StepStaysBehind(log: seq<Message>, s: State, step: Step, ref: string)
    requires Inv(log, s) && !Ahead(log, s, ref)
    ensures !Ahead(log, Next(log, s, step), ref)
  {
    hide Inv, Next;
    ConsumerFacts(log, s);
    StepKeepsCommitted(log, s, step);
    StepKeepsJudged(log, s, step);
    var s' := Next(log, s, step);
    assert forall o: nat :: IsTicket(log, s', o) == IsTicket(log, s, o);
  }

  lemma {:induction false} BehindIsLost(w: World, events: seq<Event>, ref: string)
    requires Inv(w.log, w.mail) && AllLocal(events) && !HasRef(w.mail.rows, ref) && !Ahead(w.log, w.mail, ref)
    ensures !HasRef(Run(w, events).mail.rows, ref)
    decreases |events|
  {
    hide Inv, HasRef, Ahead, Next;
    if events != [] {
      EventKeepsInv(w, events[0]);
      StepCreatesNone(w.log, w.mail, events[0].step, ref);
      StepStaysBehind(w.log, w.mail, events[0].step, ref);
      BehindIsLost(NextWorld(w, events[0]), events[1..], ref);
    }
  }

  // ---- Ahead of it: the row can still come ----

  lemma RunLocal(w: World, step: Step, events: seq<Event>)
    requires AllLocal(events)
    ensures AllLocal([Local(step)] + events)
    ensures Run(w, [Local(step)] + events) == Run(NextWorld(w, Local(step)), events)
  {
    RunCons(w, Local(step), events);
  }

  /** The consumer reads on to the message at `o`; a failing lookup gets it past a ticket. */
  lemma {:induction false} ReadTo(w: World, o: nat) returns (events: seq<Event>)
    requires w.mail.consumer.Reading? && w.mail.position <= o < |w.log|
    ensures AllLocal(events)
    ensures var w' := Run(w, events);
      && w'.log == w.log && w'.mail.topics == w.mail.topics && w'.mail.rows == w.mail.rows
      && w'.mail.consumer.Reading? && w'.mail.position == o
    decreases o - w.mail.position
  {
    hide Run;
    if w.mail.position == o {
      events := [];
      RunEmpty(w);
    } else {
      var w1 := NextWorld(w, Local(Read));
      if w1.mail.consumer.Reading? {
        events := ReadTo(w1, o);
      } else {
        events := ReadTo(NextWorld(w1, Local(Find(true))), o);
        RunLocal(w1, Find(true), events);
        events := [Local(Find(true))] + events;
      }
      RunLocal(w, Read, events);
      events := [Local(Read)] + events;
    }
  }

  /** The message at the read position, handled up to its row. */
  lemma RowFromMessage(w: World, ref: string) returns (events: seq<Event>)
    requires w.mail.consumer.Reading? && IsTicket(w.log, w.mail, w.mail.position)
    requires w.log[w.mail.position].body.payload.ref == ref && !HasRef(w.mail.rows, ref)
    ensures AllLocal(events) && HasRef(Run(w, events).mail.rows, ref)
  {
    hide Run;
    var w1 := NextWorld(w, Local(Read));
    var w2 := NextWorld(w1, Local(Find(false)));
    var w3 := NextWorld(w2, Local(Fetch(Some(""))));
    var w4 := NextWorld(w3, Local(Create(Acked)));
    assert w4.mail.rows[w3.mail.nextId].ref == ref;
    RunEmpty(w4);
    RunLocal(w3, Create(Acked), []);
    RunLocal(w2, Fetch(Some("")), [Local(Create(Acked))] + []);
    RunLocal(w1, Find(false), [Local(Fetch(Some("")))] + ([Local(Create(Acked))] + []));
    events := [Local(Find(false))] + ([Local(Fetch(Some("")))] + ([Local(Create(Acked))] + []));
    RunLocal(w, Read, events);
    events := [Local(Read)] + events;
  }

  lemma AheadCanCome(w: World, ref: string) returns (events: seq<Event>)
    requires !HasRef(w.mail.rows, ref) && Ahead(w.log, w.mail, ref)
    ensures AllLocal(events) && HasRef(Run(w, events).mail.rows, ref)
  {
    hide Run, HasRef;
    var o: nat :| w.mail.committed <= o < |w.log| && IsTicket(w.log, w.mail, o) && w.log[o].body.payload.ref == ref;
    var w1 := NextWorld(w, Local(Restart));
    var reading := ReadTo(w1, o);
    var w2 := Run(w1, reading);
    assert IsTicket(w2.log, w2.mail, o);
    var handling := RowFromMessage(w2, ref);
    RunAppend(w1, reading, handling);
    RunLocal(w, Restart, reading + handling);
    events := [Local(Restart)] + (reading + handling);
  }

  /** Main result, exactly which bookings lose their confirmation: in every reachable state, a
      booking without a status row gets one in some continuation of the service itself if and
      only if a ticket message of it lies at or above the committed offset. */
  lemma RowStillComesExactly(init: World, past: seq<Event>, ref: string)
    requires Initial(init.mail) && !HasRef(Run(init, past).mail.rows, ref)
    ensures var w := Run(init, past);
      (exists events: seq<Event> :: AllLocal(events) && HasRef(Run(w, events).mail.rows, ref))
      <==> Ahead(w.log, w.mail, ref)
  {
    hide Inv, Run, HasRef, Ahead, AllLocal;
    var w := Run(init, past);
    InitialInv(init.log, init.mail);
    RunKeepsInv(init, past);
    if Ahead(w.log, w.mail, ref) {
      var events := AheadCanCome(w, ref);
    } else {
      forall events: seq<Event> | AllLocal(events) ensures !HasRef(Run(w, events).mail.rows, ref) {
        BehindIsLost(w, events, ref);
      }
    }
  }
}
