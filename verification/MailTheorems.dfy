/** What holds of every run of the email service. */
module MailTheorems {
  import opened Basics
  import opened MailModel
  import opened MailProofs

  // ---- Offsets ----

  lemma StepKeepsCommitted(log: seq<Message>, s: State, step: Step)
    requires Inv(log, s)
    ensures s.committed <= Next(log, s, step).committed
  {
    hide Inv, DoRead, DoFind, DoFetch, DoCreate, DoSend, DoStore, DoRetryHead, DoRetryRecord;
    ConsumerFacts(log, s);
    if !step.CommitOffset? { StepKeepsJudged(log, s, step); }
  }

  /** Main result: whatever restarts, redeliveries and lost answers occur, the committed
      offset never moves back. */
  lemma {:induction false} CommittedNeverMovesBack(w: World, events: seq<Event>)
    requires Inv(w.log, w.mail)
    ensures w.mail.committed <= Run(w, events).mail.committed
    decreases |events|
  {
    hide Inv, Next;
    if events != [] {
      EventKeepsInv(w, events[0]);
      if events[0].Local? { StepKeepsCommitted(w.log, w.mail, events[0].step); }
      CommittedNeverMovesBack(NextWorld(w, events[0]), events[1..]);
    }
  }

  /** Main result: every message below the committed offset was read, and was handled with
      nil or passed over for a reason that is true of it. A ticket message of a registered
      topic that has no status row was passed over by handler errors only. */
  lemma CommittedWasJudged(w: World, events: seq<Event>, o: nat)
    requires Initial(w.mail) && o < Run(w, events).mail.committed
    ensures var World(log, s) := Run(w, events);
      && o < |log| && o in s.verdicts && s.verdicts[o] != {}
      && (forall v :: v in s.verdicts[o] ==> VerdictOk(log, s, o, v))
      && (log[o].topic in s.topics && log[o].body.Purchased? && !HasRef(s.rows, log[o].body.payload.ref) ==>
            s.verdicts[o] == {HandlerError})
  {
    hide HasRef, FromLog, RowsOk, SendsOk, RetrierOk;
    var World(log, s) := Run(w, events);
    InitialInv(w.log, w.mail);
    RunKeepsInv(w, events);
    VerdictParts(log, s);
  }

  // ---- One row, one send ----

  /** Main result: email_status holds at most one row per booking_ref, although no unique
      key says so, and the handler sends at most once per booking. */
  lemma OneRowOneSend(w: World, events: seq<Event>)
    requires Initial(w.mail)
    ensures var s := Run(w, events).mail;
      && (forall i, j :: i in s.rows && j in s.rows && i != j ==> s.rows[i].ref != s.rows[j].ref)
      && NoDuplicates(s.handlerSends)
  {
    InitialInv(w.log, w.mail);
    RunKeepsInv(w, events);
  }

  /** Main result: a row marked sent is backed by a Send to its recipient that returned nil,
      and by a message of the log that announced the booking. */
  lemma SentWasDelivered(w: World, events: seq<Event>, id: MailId)
    requires Initial(w.mail) && id in Run(w, events).mail.rows && Run(w, events).mail.rows[id].status == Sent
    ensures var World(log, s) := Run(w, events);
      Delivery(s.rows[id].ref, s.rows[id].recipient) in s.delivered && FromLog(log, s.rows[id])
  {
    hide SendsOk, ConsumerOk, VerdictsOk, RetrierOk, FromLog;
    InitialInv(w.log, w.mail);
    RunKeepsInv(w, events);
    var World(log, s) := Run(w, events);
    assert RowOk(log, s, id);
  }

  /** Main result: since UpdateStatus never writes retry_count, no stored row ever becomes
      dead: the dead-letter transition is unreachable with the MySQL repository. */
  lemma NeverDead(w: World, events: seq<Event>, id: MailId)
    requires Initial(w.mail) && id in Run(w, events).mail.rows
    ensures var s := Run(w, events).mail; s.rows[id].status != Dead && s.rows[id].retryCount == 0
  {
    hide SendsOk, ConsumerOk, VerdictsOk, RetrierOk, FromLog;
    InitialInv(w.log, w.mail);
    RunKeepsInv(w, events);
    assert RowOk(Run(w, events).log, Run(w, events).mail, id);
  }

  // ---- What a committed offset means ----

  /** A ticket message of a registered topic. */
  predicate IsTicket(log: seq<Message>, s: State, o: nat) {
    o < |log| && log[o].topic in s.topics && log[o].body.Purchased?
  }

  predicate WasHandled(s: State, o: nat) { o in s.verdicts && Handled in s.verdicts[o] }

  /** The natural reading of the committed offset: every ticket message below it was handled. */
  ghost predicate BelowIsHandled(log: seq<Message>, s: State) {
    forall o: nat :: o < s.committed && IsTicket(log, s, o) ==> WasHandled(s, o)
  }

  /** The event commits past a ticket message that only met handler errors. */
  ghost predicate Skips(w: World, event: Event) {
    && event.Local? && event.step.CommitOffset? && event.step.ack.Applied() && w.mail.consumer.Committing?
    && exists o: nat :: w.mail.committed <= o < w.mail.consumer.off && IsTicket(w.log, w.mail, o)
                        && o in w.mail.verdicts && w.mail.verdicts[o] == {HandlerError}
  }

  ghost predicate Skipped(w: World, events: seq<Event>)
    decreases |events|
  {
    events != [] && (Skips(w, events[0]) || Skipped(NextWorld(w, events[0]), events[1..]))
  }

  /** The loop commits only what it has just handled. */
  predicate CommitsHandled(s: State) { s.consumer.Committing? ==> WasHandled(s, s.consumer.off) }

  /** The steps at which the loop may be done with a message. */
  predicate Judging(step: Step) { step.Read? || step.Find? || step.Fetch? || step.Create? || step.Store? }

  lemma OtherStepsJudgeNothing(log: seq<Message>, s: State, step: Step)
    requires !Judging(step)
    ensures var s' := Next(log, s, step);
      && s'.verdicts == s.verdicts && s'.topics == s.topics
      && (!step.CommitOffset? ==> s'.committed == s.committed)
      && (s'.consumer.Committing? ==> s'.consumer == s.consumer)
  {
    hide IsListing, DoRead, DoFind, DoFetch, DoCreate, DoStore, DoRetryHead, DoRetryRecord;
  }

  /** Verdicts below the committed offset stay, and what stands at the commit was handled. */
  ghost predicate MovesOn(s: State, s': State) {
    && s'.topics == s.topics && s'.committed == s.committed
    && (forall o: nat :: o < s.committed ==> (o in s'.verdicts <==> o in s.verdicts))
    && (forall o: nat :: o < s.committed && o in s.verdicts ==> s'.verdicts[o] == s.verdicts[o])
    && (s'.consumer.Committing? ==> WasHandled(s', s'.consumer.off))
  }

  lemma JudgeMovesOn(s: State, s1: State, off: nat, v: Verdict, next: Consumer)
    requires s1.verdicts == s.verdicts && s1.topics == s.topics && s1.committed == s.committed
    requires s.committed <= off && (next.Committing? ==> v.Handled? && next.off == off)
    ensures MovesOn(s, Judge(s1, off, v, next))
  {
  }

  lemma UnjudgedMovesOn(s: State, s': State)
    requires s'.verdicts == s.verdicts && s'.topics == s.topics && s'.committed == s.committed
              && !s'.consumer.Committing?
    ensures MovesOn(s, s')
  {
  }

  /** The loop judges the message it has read last, and commits only what it has handled. */
  lemma JudgingStep(log: seq<Message>, s: State, step: Step)
    requires Judging(step) && Enabled(log, s, step)
    requires s.committed <= s.position && (!s.consumer.Reading? ==> s.committed <= s.consumer.off)
    ensures MovesOn(s, Next(log, s, step))
  {
    hide HasRef, Judge, MovesOn;
    match step
    case Read =>
      var s1 := s.(position := s.position + 1);
      JudgeMovesOn(s, s1, s.position, NoHandler, Reading);
      JudgeMovesOn(s, s1, s.position, Undecodable, Reading);
      JudgeMovesOn(s, s1, s.position, HandlerError, Reading);
      if log[s.position].topic in s.topics
          && log[s.position].body.Purchased? { UnjudgedMovesOn(s, Next(log, s, step)); }
    case Find(fails) =>
      JudgeMovesOn(s, s, s.consumer.off, HandlerError, Reading);
      JudgeMovesOn(s, s, s.consumer.off, Handled, Committing(s.consumer.off));
      if !fails && !HasRef(s.rows, s.consumer.pay.ref) { UnjudgedMovesOn(s, Next(log, s, step)); }
    case Fetch(email) =>
      JudgeMovesOn(s, s, s.consumer.off, HandlerError, Reading);
      if email.Some? { UnjudgedMovesOn(s, Next(log, s, step)); }
    case Create(ack) =>
      var s1 := if ack.Applied() then Insert(s, s.consumer.pay, s.consumer.to) else s;
      JudgeMovesOn(s, s1, s.consumer.off, HandlerError, Reading);
      if ack.Acked? { UnjudgedMovesOn(s, Next(log, s, step)); }
    case Store(ack) =>
      var s1 := if ack.Applied() then UpdateStatus(s, s.consumer.id, s.consumer.status) else s;
      JudgeMovesOn(s, s1, s.consumer.off, HandlerError, Reading);
      JudgeMovesOn(s, s1, s.consumer.off, Handled, Committing(s.consumer.off));
  }

  lemma StepCommitsHandled(log: seq<Message>, s: State, step: Step)
    requires CommitsHandled(s) && s.committed <= s.position && (!s.consumer.Reading? ==> s.committed <= s.consumer.off)
    ensures CommitsHandled(Next(log, s, step))
  {
    hide Effect, Judging;
    if !Judging(step) {
      OtherStepsJudgeNothing(log, s, step);
    } else if Enabled(log, s, step) {
      JudgingStep(log, s, step);
    }
  }

  /** A message below the committed offset is never judged again; no other step moves the
      offset than an applied commit. */
  lemma StepKeepsJudged(log: seq<Message>, s: State, step: Step)
    requires s.committed <= s.position && (!s.consumer.Reading? ==> s.committed <= s.consumer.off)
    ensures var s' := Next(log, s, step);
      && s'.topics == s.topics
      && (forall o: nat :: o < s.committed ==> (o in s'.verdicts <==> o in s.verdicts))
      && (forall o: nat :: o < s.committed && o in s.verdicts ==> s'.verdicts[o] == s.verdicts[o])
      && (!step.CommitOffset? ==> s'.committed == s.committed)
  {
    hide Effect, Judging;
    if !Judging(step) {
      OtherStepsJudgeNothing(log, s, step);
    } else if Enabled(log, s, step) {
      JudgingStep(log, s, step);
    }
  }

  /** A ticket message that was read was handled, or met handler errors only. */
  lemma TicketVerdict(log: seq<Message>, s: State, o: nat)
    requires Inv(log, s) && o < s.position && !Busy(s, o) && IsTicket(log, s, o)
    ensures o in s.verdicts && (WasHandled(s, o) <==> s.verdicts[o] != {HandlerError})
  {
    hide HasRef, FromLog, RowsOk, SendsOk, RetrierOk, ConsumerOk;
    assert forall v :: v in s.verdicts[o] ==> VerdictOk(log, s, o, v);
  }

  lemma CommitSkips(w: World, ack: Ack)
    requires Inv(w.log, w.mail) && CommitsHandled(w.mail)
    ensures var w' := NextWorld(w, Local(CommitOffset(ack)));
      BelowIsHandled(w'.log, w'.mail) <==> BelowIsHandled(w.log, w.mail) && !Skips(w, Local(CommitOffset(ack)))
  {
    hide Inv, Busy;
    var s := w.mail;
    if s.consumer.Committing? && ack.Applied() {
      ConsumerFacts(w.log, s);
      var off := s.consumer.off;
      var s' := NextWorld(w, Local(CommitOffset(ack))).mail;
      forall o: nat | o < off && IsTicket(w.log, s, o)
        ensures o in s.verdicts && (WasHandled(s, o) <==> s.verdicts[o] != {HandlerError})
      {
        NotBusy(s, o);
        TicketVerdict(w.log, s, o);
      }
      assert forall o: nat :: IsTicket(w.log, s', o) == IsTicket(w.log, s, o) && WasHandled(s', o) == WasHandled(s, o);
      CommitCases(w.log, s, s', off);
    } else {
      var s' := NextWorld(w, Local(CommitOffset(ack))).mail;
      assert forall o: nat :: IsTicket(w.log, s', o) == IsTicket(w.log, s, o) && WasHandled(s', o) == WasHandled(s, o);
    }
  }

  lemma NotBusy(s: State, o: nat)
    requires s.consumer.Committing?
    ensures !Busy(s, o)
  {
  }

  /** Handled up to `off` is handled below the old offset, with nothing passed over, and at
      `off` itself. */
  lemma CommitCases(log: seq<Message>, s: State, s': State, off: nat)
    requires s.committed <= off && s'.committed == off + 1 && WasHandled(s, off)
    requires forall o: nat :: IsTicket(log, s', o) == IsTicket(log, s, o) && WasHandled(s', o) == WasHandled(s, o)
    requires forall o: nat :: o < off && IsTicket(log, s, o) ==>
              o in s.verdicts && (WasHandled(s, o) <==> s.verdicts[o] != {HandlerError})
    ensures BelowIsHandled(log, s') <==>
      && BelowIsHandled(log, s)
      && !exists o: nat ::
        s.committed <= o < off && IsTicket(log, s, o) && o in s.verdicts && s.verdicts[o] == {HandlerError}
  {
    hide IsTicket, WasHandled;
    if BelowIsHandled(log, s') {
      forall o: nat | o < s.committed && IsTicket(log, s, o) ensures WasHandled(s, o) {
        assert IsTicket(log, s', o);
      }
    }
  }

  lemma ConsumerFacts(log: seq<Message>, s: State)
    requires Inv(log, s)
    ensures s.committed <= s.position <= |log|
    ensures !s.consumer.Reading? ==> s.consumer.off + 1 == s.position && s.committed <= s.consumer.off
  {
  }

  lemma EventSkips(w: World, event: Event)
    requires Inv(w.log, w.mail) && CommitsHandled(w.mail)
    ensures var w' := NextWorld(w, event);
      BelowIsHandled(w'.log, w'.mail) <==> BelowIsHandled(w.log, w.mail) && !Skips(w, event)
  {
    hide Inv, Next;
    ConsumerFacts(w.log, w.mail);
    match event
    case Append(message) =>
    case Local(step) =>
      if step.CommitOffset? {
        CommitSkips(w, step.ack);
      } else {
        StepKeepsJudged(w.log, w.mail, step);
        var s' := Next(w.log, w.mail, step);
        assert forall o: nat :: IsTicket(w.log, s', o) <==> IsTicket(w.log, w.mail, o);
        assert forall o: nat :: o < s'.committed ==> (WasHandled(s', o) <==> WasHandled(w.mail, o));
      }
  }

  lemma {:induction false} RunSkips(w: World, events: seq<Event>)
    requires Inv(w.log, w.mail) && CommitsHandled(w.mail)
    ensures var World(log, s) := Run(w, events);
      BelowIsHandled(log, s) <==> BelowIsHandled(w.log, w.mail) && !Skipped(w, events)
    decreases |events|
  {
    hide Inv, Next, CommitsHandled, BelowIsHandled, Skips;
    if events != [] {
      EventKeepsInv(w, events[0]);
      EventCommitsHandled(w, events[0]);
      EventSkips(w, events[0]);
      RunSkips(NextWorld(w, events[0]), events[1..]);
    }
  }

  lemma EventCommitsHandled(w: World, event: Event)
    requires Inv(w.log, w.mail) && CommitsHandled(w.mail)
    ensures CommitsHandled(NextWorld(w, event).mail)
  {
    hide Next, CommitsHandled, Inv;
    ConsumerFacts(w.log, w.mail);
    if event.Local? { StepCommitsHandled(w.log, w.mail, event.step); }
  }

  /** Main result, exactly what a committed offset means: every ticket message of a registered
      topic below it was handled with nil if and only if no commit of the run passed over one
      that had met handler errors only. */
  lemma CommittedMeansHandledExactly(init: World, events: seq<Event>)
    requires Initial(init.mail)
    ensures var World(log, s) := Run(init, events);
      BelowIsHandled(log, s) <==> !Skipped(init, events)
  {
    hide Inv, Skipped, Run;
    InitialInv(init.log, init.mail);
    RunSkips(init, events);
  }

  /** What was passed over stays so: no later read, restart or redelivery judges it again. */
  lemma {:induction false} PassedOverForGood(w: World, events: seq<Event>, o: nat)
    requires Inv(w.log, w.mail) && o < w.mail.committed
    ensures var s := Run(w, events).mail;
      && o < s.committed && (o in s.verdicts <==> o in w.mail.verdicts)
      && (o in s.verdicts ==> s.verdicts[o] == w.mail.verdicts[o])
    decreases |events|
  {
    hide Inv, Next;
    if events != [] {
      EventKeepsInv(w, events[0]);
      if events[0].Local? {
        ConsumerFacts(w.log, w.mail);
        StepKeepsCommitted(w.log, w.mail, events[0].step);
        StepKeepsJudged(w.log, w.mail, events[0].step);
      }
      PassedOverForGood(NextWorld(w, events[0]), events[1..], o);
    }
  }

  /** Such a run: a handler error skips the commit, but the loop goes on, and the next
      message's commit passes over the failed one, whose booking has no status row then. */
  lemma FailedMessagePassedOver(w: World, a: Payload, b: Payload, to: string) returns (events: seq<Event>)
    requires Initial(w.mail) && "ticket.purchased" in w.mail.topics && a.ref != b.ref
    requires w.log == [Message("ticket.purchased", Purchased(a)), Message("ticket.purchased", Purchased(b))]
    ensures var s := Run(w, events).mail;
      s.committed == 2 && !HasRef(s.rows, a.ref) && 0 in s.verdicts && s.verdicts[0] == {HandlerError}
    ensures Skipped(w, events)
  {
    hide Run, NextWorld, Skipped;
    var first := [Local(Read), Local(Find(true)), Local(Read)];
    var second := [Local(Find(false)), Local(Fetch(Some(to))), Local(Create(Acked))];
    var third := [Local(Send(true)), Local(Store(Acked)), Local(CommitOffset(Acked))];
    var w3 := FirstFails(w, a, b);
    var w9 := SecondSucceeds(w3, a, b, to);
    RunAppend(w, first, second + third);
    assert first + (second + third) == first + second + third;
    events := first + second + third;
    CommittedMeansHandledExactly(w, events);
    assert IsTicket(w9.log, w9.mail, 0) && !WasHandled(w9.mail, 0);
  }

  lemma FirstFails(w: World, a: Payload, b: Payload) returns (w3: World)
    requires Initial(w.mail) && "ticket.purchased" in w.mail.topics
    requires w.log == [Message("ticket.purchased", Purchased(a)), Message("ticket.purchased", Purchased(b))]
    ensures w3 == Run(w, [Local(Read), Local(Find(true)), Local(Read)])
    ensures w3.log == w.log && w3.mail.topics == w.mail.topics && w3.mail.consumer == Finding(1, b)
              && w3.mail.rows == map[]
    ensures 0 in w3.mail.verdicts && w3.mail.verdicts[0] == {HandlerError}
  {
    hide Run;
    var w2 := NextWorld(NextWorld(w, Local(Read)), Local(Find(true)));
    assert w2.mail.verdicts[0] == {HandlerError};
    w3 := NextWorld(w2, Local(Read));
    RunThree(w, [Local(Read), Local(Find(true)), Local(Read)]);
  }

  lemma SecondSucceeds(w3: World, a: Payload, b: Payload, to: string) returns (w9: World)
    requires w3.mail.consumer == Finding(1, b) && w3.mail.rows == map[] && a.ref != b.ref
    requires 0 in w3.mail.verdicts && w3.mail.verdicts[0] == {HandlerError}
    ensures w9 == Run(w3, [Local(Find(false)), Local(Fetch(Some(to))), Local(Create(Acked))]
                        + [Local(Send(true)), Local(Store(Acked)), Local(CommitOffset(Acked))])
    ensures w9.log == w3.log && w9.mail.topics == w3.mail.topics
    ensures w9.mail.committed == 2 && !HasRef(w9.mail.rows, a.ref)
    ensures 0 in w9.mail.verdicts && w9.mail.verdicts[0] == {HandlerError}
  {
    hide Run;
    var w6 := NextWorld(NextWorld(NextWorld(w3, Local(Find(false))), Local(Fetch(Some(to)))), Local(Create(Acked)));
    assert w6.mail.consumer == Sending(1, b, w3.mail.nextId, to);
    var w8 := NextWorld(NextWorld(w6, Local(Send(true))), Local(Store(Acked)));
    assert w8.mail.consumer == Committing(1);
    w9 := NextWorld(w8, Local(CommitOffset(Acked)));
    RunThree(w3, [Local(Find(false)), Local(Fetch(Some(to))), Local(Create(Acked))]);
    RunThree(w6, [Local(Send(true)), Local(Store(Acked)), Local(CommitOffset(Acked))]);
    RunAppend(w3, [Local(Find(false)), Local(Fetch(Some(to))), Local(Create(Acked))],
              [Local(Send(true)), Local(Store(Acked)), Local(CommitOffset(Acked))]);
  }
}
