/** Which committed bookings can still be confirmed: progress of the relays, and through them
    of the whole pipeline. */
module PipelineProgress {
  import opened Basics
  import opened Pipeline
  import B = BookingModel
  import BI = BookingInvariant
  import BS = BookingSteps
  import BT = BookingTheorems
  import O = OutboxModel
  import OP = OutboxProofs
  import OT = OutboxTiming
  import M = MailModel
  import MP = MailProofs
  import MT = MailTheorems
  import C = Confirmations
  import W = PayloadCodec

  // ---- A relay can get at every unpublished row ----

  predicate NoEnqueue(steps: seq<O.Step>) { forall i :: 0 <= i < |steps| ==> !steps[i].Enqueue? }

  /** A relay that has never worked holds nothing. */
  lemma FreshRelay(s: O.State) returns (r: O.RelayId)
    requires OP.Inv(s)
    ensures O.RelayAt(s, r).Idle? && forall i :: i in s.rowLocks ==> s.rowLocks[i] != r
  {
    hide OP.RowsOk, OP.LogOk, OP.Distinct;
    r := AboveAll(s.relays.Keys);
    assert r !in s.relays;
  }

  /** The rows that the query would prefer to `id`. */
  function Preferred(s: O.State, id: O.RowId): set<O.RowId> {
    set i | i in s.rows && i < id && i !in s.rowLocks && O.IsEligible(s.rows[i], s.now)
  }

  lemma {:induction false} Lowest(ids: set<O.RowId>) returns (m: O.RowId)
    requires ids != {}
    ensures m in ids && forall i :: i in ids ==> m <= i
    decreases ids
  {
    m :| m in ids;
    if ids != {m} {
      var rest := Lowest(ids - {m});
      assert forall i :: i in ids ==> i == m || i in ids - {m};
      if rest < m { m := rest; }
    }
  }

  lemma PreferredIsLowest(s: O.State, id: O.RowId) returns (m: O.RowId)
    requires Preferred(s, id) != {}
    ensures m in Preferred(s, id) && O.IsLowest(s, m)
  {
    m := Lowest(Preferred(s, id));
    forall i | i in s.rows && i < m && i !in s.rowLocks ensures !O.IsEligible(s.rows[i], s.now) {
      assert i !in Preferred(s, id);
    }
  }

  lemma NonePreferred(s: O.State, id: O.RowId)
    requires Preferred(s, id) == {} && id in s.rows && id !in s.rowLocks && O.IsEligible(s.rows[id], s.now)
    ensures O.IsLowest(s, id)
  {
    forall i | i in s.rows && i < id && i !in s.rowLocks ensures !O.IsEligible(s.rows[i], s.now) {
      assert i !in Preferred(s, id);
    }
  }

  /** After the steps, relay `r` is about to publish row `id`, and nothing was published yet. */
  ghost predicate Readies(s: O.State, steps: seq<O.Step>, r: O.RelayId, id: O.RowId) {
    var s' := O.Run(s, steps);
    && NoEnqueue(steps) && s'.log == s.log
    && O.RelayAt(s', r).Publishing? && O.RelayAt(s', r).id == id && id in s'.rows
  }

  lemma ReadiesAfter(s: O.State, step: O.Step, steps: seq<O.Step>, r: O.RelayId, id: O.RowId)
    requires Readies(O.Next(s, step), steps, r, id) && !step.Enqueue? && O.Next(s, step).log == s.log
    ensures Readies(s, [step] + steps, r, id)
  {
    hide O.Next;
    assert ([step] + steps)[1..] == steps;
  }

  lemma ClaimReadies(s: O.State, r: O.RelayId, id: O.RowId)
    requires O.RelayAt(s, r).Idle? && O.IsLowest(s, id) && (forall i :: i in s.rowLocks ==> s.rowLocks[i] != r)
    ensures Readies(s, OT.ClaimSteps(r, id), r, id)
  {
    hide O.Run;
    OT.ClaimRun(s, r, id);
  }

  /** Sitting on a preferred row takes it out of the way. */
  lemma SelectLocks(s: O.State, r: O.RelayId, m: O.RowId, id: O.RowId)
    requires m in Preferred(s, id) && O.IsLowest(s, m) && O.RelayAt(s, r).Idle?
    requires id in s.rows && id !in s.rowLocks
    ensures var s1 := O.Next(s, O.Select(r, m));
      && Preferred(s1, id) == Preferred(s, id) - {m} && s1.log == s.log
      && s1.rows == s.rows && s1.now == s.now && id !in s1.rowLocks
  {
    hide O.IsLowest, O.IsEligible;
  }

  /** Other relays select the preferred rows and sit on them; then a fresh one claims `id`. */
  lemma {:induction false} EligibleIsReadied(s: O.State, id: O.RowId) returns (steps: seq<O.Step>, r: O.RelayId)
    requires OP.Inv(s) && id in s.rows && id !in s.rowLocks && O.IsEligible(s.rows[id], s.now)
    ensures Readies(s, steps, r, id)
    decreases Preferred(s, id)
  {
    hide OP.Inv, O.Run, O.Next, O.IsEligible, O.IsLowest, Preferred, Readies;
    var idle := FreshRelay(s);
    if Preferred(s, id) == {} {
      steps, r := OT.ClaimSteps(idle, id), idle;
      NonePreferred(s, id);
      ClaimReadies(s, idle, id);
    } else {
      var m := PreferredIsLowest(s, id);
      var s1 := O.Next(s, O.Select(idle, m));
      OP.StepKeepsInv(s, O.Select(idle, m));
      SelectLocks(s, idle, m, id);
      steps, r := EligibleIsReadied(s1, id);
      ReadiesAfter(s, O.Select(idle, m), steps, r, id);
      steps := [O.Select(idle, m)] + steps;
    }
  }

  /** The seconds until an unpublished row is eligible. */
  function Pause(s: O.State, id: O.RowId): nat
    requires id in s.rows
  {
    var row := s.rows[id];
    var until := if row.lockedUntil.Some? && row.availableAt <= row.lockedUntil.value then row.lockedUntil.value + 1
                 else row.availableAt;
    if until <= s.now then 0 else until - s.now
  }

  lemma UnlockedIsReadied(s: O.State, id: O.RowId) returns (steps: seq<O.Step>, r: O.RelayId)
    requires OP.Inv(s) && id in s.rows && id !in s.rowLocks && s.rows[id].publishedAt.None?
    ensures Readies(s, steps, r, id)
  {
    hide OP.Inv, O.Run, Readies;
    var tick := O.Tick(Pause(s, id));
    OP.StepKeepsInv(s, tick);
    steps, r := EligibleIsReadied(O.Next(s, tick), id);
    ReadiesAfter(s, tick, steps, r, id);
    steps := [tick] + steps;
  }

  /** Every unpublished row can be brought to a relay that is about to publish it. */
  lemma UnpublishedIsReadied(s: O.State, id: O.RowId) returns (steps: seq<O.Step>, r: O.RelayId)
    requires OP.Inv(s) && id in s.rows && s.rows[id].publishedAt.None?
    ensures Readies(s, steps, r, id)
  {
    hide OP.Inv, O.Run, Readies;
    if id in s.rowLocks {
      var die := O.Die(s.rowLocks[id]);
      OP.StepKeepsInv(s, die);
      DyingUnlocks(s, id);
      steps, r := UnlockedIsReadied(O.Next(s, die), id);
      ReadiesAfter(s, die, steps, r, id);
      steps := [die] + steps;
    } else {
      steps, r := UnlockedIsReadied(s, id);
    }
  }

  lemma DyingUnlocks(s: O.State, id: O.RowId)
    requires OP.Inv(s) && id in s.rowLocks
    ensures var s' := O.Next(s, O.Die(s.rowLocks[id])); id !in s'.rowLocks && s'.rows == s.rows && s'.log == s.log
  {
    hide OP.RowsOk, OP.LogOk, OP.Distinct;
  }

  // ---- When no message of a row comes any more ----

  /** A relay may still append a message of the row. */
  ghost predicate MayPublish(s: O.State, id: O.RowId) {
    && id in s.rows
    && (s.rows[id].publishedAt.None?
        || exists r: O.RelayId :: O.RelayAt(s, r).Publishing? && O.RelayAt(s, r).id == id)
  }

  lemma NobodyPublishes(s: O.State, o: O.Step, id: O.RowId, r: O.RelayId)
    requires OP.Inv(s) && id in s.rows && s.rows[id].publishedAt.Some?
    requires !(O.RelayAt(s, r).Publishing? && O.RelayAt(s, r).id == id)
    ensures var relay := O.RelayAt(O.Next(s, o), r); !(relay.Publishing? && relay.id == id)
  {
    hide OP.RowsOk, OP.LogOk, OP.Distinct, O.IsLowest, O.Delay;
    assert OP.RelayOk(s, r);
  }

  /** What a step appends comes from a relay that was about to publish it. */
  lemma AppendsPublished(s: O.State, o: O.Step)
    ensures var s' := O.Next(s, o);
      || s'.log == s.log
      || (&& |s'.log| == |s.log| + 1 && s'.log == s.log + [s'.log[|s.log|]]
          && exists r: O.RelayId :: O.RelayAt(s, r).Publishing? && O.RelayAt(s, r).id == s'.log[|s.log|].row)
  {
    hide O.IsLowest, O.Delay, O.Claims;
  }

  lemma StepPublishesNone(s: O.State, o: O.Step, id: O.RowId)
    requires OP.Inv(s) && id in s.rows && !MayPublish(s, id)
    ensures id in O.Next(s, o).rows && !MayPublish(O.Next(s, o), id)
  {
    hide OP.Inv, O.Next;
    OP.StepKeepsPublished(s, o, id);
    forall r: O.RelayId
      ensures !(O.RelayAt(O.Next(s, o), r).Publishing? && O.RelayAt(O.Next(s, o), r).id == id)
    {
      NobodyPublishes(s, o, id, r);
    }
  }

  // ---- The pipeline ----

  /** The handler can decode the payload. */
  predicate Readable(p: Payload) { 0 <= p.quantity && W.Fits(p) }

  ghost predicate RowMayAnnounce(s: State, ref: string, id: O.RowId) {
    MayPublish(s.outbox, id) && s.outbox.rows[id].content.key == ref && Readable(s.outbox.rows[id].content.payload)
  }

  /** The booking's message lies ahead of the committed offset, or is still to be appended. */
  ghost predicate StillComes(s: State, ref: string) {
    || C.Ahead(s.mailLog, s.mail, ref)
    || (B.TICKET_TOPIC in s.mail.topics && exists id :: RowMayAnnounce(s, ref, id))
  }

  ghost predicate Lost(s: State, ref: string) {
    ref in s.booking.db.tickets && !M.HasRef(s.mail.rows, ref) && !StillComes(s, ref)
  }

  lemma MailingStaysLost(s: State, m: M.Step, ref: string)
    requires Inv(s) && Lost(s, ref)
    ensures Lost(Next(s, Mailing(m)), ref)
  {
    hide BI.Inv, OP.Inv, MP.Inv, M.Next, M.HasRef, C.Ahead;
    MT.ConsumerFacts(s.mailLog, s.mail);
    MT.StepKeepsJudged(s.mailLog, s.mail, m);
    C.StepCreatesNone(s.mailLog, s.mail, m, ref);
    C.StepStaysBehind(s.mailLog, s.mail, m, ref);
    var s' := Next(s, Mailing(m));
    assert forall id :: RowMayAnnounce(s', ref, id) == RowMayAnnounce(s, ref, id);
  }

  /** The commit of another booking brings no row of this one. */
  lemma NewRowIsOther(s: B.State, b: B.Step, ref: string)
    requires BI.Inv(s) && BT.Books(s, b) && ref in s.db.tickets
    ensures !b.Begin? && b.p in s.procs && s.procs[b.p].pc.Queued? && s.procs[b.p].pc.row.key != ref
    ensures ref in B.Next(s, b).db.tickets
  {
    hide BI.Inv;
    BS.InvFacts(s, b.p);
  }

  lemma EnqueuedIsOther(s: O.State, o: O.Step, ref: string, id: O.RowId)
    requires o.Enqueue? && o.content.key != ref
    ensures var s' := O.Next(s, o);
      MayPublish(s', id) && s'.rows[id].content.key == ref ==> MayPublish(s, id) && s'.rows[id] == s.rows[id]
  {
    assert forall r: O.RelayId :: O.RelayAt(O.Next(s, o), r) == O.RelayAt(s, r);
  }

  lemma BookingStaysLost(s: State, b: B.Step, age: nat, ref: string)
    requires Inv(s) && Lost(s, ref)
    ensures Lost(Next(s, Booking(b, age)), ref)
  {
    hide BI.Inv, OP.Inv, MP.Inv, InTune, B.Next, BT.Books, M.HasRef, C.Ahead, Readable;
    var s' := Next(s, Booking(b, age));
    if BT.Books(s.booking, b) {
      NewRowIsOther(s.booking, b, ref);
      var pc := s.booking.procs[b.p].pc;
      forall id ensures RowMayAnnounce(s', ref, id) ==> RowMayAnnounce(s, ref, id) {
        EnqueuedIsOther(s.outbox, O.Enqueue(pc.rowId, pc.row, s.outbox.now - age), ref, id);
      }
    } else {
      BT.OnlyCommitBooks(s.booking, b);
      assert forall id :: RowMayAnnounce(s', ref, id) == RowMayAnnounce(s, ref, id);
    }
  }

  /** A message that reads as a ticket message of the booking came from a row that announces it. */
  lemma MessageFromRow(s: State, o: O.Step, q: Option<Payload>, ref: string)
    requires Inv(s) && !o.Enqueue? && |O.Next(s.outbox, o).log| == |s.outbox.log| + 1
    requires var m := O.Next(s.outbox, o).log[|s.outbox.log|]; Decodes(m, q) && q.Some? && q.value.ref == ref
    ensures O.Next(s.outbox, o).log[|s.outbox.log|].topic == B.TICKET_TOPIC
    ensures exists id :: RowMayAnnounce(s, ref, id)
  {
    hide BI.Inv, OP.Inv, MP.Inv, O.Next, W.Journey, W.Fits;
    var outbox := O.Next(s.outbox, o);
    var m := outbox.log[|s.outbox.log|];
    AppendsPublished(s.outbox, o);
    RelayingFrame(s.outbox, o);
    OP.StepKeepsInv(s.outbox, o);
    LastIsStored(outbox, |s.outbox.log|);
    RowAnnounces(s.booking, m.row);
    W.JourneyFields(m.payload, q.value);
    W.ReadableExactly(m.payload, q);
    assert RowMayAnnounce(s, ref, m.row);
  }

  /** The row of a booking that is lost announces nothing after a relay's step either. */
  lemma RowStaysSilent(s: State, o: O.Step, ref: string, id: O.RowId)
    requires Inv(s) && !o.Enqueue? && !RowMayAnnounce(s, ref, id)
    ensures !RowMayAnnounce(s.(outbox := O.Next(s.outbox, o)), ref, id)
  {
    hide BI.Inv, OP.Inv, MP.Inv, InTune, O.Next, MayPublish, Readable;
    RelayingFrame(s.outbox, o);
    PublishesInRows(O.Next(s.outbox, o), id);
    if id in s.outbox.rows && !MayPublish(s.outbox, id) { StepPublishesNone(s.outbox, o, id); }
  }

  lemma PublishesInRows(s: O.State, id: O.RowId)
    ensures MayPublish(s, id) ==> id in s.rows
  {
  }

  lemma AheadMore(log: seq<M.Message>, mail: M.State, message: M.Message, ref: string)
    requires !C.Ahead(log, mail, ref) && C.Ahead(log + [message], mail, ref)
    ensures message.topic in mail.topics && message.body.Purchased? && message.body.payload.ref == ref
  {
    var log' := log + [message];
    assert forall o: nat :: o < |log| ==> MT.IsTicket(log', mail, o) == MT.IsTicket(log, mail, o);
    var o: nat :| mail.committed <= o < |log'| && MT.IsTicket(log', mail, o) && log'[o].body.payload.ref == ref;
    assert log'[o] == message;
  }

  lemma RelayingStaysLost(s: State, o: O.Step, q: Option<Payload>, ref: string)
    requires Inv(s) && Lost(s, ref)
    ensures Lost(Next(s, Relaying(o, q)), ref)
  {
    hide BI.Inv, OP.Inv, MP.Inv, InTune, O.Next, M.HasRef, C.Ahead, RowMayAnnounce, Decodes;
    var s' := Next(s, Relaying(o, q));
    if s' != s {
      forall id ensures RowMayAnnounce(s', ref, id) ==> RowMayAnnounce(s, ref, id) {
        if !RowMayAnnounce(s, ref, id) {
          RowStaysSilent(s, o, ref, id);
          SameOutbox(s', s.(outbox := s'.outbox), ref, id);
        }
      }
      if s'.mailLog != s.mailLog && C.Ahead(s'.mailLog, s'.mail, ref) {
        var m := s'.outbox.log[|s.outbox.log|];
        AheadMore(s.mailLog, s.mail, Decoded(m, q), ref);
        MessageFromRow(s, o, q, ref);
      }
    }
  }

  lemma SameOutbox(a: State, b: State, ref: string, id: O.RowId)
    requires a.outbox == b.outbox
    ensures RowMayAnnounce(a, ref, id) == RowMayAnnounce(b, ref, id)
  {
  }

  lemma {:induction false} LostStaysLost(s: State, steps: seq<Step>, ref: string)
    requires Inv(s) && Lost(s, ref)
    ensures Lost(Run(s, steps), ref)
    decreases |steps|
  {
    hide Inv, Lost, Next;
    if steps != [] {
      StepKeepsInv(s, steps[0]);
      match steps[0] {
        case Booking(b, age) => BookingStaysLost(s, b, age, ref);
        case Relaying(o, q) => RelayingStaysLost(s, o, q, ref);
        case Mailing(m) => MailingStaysLost(s, m, ref);
      }
      LostStaysLost(Next(s, steps[0]), steps[1..], ref);
    }
  }

  // ---- Bringing the confirmation ----

  lemma {:induction false} RunAppend(s: State, xs: seq<Step>, ys: seq<Step>)
    ensures Run(s, xs + ys) == Run(Run(s, xs), ys)
    decreases |xs|
  {
    hide Next;
    if xs == [] {
      assert xs + ys == ys;
    } else {
      RunAppend(Next(s, xs[0]), xs[1..], ys);
      assert (xs + ys)[1..] == xs[1..] + ys;
    }
  }

  /** A run of the email service inside the pipeline. */
  lemma {:induction false} MailRun(s: State, events: seq<M.Event>) returns (steps: seq<Step>)
    requires C.AllLocal(events)
    ensures Run(s, steps) == s.(mail := M.Run(M.World(s.mailLog, s.mail), events).mail)
    decreases |events|
  {
    hide M.Next;
    if events == [] {
      steps := [];
    } else {
      var step := Mailing(events[0].step);
      var rest := MailRun(Next(s, step), events[1..]);
      steps := [step] + rest;
      assert steps[1..] == rest;
    }
  }

  lemma {:induction false} LogGrows(s: O.State, steps: seq<O.Step>)
    ensures |s.log| <= |O.Run(s, steps).log|
    decreases |steps|
  {
    hide O.Next;
    if steps != [] {
      AppendsPublished(s, steps[0]);
      LogGrows(O.Next(s, steps[0]), steps[1..]);
    }
  }

  /** Relay steps that publish nothing, inside the pipeline. */
  lemma {:induction false} RelayRun(s: State, relaying: seq<O.Step>) returns (steps: seq<Step>)
    requires NoEnqueue(relaying) && O.Run(s.outbox, relaying).log == s.outbox.log
    ensures Run(s, steps) == s.(outbox := O.Run(s.outbox, relaying))
    decreases |relaying|
  {
    hide O.Next, Decodes;
    if relaying == [] {
      steps := [];
    } else {
      var o := relaying[0];
      AppendsPublished(s.outbox, o);
      LogGrows(O.Next(s.outbox, o), relaying[1..]);
      var rest := RelayRun(s.(outbox := O.Next(s.outbox, o)), relaying[1..]);
      steps := [Relaying(o, None)] + rest;
      assert steps[1..] == rest;
    }
  }

  /** The relay that is about to publish the row publishes it. */
  lemma PublishAnnounces(s: State, r: O.RelayId, id: O.RowId, q: Payload)
    requires Inv(s) && O.RelayAt(s.outbox, r).Publishing? && O.RelayAt(s.outbox, r).id == id && id in s.outbox.rows
    requires var p := s.outbox.rows[id].content.payload; 0 <= p.quantity && W.Journey(p, Some(q))
    requires B.TICKET_TOPIC in s.mail.topics
    ensures var s' := Next(s, Relaying(O.Publish(r, Acked), Some(q)));
      s'.mail == s.mail && C.Ahead(s'.mailLog, s'.mail, s.outbox.rows[id].content.key)
  {
    hide BI.Inv, OP.Inv, MP.Inv, W.Journey;
    var content := s.outbox.rows[id].content;
    var outbox := O.Next(s.outbox, O.Publish(r, Acked));
    assert outbox.log == s.outbox.log + [O.MessageOf(id, content)];
    MT.ConsumerFacts(s.mailLog, s.mail);
    RowAnnounces(s.booking, id);
    W.JourneyFields(content.payload, q);
    var s' := Next(s, Relaying(O.Publish(r, Acked), Some(q)));
    assert MT.IsTicket(s'.mailLog, s'.mail, |s.mailLog|);
  }

  /** From an unpublished row, or from a relay about to publish it again, to a message ahead. */
  lemma RowIsAnnounced(s: State, ref: string, id: O.RowId) returns (steps: seq<Step>)
    requires Inv(s) && RowMayAnnounce(s, ref, id) && B.TICKET_TOPIC in s.mail.topics
    ensures var s' := Run(s, steps); s'.mail == s.mail && C.Ahead(s'.mailLog, s'.mail, ref)
  {
    hide Inv, Run, Next, O.Run, C.Ahead, W.Journey, W.Fits;
    var p := s.outbox.rows[id].content.payload;
    var read := W.JourneyExists(p);
    W.ReadableExactly(p, read);
    var q := read.value;
    OutboxInv(s);
    var relaying: seq<O.Step>, r: O.RelayId := [], 0;
    if s.outbox.rows[id].publishedAt.None? {
      relaying, r := UnpublishedIsReadied(s.outbox, id);
    } else {
      r :| O.RelayAt(s.outbox, r).Publishing? && O.RelayAt(s.outbox, r).id == id;
      assert O.Run(s.outbox, []) == s.outbox by { EmptyRun(s.outbox); }
    }
    steps := RelayRun(s, relaying);
    var s1 := Run(s, steps);
    RunKeepsInv(s, steps);
    ContentStays(s.outbox, relaying, id);
    PublishAnnounces(s1, r, id, q);
    RunSnoc(s, steps, Relaying(O.Publish(r, Acked), Some(q)));
    steps := steps + [Relaying(O.Publish(r, Acked), Some(q))];
  }

  lemma OutboxInv(s: State)
    requires Inv(s)
    ensures OP.Inv(s.outbox)
  {
  }

  lemma EmptyRun(s: O.State)
    ensures O.Run(s, []) == s
  {
  }

  lemma RunSnoc(s: State, steps: seq<Step>, step: Step)
    ensures Run(s, steps + [step]) == Next(Run(s, steps), step)
  {
    hide Next;
    RunAppend(s, steps, [step]);
    assert [step][1..] == [];
  }

  lemma {:induction false} ContentStays(s: O.State, steps: seq<O.Step>, id: O.RowId)
    requires NoEnqueue(steps) && id in s.rows
    ensures id in O.Run(s, steps).rows && O.Run(s, steps).rows[id].content == s.rows[id].content
    decreases |steps|
  {
    hide O.Next;
    if steps != [] {
      RelayingFrame(s, steps[0]);
      ContentStays(O.Next(s, steps[0]), steps[1..], id);
    }
  }

  lemma ConfirmationComes(s: State, ref: string) returns (steps: seq<Step>)
    requires Inv(s) && !M.HasRef(s.mail.rows, ref) && StillComes(s, ref)
    ensures M.HasRef(Run(s, steps).mail.rows, ref)
  {
    hide Inv, Run, M.Run, M.HasRef, C.Ahead, C.AllLocal, RowMayAnnounce;
    steps := [];
    if !C.Ahead(s.mailLog, s.mail, ref) {
      var id :| RowMayAnnounce(s, ref, id);
      steps := RowIsAnnounced(s, ref, id);
    } else {
      assert Run(s, []) == s by { NoSteps(s); }
    }
    var s1 := Run(s, steps);
    var events := C.AheadCanCome(M.World(s1.mailLog, s1.mail), ref);
    var more := MailRun(s1, events);
    RunAppend(s, steps, more);
    steps := steps + more;
  }

  lemma NoSteps(s: State)
    ensures Run(s, []) == s
  {
  }

  /** Main result, exactly which committed bookings can still be confirmed: in every reachable
      state of the pipeline, a booking without a status row gets one in some continuation if
      and only if a ticket message of it lies at or above the committed offset, or its topic is
      registered, its numbers fit the handler's integer types, and its outbox row is unpublished
      or in the hands of a relay that is about to publish it. */
  lemma ConfirmationStillComesExactly(init: State, steps: seq<Step>, ref: string)
    requires Initial(init)
    requires var s := Run(init, steps); ref in s.booking.db.tickets && !M.HasRef(s.mail.rows, ref)
    ensures var s := Run(init, steps);
      (exists more: seq<Step> :: M.HasRef(Run(s, more).mail.rows, ref)) <==> StillComes(s, ref)
  {
    hide Inv, Run, M.HasRef, StillComes;
    var s := Run(init, steps);
    InitialInv(init);
    RunKeepsInv(init, steps);
    if StillComes(s, ref) {
      var more := ConfirmationComes(s, ref);
    } else {
      forall more: seq<Step> ensures !M.HasRef(Run(s, more).mail.rows, ref) {
        LostStaysLost(s, more, ref);
      }
    }
  }
}
