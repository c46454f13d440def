/** Safety of the email service over every run: any duplication of messages, any restart,
    any lost answer, any interleaving of the consumer with the retry loop. */
module MailProofs {
  import opened Basics
  import opened MailModel

  ghost predicate FromLog(log: seq<Message>, row: Row) {
    exists o :: 0 <= o < |log| && log[o].body.Purchased? && log[o].body.payload.ref == row.ref
        && log[o].body.payload.user == row.user
  }

  /** Facts about one status row. */
  ghost predicate RowOk(log: seq<Message>, s: State, id: MailId)
    requires id in s.rows
  {
    var row := s.rows[id];
    && id < s.nextId && FromLog(log, row)
    && row.retryCount == 0 && row.status != Dead
    && (row.status == Sent ==> Delivery(row.ref, row.recipient) in s.delivered)
  }

  ghost predicate RowsOk(log: seq<Message>, s: State) {
    && (forall id :: id in s.rows ==> RowOk(log, s, id))
    && (forall i, j :: i in s.rows && j in s.rows && i != j ==> s.rows[i].ref != s.rows[j].ref)
  }

  ghost predicate NoDuplicates(xs: seq<string>) {
    forall i, j :: 0 <= i < j < |xs| ==> xs[i] != xs[j]
  }

  ghost predicate SendsOk(s: State) {
    && NoDuplicates(s.handlerSends)
    && (forall ref :: ref in s.handlerSends ==> HasRef(s.rows, ref))
    && (forall d :: d in s.delivered ==> HasRef(s.rows, d.ref))
  }

  /** What the consumer relies on at each point of handling a message. */
  ghost predicate ConsumerOk(log: seq<Message>, s: State) {
    var c := s.consumer;
    && s.committed <= s.position <= |log|
    && (!c.Reading? ==> c.off + 1 == s.position && s.committed <= c.off)
    && (!c.Reading? && !c.Committing? ==>
        log[c.off] == Message(log[c.off].topic, Purchased(c.pay)) && log[c.off].topic in s.topics)
    && (c.Fetching? || c.Creating? ==> !HasRef(s.rows, c.pay.ref))
    && (c.Sending? ==>
          && c.id in s.rows && s.rows[c.id].ref == c.pay.ref && s.rows[c.id].recipient == c.to
          && c.pay.ref !in s.handlerSends)
    && (c.Recording? ==>
          && c.id in s.rows && s.rows[c.id].ref == c.pay.ref && (c.status == Sent || c.status == Failed)
          && (c.status == Sent ==> Delivery(c.pay.ref, s.rows[c.id].recipient) in s.delivered))
  }

  /** A verdict tells the truth about the message; a handled booking has its status row. */
  ghost predicate VerdictOk(log: seq<Message>, s: State, o: nat, v: Verdict)
    requires o < |log|
  {
    match v
    case Handled => log[o].topic in s.topics && log[o].body.Purchased? && HasRef(s.rows, log[o].body.payload.ref)
    case NoHandler => log[o].topic !in s.topics
    case Undecodable => log[o].topic in s.topics && log[o].body == Garbled
    case HandlerError => log[o].topic in s.topics && log[o].body != Garbled
  }

  /** The message at `o` is being handled right now. */
  predicate Busy(s: State, o: nat) { !s.consumer.Reading? && !s.consumer.Committing? && s.consumer.off == o }

  ghost predicate VerdictsOk(log: seq<Message>, s: State) {
    && (forall o :: 0 <= o < s.position && !Busy(s, o) ==> o in s.verdicts && s.verdicts[o] != {})
    && (forall o, v :: o in s.verdicts && v in s.verdicts[o] ==> o < |log| && VerdictOk(log, s, o, v))
  }

  ghost predicate RecordOk(s: State, r: Record) {
    r.id in s.rows && r.row.ref == s.rows[r.id].ref && r.row.recipient == s.rows[r.id].recipient
        && r.row.retryCount == 0
  }

  ghost predicate RetrierOk(s: State) {
    var w := s.retrier;
    && (!w.Sleeping? ==> forall i :: 0 <= i < |w.queue| ==> RecordOk(s, w.queue[i]))
    && (w.Updating? ==>
          && w.id in s.rows && (w.status == Sent || w.status == Failed)
          && (w.status == Sent ==> Delivery(s.rows[w.id].ref, s.rows[w.id].recipient) in s.delivered))
  }

  ghost predicate Inv(log: seq<Message>, s: State) {
    RowsOk(log, s) && SendsOk(s) && ConsumerOk(log, s) && VerdictsOk(log, s) && RetrierOk(s)
  }

  lemma InitialInv(log: seq<Message>, s: State)
    requires Initial(s)
    ensures Inv(log, s)
  {
  }

  lemma InsertHasRef(s: State, pay: Payload, to: string)
    requires s.nextId !in s.rows
    ensures forall ref :: HasRef(Insert(s, pay, to).rows, ref) <==> HasRef(s.rows, ref) || ref == pay.ref
  {
    var rows := Insert(s, pay, to).rows;
    assert rows[s.nextId].ref == pay.ref;
    assert forall id :: id in s.rows ==> rows[id] == s.rows[id];
  }

  lemma UpdateHasRef(s: State, id: MailId, status: Status)
    ensures forall ref :: HasRef(UpdateStatus(s, id, status).rows, ref) <==> HasRef(s.rows, ref)
  {
    var rows := UpdateStatus(s, id, status).rows;
    assert forall i :: i in s.rows ==> rows[i].ref == s.rows[i].ref;
    assert forall i :: i in rows ==> rows[i].ref == s.rows[i].ref;
  }

  /** A truthful status update keeps everything else as it was. */
  lemma UpdateKeepsInv(log: seq<Message>, s: State, id: MailId, status: Status)
    requires Inv(log, s) && id in s.rows && status != Dead
    requires status == Sent ==> Delivery(s.rows[id].ref, s.rows[id].recipient) in s.delivered
    ensures Inv(log, UpdateStatus(s, id, status))
  {
    hide HasRef, FromLog;
    var s' := UpdateStatus(s, id, status);
    UpdateHasRef(s, id, status);
    forall i | i in s'.rows ensures RowOk(log, s', i) {
      UpdateKeepsRow(log, s, id, status, i);
    }
    assert ConsumerOk(log, s');
    forall o, v | o in s'.verdicts && v in s'.verdicts[o]
      ensures o < |log| && VerdictOk(log, s', o, v)
    {
      assert VerdictOk(log, s, o, v);
    }
  }

  lemma UpdateKeepsRow(log: seq<Message>, s: State, id: MailId, status: Status, i: MailId)
    requires id in s.rows && i in s.rows && RowOk(log, s, i) && status != Dead
    requires status == Sent ==> Delivery(s.rows[id].ref, s.rows[id].recipient) in s.delivered
    ensures RowOk(log, UpdateStatus(s, id, status), i)
  {
    var s' := UpdateStatus(s, id, status);
    assert s'.rows[i].ref == s.rows[i].ref && s'.rows[i].user == s.rows[i].user;
  }

  /** The loop moves on from the message at `off` with a truthful verdict. */
  lemma JudgeKeepsInv(log: seq<Message>, s: State, off: nat, v: Verdict, next: Consumer)
    requires RowsOk(log, s) && SendsOk(s) && RetrierOk(s)
    requires s.committed <= off && off + 1 == s.position <= |log| && VerdictOk(log, s, off, v)
    requires next.Reading? || next == Committing(off)
    requires forall o :: 0 <= o < off ==> o in s.verdicts && s.verdicts[o] != {}
    requires forall o, u :: o in s.verdicts && u in s.verdicts[o] ==> o < |log| && VerdictOk(log, s, o, u)
    ensures Inv(log, Judge(s, off, v, next))
  {
    hide HasRef, FromLog;
    var s' := Judge(s, off, v, next);
    forall o, u | o in s'.verdicts && u in s'.verdicts[o]
      ensures o < |log| && VerdictOk(log, s', o, u)
    {
      assert o in s.verdicts && u in s.verdicts[o] ==> VerdictOk(log, s, o, u);
    }
    assert RowsOk(log, s') by {
      forall i | i in s'.rows ensures RowOk(log, s', i) {
        assert RowOk(log, s, i);
      }
    }
  }

  lemma VerdictParts(log: seq<Message>, s: State)
    requires Inv(log, s)
    ensures RowsOk(log, s) && SendsOk(s) && RetrierOk(s) && ConsumerOk(log, s)
    ensures forall o :: 0 <= o < s.position && !Busy(s, o) ==> o in s.verdicts && s.verdicts[o] != {}
    ensures forall o, u :: o in s.verdicts && u in s.verdicts[o] ==> o < |log| && VerdictOk(log, s, o, u)
  {
  }

  /** A step of the consumer alone that records no verdict. */
  lemma ConsumerMoveKeepsInv(log: seq<Message>, s: State, s': State)
    requires Inv(log, s) && s' == s.(consumer := s'.consumer, position := s'.position)
    requires ConsumerOk(log, s')
    requires forall o :: 0 <= o < s'.position && !Busy(s', o) ==> o in s.verdicts && s.verdicts[o] != {}
    ensures Inv(log, s')
  {
    hide HasRef, FromLog;
    forall i | i in s'.rows ensures RowOk(log, s', i) {
      assert RowOk(log, s, i);
    }
    forall o, u | o in s'.verdicts && u in s'.verdicts[o]
      ensures o < |log| && VerdictOk(log, s', o, u)
    {
      assert VerdictOk(log, s, o, u);
    }
  }

  lemma ReadKeepsInv(log: seq<Message>, s: State)
    requires Inv(log, s) && s.consumer.Reading? && s.position < |log|
    ensures Inv(log, DoRead(log, s))
  {
    hide Inv, HasRef, FromLog, RowsOk, SendsOk, RetrierOk;
    VerdictParts(log, s);
    var off := s.position;
    var s1 := s.(position := off + 1);
    ReadAhead(log, s, s1);
    if log[off].topic !in s.topics {
      JudgeKeepsInv(log, s1, off, NoHandler, Reading);
    } else {
      match log[off].body
      case Garbled => JudgeKeepsInv(log, s1, off, Undecodable, Reading);
      case Unreadable => JudgeKeepsInv(log, s1, off, HandlerError, Reading);
      case Purchased(pay) => ConsumerMoveKeepsInv(log, s, DoRead(log, s));
    }
  }

  /** The invariant's other parts do not depend on the read position. */
  lemma ReadAhead(log: seq<Message>, s: State, s1: State)
    requires RowsOk(log, s) && SendsOk(s) && RetrierOk(s) && s1 == s.(position := s1.position)
    requires forall o, u :: o in s.verdicts && u in s.verdicts[o] ==> o < |log| && VerdictOk(log, s, o, u)
    ensures RowsOk(log, s1) && SendsOk(s1) && RetrierOk(s1)
    ensures forall o, u :: o in s1.verdicts && u in s1.verdicts[o] ==> o < |log| && VerdictOk(log, s1, o, u)
  {
    hide HasRef, FromLog;
    forall i | i in s1.rows ensures RowOk(log, s1, i) {
      assert RowOk(log, s, i);
    }
    forall o, u | o in s1.verdicts && u in s1.verdicts[o]
      ensures o < |log| && VerdictOk(log, s1, o, u)
    {
      assert VerdictOk(log, s, o, u);
    }
  }

  lemma FindKeepsInv(log: seq<Message>, s: State, fails: bool)
    requires Inv(log, s) && s.consumer.Finding?
    ensures Inv(log, DoFind(s, fails))
  {
    hide Inv, HasRef, FromLog, RowsOk, SendsOk, RetrierOk;
    VerdictParts(log, s);
    var Finding(off, pay) := s.consumer;
    if fails {
      JudgeKeepsInv(log, s, off, HandlerError, Reading);
    } else if HasRef(s.rows, pay.ref) {
      JudgeKeepsInv(log, s, off, Handled, Committing(off));
    } else {
      ConsumerMoveKeepsInv(log, s, DoFind(s, fails));
    }
  }

  lemma FetchKeepsInv(log: seq<Message>, s: State, email: Option<string>)
    requires Inv(log, s) && s.consumer.Fetching?
    ensures Inv(log, DoFetch(s, email))
  {
    hide Inv, HasRef, FromLog, RowsOk, SendsOk, RetrierOk;
    VerdictParts(log, s);
    if email.None? {
      JudgeKeepsInv(log, s, s.consumer.off, HandlerError, Reading);
    } else {
      ConsumerMoveKeepsInv(log, s, DoFetch(s, email));
    }
  }

  /** A new row for a booking that has none, while the consumer stands at Finding: no point
      before the insert relies on the row's absence. */
  lemma InsertKeepsInv(log: seq<Message>, s: State, pay: Payload, to: string)
    requires Inv(log, s) && s.consumer.Finding? && s.consumer.pay == pay && !HasRef(s.rows, pay.ref)
    ensures Inv(log, Insert(s, pay, to))
  {
    hide FromLog;
    var s' := Insert(s, pay, to);
    assert s.nextId !in s.rows;
    InsertHasRef(s, pay, to);
    forall i | i in s'.rows ensures RowOk(log, s', i) {
      InsertKeepsRow(log, s, pay, to, i);
    }
    forall o, v | o in s'.verdicts && v in s'.verdicts[o]
      ensures o < |log| && VerdictOk(log, s', o, v)
    {
      assert VerdictOk(log, s, o, v);
    }
  }

  lemma InsertKeepsRow(log: seq<Message>, s: State, pay: Payload, to: string, i: MailId)
    requires ConsumerOk(log, s) && s.consumer.Finding? && s.consumer.pay == pay
    requires i in Insert(s, pay, to).rows && (i in s.rows && i != s.nextId ==> RowOk(log, s, i))
    ensures RowOk(log, Insert(s, pay, to), i)
  {
    if i == s.nextId {
      assert log[s.consumer.off].body.payload == pay;
    }
  }

  lemma CreateKeepsInv(log: seq<Message>, s: State, ack: Ack)
    requires Inv(log, s) && s.consumer.Creating?
    ensures Inv(log, DoCreate(s, ack))
  {
    hide Inv, HasRef, FromLog, RowsOk, SendsOk, RetrierOk;
    VerdictParts(log, s);
    var Creating(off, pay, to) := s.consumer;
    var s0 := s.(consumer := Finding(off, pay));
    ConsumerMoveKeepsInv(log, s, s0);
    InsertKeepsInv(log, s0, pay, to);
    var s1 := if ack.Applied() then Insert(s0, pay, to) else s0;
    VerdictParts(log, s1);
    if ack.Acked? {
      NotSentBefore(log, s, pay.ref);
      ConsumerMoveKeepsInv(log, s1, DoCreate(s, ack));
    } else {
      JudgeKeepsInv(log, s1, off, HandlerError, Reading);
    }
  }

  lemma NotSentBefore(log: seq<Message>, s: State, ref: string)
    requires Inv(log, s) && !HasRef(s.rows, ref)
    ensures ref !in s.handlerSends
  {
  }

  lemma SendKeepsInv(log: seq<Message>, s: State, ok: bool)
    requires Inv(log, s) && s.consumer.Sending?
    ensures Inv(log, DoSend(s, ok))
  {
    hide FromLog;
    var s' := DoSend(s, ok);
    assert HasRef(s.rows, s.consumer.pay.ref);
    forall i | i in s'.rows ensures RowOk(log, s', i) {
      assert RowOk(log, s, i);
    }
    forall o, v | o in s'.verdicts && v in s'.verdicts[o]
      ensures o < |log| && VerdictOk(log, s', o, v)
    {
      assert VerdictOk(log, s, o, v);
    }
  }

  lemma StoreKeepsInv(log: seq<Message>, s: State, ack: Ack)
    requires Inv(log, s) && s.consumer.Recording?
    ensures Inv(log, DoStore(s, ack))
  {
    hide Inv, FromLog, RowsOk, SendsOk, RetrierOk;
    VerdictParts(log, s);
    var Recording(off, pay, id, status) := s.consumer;
    UpdateKeepsInv(log, s, id, status);
    var s1 := if ack.Applied() then UpdateStatus(s, id, status) else s;
    VerdictParts(log, s1);
    assert s1.rows[id].ref == pay.ref && HasRef(s1.rows, pay.ref);
    if ack.Acked? {
      JudgeKeepsInv(log, s1, off, Handled, Committing(off));
    } else {
      JudgeKeepsInv(log, s1, off, HandlerError, Reading);
    }
  }

  lemma CommitOffsetKeepsInv(log: seq<Message>, s: State, ack: Ack)
    requires Inv(log, s) && s.consumer.Committing?
    ensures Inv(log, DoCommitOffset(s, ack))
  {
    hide HasRef, FromLog;
    var s' := DoCommitOffset(s, ack);
    forall i | i in s'.rows ensures RowOk(log, s', i) {
      assert RowOk(log, s, i);
    }
    forall o, v | o in s'.verdicts && v in s'.verdicts[o]
      ensures o < |log| && VerdictOk(log, s', o, v)
    {
      assert VerdictOk(log, s, o, v);
    }
  }

  lemma RestartKeepsInv(log: seq<Message>, s: State)
    requires Inv(log, s)
    ensures Inv(log, s.(consumer := Reading, position := s.committed))
  {
    hide Inv, HasRef, FromLog, RowsOk, SendsOk, RetrierOk;
    VerdictParts(log, s);
    ConsumerMoveKeepsInv(log, s, s.(consumer := Reading, position := s.committed));
  }

  /** A step of the retry loop or the clock that writes no row. */
  lemma RetrierMoveKeepsInv(log: seq<Message>, s: State, s': State)
    requires Inv(log, s)
    requires s' == s.(retrier := s'.retrier, now := s'.now, delivered := s'.delivered, retrySends := s'.retrySends)
    requires RetrierOk(s') && (forall d :: d in s.delivered ==> d in s'.delivered)
    requires forall d :: d in s'.delivered ==> HasRef(s.rows, d.ref)
    ensures Inv(log, s')
  {
    hide HasRef, FromLog;
    forall i | i in s'.rows ensures RowOk(log, s', i) {
      assert RowOk(log, s, i);
    }
    forall o, v | o in s'.verdicts && v in s'.verdicts[o]
      ensures o < |log| && VerdictOk(log, s', o, v)
    {
      assert VerdictOk(log, s, o, v);
    }
  }

  lemma RetrierParts(log: seq<Message>, s: State)
    requires Inv(log, s)
    ensures RetrierOk(s) && (forall d :: d in s.delivered ==> HasRef(s.rows, d.ref))
    ensures forall id :: id in s.rows ==> s.rows[id].retryCount == 0
  {
    assert forall id :: id in s.rows ==> RowOk(log, s, id);
  }

  lemma PollKeepsInv(log: seq<Message>, s: State, order: seq<MailId>)
    requires Inv(log, s) && s.retrier.Sleeping? && IsListing(s.rows, order)
    ensures Inv(log, s.(retrier := Working(RecordsOf(s.rows, order))))
  {
    hide Inv, HasRef;
    RetrierParts(log, s);
    RetrierMoveKeepsInv(log, s, s.(retrier := Working(RecordsOf(s.rows, order))));
  }

  lemma RetryHeadKeepsInv(log: seq<Message>, s: State, ok: bool)
    requires Inv(log, s) && s.retrier.Working?
    ensures Inv(log, DoRetryHead(s, ok))
  {
    hide Inv;
    RetrierParts(log, s);
    var s' := DoRetryHead(s, ok);
    if s.retrier.queue != [] {
      assert RecordOk(s, s.retrier.queue[0]);
    }
    RetrierMoveKeepsInv(log, s, s');
  }

  lemma RetryRecordKeepsInv(log: seq<Message>, s: State, ack: Ack)
    requires Inv(log, s) && s.retrier.Updating?
    ensures Inv(log, DoRetryRecord(s, ack))
  {
    hide Inv, HasRef;
    RetrierParts(log, s);
    UpdateKeepsInv(log, s, s.retrier.id, s.retrier.status);
    var s1 := if ack.Applied() then UpdateStatus(s, s.retrier.id, s.retrier.status) else s;
    RetrierParts(log, s1);
    RetrierMoveKeepsInv(log, s1, DoRetryRecord(s, ack));
  }

  lemma AppendKeepsInv(log: seq<Message>, s: State, message: Message)
    requires Inv(log, s)
    ensures Inv(log + [message], s)
  {
    hide HasRef;
    var log' := log + [message];
    forall i | i in s.rows ensures RowOk(log', s, i) {
      assert RowOk(log, s, i);
      var o :| 0 <= o < |log| && log[o].body.Purchased? && log[o].body.payload.ref == s.rows[i].ref
          && log[o].body.payload.user == s.rows[i].user;
      assert log'[o] == log[o];
    }
    forall o, v | o in s.verdicts && v in s.verdicts[o]
      ensures o < |log'| && VerdictOk(log', s, o, v)
    {
      assert VerdictOk(log, s, o, v);
    }
  }

  lemma StepKeepsInv(log: seq<Message>, s: State, step: Step)
    requires Inv(log, s)
    ensures Inv(log, Next(log, s, step))
  {
    hide Inv, DoRead, DoFind, DoFetch, DoCreate, DoSend, DoStore, DoCommitOffset, DoRetryHead, DoRetryRecord, IsListing;
    if Enabled(log, s, step) {
      match step
      case Read => ReadKeepsInv(log, s);
      case Find(fails) => FindKeepsInv(log, s, fails);
      case Fetch(email) => FetchKeepsInv(log, s, email);
      case Create(ack) => CreateKeepsInv(log, s, ack);
      case Send(ok) => SendKeepsInv(log, s, ok);
      case Store(ack) => StoreKeepsInv(log, s, ack);
      case CommitOffset(ack) => CommitOffsetKeepsInv(log, s, ack);
      case Restart => RestartKeepsInv(log, s);
      case Poll(order) => PollKeepsInv(log, s, order);
      case RetryHead(ok) => RetryHeadKeepsInv(log, s, ok);
      case RetryRecord(ack) => RetryRecordKeepsInv(log, s, ack);
      case RetryDies => RetrierParts(log, s); RetrierMoveKeepsInv(log, s, s.(retrier := Sleeping));
      case Tick(seconds) => RetrierParts(log, s); RetrierMoveKeepsInv(log, s, s.(now := s.now + seconds));
    }
  }

  lemma {:induction false} RunKeepsInv(w: World, events: seq<Event>)
    requires Inv(w.log, w.mail)
    ensures Inv(Run(w, events).log, Run(w, events).mail)
    decreases |events|
  {
    hide Inv, Next;
    if events != [] {
      EventKeepsInv(w, events[0]);
      RunKeepsInv(NextWorld(w, events[0]), events[1..]);
    }
  }

  lemma EventKeepsInv(w: World, event: Event)
    requires Inv(w.log, w.mail)
    ensures Inv(NextWorld(w, event).log, NextWorld(w, event).mail)
  {
    hide Inv, Next;
    match event
    case Append(message) => AppendKeepsInv(w.log, w.mail, message);
    case Local(step) => StepKeepsInv(w.log, w.mail, step);
  }
}
