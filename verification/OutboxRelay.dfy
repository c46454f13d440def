/** The relay's own loop over a mutable table: publishOne, retry and the drain inside Run,
    with every database answer and broker answer left open. */
module OutboxRelay {
  import opened Basics
  import opened OutboxModel
  import opened OutboxProofs
  import opened OutboxTiming

  function Eligible(s: State): set<RowId> {
    set id | id in s.rows && IsEligible(s.rows[id], s.now)
  }

  // ---- Ids in increasing order ----

  ghost predicate IsMin(ids: set<RowId>, m: RowId) { m in ids && forall i :: i in ids ==> m <= i }

  lemma {:induction false} MinExists(ids: set<RowId>) returns (m: RowId)
    requires ids != {}
    ensures IsMin(ids, m)
    decreases ids
  {
    m :| m in ids;
    if ids != {m} {
      var rest := MinExists(ids - {m});
      assert forall i :: i in ids ==> i == m || i in ids - {m};
      if rest < m { m := rest; }
    }
  }

  ghost function Min1(ids: set<RowId>): (m: RowId)
    requires ids != {}
    ensures IsMin(ids, m)
  {
    assert exists m :: IsMin(ids, m) by { var m := MinExists(ids); }
    var m :| IsMin(ids, m);
    m
  }

  /** The ids from the least to the greatest. */
  ghost function Sorted(ids: set<RowId>): (r: seq<RowId>)
    ensures forall i :: i in r <==> i in ids
    ensures forall i, j :: 0 <= i < j < |r| ==> r[i] < r[j]
    decreases ids
  {
    if ids == {} then [] else [Min1(ids)] + Sorted(ids - {Min1(ids)})
  }

  function MessagesOf(rows: map<RowId, Row>, ids: seq<RowId>): seq<Message>
    requires forall i :: i in ids ==> i in rows
  {
    seq(|ids|, i requires 0 <= i < |ids| => MessageOf(ids[i], rows[ids[i]].content))
  }

  /** Some row can be selected. */
  ghost predicate HasLowest(s: State) { exists i :: IsLowest(s, i) }

  /** A row that is eligible can be selected unless other transactions lock such rows. */
  lemma LowestExists(s: State)
    requires Eligible(s) != {} && s.rowLocks == map[]
    ensures HasLowest(s)
  {
    var m := Min1(Eligible(s));
    forall i | i in s.rows && i < m && i !in s.rowLocks
      ensures !IsEligible(s.rows[i], s.now)
    {
      assert i !in Eligible(s);
    }
    assert IsLowest(s, m);
  }

  /** What one call of publishOne by `r` may do to the table: nothing but to row `id`. */
  ghost predicate OnlyRow(s: State, s': State, r: RelayId, id: RowId) {
    && s'.now == s.now && s'.rowLocks == s.rowLocks && s'.rows.Keys == s.rows.Keys
    && (forall q: RelayId :: q != r ==> RelayAt(s', q) == RelayAt(s, q)) && RelayAt(s', r).Idle?
    && (forall i :: i in s.rows && i != id ==> s'.rows[i] == s.rows[i])
    && (id in s.rows ==> s'.rows[id].content == s.rows[id].content)
  }

  /** What the database and the broker answer to the statements of one publishOne: whether
      the SELECT and the lease succeed, how the claim's COMMIT ends, whether the stored
      envelope decodes, what the broker says, and how the last UPDATE ends. */
  datatype Replies = Replies(selects: bool, leases: bool, claim: Ack, decodes: bool, sent: Ack, stored: Ack) {
    predicate Claiming() { selects && leases && claim.Acked? }
    predicate Sending() { decodes && sent.Acked? }
    predicate AllGood() { Claiming() && Sending() && stored.Acked? }
  }

  /** A row after a claim at `now`. */
  function Leased(row: Row, now: int): Row { row.(attempts := row.attempts + 1, lockedUntil := Some(now + 120)) }

  /** A claimed row after its k-th attempt: published, or put off by two to the power of k
      seconds, 256 at most; or still leased, if nothing was written. */
  function Settled(row: Row, now: int, k: nat, replies: Replies): Row {
    if !replies.stored.Applied() then row
    else if replies.Sending() then row.(publishedAt := Some(now), lockedUntil := None)
    else row.(lockedUntil := None, availableAt := now + POWERS[Min(k, 8)])
  }

  /** What the broker has got by then. */
  function Sent(id: RowId, row: Row, replies: Replies): seq<Message> {
    if replies.decodes && replies.sent.Applied()
    then [Message(id, row.content.topic, row.content.key, row.content.payload)] else []
  }

  /** A row that was claimed, sent and marked at `now`. */
  function Done(row: Row, now: int): Row {
    row.(attempts := row.attempts + 1, lockedUntil := None, publishedAt := Some(now))
  }

  lemma SettledDone(row: Row, now: int, replies: Replies)
    requires replies.AllGood()
    ensures Settled(Leased(row, now), now, row.attempts + 1, replies) == Done(row, now)
    ensures forall id :: Sent(id, row, replies) == [MessageOf(id, row.content)]
  {
  }

  lemma SettledIsNotEligible(row: Row, now: int, k: nat, replies: Replies)
    requires row.lockedUntil.Some? && now <= row.lockedUntil.value
    ensures !IsEligible(Settled(row, now, k, replies), now)
  {
  }

  class Outbox {
    var now: int
    var rows: map<RowId, Row>
    var rowLocks: map<RowId, RelayId>
    var relays: map<RelayId, Relay>
    var log: seq<Message>
    var claims: map<RowId, seq<int>>
    var calls: map<RowId, seq<nat>>

    function View(): State
      reads this
    {
      State(now, rows, rowLocks, relays, log, claims, calls)
    }

    /** SELECT ... FOR UPDATE SKIP LOCKED. */
    method SelectNext(r: RelayId) returns (id: Option<RowId>, attempts: nat)
      requires RelayAt(View(), r).Idle?
      modifies this
      ensures id.Some? ==>
                && IsLowest(old(View()), id.value) && attempts == old(rows)[id.value].attempts
                && View() == Next(old(View()), Select(r, id.value))
      ensures id.None? ==> View() == old(View()) && forall i :: !IsLowest(View(), i)
    {
      if i :| i in rows && IsLowest(View(), i) {
        attempts := rows[i].attempts;
        relays := relays[r := Selected(i, attempts)];
        rowLocks := rowLocks[i := r];
        id := Some(i);
      } else {
        id, attempts := None, 0;
      }
    }

    /** UPDATE ... SET locked_until, attempts; then COMMIT, whose answer may be lost. */
    method LeaseAndCommit(r: RelayId, id: RowId, attempts: nat, ack: Ack)
      requires RelayAt(View(), r) == Selected(id, attempts) && id in rows
      modifies this
      ensures View() == Run(old(View()), [Lease(r), CommitClaim(r, ack)])
    {
      hide Run, Next;
      var s := View();
      RunTwo(s, Lease(r), CommitClaim(r, ack));
      var until := now + LEASE;
      if ack.Applied() {
        rows := rows[id := rows[id].(lockedUntil := Some(until), attempts := rows[id].attempts + 1)];
        claims := claims[id := Claims(s, id) + [now]];
      }
      rowLocks := Without(rowLocks, r);
      relays := relays[r := if ack.Acked? then Publishing(id, attempts + 1, until) else Idle];
      assert until - LEASE == now;
      LeaseThenCommit(s, r, ack);
    }

    /** PublishEnvelope: append and acknowledge, or fail with or without having appended. */
    method Send(r: RelayId, id: RowId, k: nat, until: int, ack: Ack)
      requires RelayAt(View(), r) == Publishing(id, k, until) && id in rows
      modifies this
      ensures View() == Next(old(View()), Publish(r, ack))
      ensures now == old(now) && rowLocks == old(rowLocks) && relays == old(relays)[r := RelayAt(View(), r)]
      ensures rows == old(rows) && log == old(log) + if ack.Applied() then [MessageOf(id, rows[id].content)] else []
      ensures RelayAt(View(), r) == if ack.Acked? then Marking(id, k, until) else Retrying(id, k, until)
    {
      calls := calls[id := Calls(View(), id) + [k]];
      if ack.Applied() { log := log + [MessageOf(id, rows[id].content)]; }
      relays := relays[r := if ack.Acked? then Marking(id, k, until) else Retrying(id, k, until)];
    }

    /** The stored envelope does not decode. */
    method Undecodable(r: RelayId, id: RowId, k: nat, until: int)
      requires RelayAt(View(), r) == Publishing(id, k, until)
      modifies this`relays
      ensures View() == Next(old(View()), DecodeFails(r)) && relays == old(relays)[r := Retrying(id, k, until)]
    {
      relays := relays[r := Retrying(id, k, until)];
    }

    /** UPDATE ... SET published_at = now, locked_until = NULL WHERE id. */
    method MarkPublished(r: RelayId, id: RowId, k: nat, until: int, ack: Ack)
      requires RelayAt(View(), r) == Marking(id, k, until) && id in rows && id !in rowLocks
      modifies this
      ensures View() == Next(old(View()), Mark(r, ack))
      ensures now == old(now) && log == old(log) && rowLocks == Without(old(rowLocks), r)
                && relays == old(relays)[r := Idle]
      ensures rows == if ack.Applied() then old(rows[id := rows[id].(publishedAt := Some(now), lockedUntil := None)])
                else old(rows)
    {
      if ack.Applied() {
        rows := rows[id := rows[id].(publishedAt := Some(now), lockedUntil := None)];
      }
      relays := relays[r := Idle];
      rowLocks := Without(rowLocks, r);
    }

    /** retry: UPDATE ... SET locked_until = NULL, available_at = now + delay WHERE id. */
    method Reschedule(r: RelayId, id: RowId, k: nat, until: int, ack: Ack)
      requires RelayAt(View(), r) == Retrying(id, k, until) && id in rows && id !in rowLocks
      modifies this
      ensures View() == Next(old(View()), Retry(r, ack))
      ensures now == old(now) && log == old(log) && rowLocks == Without(old(rowLocks), r)
                && relays == old(relays)[r := Idle]
      ensures rows == if ack.Applied()
                then old(rows[id := rows[id].(lockedUntil := None, availableAt := now + Delay(k))]) else old(rows)
    {
      var delaySeconds := Min(Pow2(Min(k, 8)), 300);
      if ack.Applied() {
        rows := rows[id := rows[id].(lockedUntil := None, availableAt := now + delaySeconds)];
      }
      relays := relays[r := Idle];
      rowLocks := Without(rowLocks, r);
    }

    /** The deferred rollback of a claim that met an error. */
    method Rollback(r: RelayId)
      requires !RelayAt(View(), r).Idle?
      modifies this
      ensures View() == Next(old(View()), Die(r))
    {
      relays := relays[r := Idle];
      rowLocks := Without(rowLocks, r);
    }
  }

  lemma LeaseThenCommit(s: State, r: RelayId, ack: Ack)
    requires RelayAt(s, r).Selected? && RelayAt(s, r).id in s.rows
    ensures var id := RelayAt(s, r).id;
      var s' := Next(Next(s, Lease(r)), CommitClaim(r, ack));
      && s'.rows == (if ack.Applied()
           then s.rows[id := s.rows[id].(lockedUntil := Some(s.now + LEASE), attempts := s.rows[id].attempts + 1)]
               else s.rows)
      && s'.claims == (if ack.Applied() then s.claims[id := Claims(s, id) + [s.now]] else s.claims)
      && s'.rowLocks == Without(s.rowLocks, r)
      && s'.relays == s.relays[r := if ack.Acked? then Publishing(id, RelayAt(s, r).attempts + 1, s.now + LEASE)
          else Idle]
      && s'.now == s.now && s'.log == s.log && s'.calls == s.calls
  {
    var s1 := Next(s, Lease(r));
    assert s1 == DoLease(s, r);
    assert Claims(s1, RelayAt(s, r).id) == Claims(s, RelayAt(s, r).id);
  }

  lemma WithoutNone(locks: map<RowId, RelayId>, r: RelayId)
    requires forall i :: i in locks ==> locks[i] != r
    ensures Without(locks, r) == locks
  {
  }

  lemma IdleHoldsNothing(s: State, r: RelayId)
    requires Inv(s) && RelayAt(s, r).Idle?
    ensures forall i :: i in s.rowLocks ==> s.rowLocks[i] != r
  {
    InvFacts(s, r);
  }

  lemma RunNothing(s: State)
    ensures Run(s, []) == s
  {
  }

  lemma WithoutAdded(locks: map<RowId, RelayId>, r: RelayId, id: RowId)
    requires (forall i :: i in locks ==> locks[i] != r) && id !in locks
    ensures Without(locks[id := r], r) == locks
  {
  }

  lemma SelectFields(s: State, r: RelayId, id: RowId)
    requires RelayAt(s, r).Idle? && IsLowest(s, id)
    ensures Next(s, Select(r, id)) == DoSelect(s, r, id) && id in s.rows && id !in s.rowLocks
  {
  }

  lemma DieFields(s: State, r: RelayId)
    requires !RelayAt(s, r).Idle?
    ensures Next(s, Die(r)) == Leave(s, r)
  {
  }

  lemma LowestIsEligible(s: State, id: RowId)
    requires IsLowest(s, id)
    ensures id in Eligible(s)
  {
  }

  lemma LowestIsMin(s: State, id: RowId)
    requires IsLowest(s, id) && s.rowLocks == map[]
    ensures IsMin(Eligible(s), id)
  {
  }

  lemma SortedSplit(ids: set<RowId>)
    requires ids != {}
    ensures forall m :: IsMin(ids, m) ==> Sorted(ids) == [m] + Sorted(ids - {m})
  {
  }

  lemma SortedNone(rows: map<RowId, Row>)
    ensures Sorted({}) == [] && MessagesOf(rows, []) == []
  {
  }

  lemma SubsetSize(a: set<RowId>, b: set<RowId>)
    requires a <= b
    ensures |a| <= |b|
  {
    assert |b| == |a| + |b - a| by { assert b == a + (b - a); }
  }

  /** As OnlyRow, while the relay is still at work on the row. */
  ghost predicate OnlyRowButBusy(s: State, s': State, r: RelayId, id: RowId) {
    && s'.now == s.now && s'.rowLocks == s.rowLocks && s'.rows.Keys == s.rows.Keys
    && (forall q: RelayId :: q != r ==> RelayAt(s', q) == RelayAt(s, q))
    && (forall i :: i in s.rows && i != id ==> s'.rows[i] == s.rows[i])
    && (id in s.rows ==> s'.rows[id].content == s.rows[id].content)
  }

  lemma RowAlone(s: State, s1: State, s': State, r: RelayId, id: RowId, row: Row)
    requires OnlyRowButBusy(s, s1, r, id) && id in s1.rows && row.content == s1.rows[id].content
    requires s'.rows == s1.rows[id := row] && s'.relays == s1.relays[r := Idle]
    requires s'.now == s1.now && s'.rowLocks == s1.rowLocks
    ensures OnlyRow(s, s', r, id)
  {
  }

  lemma OneRowLess(s: State, s': State, r: RelayId, id: RowId)
    requires OnlyRow(s, s', r, id) && id in Eligible(s) && !IsEligible(s'.rows[id], s'.now)
    ensures Eligible(s') == Eligible(s) - {id}
  {
  }

  /** How far a reliable drain has come: the rows in `sent` are published and done, in id
      order, and those that are still eligible come after them. */
  ghost predicate Drained(s: State, s': State, sent: seq<RowId>) {
    && s'.now == s.now && s'.rows.Keys == s.rows.Keys
    && (forall i :: i in sent ==> i in s.rows)
    && sent + Sorted(Eligible(s')) == Sorted(Eligible(s))
    && s'.log == s.log + MessagesOf(s.rows, sent)
    && (forall i :: i in s.rows ==> s'.rows[i] == if i in sent then Done(s.rows[i], s.now) else s.rows[i])
  }

  /** The bookkeeping of one reliable round of the drain. */
  lemma DrainStep(s: State, before: State, after: State, sent: seq<RowId>, id: RowId)
    requires Drained(s, before, sent) && IsLowest(before, id) && id in before.rows && before.rowLocks == map[]
    requires Eligible(after) == Eligible(before) - {id} && after.now == before.now
    requires after.rows == before.rows[id := Done(before.rows[id], before.now)]
    requires after.log == before.log + [MessageOf(id, before.rows[id].content)]
    ensures Drained(s, after, sent + [id])
  {
    hide IsLowest, MessagesOf, Sorted;
    LowestIsMin(before, id);
    LowestIsEligible(before, id);
    SortedSplit(Eligible(before));
    assert sent + ([id] + Sorted(Eligible(after))) == sent + [id] + Sorted(Eligible(after));
    MessagesSnoc(s.rows, sent, id);
  }

  lemma NothingDrained(s: State)
    ensures Drained(s, s, [])
  {
    SortedNone(s.rows);
    assert [] + Sorted(Eligible(s)) == Sorted(Eligible(s));
  }

  lemma AllDrained(s: State, s': State, sent: seq<RowId>)
    requires Drained(s, s', sent) && Eligible(s') == {}
    ensures s'.log == s.log + MessagesOf(s.rows, Sorted(Eligible(s)))
    ensures s'.rows.Keys == s.rows.Keys
    ensures forall i :: i in s.rows ==> s'.rows[i] == if i in Eligible(s) then Done(s.rows[i], s.now) else s.rows[i]
  {
    hide MessagesOf, Eligible, Done;
    assert Sorted({}) == [];
    assert sent + [] == sent;
    assert forall i :: i in sent <==> i in Eligible(s);
  }

  lemma ProcessedIsNew(s: State, id: RowId)
    requires IsLowest(s, id)
    ensures id in s.rows && id in Eligible(s) && |Eligible(s) - {id}| == |Eligible(s)| - 1
  {
  }

  lemma LeasedIsNotEligible(s: State, s': State, id: RowId)
    requires s'.now == s.now
    requires s'.rows == s.rows || (id in s.rows && s'.rows == s.rows[id := Leased(s.rows[id], s.now)])
    ensures Eligible(s') <= Eligible(s)
  {
  }

  lemma MessagesSnoc(rows: map<RowId, Row>, sent: seq<RowId>, id: RowId)
    requires (forall i :: i in sent ==> i in rows) && id in rows
    ensures MessagesOf(rows, sent + [id]) == MessagesOf(rows, sent) + [MessageOf(id, rows[id].content)]
  {
  }

  class RelayWorker {
    const db: Outbox
    const self: RelayId

    constructor (db: Outbox, self: RelayId)
      ensures this.db == db && this.self == self
    {
      this.db, this.self := db, self;
    }

    /** After the claim: publish, then mark, or reschedule. */
    method Deliver(replies: Replies, id: RowId, k: nat, until: int) returns (failed: bool, ghost t: seq<Step>)
      requires RelayAt(db.View(), self) == Publishing(id, k, until)
      requires id in db.rows && id !in db.rowLocks && db.rows[id].lockedUntil == Some(until) && db.now <= until
      requires forall i :: i in db.rowLocks ==> db.rowLocks[i] != self
      modifies db
      ensures db.View() == Run(old(db.View()), t)
      ensures db.rows == old(db.rows)[id := Settled(old(db.rows)[id], db.now, k, replies)]
      ensures db.now == old(db.now) && db.rowLocks == old(db.rowLocks) && db.relays == old(db.relays)[self := Idle]
      ensures !IsEligible(db.rows[id], db.now)
      ensures db.log == old(db.log) + Sent(id, old(db.rows)[id], replies)
      ensures failed <==> !(replies.Sending() && replies.stored.Acked?)
    {
      hide Delay, Next, Run, IsEligible;
      DelayIsPow2(k);
      WithoutNone(db.rowLocks, self);
      SettledIsNotEligible(db.rows[id], db.now, k, replies);
      ghost var s := db.View();
      var Replies(_, _, _, decodes, sent, stored) := replies;
      failed := true;
      if !decodes {
        RunTwo(s, DecodeFails(self), Retry(self, stored));
        t := [DecodeFails(self), Retry(self, stored)];
        db.Undecodable(self, id, k, until);
        db.Reschedule(self, id, k, until, stored);
        return;
      }
      db.Send(self, id, k, until, sent);
      if !sent.Acked? {
        RunTwo(s, Publish(self, sent), Retry(self, stored));
        t := [Publish(self, sent), Retry(self, stored)];
        db.Reschedule(self, id, k, until, stored);
        return;
      }
      RunTwo(s, Publish(self, sent), Mark(self, stored));
      t := [Publish(self, sent), Mark(self, stored)];
      db.MarkPublished(self, id, k, until, stored);
      failed := !stored.Acked?;
    }

    /** The claim transaction: select, lease, commit. */
    method Claim(replies: Replies) returns (claimed: bool, failed: bool, id: RowId, attempts: nat, ghost t: seq<Step>)
      requires RelayAt(db.View(), self).Idle? && forall i :: i in db.rowLocks ==> db.rowLocks[i] != self
      modifies db
      ensures db.View() == Run(old(db.View()), t) && db.log == old(db.log)
      ensures OnlyRowButBusy(old(db.View()), db.View(), self, id)
      ensures claimed <==> replies.Claiming() && HasLowest(old(db.View()))
      ensures failed <==> !replies.selects || (HasLowest(old(db.View())) && !replies.Claiming())
      ensures replies.selects && HasLowest(old(db.View())) ==> IsLowest(old(db.View()), id) && id in old(db.rows)
      ensures db.rows ==
        if replies.selects && HasLowest(old(db.View())) && replies.leases && replies.claim.Applied()
        then old(db.rows)[id := Leased(old(db.rows)[id], db.now)] else old(db.rows)
      ensures claimed ==>
                && id in db.rows && id !in db.rowLocks && attempts == old(db.rows)[id].attempts
                && RelayAt(db.View(), self) == Publishing(id, attempts + 1, db.now + 120)
      ensures !claimed ==> RelayAt(db.View(), self).Idle?
      ensures !claimed && !failed ==> db.View() == old(db.View())
    {
      hide Next, Run, IsLowest;
      ghost var s := db.View();
      RunNothing(s);
      claimed, failed, t := false, false, [];
      id, attempts := 0, 0;
      if !replies.selects { return false, true, id, attempts, t; }
      var next: Option<RowId>;
      next, attempts := db.SelectNext(self);
      if next.None? { return; }
      id := next.value;
      SelectFields(s, self, id);
      RunOne(s, Select(self, id));
      t := [Select(self, id)];
      WithoutAdded(s.rowLocks, self, id);
      if !replies.leases {
        DieFields(db.View(), self);
        RunSnoc(s, t, Die(self));
        db.Rollback(self);
        return false, true, id, attempts, t + [Die(self)];
      }
      ghost var rest;
      rest := LeaseRow(id, attempts, replies.claim);
      RunConcat(s, t, rest);
      t := t + rest;
      claimed, failed := replies.claim.Acked?, !replies.claim.Acked?;
    }

    /** The lease and the commit of a selected row. */
    method LeaseRow(id: RowId, attempts: nat, ack: Ack) returns (ghost t: seq<Step>)
      requires RelayAt(db.View(), self) == Selected(id, attempts) && id in db.rows
      modifies db
      ensures db.View() == Run(old(db.View()), t) && db.log == old(db.log) && db.now == old(db.now)
      ensures db.rows == if ack.Applied() then old(db.rows)[id := Leased(old(db.rows)[id], db.now)] else old(db.rows)
      ensures db.rowLocks == Without(old(db.rowLocks), self)
      ensures db.relays ==
        old(db.relays)[self := if ack.Acked? then Publishing(id, attempts + 1, db.now + 120) else Idle]
    {
      hide Next, Run;
      LeaseThenCommit(db.View(), self, ack);
      RunTwo(db.View(), Lease(self), CommitClaim(self, ack));
      t := [Lease(self), CommitClaim(self, ack)];
      db.LeaseAndCommit(self, id, attempts, ack);
    }

    /** publishOne, with the answers it will get: the row it claims, if any, is published, or
        put off, or left to its lease, and no other row changes. */
    method PublishOne(replies: Replies) returns (processed: bool, failed: bool, ghost id: RowId, ghost t: seq<Step>)
      requires Inv(db.View()) && RelayAt(db.View(), self).Idle?
      modifies db
      ensures db.View() == Run(old(db.View()), t) && Inv(db.View())
      ensures OnlyRow(old(db.View()), db.View(), self, id)
      ensures processed <==> replies.Claiming() && HasLowest(old(db.View()))
      ensures failed <==> !replies.selects || (HasLowest(old(db.View())) && !replies.AllGood())
      ensures replies.selects && HasLowest(old(db.View())) ==> IsLowest(old(db.View()), id) && id in old(db.rows)
      ensures processed ==>
                && db.rows == old(db.rows)[id := Settled(Leased(old(db.rows)[id], db.now), db.now,
                                                         old(db.rows)[id].attempts + 1, replies)]
                && db.log == old(db.log) + Sent(id, old(db.rows)[id], replies)
                && Eligible(db.View()) == Eligible(old(db.View())) - {id}
      ensures !processed ==>
                && db.log == old(db.log) && Eligible(db.View()) <= Eligible(old(db.View()))
                && db.rows ==
                   if replies.selects && HasLowest(old(db.View())) && replies.leases && replies.claim.Applied()
                   then old(db.rows)[id := Leased(old(db.rows)[id], db.now)] else old(db.rows)
      ensures !processed && !failed ==> db.View() == old(db.View())
    {
      hide Inv, Next, Run, IsLowest, HasLowest;
      ghost var s := db.View();
      IdleHoldsNothing(s, self);
      var row: RowId, attempts: nat;
      processed, failed, row, attempts, t := Claim(replies);
      id := row;
      if processed {
        ghost var rest;
        ghost var claimed := db.View();
        failed, rest := Deliver(replies, row, attempts + 1, db.now + 120);
        RunConcat(s, t, rest);
        t := t + rest;
        LowestIsEligible(s, id);
        RowAlone(s, claimed, db.View(), self, id, db.rows[id]);
        OneRowLess(s, db.View(), self, id);
      } else {
        LeasedIsNotEligible(s, db.View(), id);
      }
      RunKeepsInv(s, t);
    }

    /** One of the back-to-back calls. */
    method DrainOne(reliable: bool, ghost s: State, ghost sent: seq<RowId>)
      returns (processed: bool, ghost sent': seq<RowId>, ghost t: seq<Step>)
      requires Inv(db.View()) && RelayAt(db.View(), self).Idle?
      modifies db
      ensures db.View() == Run(old(db.View()), t) && Inv(db.View()) && RelayAt(db.View(), self).Idle?
      ensures db.now == old(db.now) && db.rowLocks == old(db.rowLocks)
      ensures |Eligible(db.View())| <= |Eligible(old(db.View()))| - if processed then 1 else 0
      ensures reliable && db.rowLocks == map[] && Drained(s, old(db.View()), sent) ==>
                Drained(s, db.View(), sent') && (!processed ==> Eligible(db.View()) == {})
    {
      hide Inv, Run, Next, IsLowest, HasLowest, Eligible, Drained, Done, Settled, Sent, Leased;
      ghost var before := db.View();
      var replies: Replies := *;
      if reliable { replies := Replies(true, true, Acked, true, Acked, Acked); }
      ghost var id, failed;
      processed, failed, id, t := PublishOne(replies);
      sent' := sent;
      SubsetSize(Eligible(db.View()), Eligible(before));
      if processed {
        ProcessedIsNew(before, id);
        if reliable && db.rowLocks == map[] && Drained(s, before, sent) {
          SettledDone(before.rows[id], before.now, replies);
          DrainStep(s, before, db.View(), sent, id);
          sent' := sent + [id];
        }
      } else if reliable && db.rowLocks == map[] && Eligible(db.View()) != {} {
        LowestExists(db.View());
      }
    }

    /** The back-to-back calls inside Run: they stop after at most as many calls as there are
        eligible rows, whatever the broker and the database answer. When both answer every
        call, exactly the eligible rows are sent, in id order, and marked as published. */
    method Drain(reliable: bool) returns (ghost calls: nat, ghost t: seq<Step>)
      requires Inv(db.View()) && RelayAt(db.View(), self).Idle?
      modifies db
      ensures db.View() == Run(old(db.View()), t) && Inv(db.View()) && RelayAt(db.View(), self).Idle?
      ensures db.now == old(db.now)
      ensures calls <= |Eligible(old(db.View()))|
      ensures reliable && old(db.rowLocks) == map[] ==>
                && Eligible(db.View()) == {}
                && db.log == old(db.log) + MessagesOf(old(db.rows), Sorted(Eligible(old(db.View()))))
                && db.rows.Keys == old(db.rows.Keys)
                && forall i :: i in db.rows ==>
                     db.rows[i] ==
                     if i in Eligible(old(db.View())) then Done(old(db.rows)[i], db.now) else old(db.rows)[i]
    {
      hide Inv, Run, Next, Sorted, MessagesOf, Eligible, Drained, Done;
      ghost var s := db.View();
      RunNothing(s);
      ghost var sent: seq<RowId> := [];
      NothingDrained(s);
      calls, t := 0, [];
      var processed := true;
      while processed
        invariant db.View() == Run(s, t) && Inv(db.View()) && RelayAt(db.View(), self).Idle?
        invariant db.now == s.now && db.rowLocks == s.rowLocks
        invariant calls + |Eligible(db.View())| <= |Eligible(s)|
        invariant reliable && s.rowLocks == map[] ==> Drained(s, db.View(), sent)
        invariant reliable && s.rowLocks == map[] && !processed ==> Eligible(db.View()) == {}
        decreases |Eligible(db.View())|, processed
      {
        ghost var before := db.View();
        ghost var rest;
        processed, sent, rest := DrainOne(reliable, s, sent);
        RunConcat(s, t, rest);
        t := t + rest;
        if processed { calls := calls + 1; }
      }
      if reliable && s.rowLocks == map[] { AllDrained(s, db.View(), sent); }
    }
  }
}
