/** Safety of the outbox relay over every run: nothing lost, nothing invented, published
    rows final, publish calls bounded by attempts. No assumption about timing here. */
module OutboxProofs {
  import opened Basics
  import opened OutboxModel

  ghost predicate Logged(log: seq<Message>, id: RowId) {
    exists i :: 0 <= i < |log| && log[i].row == id
  }

  ghost predicate RowOk(s: State, id: RowId)
    requires id in s.rows
  {
    && (s.rows[id].publishedAt.Some? ==> Logged(s.log, id))
    && |Claims(s, id)| == s.rows[id].attempts
    && (forall i :: 0 <= i < |Calls(s, id)| ==> 1 <= Calls(s, id)[i] <= s.rows[id].attempts)
    && (forall i, j :: 0 <= i < j < |Calls(s, id)| ==> Calls(s, id)[i] != Calls(s, id)[j])
  }

  ghost predicate RowsOk(s: State) {
    && (forall id :: id in s.rows ==> RowOk(s, id))
    && (forall id :: id in s.claims ==> id in s.rows)
    && (forall id :: id in s.calls ==> id in s.rows)
  }

  ghost predicate LogOk(s: State) {
    forall i :: 0 <= i < |s.log| ==>
      s.log[i].row in s.rows && s.log[i] == MessageOf(s.log[i].row, s.rows[s.log[i].row].content)
  }

  ghost predicate RelayOk(s: State, r: RelayId) {
    var relay := RelayAt(s, r);
    && (!relay.Idle? ==> relay.id in s.rows)
    && (relay.HoldsLock() ==>
          && relay.id in s.rowLocks && s.rowLocks[relay.id] == r
          && relay.attempts == s.rows[relay.id].attempts && s.rows[relay.id].publishedAt.None?)
    && (relay.Claimed() ==> 1 <= relay.attempts <= s.rows[relay.id].attempts)
    && (relay.Publishing? ==> relay.attempts !in Calls(s, relay.id))
    && (relay.Marking? ==> Logged(s.log, relay.id))
  }

  /** Two relays that are about to publish one row do so under different attempt numbers. */
  ghost predicate Distinct(a: Relay, b: Relay) {
    a.Publishing? && b.Publishing? && a.id == b.id ==> a.attempts != b.attempts
  }

  ghost predicate RelaysOk(s: State) {
    && (forall r: RelayId :: RelayOk(s, r))
    && (forall a: RelayId, b: RelayId :: a != b ==> Distinct(RelayAt(s, a), RelayAt(s, b)))
    && (forall id :: id in s.rowLocks ==>
          RelayAt(s, s.rowLocks[id]).HoldsLock() && RelayAt(s, s.rowLocks[id]).id == id)
  }

  ghost predicate Inv(s: State) { RowsOk(s) && LogOk(s) && RelaysOk(s) }

  /** `r` holds no row lock but the one of the row it has selected. */
  ghost predicate LocksOnly(s: State, r: RelayId) {
    forall id :: id in s.rowLocks && s.rowLocks[id] == r ==> RelayAt(s, r).HoldsLock() && RelayAt(s, r).id == id
  }

  ghost predicate SparesLocks(s: State, s': State, r: RelayId) {
    && (forall id :: (id in s.rowLocks && s.rowLocks[id] != r) <==> (id in s'.rowLocks && s'.rowLocks[id] != r))
    && (forall id :: id in s.rowLocks && s.rowLocks[id] != r ==> s'.rowLocks[id] == s.rowLocks[id])
  }

  ghost predicate SameData(s: State, s': State) {
    s'.rows == s.rows && s'.log == s.log && s'.claims == s.claims && s'.calls == s.calls
  }

  lemma SameDataKeepsRows(s: State, s': State)
    requires RowsOk(s) && LogOk(s) && SameData(s, s')
    ensures RowsOk(s') && LogOk(s')
  {
    hide Logged;
    assert forall id :: Claims(s', id) == Claims(s, id) && Calls(s', id) == Calls(s, id);
    forall id | id in s'.rows ensures RowOk(s', id) {
      assert RowOk(s, id);
    }
  }

  lemma MoveKeepsRelays(s: State, s': State, r: RelayId)
    requires RelaysOk(s) && SameData(s, s')
    requires r in s'.relays && s'.relays == s.relays[r := s'.relays[r]]
    requires SparesLocks(s, s', r) && LocksOnly(s', r) && RelayOk(s', r)
    requires forall q: RelayId :: q != r ==>
              Distinct(RelayAt(s', r), RelayAt(s, q)) && Distinct(RelayAt(s, q), RelayAt(s', r))
    ensures RelaysOk(s')
  {
    hide Logged;
    assert forall id :: Calls(s', id) == Calls(s, id);
    forall q: RelayId ensures RelayOk(s', q) {
      assert RelayOk(s, q);
    }
    forall a: RelayId, b: RelayId | a != b ensures Distinct(RelayAt(s', a), RelayAt(s', b)) {
      assert Distinct(RelayAt(s, a), RelayAt(s, b));
    }
  }

  /** A step that moves one relay and touches no row, message or count. */
  lemma MoveKeepsInv(s: State, s': State, r: RelayId)
    requires Inv(s) && SameData(s, s')
    requires r in s'.relays && s'.relays == s.relays[r := s'.relays[r]]
    requires SparesLocks(s, s', r) && LocksOnly(s', r) && RelayOk(s', r)
    requires forall q: RelayId :: q != r ==>
              Distinct(RelayAt(s', r), RelayAt(s, q)) && Distinct(RelayAt(s, q), RelayAt(s', r))
    ensures Inv(s')
  {
    hide RowsOk, LogOk, RelaysOk, SparesLocks, LocksOnly, RelayOk, Distinct, SameData;
    SameDataKeepsRows(s, s');
    MoveKeepsRelays(s, s', r);
  }

  lemma InvFacts(s: State, r: RelayId)
    requires Inv(s)
    ensures RelayOk(s, r) && LocksOnly(s, r)
    ensures forall q: RelayId :: q != r ==>
              Distinct(RelayAt(s, r), RelayAt(s, q)) && Distinct(RelayAt(s, q), RelayAt(s, r))
    ensures forall q: RelayId :: !RelayAt(s, q).Idle? ==> RelayAt(s, q).id in s.rows
    ensures forall q: RelayId :: RelayAt(s, q).Claimed() ==>
              1 <= RelayAt(s, q).attempts <= s.rows[RelayAt(s, q).id].attempts
    ensures forall q: RelayId :: RelayAt(s, q).HoldsLock() ==>
              RelayAt(s, q).id in s.rowLocks && s.rowLocks[RelayAt(s, q).id] == q
  {
    hide RowsOk, LogOk, Logged;
    assert RelayOk(s, r);
    forall q: RelayId
      ensures RelayOk(s, q)
      ensures q != r ==> Distinct(RelayAt(s, r), RelayAt(s, q)) && Distinct(RelayAt(s, q), RelayAt(s, r))
    {
    }
  }

  lemma LeaveKeepsInv(s: State, r: RelayId)
    requires Inv(s)
    ensures Inv(Leave(s, r))
  {
    hide Inv;
    InvFacts(s, r);
    MoveKeepsInv(s, Leave(s, r), r);
  }

  lemma SelectKeepsInv(s: State, r: RelayId, id: RowId)
    requires Inv(s) && RelayAt(s, r).Idle? && IsLowest(s, id)
    ensures Inv(DoSelect(s, r, id))
  {
    hide Inv;
    InvFacts(s, r);
    MoveKeepsInv(s, DoSelect(s, r, id), r);
  }

  lemma LeaseKeepsInv(s: State, r: RelayId)
    requires Inv(s) && RelayAt(s, r).Selected?
    ensures Inv(DoLease(s, r))
  {
    hide Inv;
    InvFacts(s, r);
    MoveKeepsInv(s, DoLease(s, r), r);
  }

  lemma GiveUpKeepsInv(s: State, r: RelayId)
    requires Inv(s) && RelayAt(s, r).Publishing?
    ensures var Publishing(id, k, until) := RelayAt(s, r); Inv(Goto(s, r, Retrying(id, k, until)))
  {
    hide Inv;
    InvFacts(s, r);
    var Publishing(id, k, until) := RelayAt(s, r);
    MoveKeepsInv(s, Goto(s, r, Retrying(id, k, until)), r);
  }

  /** A change of one unlocked row that keeps its content and never un-publishes it. */
  ghost predicate RowChange(s: State, s': State, id: RowId) {
    && id in s.rows && id in s'.rows && id !in s.rowLocks
    && s' == s.(rows := s.rows[id := s'.rows[id]], claims := s'.claims)
    && (forall i :: i != id ==> Claims(s', i) == Claims(s, i))
    && (forall i :: i in s'.claims ==> i in s.claims || i == id)
    && s'.rows[id].content == s.rows[id].content && s.rows[id].attempts <= s'.rows[id].attempts
    && |Claims(s', id)| == s'.rows[id].attempts
    && (s'.rows[id].publishedAt.Some? ==> Logged(s.log, id))
  }

  lemma RowChangeKeepsRows(s: State, s': State, id: RowId)
    requires RowsOk(s) && LogOk(s) && RowChange(s, s', id)
    ensures RowsOk(s') && LogOk(s')
  {
    hide Logged;
    assert forall i :: Calls(s', i) == Calls(s, i);
    forall i | i in s'.rows ensures RowOk(s', i) {
      assert RowOk(s, i);
    }
  }

  lemma RowChangeKeepsRelays(s: State, s': State, id: RowId)
    requires RelaysOk(s) && RowChange(s, s', id)
    ensures RelaysOk(s')
  {
    hide Logged;
    assert forall i :: Calls(s', i) == Calls(s, i);
    forall q: RelayId ensures RelayOk(s', q) {
      assert RelayOk(s, q);
    }
    forall a: RelayId, b: RelayId | a != b ensures Distinct(RelayAt(s', a), RelayAt(s', b)) {
      assert Distinct(RelayAt(s, a), RelayAt(s, b));
    }
  }

  lemma RowChangeKeepsInv(s: State, s': State, id: RowId)
    requires Inv(s) && RowChange(s, s', id)
    ensures Inv(s')
  {
    hide RowsOk, LogOk, RelaysOk, RowChange;
    RowChangeKeepsRows(s, s', id);
    RowChangeKeepsRelays(s, s', id);
  }

  lemma ApplyClaimKeepsInv(s: State, id: RowId, until: int)
    requires Inv(s) && id in s.rows && id !in s.rowLocks && s.rows[id].publishedAt.None?
    ensures Inv(ApplyClaim(s, id, until))
  {
    hide Inv, Logged;
    RowCounts(s, id);
    RowChangeKeepsInv(s, ApplyClaim(s, id, until), id);
  }

  /** The relay that committed a claim goes on to publish under a fresh attempt number. */
  lemma StartPublishingKeepsInv(s: State, r: RelayId, id: RowId, k: nat, until: int)
    requires Inv(s) && RelayAt(s, r).Idle? && id in s.rows && 1 <= k == s.rows[id].attempts && k !in Calls(s, id)
    requires forall q: RelayId :: RelayAt(s, q).Claimed() && RelayAt(s, q).id == id ==> RelayAt(s, q).attempts < k
    ensures Inv(s.(relays := s.relays[r := Publishing(id, k, until)]))
  {
    hide Inv, Logged;
    var s' := s.(relays := s.relays[r := Publishing(id, k, until)]);
    InvFacts(s, r);
    assert Calls(s', id) == Calls(s, id);
    forall q: RelayId | q != r
      ensures Distinct(RelayAt(s', r), RelayAt(s, q)) && Distinct(RelayAt(s, q), RelayAt(s', r))
    {
    }
    MoveKeepsInv(s, s', r);
  }

  lemma CommitClaimKeepsInv(s: State, r: RelayId, ack: Ack)
    requires Inv(s) && RelayAt(s, r).Leasing? && RelayAt(s, r).id in s.rows
    ensures Inv(DoCommitClaim(s, r, ack))
  {
    hide Inv, Logged, RelayOk, Distinct;
    var Leasing(id, attempts, until) := RelayAt(s, r);
    LeasingFacts(s, r);
    LeaveKeepsInv(s, r);
    var s1 := Leave(s, r);
    if ack.Applied() {
      var s2 := ApplyClaim(s1, id, until);
      ApplyClaimKeepsInv(s1, id, until);
      if ack.Acked? {
        CallsBelow(s, id, attempts + 1);
        assert Calls(s2, id) == Calls(s, id);
        forall q: RelayId | RelayAt(s2, q).Claimed() && RelayAt(s2, q).id == id
          ensures RelayAt(s2, q).attempts < attempts + 1
        {
          assert RelayAt(s2, q) == RelayAt(s, q);
        }
        StartPublishingKeepsInv(s2, r, id, attempts + 1, until);
        assert s2.(relays := s2.relays[r := Publishing(id, attempts + 1, until)]).relays == DoCommitClaim(s, r,
            ack).relays;
      }
    }
    assert Claims(s1, id) == Claims(s, id);
  }

  lemma LeasingFacts(s: State, r: RelayId)
    requires Inv(s) && RelayAt(s, r).Leasing? && RelayAt(s, r).id in s.rows
    ensures var id := RelayAt(s, r).id;
      && id in s.rowLocks && s.rowLocks[id] == r
      && RelayAt(s, r).attempts == s.rows[id].attempts && s.rows[id].publishedAt.None?
      && (forall q: RelayId :: RelayAt(s, q).Claimed() && RelayAt(s, q).id == id ==>
          RelayAt(s, q).attempts <= s.rows[id].attempts)
  {
    InvFacts(s, r);
  }

  lemma RowCounts(s: State, id: RowId)
    requires Inv(s) && id in s.rows
    ensures |Claims(s, id)| == s.rows[id].attempts
  {
    assert RowOk(s, id);
  }

  lemma CallsBelow(s: State, id: RowId, k: nat)
    requires Inv(s) && id in s.rows && s.rows[id].attempts < k
    ensures k !in Calls(s, id)
  {
    assert RowOk(s, id);
  }

  /** A call of PublishEnvelope is recorded, and the log grows by the row's message or not. */
  function AddCall(s: State, id: RowId, k: nat, appended: bool): State
    requires id in s.rows
  {
    s.(calls := s.calls[id := Calls(s, id) + [k]],
       log := if appended then s.log + [MessageOf(id, s.rows[id].content)] else s.log)
  }

  lemma AddCallLogs(s: State, id: RowId, k: nat, appended: bool)
    requires id in s.rows
    ensures forall i :: Logged(s.log, i) ==> Logged(AddCall(s, id, k, appended).log, i)
    ensures appended ==> Logged(AddCall(s, id, k, appended).log, id)
  {
    var log := AddCall(s, id, k, appended).log;
    forall i | Logged(s.log, i) ensures Logged(log, i) {
      var j :| 0 <= j < |s.log| && s.log[j].row == i;
      assert log[j].row == i;
    }
    assert appended ==> log[|s.log|].row == id;
  }

  lemma AddCallKeepsRows(s: State, id: RowId, k: nat, appended: bool)
    requires RowsOk(s) && LogOk(s) && id in s.rows && 1 <= k <= s.rows[id].attempts && k !in Calls(s, id)
    ensures RowsOk(AddCall(s, id, k, appended)) && LogOk(AddCall(s, id, k, appended))
  {
    hide Logged, RowOk;
    var s' := AddCall(s, id, k, appended);
    forall i | i in s'.rows ensures RowOk(s', i) {
      AddCallKeepsRow(s, id, k, appended, i);
    }
  }

  lemma AddCallKeepsRow(s: State, id: RowId, k: nat, appended: bool, i: RowId)
    requires id in s.rows && i in s.rows && RowOk(s, i)
    requires 1 <= k <= s.rows[id].attempts && k !in Calls(s, id)
    ensures RowOk(AddCall(s, id, k, appended), i)
  {
    hide Logged;
    var s' := AddCall(s, id, k, appended);
    AddCallLogs(s, id, k, appended);
    assert Claims(s', i) == Claims(s, i);
    assert Calls(s', i) == Calls(s, i) + if i == id then [k] else [];
  }

  lemma AddCallKeepsRelays(s: State, id: RowId, k: nat, appended: bool)
    requires RelaysOk(s) && id in s.rows
    requires forall q: RelayId :: RelayAt(s, q).Publishing? && RelayAt(s, q).id == id ==> RelayAt(s, q).attempts != k
    ensures RelaysOk(AddCall(s, id, k, appended))
  {
    hide Logged;
    var s' := AddCall(s, id, k, appended);
    AddCallLogs(s, id, k, appended);
    assert forall i :: Calls(s', i) == Calls(s, i) + if i == id then [k] else [];
    forall q: RelayId ensures RelayOk(s', q) {
      assert RelayOk(s, q) && RelayAt(s', q) == RelayAt(s, q);
    }
    forall a: RelayId, b: RelayId | a != b ensures Distinct(RelayAt(s', a), RelayAt(s', b)) {
      assert Distinct(RelayAt(s, a), RelayAt(s, b));
    }
  }

  lemma AddCallKeepsInv(s: State, id: RowId, k: nat, appended: bool)
    requires Inv(s) && id in s.rows && 1 <= k <= s.rows[id].attempts && k !in Calls(s, id)
    requires forall q: RelayId :: RelayAt(s, q).Publishing? && RelayAt(s, q).id == id ==> RelayAt(s, q).attempts != k
    ensures Inv(AddCall(s, id, k, appended))
  {
    hide RowsOk, LogOk, RelaysOk, AddCall;
    AddCallKeepsRows(s, id, k, appended);
    AddCallKeepsRelays(s, id, k, appended);
  }

  lemma PublishKeepsInv(s: State, r: RelayId, ack: Ack)
    requires Inv(s) && RelayAt(s, r).Publishing? && RelayAt(s, r).id in s.rows
    ensures Inv(DoPublish(s, r, ack))
  {
    hide Inv, Logged;
    var Publishing(id, k, until) := RelayAt(s, r);
    InvFacts(s, r);
    GiveUpKeepsInv(s, r);
    var s1 := Goto(s, r, Retrying(id, k, until));
    forall q: RelayId | RelayAt(s1, q).Publishing? && RelayAt(s1, q).id == id
      ensures RelayAt(s1, q).attempts != k
    {
      assert Distinct(RelayAt(s, r), RelayAt(s, q));
    }
    AddCallKeepsInv(s1, id, k, ack.Applied());
    var s2 := AddCall(s1, id, k, ack.Applied());
    if ack.Acked? {
      AddCallLogs(s1, id, k, true);
      InvFacts(s2, r);
      var s3 := Goto(s2, r, Marking(id, k, until));
      MoveKeepsInv(s2, s3, r);
      assert s3.relays == DoPublish(s, r, ack).relays;
    } else {
      assert s2 == DoPublish(s, r, ack);
    }
  }

  lemma MarkKeepsInv(s: State, r: RelayId, ack: Ack)
    requires Inv(s) && Enabled(s, Mark(r, ack))
    ensures Inv(DoMark(s, r, ack))
  {
    hide Inv, Logged;
    InvFacts(s, r);
    LeaveKeepsInv(s, r);
    if ack.Applied() {
      RowCounts(s, RelayAt(s, r).id);
      RowChangeKeepsInv(Leave(s, r), DoMark(s, r, ack), RelayAt(s, r).id);
    }
  }

  lemma RetryKeepsInv(s: State, r: RelayId, ack: Ack)
    requires Inv(s) && Enabled(s, Retry(r, ack))
    ensures Inv(DoRetry(s, r, ack))
  {
    hide Inv, Logged;
    InvFacts(s, r);
    LeaveKeepsInv(s, r);
    if ack.Applied() {
      RowCounts(s, RelayAt(s, r).id);
      if s.rows[RelayAt(s, r).id].publishedAt.Some? { PublishedIsLogged(s, RelayAt(s, r).id); }
      RowChangeKeepsInv(Leave(s, r), DoRetry(s, r, ack), RelayAt(s, r).id);
    }
  }

  lemma PublishedIsLogged(s: State, id: RowId)
    requires Inv(s) && id in s.rows && s.rows[id].publishedAt.Some?
    ensures Logged(s.log, id)
  {
    assert RowOk(s, id);
  }

  lemma EnqueueKeepsRows(s: State, id: RowId, row: Row)
    requires RowsOk(s) && LogOk(s) && id !in s.rows && row.attempts == 0 && row.publishedAt.None?
    ensures RowsOk(SetRow(s, id, row)) && LogOk(SetRow(s, id, row))
  {
    hide Logged;
    var s' := SetRow(s, id, row);
    assert forall i :: Claims(s', i) == Claims(s, i) && Calls(s', i) == Calls(s, i);
    forall i | i in s'.rows ensures RowOk(s', i) {
      assert i != id ==> RowOk(s, i);
    }
  }

  lemma EnqueueKeepsInv(s: State, id: RowId, row: Row)
    requires Inv(s) && id !in s.rows && row.attempts == 0 && row.publishedAt.None?
    ensures Inv(SetRow(s, id, row))
  {
    hide Logged, RowsOk, LogOk;
    var s' := SetRow(s, id, row);
    EnqueueKeepsRows(s, id, row);
    forall q: RelayId ensures RelayOk(s', q) {
      assert RelayOk(s, q) && RelayAt(s', q) == RelayAt(s, q);
    }
    forall a: RelayId, b: RelayId | a != b ensures Distinct(RelayAt(s', a), RelayAt(s', b)) {
      assert Distinct(RelayAt(s, a), RelayAt(s, b));
    }
  }

  lemma TickKeepsInv(s: State, seconds: nat)
    requires Inv(s)
    ensures Inv(s.(now := s.now + seconds))
  {
    hide Logged;
    var s' := s.(now := s.now + seconds);
    SameDataKeepsRows(s, s');
    forall q: RelayId ensures RelayOk(s', q) {
      assert RelayOk(s, q);
    }
    forall a: RelayId, b: RelayId | a != b ensures Distinct(RelayAt(s', a), RelayAt(s', b)) {
      assert Distinct(RelayAt(s, a), RelayAt(s, b));
    }
  }

  lemma StepKeepsInv(s: State, step: Step)
    requires Inv(s)
    ensures Inv(Next(s, step))
  {
    hide Inv, DoSelect, DoLease, DoCommitClaim, DoPublish, DoMark, DoRetry, Leave, IsLowest;
    if Enabled(s, step) {
      match step
      case Enqueue(id, content, availableAt) => EnqueueKeepsInv(s, id, Row(content, 0, availableAt, None, None));
      case Tick(seconds) => TickKeepsInv(s, seconds);
      case Select(r, id) => SelectKeepsInv(s, r, id);
      case Lease(r) => LeaseKeepsInv(s, r);
      case CommitClaim(r, ack) => CommitClaimKeepsInv(s, r, ack);
      case DecodeFails(r) => GiveUpKeepsInv(s, r);
      case Publish(r, ack) => PublishKeepsInv(s, r, ack);
      case Mark(r, ack) => MarkKeepsInv(s, r, ack);
      case Retry(r, ack) => RetryKeepsInv(s, r, ack);
      case Die(r) => LeaveKeepsInv(s, r);
    }
  }

  lemma {:induction false} RunKeepsInv(s: State, steps: seq<Step>)
    requires Inv(s)
    ensures Inv(Run(s, steps))
    decreases |steps|
  {
    hide Inv, Next;
    if steps != [] {
      StepKeepsInv(s, steps[0]);
      RunKeepsInv(Next(s, steps[0]), steps[1..]);
    }
  }

  lemma InitialInv(s: State)
    requires Initial(s)
    ensures Inv(s)
  {
  }

  // ---- Theorems ----

  /** Main result: every enqueued row is still unpublished or its message is in the log, and
      every message in the log is the stored content of a row. */
  lemma NothingLostNothingInvented(init: State, steps: seq<Step>)
    requires Initial(init)
    ensures var s := Run(init, steps);
      && (forall id :: id in s.rows ==> s.rows[id].publishedAt.None? || Logged(s.log, id))
      && (forall i :: 0 <= i < |s.log| ==>
            s.log[i].row in s.rows && s.log[i] == MessageOf(s.log[i].row, s.rows[s.log[i].row].content))
  {
    var s := Run(init, steps);
    InitialInv(init);
    RunKeepsInv(init, steps);
    assert forall id :: id in s.rows ==> RowOk(s, id);
  }

  /** Main result: PublishEnvelope is called for a row at most `attempts` times. */
  lemma CallsBoundedByAttempts(init: State, steps: seq<Step>, id: RowId)
    requires Initial(init) && id in Run(init, steps).rows
    ensures |Calls(Run(init, steps), id)| <= Run(init, steps).rows[id].attempts
  {
    var s := Run(init, steps);
    InitialInv(init);
    RunKeepsInv(init, steps);
    assert RowOk(s, id);
    DistinctUpTo(Calls(s, id), s.rows[id].attempts);
  }

  /** Distinct numbers between 1 and n are at most n. */
  lemma DistinctUpTo(xs: seq<nat>, n: nat)
    requires forall i :: 0 <= i < |xs| ==> 1 <= xs[i] <= n
    requires forall i, j :: 0 <= i < j < |xs| ==> xs[i] != xs[j]
    ensures |xs| <= n
  {
    var s := set i | 0 <= i < |xs| :: xs[i];
    SizeOfDistinct(xs);
    CardinalityUpTo(s, n);
  }

  lemma {:induction false} SizeOfDistinct(xs: seq<nat>)
    requires forall i, j :: 0 <= i < j < |xs| ==> xs[i] != xs[j]
    ensures |set i | 0 <= i < |xs| :: xs[i]| == |xs|
  {
    if xs != [] {
      var n := |xs| - 1;
      SizeOfDistinct(xs[..n]);
      var rest := set i | 0 <= i < n :: xs[..n][i];
      assert (set i | 0 <= i < |xs| :: xs[i]) == rest + {xs[n]};
    }
  }

  /** `id` is published in `s`, and `s'` neither un-publishes nor claims it again. */
  ghost predicate StaysPublished(s: State, s': State, id: RowId) {
    && id in s.rows && id in s'.rows
    && s.rows[id].publishedAt.Some? && s'.rows[id].publishedAt.Some?
    && s'.rows[id].attempts == s.rows[id].attempts && Claims(s', id) == Claims(s, id)
  }

  lemma StepKeepsPublished(s: State, step: Step, id: RowId)
    requires Inv(s) && id in s.rows && s.rows[id].publishedAt.Some?
    ensures StaysPublished(s, Next(s, step), id)
  {
    hide RowsOk, LogOk, Logged, Distinct;
    if step.CommitClaim? { assert RelayOk(s, step.r); }
  }

  /** Main result: once published, always published, and never claimed again, whatever slow
      relays do later. */
  lemma {:induction false} PublishedIsFinal(s: State, steps: seq<Step>, id: RowId)
    requires Inv(s) && id in s.rows && s.rows[id].publishedAt.Some?
    ensures StaysPublished(s, Run(s, steps), id)
    decreases |steps|
  {
    hide Inv, Next;
    if steps != [] {
      StepKeepsInv(s, steps[0]);
      StepKeepsPublished(s, steps[0], id);
      PublishedIsFinal(Next(s, steps[0]), steps[1..], id);
    }
  }
}
