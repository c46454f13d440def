/** The outbox relay when every relay finishes with its claim, or dies, before the claim's
    lease ends: one relay per row at a time, and claims of a row spread out over time. */
module OutboxTiming {
  import opened Basics
  import opened OutboxModel
  import opened OutboxProofs
  import B = BookingModel

  /** No relay is still working under a lease that has ended. */
  ghost predicate Timely(s: State) {
    forall r: RelayId :: var relay := RelayAt(s, r); (relay.Leasing? || relay.Claimed()) ==> s.now <= relay.until
  }

  ghost predicate TimelyRun(s: State, steps: seq<Step>)
    decreases |steps|
  {
    Timely(s) && (steps != [] ==> TimelyRun(Next(s, steps[0]), steps[1..]))
  }

  /** The least time between the k-th claim of a row and the next one. */
  function Gap(k: nat): nat { Min(Pow2(Min(k, MAX_SHIFT)), LEASE + 1) }

  /** Two to the power of 0 to 8. */
  const POWERS: seq<nat> := [1, 2, 4, 8, 16, 32, 64, 128, 256]

  /** The cap of 300 seconds is never reached; a gap is a delay, or the lease if that ends first. */
  lemma DelayIsPow2(k: nat)
    ensures Delay(k) == POWERS[Min(k, 8)]
    ensures Gap(k) == Min(POWERS[Min(k, 8)], 121) <= Delay(k)
  {
    var n := Min(k, 8);
    assert Pow2(n) == POWERS[n] by { PowersTable(n); }
  }

  lemma GapWithinDelay(k: nat)
    ensures Gap(k) <= Delay(k)
  {
    DelayIsPow2(k);
  }

  lemma PowersTable(n: nat)
    requires n <= 8
    ensures Pow2(n) == POWERS[n]
  {
    assert Pow2(4) == 16 && Pow2(8) == 256;
    assert Pow2(5) == 32 && Pow2(6) == 64 && Pow2(7) == 128;
  }

  lemma {:induction false} Pow2Grows(a: nat, b: nat)
    requires a <= b
    ensures Pow2(a) <= Pow2(b)
  {
    if a < b { Pow2Grows(a, b - 1); }
  }

  function LastClaim(s: State, id: RowId): int
    requires Claims(s, id) != []
  {
    Claims(s, id)[|Claims(s, id)| - 1]
  }

  ghost predicate Spaced(claims: seq<int>) {
    forall i :: 0 <= i < |claims| - 1 ==> claims[i] + Gap(i + 1) <= claims[i + 1]
  }

  /** Until its next claim, a claimed row is published, or leased for the full two minutes,
      or held back by the delay of its failed attempt. */
  ghost predicate RowTimed(s: State, id: RowId)
    requires id in s.rows
  {
    var row := s.rows[id];
    var claims := Claims(s, id);
    && Spaced(claims)
    && (claims != [] ==>
          && LastClaim(s, id) <= s.now
          && (|| row.publishedAt.Some?
              || (row.lockedUntil.Some? && LastClaim(s, id) + LEASE <= row.lockedUntil.value)
              || (row.lockedUntil.None? && LastClaim(s, id) + Gap(|claims|) <= row.availableAt)))
  }

  ghost predicate RelayTimed(s: State, r: RelayId) {
    var relay := RelayAt(s, r);
    (!relay.Idle? && relay.id in s.rows) ==>
      var claims := Claims(s, relay.id);
      && (relay.Selected? && claims != [] ==> LastClaim(s, relay.id) + Gap(|claims|) <= s.now)
      && (relay.Leasing? ==>
            && relay.until - LEASE <= s.now
            && (claims != [] ==> LastClaim(s, relay.id) + Gap(|claims|) <= relay.until - LEASE))
      && (relay.Claimed() ==>
            && s.rows[relay.id].lockedUntil == Some(relay.until) && s.rows[relay.id].publishedAt.None?
            && relay.attempts == |claims| && claims != [] && LastClaim(s, relay.id) == relay.until - LEASE)
  }

  ghost predicate Exclusive(a: Relay, b: Relay) { !a.Idle? && !b.Idle? ==> a.id != b.id }

  ghost predicate TimedInv(s: State) {
    && (forall id :: id in s.rows ==> RowTimed(s, id))
    && (forall r: RelayId :: RelayTimed(s, r))
    && (forall a: RelayId, b: RelayId :: a != b ==> Exclusive(RelayAt(s, a), RelayAt(s, b)))
  }

  /** The relay still works on row `id` although its lease has ended. */
  ghost predicate Late(s: State, q: RelayId, id: RowId) {
    RelayAt(s, q).Claimed() && RelayAt(s, q).id == id && RelayAt(s, q).until < s.now
  }

  /** The step selects a row that a late relay still works on. */
  ghost predicate Overtakes(s: State, step: Step) {
    step.Select? && Enabled(s, step) && exists q: RelayId :: Late(s, q, step.id)
  }

  /** Whoever holds an eligible row is late. */
  lemma EligibleIsFree(s: State, id: RowId, q: RelayId)
    requires Inv(s) && TimedInv(s) && IsLowest(s, id)
    ensures RelayAt(s, q).Idle? || RelayAt(s, q).id != id || Late(s, q, id)
  {
    hide RowsOk, LogOk, Distinct, Exclusive, RowTimed;
    assert RelayOk(s, q) && RelayTimed(s, q);
  }

  lemma EligibleIsLate(s: State, id: RowId)
    requires TimedInv(s) && IsLowest(s, id) && Claims(s, id) != []
    ensures LastClaim(s, id) + Gap(|Claims(s, id)|) <= s.now
  {
    assert RowTimed(s, id);
  }

  lemma StepKeepsExclusive(s: State, step: Step, a: RelayId, b: RelayId)
    requires Inv(s) && TimedInv(s) && Enabled(s, step) && !Overtakes(s, step) && a != b
    ensures Exclusive(RelayAt(Effect(s, step), a), RelayAt(Effect(s, step), b))
  {
    hide Inv, IsLowest, RowTimed, RelayTimed, Delay, Late;
    assert Exclusive(RelayAt(s, a), RelayAt(s, b));
    if step.Select? {
      EligibleIsFree(s, step.id, a);
      EligibleIsFree(s, step.id, b);
    }
  }

  /** The row of another relay's claim is not touched by this relay. */
  lemma OtherRelayKept(s: State, step: Step, q: RelayId)
    requires Inv(s) && TimedInv(s) && Enabled(s, step)
    requires !step.Enqueue? && !step.Tick? && step.r != q
    ensures RelayTimed(Effect(s, step), q)
  {
    hide Inv, IsLowest, RowTimed, Gap, Delay;
    assert RelayTimed(s, q);
    assert Exclusive(RelayAt(s, step.r), RelayAt(s, q));
    var s' := Effect(s, step);
    assert RelayAt(s', q) == RelayAt(s, q);
    if !RelayAt(s, q).Idle? {
      assert Claims(s', RelayAt(s, q).id) == Claims(s, RelayAt(s, q).id);
    }
  }

  lemma OwnRelayKept(s: State, step: Step)
    requires Inv(s) && TimedInv(s) && Enabled(s, step) && !step.Enqueue? && !step.Tick?
    ensures RelayTimed(Effect(s, step), step.r)
  {
    hide RowsOk, LogOk, Distinct, Exclusive, RowTimed, Gap, Delay;
    var r := step.r;
    var s' := Effect(s, step);
    assert RelayTimed(s, r) && RelayOk(s, r);
    if step.Select? {
      if Claims(s, step.id) != [] { EligibleIsLate(s, step.id); }
      assert Claims(s', step.id) == Claims(s, step.id);
    } else if step.CommitClaim? {
      RowCounts(s, RelayAt(s, r).id);
    } else {
      assert Claims(s', RelayAt(s, r).id) == Claims(s, RelayAt(s, r).id);
    }
  }

  lemma OutsideStepKept(s: State, step: Step, q: RelayId)
    requires Inv(s) && TimedInv(s) && Enabled(s, step) && (step.Enqueue? || step.Tick?)
    ensures RelayTimed(Effect(s, step), q)
  {
    hide RowsOk, LogOk, Distinct, Exclusive, RowTimed, IsLowest, Gap, Delay, DoSelect, DoLease, DoCommitClaim,
        DoPublish, DoMark, DoRetry;
    assert RelayTimed(s, q) && RelayOk(s, q);
    var s' := Effect(s, step);
    assert RelayAt(s', q) == RelayAt(s, q);
    if !RelayAt(s, q).Idle? { assert Claims(s', RelayAt(s, q).id) == Claims(s, RelayAt(s, q).id); }
  }

  lemma StepKeepsRelayTimed(s: State, step: Step, q: RelayId)
    requires Inv(s) && TimedInv(s) && Enabled(s, step)
    ensures RelayTimed(Effect(s, step), q)
  {
    hide Inv, TimedInv, Effect, RelayTimed, Enabled;
    if step.Enqueue? || step.Tick? {
      OutsideStepKept(s, step, q);
    } else if step.r == q {
      OwnRelayKept(s, step);
    } else {
      OtherRelayKept(s, step, q);
    }
  }

  /** The row a step writes to: the one its relay holds. */
  predicate Writes(s: State, step: Step, id: RowId) {
    && (step.CommitClaim? || step.Mark? || step.Retry?)
    && !RelayAt(s, step.r).Idle? && RelayAt(s, step.r).id == id && step.ack.Applied()
  }

  lemma UntouchedRow(s: State, step: Step, id: RowId)
    requires Enabled(s, step) && id in s.rows && !Writes(s, step, id)
    ensures var s' := Effect(s, step);
      id in s'.rows && s'.rows[id] == s.rows[id] && Claims(s', id) == Claims(s, id) && s.now <= s'.now
  {
    hide IsLowest, Delay;
  }

  lemma UntouchedRowKept(s: State, step: Step, id: RowId)
    requires Inv(s) && TimedInv(s) && Enabled(s, step) && id in s.rows && !Writes(s, step, id)
    ensures RowTimed(Effect(s, step), id)
  {
    hide Inv, RelayTimed, Exclusive, Enabled, Effect, Writes, Gap, Spaced;
    assert RowTimed(s, id);
    UntouchedRow(s, step, id);
  }

  lemma WrittenRowKept(s: State, step: Step, id: RowId)
    requires Inv(s) && TimedInv(s) && Enabled(s, step) && id in s.rows && Writes(s, step, id)
    ensures RowTimed(Effect(s, step), id)
  {
    hide RowsOk, LogOk, Distinct, Exclusive, IsLowest, Delay;
    assert RowTimed(s, id) && RelayTimed(s, step.r);
    var s' := Effect(s, step);
    if step.CommitClaim? {
      assert Claims(s', id) == Claims(s, id) + [RelayAt(s, step.r).until - LEASE];
    } else {
      assert Claims(s', id) == Claims(s, id);
      GapWithinDelay(RelayAt(s, step.r).attempts);
    }
  }

  lemma StepKeepsTimedInv(s: State, step: Step)
    requires Inv(s) && TimedInv(s) && !Overtakes(s, step)
    ensures TimedInv(Next(s, step))
  {
    hide Inv, RowTimed, RelayTimed, Exclusive, Effect, Overtakes;
    if Enabled(s, step) {
      var s' := Effect(s, step);
      forall a: RelayId, b: RelayId | a != b ensures Exclusive(RelayAt(s', a), RelayAt(s', b)) {
        StepKeepsExclusive(s, step, a, b);
      }
      forall q: RelayId ensures RelayTimed(s', q) {
        StepKeepsRelayTimed(s, step, q);
      }
      forall id | id in s'.rows ensures RowTimed(s', id) {
        RowStep(s, step, id);
      }
    }
  }

  lemma RowStep(s: State, step: Step, id: RowId)
    requires Inv(s) && TimedInv(s) && Enabled(s, step) && id in Effect(s, step).rows
    ensures RowTimed(Effect(s, step), id)
  {
    hide RelayTimed, Exclusive, IsLowest, RowsOk, LogOk, RelaysOk;
    if id !in s.rows {
      NewRowUnclaimed(s, id);
      assert Claims(Effect(s, step), id) == [];
    } else if Writes(s, step, id) {
      WrittenRowKept(s, step, id);
    } else {
      UntouchedRowKept(s, step, id);
    }
  }

  lemma NewRowUnclaimed(s: State, id: RowId)
    requires Inv(s) && id !in s.rows
    ensures Claims(s, id) == []
  {
  }

  /** Some step of the run selects a row that a late relay still works on. */
  ghost predicate Overtaken(s: State, steps: seq<Step>)
    decreases |steps|
  {
    steps != [] && (Overtakes(s, steps[0]) || Overtaken(Next(s, steps[0]), steps[1..]))
  }

  lemma {:induction false} UnovertakenRunKeeps(s: State, steps: seq<Step>)
    requires Inv(s) && TimedInv(s) && !Overtaken(s, steps)
    ensures Inv(Run(s, steps)) && TimedInv(Run(s, steps))
    decreases |steps|
  {
    hide Inv, TimedInv, Next, Overtakes;
    if steps != [] {
      StepKeepsInv(s, steps[0]);
      StepKeepsTimedInv(s, steps[0]);
      UnovertakenRunKeeps(Next(s, steps[0]), steps[1..]);
    }
  }

  lemma InitialTimed(s: State)
    requires Initial(s)
    ensures Inv(s) && TimedInv(s)
  {
    InitialInv(s);
  }

  /** No row is in the hands of two relays. */
  ghost predicate OneRelayPerRow(s: State) {
    forall a: RelayId, b: RelayId :: a != b ==> Exclusive(RelayAt(s, a), RelayAt(s, b))
  }

  /** That holds in every state of the run. */
  ghost predicate AlwaysOneRelayPerRow(s: State, steps: seq<Step>)
    decreases |steps|
  {
    OneRelayPerRow(s) && (steps != [] ==> AlwaysOneRelayPerRow(Next(s, steps[0]), steps[1..]))
  }

  /** The relay that selects and the one it overtakes hold the same row. */
  lemma OvertakingShares(s: State, step: Step)
    requires Overtakes(s, step)
    ensures !OneRelayPerRow(Next(s, step))
  {
    hide IsLowest;
    var q :| Late(s, q, step.id);
    var s' := Next(s, step);
    assert RelayAt(s', q) == RelayAt(s, q) && RelayAt(s', step.r).id == RelayAt(s', q).id;
    assert !Exclusive(RelayAt(s', step.r), RelayAt(s', q));
  }

  lemma {:induction false} ExclusionOverRun(s: State, steps: seq<Step>)
    requires Inv(s) && TimedInv(s)
    ensures AlwaysOneRelayPerRow(s, steps) <==> !Overtaken(s, steps)
    decreases |steps|
  {
    hide Inv, Next, Overtakes, OneRelayPerRow;
    TimedIsExclusive(s);
    if steps != [] {
      if Overtakes(s, steps[0]) {
        OvertakingShares(s, steps[0]);
      } else {
        StepKeepsInv(s, steps[0]);
        StepKeepsTimedInv(s, steps[0]);
        ExclusionOverRun(Next(s, steps[0]), steps[1..]);
      }
    }
  }

  lemma TimedIsExclusive(s: State)
    requires TimedInv(s)
    ensures OneRelayPerRow(s)
  {
    hide RowTimed, RelayTimed, Exclusive;
  }

  /** Main result, exactly when exclusion is lost: over every run, with relays that oversleep
      as they like, no row is ever in the hands of two relays if and only if no relay selects
      a row while another one works on it past its lease. */
  lemma ExclusionLostExactlyWhenLate(init: State, steps: seq<Step>)
    requires Initial(init)
    ensures AlwaysOneRelayPerRow(init, steps) <==> !Overtaken(init, steps)
  {
    hide Inv, TimedInv, AlwaysOneRelayPerRow, Overtaken;
    InitialTimed(init);
    ExclusionOverRun(init, steps);
  }

  lemma {:induction false} TimelyIsNotOvertaken(s: State, steps: seq<Step>)
    requires TimelyRun(s, steps)
    ensures !Overtaken(s, steps)
    decreases |steps|
  {
    hide Next, IsLowest;
    if steps != [] {
      TimelyIsNotOvertaken(Next(s, steps[0]), steps[1..]);
    }
  }

  /** Main result: if relays finish within their leases or die, no row is ever in the hands
      of two relays at once. */
  lemma LeasesExclude(init: State, steps: seq<Step>)
    requires Initial(init) && TimelyRun(init, steps)
    ensures AlwaysOneRelayPerRow(init, steps)
  {
    hide TimelyRun, AlwaysOneRelayPerRow, Overtaken;
    TimelyIsNotOvertaken(init, steps);
    ExclusionLostExactlyWhenLate(init, steps);
  }

  /** The least time the first n claims of a row take. */
  function GapSum(n: nat): nat { if n <= 1 then 0 else GapSum(n - 1) + Gap(n - 1) }

  /** Main result: as long as no late relay is overtaken, consecutive claims of a row are at
      least Gap apart, so its n-th claim comes no sooner than the sum of those gaps after the
      first. */
  lemma AttemptsAreSpaced(init: State, steps: seq<Step>, id: RowId, n: nat)
    requires Initial(init) && !Overtaken(init, steps)
    requires id in Run(init, steps).rows && 1 <= n <= Run(init, steps).rows[id].attempts
    ensures var claims := Claims(Run(init, steps), id);
      && |claims| == Run(init, steps).rows[id].attempts
      && Spaced(claims)
      && claims[0] + GapSum(n) <= claims[n - 1] <= Run(init, steps).now
  {
    hide Inv, TimedInv, Spaced;
    InitialTimed(init);
    UnovertakenRunKeeps(init, steps);
    var s := Run(init, steps);
    RowCounts(s, id);
    ClaimsTimed(s, id);
    SpacedSum(Claims(s, id), n);
    SpacedGrows(Claims(s, id), n);
  }

  lemma ClaimsTimed(s: State, id: RowId)
    requires TimedInv(s) && id in s.rows
    ensures Spaced(Claims(s, id))
    ensures Claims(s, id) != [] ==> LastClaim(s, id) <= s.now
  {
    hide RelayTimed, Exclusive, Gap;
    assert RowTimed(s, id);
  }

  lemma {:induction false} SpacedSum(claims: seq<int>, n: nat)
    requires Spaced(claims) && 1 <= n <= |claims|
    ensures claims[0] + GapSum(n) <= claims[n - 1]
  {
    if 1 < n {
      SpacedSum(claims, n - 1);
      assert claims[n - 2] + Gap(n - 1) <= claims[n - 1];
    }
  }

  lemma {:induction false} SpacedGrows(claims: seq<int>, n: nat)
    requires Spaced(claims) && 1 <= n <= |claims|
    ensures claims[n - 1] <= claims[|claims| - 1]
    decreases |claims| - n
  {
    if n < |claims| {
      SpacedGrows(claims, n + 1);
      assert claims[n - 1] + Gap(n) <= claims[n];
    }
  }

  /** A failed attempt brings its row back after the delay, and not sooner. */
  lemma RetriedRowReturns(s: State, r: RelayId, later: int)
    requires Enabled(s, Retry(r, Acked)) && s.rows[RelayAt(s, r).id].publishedAt.None?
    ensures var Retrying(id, k, _) := RelayAt(s, r);
      IsEligible(Next(s, Retry(r, Acked)).rows[id], later) <==> s.now + Delay(k) <= later
  {
    hide Delay;
  }

  /** A claim whose relay dies brings its row back after 120 seconds, and not sooner. */
  lemma AbandonedRowReturns(s: State, r: RelayId, ack: Ack, later: int)
    requires Inv(s) && RelayAt(s, r).Selected? && ack.Applied()
    requires RelayAt(s, r).id in s.rows && s.rows[RelayAt(s, r).id].availableAt <= later
    ensures var id := RelayAt(s, r).id;
      var s' := Next(Next(Next(s, Lease(r)), CommitClaim(r, ack)), Die(r));
      id in s'.rows && (IsEligible(s'.rows[id], later) <==> s.now + 120 < later)
  {
    InvFacts(s, r);
    hide Inv, Next;
    LeaseStep(s, r);
    CommitStep(Next(s, Lease(r)), r, ack);
    DieStep(Next(Next(s, Lease(r)), CommitClaim(r, ack)), r);
  }

  lemma LeaseStep(s: State, r: RelayId)
    requires RelayAt(s, r).Selected?
    ensures var s' := Next(s, Lease(r));
      s'.rows == s.rows && RelayAt(s', r) == Leasing(RelayAt(s, r).id, RelayAt(s, r).attempts, s.now + 120)
  {
  }

  lemma CommitStep(s: State, r: RelayId, ack: Ack)
    requires RelayAt(s, r).Leasing? && RelayAt(s, r).id in s.rows && ack.Applied()
    ensures var Leasing(id, _, until) := RelayAt(s, r);
      var s' := Next(s, CommitClaim(r, ack));
      id in s'.rows && s'.rows[id] == s.rows[id].(lockedUntil := Some(until), attempts := s.rows[id].attempts + 1)
  {
    hide Claims;
  }

  lemma DieStep(s: State, r: RelayId)
    ensures Next(s, Die(r)).rows == s.rows
  {
  }

  /** The three statements of a claim that meets no error. */
  function ClaimSteps(r: RelayId, id: RowId): seq<Step> { [Select(r, id), Lease(r), CommitClaim(r, Acked)] }

  /** What they amount to: the row is leased to `r`, which will publish it. */
  function Claimed(s: State, r: RelayId, id: RowId): State
    requires id in s.rows
  {
    ApplyClaim(s, id, s.now + LEASE)
      .(relays := s.relays[r := Publishing(id, s.rows[id].attempts + 1, s.now + LEASE)])
  }

  lemma ClaimRun(s: State, r: RelayId, id: RowId)
    requires RelayAt(s, r).Idle? && IsLowest(s, id) && (forall i :: i in s.rowLocks ==> s.rowLocks[i] != r)
    ensures Run(s, ClaimSteps(r, id)) == Claimed(s, r, id)
  {
    hide Run, IsLowest, DoCommitClaim;
    RunThree(s, Select(r, id), Lease(r), CommitClaim(r, Acked));
    LowestInRows(s, id);
    var s1 := DoSelect(s, r, id);
    assert Next(s, Select(r, id)) == s1;
    var s2 := DoLease(s1, r);
    assert Next(s1, Lease(r)) == s2;
    ClaimCommitted(s, s2, r, id);
  }

  lemma LowestInRows(s: State, id: RowId)
    requires IsLowest(s, id)
    ensures id in s.rows && id !in s.rowLocks
  {
  }

  lemma SelectedThenLeasing(s: State, r: RelayId, id: RowId)
    requires id in s.rows
    ensures RelayAt(DoSelect(s, r, id), r).Selected?
    ensures var leasing := Leasing(id, s.rows[id].attempts, s.now + LEASE);
      var s2 := DoLease(DoSelect(s, r, id), r);
      && RelayAt(s2, r) == leasing
      && s2 == s.(relays := s2.relays, rowLocks := s.rowLocks[id := r])
      && s2.relays[r := Idle] == s.relays[r := Idle]
  {
  }

  lemma ClaimCommitted(s: State, s2: State, r: RelayId, id: RowId)
    requires id in s.rows && id !in s.rowLocks && (forall i :: i in s.rowLocks ==> s.rowLocks[i] != r)
    requires s2 == DoLease(DoSelect(s, r, id), r)
    ensures DoCommitClaim(s2, r, Acked) == Claimed(s, r, id)
  {
    SelectedThenLeasing(s, r, id);
    hide RelayAt, DoSelect, DoLease;
    assert Without(s2.rowLocks, r) == s.rowLocks;
    assert Claims(s2, id) == Claims(s, id);
    var publishing := Publishing(id, s.rows[id].attempts + 1, s.now + LEASE);
    assert s2.relays[r := publishing] == s2.relays[r := Idle][r := publishing];
    assert s.relays[r := publishing] == s.relays[r := Idle][r := publishing];
  }

  /** Without timeliness two relays do publish one row: the first sleeps past its lease. */
  lemma LateRelaySharesRow(init: State, content: B.OutboxRow) returns (steps: seq<Step>, id: RowId)
    requires Initial(init)
    ensures Run(init, steps).log == [MessageOf(id, content), MessageOf(id, content)]
    ensures Overtaken(init, steps)
  {
    hide Delay, Run, OneRelayPerRow, Overtaken;
    id := 7;
    var s1 := Next(init, Enqueue(id, content, init.now));
    ClaimRun(s1, 0, id);
    var s2 := Claimed(s1, 0, id);
    var s3 := Next(s2, Tick(LEASE + 1));
    ClaimRun(s3, 1, id);
    var s4 := Claimed(s3, 1, id);
    steps := [Enqueue(id, content, init.now)] + ClaimSteps(0, id) + [Tick(LEASE + 1)] + ClaimSteps(1, id);
    RunOne(init, Enqueue(id, content, init.now));
    RunOne(s2, Tick(LEASE + 1));
    RunConcat(init, [Enqueue(id, content, init.now)], ClaimSteps(0, id));
    RunConcat(init, [Enqueue(id, content, init.now)] + ClaimSteps(0, id), [Tick(LEASE + 1)]);
    RunConcat(init, [Enqueue(id, content, init.now)] + ClaimSteps(0, id) + [Tick(LEASE + 1)], ClaimSteps(1, id));
    BothPublish(s4, id, content);
    RunConcat(init, steps, [Publish(0, Acked), Publish(1, Acked)]);
    var overtaken := steps;
    steps := steps + [Publish(0, Acked), Publish(1, Acked)];
    SharedIsOvertaken(init, overtaken, [Publish(0, Acked), Publish(1, Acked)], 0, 1);
  }

  lemma BothPublish(s: State, id: RowId, content: B.OutboxRow)
    requires RelayAt(s, 0).Publishing? && RelayAt(s, 1).Publishing? && RelayAt(s, 0).id == RelayAt(s, 1).id == id
    requires id in s.rows && s.rows[id].content == content && s.log == []
    ensures Run(s, [Publish(0, Acked), Publish(1, Acked)]).log == [MessageOf(id, content), MessageOf(id, content)]
  {
    RunTwo(s, Publish(0, Acked), Publish(1, Acked));
  }

  /** Two relays share a row only after one overtook the other. */
  lemma SharedIsOvertaken(init: State, steps: seq<Step>, more: seq<Step>, a: RelayId, b: RelayId)
    requires Initial(init) && a != b && !Exclusive(RelayAt(Run(init, steps), a), RelayAt(Run(init, steps), b))
    ensures Overtaken(init, steps + more)
  {
    hide Inv, Overtaken;
    InitialTimed(init);
    if !Overtaken(init, steps) {
      UnovertakenRunKeeps(init, steps);
    }
    OvertakenLonger(init, steps, more);
  }

  lemma {:induction false} OvertakenLonger(s: State, steps: seq<Step>, more: seq<Step>)
    requires Overtaken(s, steps)
    ensures Overtaken(s, steps + more)
    decreases |steps|
  {
    hide Next, Overtakes;
    assert (steps + more)[1..] == steps[1..] + more;
    if !Overtakes(s, steps[0]) {
      OvertakenLonger(Next(s, steps[0]), steps[1..], more);
    }
  }
}
