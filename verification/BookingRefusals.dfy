/** A request that is refused for certain sells nothing, now or later. */
module BookingRefusals {
  import opened Basics
  import opened BookingLog
  import opened BookingModel
  import opened BookingInvariant
  import opened BookingSteps
  import opened BookingTheorems

  /** A step of another request does not move `p`. */
  lemma StepSparesProc(s: State, step: Step, p: ProcId)
    requires step.p != p
    ensures p in s.procs <==> p in Next(s, step).procs
    ensures p in s.procs ==> Next(s, step).procs[p] == s.procs[p]
  {
    hide DoReadEvent, DoPinConn, DoSeedToken, DoIssueToken, DoSelectToken, DoAcquire, DoBeginTx,
      DoReserve, DoDiagnose, DoInsertTicket, DoInsertOutbox;
    if Enabled(s, step) && !step.Begin? && !Books(s, step) {
      QuietStep(s, step);
    }
  }

  /** `p` sold nothing: no entry of any event's ledger is its own. */
  ghost predicate SoldNothing(past: History, p: ProcId) {
    forall e, k :: e in past.buyers && 0 <= k < |past.buyers[e]| ==> past.buyers[e][k].proc != p
  }

  lemma RefusedSoldNothing(s: State, p: ProcId)
    requires OutcomesOk(s) && p in s.procs && s.procs[p].pc.Done?
    requires !s.procs[p].pc.outcome.Booked? && !s.procs[p].pc.outcome.CommitUncertain?
    ensures SoldNothing(s.past, p)
  {
    hide OutcomeOk;
    forall e, k | e in s.past.buyers && 0 <= k < |s.past.buyers[e]|
      ensures s.past.buyers[e][k].proc != p
    {
      assert SellerOk(s, e, k);
    }
  }

  /** The statement of `step` runs and refuses its request: the quantity is not positive, the
      event missing or past, the lease not granted, the token statements unanswered, every
      booking_ref taken, nothing reserved, or the request fails or crashes elsewhere. */
  predicate Refuses(s: State, step: Step) {
    Enabled(s, step) &&
    match step
    case Begin(_, req) => req.quantity <= 0
    case ReadEvent(p, past) => s.procs[p].req.event !in s.db.events || past
    case SeedToken(_, ack) => !ack.Acked?
    case IssueToken(_, ack) => !ack.Acked?
    case Acquire(_, granted) => !granted
    case Diagnose(_) => true
    case GiveUp(_) => true
    case Abort(_, _) => true
    case _ => false
  }

  /** What the request is told. */
  predicate IsTold(s: State, step: Step, outcome: Outcome)
    requires Refuses(s, step)
  {
    match step
    case Begin(_, _) => outcome == InvalidQuantity
    case ReadEvent(p, _) => outcome == if s.procs[p].req.event in s.db.events then EventPast else EventNotFound
    case Acquire(_, _) => outcome == LockNotAcquired
    case Diagnose(_) => outcome.StaleToken? || outcome.Insufficient? || outcome.Failed?
    case Abort(_, crashed) => outcome == if crashed then Crashed else Failed
    case _ => outcome == Failed
  }

  lemma RefusedIsTold(s: State, step: Step)
    requires Refuses(s, step)
    ensures step.p in Next(s, step).procs
    ensures var pc := Next(s, step).procs[step.p].pc; pc.Done? && IsTold(s, step, pc.outcome)
  {
  }

  lemma DoneIsOver(s: State, p: ProcId, step: Step)
    requires p in s.procs && s.procs[p].pc.Done?
    ensures p in Next(s, step).procs && Next(s, step).procs[p] == s.procs[p]
  {
    hide Next;
    if step.p == p {
      DoneDisables(s, step);
    } else {
      StepSparesProc(s, step, p);
    }
  }

  lemma DoneDisables(s: State, step: Step)
    requires step.p in s.procs && s.procs[step.p].pc.Done?
    ensures Next(s, step) == s
  {
  }

  lemma {:induction false} DoneForGood(s: State, p: ProcId, steps: seq<Step>)
    requires p in s.procs && s.procs[p].pc.Done?
    ensures p in Run(s, steps).procs && Run(s, steps).procs[p] == s.procs[p]
    decreases |steps|
  {
    hide Next;
    if steps != [] {
      DoneIsOver(s, p, steps[0]);
      DoneForGood(Next(s, steps[0]), p, steps[1..]);
    }
  }

  /** Main result: a request that was refused, above all by the lock server or for a past
      event, has ended with that outcome, and in no later state of any run does it own a
      sale. */
  lemma RefusedSellsNothing(init: State, before: seq<Step>, step: Step, after: seq<Step>)
    requires Initial(init) && Refuses(Run(init, before), step)
    ensures var s := Run(init, before);
      var later := Run(init, before + [step] + after);
      && step.p in later.procs && later.procs[step.p].pc.Done?
      && IsTold(s, step, later.procs[step.p].pc.outcome) && SoldNothing(later.past, step.p)
  {
    hide Inv, OutcomesOk, Next, Run, Refuses, IsTold, SoldNothing;
    var s := Run(init, before);
    RefusedIsTold(s, step);
    RunSnoc(init, before, step);
    RunConcat(init, before + [step], after);
    DoneForGood(Next(s, step), step.p, after);
    var later := Run(init, before + [step] + after);
    InitialInv(init);
    InitialOutcomes(init);
    RunKeepsOutcomes(init, before + [step] + after);
    ToldIsNotSold(s, step, later.procs[step.p].pc.outcome);
    RefusedSoldNothing(later, step.p);
  }

  lemma InitialOutcomes(init: State)
    requires Initial(init)
    ensures OutcomesOk(init)
  {
  }

  lemma ToldIsNotSold(s: State, step: Step, outcome: Outcome)
    requires Refuses(s, step) && IsTold(s, step, outcome)
    ensures !outcome.Booked? && !outcome.CommitUncertain?
  {
  }
}
