/** The retry ladder (services/email/internal/sender/retry.go) over records whose fields
    survive between calls. Times are in seconds. */
module RetryLadder {
  import opened Basics
  import opened MailModel

  /** The fields of a record that the ladder reads and writes. */
  datatype Rung = Rung(status: Status, retryCount: nat, lastAttempt: Option<int>)

  predicate TooEarly(r: Rung, now: int) {
    r.lastAttempt.Some? && now < r.lastAttempt.value + Backoff(r.retryCount)
  }

  /** FindPendingRetries selects the record and processRetry sends for it at `now`. */
  predicate Sends(r: Rung, now: int) {
    (r.status.Pending? || r.status.Failed?) && r.retryCount < MAX_RETRIES && !TooEarly(r, now)
  }

  /** A poll of one record: the clock before the send, the provider's answer, and the time
      the provider took, after which the clock is read again. */
  datatype Poll = Poll(now: int, ok: bool, took: nat)

  /** One poll of one record: processRetry if it is pending, else nothing. */
  function Polled(r: Rung, p: Poll): Rung {
    if !(r.status.Pending? || r.status.Failed?) then r
    else if MAX_RETRIES <= r.retryCount then r.(status := Dead)
    else if TooEarly(r, p.now) then r
    else if p.ok then r.(status := Sent)
    else if MAX_RETRIES <= r.retryCount + 1 then r.(status := Dead)
    else Rung(Failed, r.retryCount + 1, Some(p.now + p.took))
  }

  function After(r: Rung, polls: seq<Poll>): Rung {
    if polls == [] then r
    else Polled(After(r, polls[..|polls| - 1]), polls[|polls| - 1])
  }

  /** The instants of the sends during the polls. */
  function SendTimes(r: Rung, polls: seq<Poll>): seq<int> {
    if polls == [] then []
    else
      var n := |polls| - 1;
      var before := SendTimes(r, polls[..n]);
      if Sends(After(r, polls[..n]), polls[n].now) then before + [polls[n].now] else before
  }

  /** The sum of the first k backoffs. */
  function Total(k: nat): nat { if k == 0 then 0 else Total(k - 1) + Backoff(k - 1) }

  /** A record before its first retry, last attempted at `start`. */
  predicate Unretried(r: Rung, start: int) {
    r == Rung(r.status, 0, Some(start)) && (r.status.Pending? || r.status.Failed?)
  }

  predicate AllFail(polls: seq<Poll>) { forall i :: 0 <= i < |polls| ==> !polls[i].ok }

  /** The last send, or the attempt before all of them. */
  function LastOf(start: int, sends: seq<int>): int {
    if sends == [] then start else sends[|sends| - 1]
  }

  /** Each send waits for its rung after the one before it. */
  predicate Spaced(start: int, sends: seq<int>) {
    sends == [] ||
    var n := |sends| - 1;
    Spaced(start, sends[..n]) && LastOf(start, sends[..n]) + Backoff(n) <= sends[n]
  }

  /** The record after failed polls, told from the sends alone. */
  predicate OnLadder(start: int, r: Rung, sends: seq<int>) {
    if |sends| < MAX_RETRIES then
      && (r.status.Pending? || r.status.Failed?)
      && r.retryCount == |sends| && r.lastAttempt.Some?
      && LastOf(start, sends) <= r.lastAttempt.value
    else |sends| == MAX_RETRIES && r.status.Dead?
  }

  lemma {:induction false} FailingPolls(r: Rung, start: int, polls: seq<Poll>)
    requires Unretried(r, start) && AllFail(polls)
    ensures OnLadder(start, After(r, polls), SendTimes(r, polls)) && Spaced(start, SendTimes(r, polls))
  {
    if polls != [] {
      var n := |polls| - 1;
      FailingPolls(r, start, polls[..n]);
      var before := SendTimes(r, polls[..n]);
      if Sends(After(r, polls[..n]), polls[n].now) {
        assert (before + [polls[n].now])[..|before|] == before;
      }
    }
  }

  lemma {:induction false} SpacedTotal(start: int, sends: seq<int>)
    requires Spaced(start, sends)
    ensures start + Total(|sends|) <= LastOf(start, sends)
  {
    if sends != [] {
      SpacedTotal(start, sends[..|sends| - 1]);
    }
  }

  /** One, five and fifteen minutes, one hour, four hours. */
  const RUNGS: seq<nat> := [1 * 60, 5 * 60, 15 * 60, 1 * 3600, 4 * 3600]

  lemma RungTable(k: nat)
    ensures k < 5 ==> Backoff(k) == RUNGS[k]
  {
  }

  /** Main result, when a poll sends: a pending record with k failed attempts is sent exactly
      if k is below five and its k-th rung, counted from zero, has passed since its last
      attempt. */
  lemma SendsExactly(r: Rung, now: int)
    requires r.status.Pending? || r.status.Failed?
    ensures Sends(r, now) <==>
        r.retryCount < 5 && (r.lastAttempt.Some? ==> r.lastAttempt.value + RUNGS[r.retryCount] <= now)
  {
    RungTable(r.retryCount);
  }

  lemma {:induction false} SpacedRungs(start: int, sends: seq<int>, i: nat)
    requires Spaced(start, sends) && i < |sends| <= 5
    ensures LastOf(start, sends[..i]) + RUNGS[i] <= sends[i]
  {
    var n := |sends| - 1;
    if i < n {
      SpacedRungs(start, sends[..n], i);
      assert sends[..n][..i] == sends[..i];
    } else {
      RungTable(n);
    }
  }

  lemma LadderTotal()
    ensures Total(5) == 321 * 60
  {
    assert Total(3) == 1260;
  }

  /** Main result: with a provider that always fails, a record makes at most five sends, each
      delayed by its rung of one, five, fifteen minutes, one hour, four hours, and becomes dead
      with the fifth, no earlier than 321 minutes after its last attempt. */
  lemma FiveSendsThenDead(r: Rung, start: int, polls: seq<Poll>)
    requires Unretried(r, start) && AllFail(polls)
    ensures var sends := SendTimes(r, polls);
      && |sends| <= 5
      && (1 <= |sends| ==> start + 60 <= sends[0])
      && (2 <= |sends| ==> sends[0] + 300 <= sends[1])
      && (3 <= |sends| ==> sends[1] + 900 <= sends[2])
      && (4 <= |sends| ==> sends[2] + 3600 <= sends[3])
      && (5 <= |sends| ==> sends[3] + 14400 <= sends[4])
      && (After(r, polls).status.Dead? <==> |sends| == 5)
      && (|sends| == 5 ==> start + 321 * 60 <= sends[4])
  {
    FailingPolls(r, start, polls);
    SpacedTotal(start, SendTimes(r, polls));
    LadderTotal();
    var sends := SendTimes(r, polls);
    forall i: nat | i < |sends| ensures LastOf(start, sends[..i]) + RUNGS[i] <= sends[i] {
      SpacedRungs(start, sends, i);
    }
  }

  /** Each poll ends within `gap` seconds of the beginning of the one before it, the first
      within `gap` of `start`. */
  predicate Steady(start: int, polls: seq<Poll>, gap: nat) {
    polls == [] ||
    var n := |polls| - 1;
    && Steady(start, polls[..n], gap)
    && polls[n].now + polls[n].took <= (if n == 0 then start else polls[n - 1].now) + gap
  }

  /** How late the record's last attempt can be: the rungs so far and a gap for each. */
  predicate NotLate(start: int, r: Rung, gap: nat) {
    && r.retryCount < MAX_RETRIES && r.lastAttempt.Some?
    && r.lastAttempt.value <= start + Total(r.retryCount) + r.retryCount * gap
  }

  lemma OneMoreGap(k: nat, gap: nat)
    ensures k * gap + gap == (k + 1) * gap
  {
  }

  /** A record that is not dead yet is not overdue either. */
  lemma {:induction false} NotOverdue(r: Rung, start: int, polls: seq<Poll>, gap: nat)
    requires Unretried(r, start) && AllFail(polls) && Steady(start, polls, gap)
    ensures var r' := After(r, polls);
      !r'.status.Dead? ==>
        && (r'.status.Pending? || r'.status.Failed?) && NotLate(start, r', gap)
        && (polls != [] ==> polls[|polls| - 1].now < r'.lastAttempt.value + Backoff(r'.retryCount))
  {
    if polls != [] {
      var n := |polls| - 1;
      NotOverdue(r, start, polls[..n], gap);
      OneMoreGap(After(r, polls[..n]).retryCount, gap);
    }
  }

  lemma TotalWithin(k: nat, gap: nat)
    requires k < MAX_RETRIES
    ensures Total(k) + k * gap + Backoff(k) <= 321 * 60 + 4 * gap
  {
    LadderTotal();
    assert Total(k) + Backoff(k) == Total(k + 1) <= Total(5);
    assert (4 - k) * gap >= 0;
  }

  /** Main result, the other way: polled at least every `gap` seconds, a record that keeps
      failing is dead at the first poll that comes 321 minutes and four gaps after its last
      attempt. */
  lemma DeadInTime(r: Rung, start: int, polls: seq<Poll>, gap: nat)
    requires Unretried(r, start) && AllFail(polls) && Steady(start, polls, gap)
    requires polls != [] && start + 321 * 60 + 4 * gap <= polls[|polls| - 1].now
    ensures After(r, polls).status.Dead?
  {
    NotOverdue(r, start, polls, gap);
    var k := After(r, polls).retryCount;
    if k < MAX_RETRIES {
      TotalWithin(k, gap);
    }
  }

  /** Main result: whatever the provider answers, a record is sent at most five times in its
      life, and never again once it is sent or dead. */
  lemma {:induction false} SendsAreBounded(r: Rung, polls: seq<Poll>)
    requires r.retryCount == 0
    ensures |SendTimes(r, polls)| <= 5
    ensures var r' := After(r, polls);
      if r'.status.Sent? || r'.status.Dead? then forall now :: !Sends(r', now)
      else |SendTimes(r, polls)| == r'.retryCount <= 4
  {
    if polls != [] {
      SendsAreBounded(r, polls[..|polls| - 1]);
    }
  }

  // ---- The service ----

  class EmailStatus {
    var status: Status
    var retryCount: nat
    var lastAttemptAt: Option<int>

    constructor (status: Status, retryCount: nat, lastAttemptAt: Option<int>)
      ensures Value() == Rung(status, retryCount, lastAttemptAt)
    {
      this.status, this.retryCount, this.lastAttemptAt := status, retryCount, lastAttemptAt;
    }

    function Value(): Rung
      reads this
    {
      Rung(status, retryCount, lastAttemptAt)
    }
  }

  /** processRetry on a pending record; `asked` tells whether the provider was called. */
  method ProcessRetry(email: EmailStatus, poll: Poll) returns (asked: bool)
    requires email.status.Pending? || email.status.Failed?
    modifies email
    ensures email.Value() == Polled(old(email.Value()), poll)
    ensures asked <==> Sends(old(email.Value()), poll.now)
    ensures var Rung(status, k, last) := old(email.Value());
      && (asked <==> k < 5 && (last.Some? ==> last.value + RUNGS[k] <= poll.now))
      && email.Value() ==
         if 5 <= k then Rung(Dead, k, last)
         else if !asked then Rung(status, k, last)
         else if poll.ok then Rung(Sent, k, last)
         else if k == 4 then Rung(Dead, k, last)
         else Rung(Failed, k + 1, Some(poll.now + poll.took))
  {
    RungTable(email.retryCount);
    if email.retryCount >= MAX_RETRIES {
      email.status := Dead;
      return false;
    }
    var backoffIndex := email.retryCount;
    if backoffIndex >= |BACKOFFS| {
      backoffIndex := |BACKOFFS| - 1;
    }
    var minWait := BACKOFFS[backoffIndex];
    if email.lastAttemptAt.Some? && poll.now < email.lastAttemptAt.value + minWait {
      return false;
    }
    asked := true;
    if poll.ok {
      email.status := Sent;
      return;
    }
    var newRetryCount := email.retryCount + 1;
    if newRetryCount >= MAX_RETRIES {
      email.status := Dead;
      return;
    }
    email.status, email.retryCount, email.lastAttemptAt := Failed, newRetryCount, Some(poll.now + poll.took);
  }

  ghost predicate Distinct(emails: seq<EmailStatus>) {
    forall i, j :: 0 <= i < j < |emails| ==> emails[i] != emails[j]
  }

  /** One round of the loop: every record is polled once, each with its own poll. */
  method RetryRound(emails: seq<EmailStatus>, polls: seq<Poll>)
    requires |polls| == |emails| && Distinct(emails)
    modifies emails
    ensures forall i :: 0 <= i < |emails| ==> emails[i].Value() == Polled(old(emails[i].Value()), polls[i])
  {
    hide Polled;
    for k := 0 to |emails|
      invariant forall i :: 0 <= i < k ==> emails[i].Value() == Polled(old(emails[i].Value()), polls[i])
      invariant forall i :: k <= i < |emails| ==> emails[i].Value() == old(emails[i].Value())
    {
      PollOne(emails[k], polls[k]);
    }
  }

  /** FindPendingRetries selects the record or not, and processRetry handles it if so. */
  method PollOne(email: EmailStatus, poll: Poll)
    modifies email
    ensures email.Value() == Polled(old(email.Value()), poll)
  {
    if email.status.Pending? || email.status.Failed? {
      var _ := ProcessRetry(email, poll);
    }
  }

  /** The polls of record i over the rounds. */
  function PollsOf(rounds: seq<seq<Poll>>, i: nat): (polls: seq<Poll>)
    requires forall t :: 0 <= t < |rounds| ==> i < |rounds[t]|
  {
    seq(|rounds|, t requires 0 <= t < |rounds| => rounds[t][i])
  }

  /** StartBackgroundRetry over any number of rounds that found their records: each record
      runs its own ladder. */
  method BackgroundRetry(emails: seq<EmailStatus>, rounds: seq<seq<Poll>>)
    requires forall t :: 0 <= t < |rounds| ==> |rounds[t]| == |emails|
    requires Distinct(emails)
    modifies emails
    ensures forall i :: 0 <= i < |emails| ==> emails[i].Value() == After(old(emails[i].Value()), PollsOf(rounds, i))
  {
    hide Polled;
    for t := 0 to |rounds|
      invariant forall i :: 0 <= i < |emails| ==>
                emails[i].Value() == After(old(emails[i].Value()), PollsOf(rounds[..t], i))
    {
      RetryRound(emails, rounds[t]);
      forall i | 0 <= i < |emails|
        ensures emails[i].Value() == After(old(emails[i].Value()), PollsOf(rounds[..t + 1], i))
      {
        assert PollsOf(rounds[..t + 1], i) == PollsOf(rounds[..t], i) + [rounds[t][i]];
        assert PollsOf(rounds[..t + 1], i)[..t] == PollsOf(rounds[..t], i);
      }
    }
    assert rounds[..|rounds|] == rounds;
  }
}
