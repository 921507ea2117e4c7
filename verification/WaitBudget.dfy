/** The monotonic wait budget, which never restarts, and the sleep that spends it.  Clock readings and
    durations are signed nanosecond counts. */
module WaitBudget {
  import opened Registrations

  datatype Budget = Forever | Relative(start: int, duration: int) | Deadline(deadline: int)

  datatype Timeout = NoWait | ForNanoseconds(ns: nat) | Unbounded

  /** The Platform wait that is left when the clock reads now. */
  function Remaining(b: Budget, now: int): Timeout {
    match b
    case Forever => Unbounded
    case Deadline(deadline) =>
      if now >= deadline then NoWait
      else if deadline - now <= 0 then NoWait
      else ForNanoseconds(deadline - now)
    case Relative(start, duration) =>
      if duration <= 0 then NoWait
      else
        var elapsed := now - start;
        if elapsed >= duration then NoWait
        else ForNanoseconds(duration - (if elapsed > 0 then elapsed else 0))
  }

  predicate NoLonger(a: Timeout, b: Timeout) {
    a.NoWait? || b.Unbounded? || (a.ForNanoseconds? && b.ForNanoseconds? && a.ns <= b.ns)
  }

  /** As the clock advances a budget only shrinks, and once spent it stays spent: no number of
      spurious wakes restarts it. */
  lemma BudgetNeverRestarts(b: Budget, earlier: int, later: int)
    requires earlier <= later
    ensures NoLonger(Remaining(b, later), Remaining(b, earlier))
    ensures Remaining(b, earlier).NoWait? ==> Remaining(b, later).NoWait?
    ensures Remaining(b, later).Unbounded? <==> b.Forever?
  {
  }

  /** While it lasts a relative budget and the time already waited add up to the duration asked for;
      it is spent exactly when that much time has passed; a clock that reads before the start never
      lengthens it. */
  lemma RelativeBudgetIsExact(start: int, duration: int, now: int)
    ensures var r := Remaining(Relative(start, duration), now);
      && (r.NoWait? <==> duration <= 0 || now - start >= duration)
      && (r.ForNanoseconds? ==> 0 < r.ns <= duration)
      && (r.ForNanoseconds? && start <= now ==> (now - start) + r.ns == duration)
  {
  }

  /** A relative budget is the deadline budget of its end, for every clock reading from its start on. */
  lemma RelativeIsDeadline(start: int, duration: int, now: int)
    requires start <= now
    ensures Remaining(Relative(start, duration), now) == Remaining(Deadline(start + duration), now)
  {
  }

  // ---------------------------------------------------------------- sleeping

  datatype SleepResult = Completed | Interrupted

  /** One round of the sleep loop: what the interruption checks, the clock and the wait come to. */
  datatype Round = Round(interruptedBefore: bool, now: int, interruptedAfter: bool, providerFailed: bool)

  predicate GoesOn(b: Budget, r: Round) {
    !r.interruptedBefore && !Remaining(b, r.now).NoWait? && !r.interruptedAfter && !r.providerFailed
  }

  predicate GoesOnBefore(b: Budget, rounds: seq<Round>, k: nat) {
    k < |rounds| && forall j :: 0 <= j < k ==> GoesOn(b, rounds[j])
  }

  /** Round k is the first one to end the sleep: it finds no interruption and the budget spent. */
  predicate CompletesAt(b: Budget, rounds: seq<Round>, k: nat) {
    GoesOnBefore(b, rounds, k) && !rounds[k].interruptedBefore && Remaining(b, rounds[k].now).NoWait?
  }

  /** Round k is the first one to end the sleep: it finds an interruption, or one behind its wait, or the
      platform fails the wait. */
  predicate InterruptedAt(b: Budget, rounds: seq<Round>, k: nat) {
    && GoesOnBefore(b, rounds, k)
    && (rounds[k].interruptedBefore
        || (!Remaining(b, rounds[k].now).NoWait? && (rounds[k].interruptedAfter || rounds[k].providerFailed)))
  }

  /** The sleep loop over the rounds that happen; None while it is still asleep. */
  method SleepWithBudget(managed: bool, b: Budget, rounds: seq<Round>) returns (result: Option<SleepResult>)
    ensures !managed ==> result == Some(Interrupted)
    ensures managed && result == Some(Completed) ==> exists k :: 0 <= k < |rounds| && CompletesAt(b, rounds, k)
    ensures managed && result == Some(Interrupted) ==> exists k :: 0 <= k < |rounds| && InterruptedAt(b, rounds, k)
    ensures managed && result.None? ==> forall k :: 0 <= k < |rounds| ==> GoesOn(b, rounds[k])
  {
    if !managed { return Some(Interrupted); }
    var k := 0;
    while k < |rounds|
      invariant k <= |rounds| && forall j :: 0 <= j < k ==> GoesOn(b, rounds[j])
    {
      var r := rounds[k];
      if r.interruptedBefore {
        assert InterruptedAt(b, rounds, k);
        return Some(Interrupted);
      }
      var remaining := Remaining(b, r.now);
      if remaining.NoWait? {
        assert CompletesAt(b, rounds, k);
        return Some(Completed);
      }
      if r.interruptedAfter || r.providerFailed {
        assert InterruptedAt(b, rounds, k);
        return Some(Interrupted);
      }
      k := k + 1;
    }
    return None;
  }

  /** One round at most ends the sleep, and in one way only; so the answer is determined by the rounds. */
  lemma {:induction false} SleepEndsOneWay(b: Budget, rounds: seq<Round>, j: nat, k: nat)
    ensures CompletesAt(b, rounds, j) ==> !InterruptedAt(b, rounds, k)
    ensures CompletesAt(b, rounds, j) && CompletesAt(b, rounds, k) ==> j == k
    ensures InterruptedAt(b, rounds, j) && InterruptedAt(b, rounds, k) ==> j == k
  {
    if k < j && GoesOnBefore(b, rounds, j) { assert GoesOn(b, rounds[k]); }
    if j < k && GoesOnBefore(b, rounds, k) { assert GoesOn(b, rounds[j]); }
  }

  /** On a clock that never runs backwards a sleep that is not interrupted and not failed by the
      platform completes in the first round whose clock reading finds the budget spent, however often
      it is woken before, and never earlier. */
  lemma {:induction false} SleepsItsTime(start: int, duration: int, rounds: seq<Round>, k: nat)
    requires forall i, j :: 0 <= i <= j < |rounds| ==> rounds[i].now <= rounds[j].now
    requires forall j :: 0 <= j < |rounds| ==>
      !rounds[j].interruptedBefore && !rounds[j].interruptedAfter && !rounds[j].providerFailed
    requires k < |rounds|
    ensures !InterruptedAt(Relative(start, duration), rounds, k)
    ensures CompletesAt(Relative(start, duration), rounds, k) <==>
      (duration <= 0 || rounds[k].now - start >= duration)
      && (k == 0 || (duration > 0 && rounds[k - 1].now - start < duration))
  {
    var b := Relative(start, duration);
    RelativeBudgetIsExact(start, duration, rounds[k].now);
    if k > 0 {
      RelativeBudgetIsExact(start, duration, rounds[k - 1].now);
      forall j | 0 <= j < k && GoesOn(b, rounds[k - 1]) ensures GoesOn(b, rounds[j]) {
        BudgetNeverRestarts(b, rounds[j].now, rounds[k - 1].now);
      }
    }
  }
}
