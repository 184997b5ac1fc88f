/** Calling the provider: retries, what they may cost, and how long they may take. */
module Attempts {
  import opened Base
  import opened Rows
  import opened Truncation
  import opened Selection

  datatype AttemptError = InvalidOutput | Unavailable | Other

  /**
   What one call to the provider came back with, after how many milliseconds, and whether the caller had given up by
   then.
   */
  datatype Attempt = Attempt(
    output: string, inputTokens: nat, outputTokens: nat, cost: real, error: Option<AttemptError>, duration: nat,
      canceled: bool)

  datatype Outcome = Outcome(output: string, inputTokens: nat, outputTokens: nat, cost: real, attempts: nat,
                             failed: bool)

  function Retryable(error: Option<AttemptError>): bool {
    error == Some(InvalidOutput) || error == Some(Unavailable)
  }

  function AttemptLimit(maxAttempts: int): nat { if maxAttempts < 1 then 1 else maxAttempts }

  /** How many of the provider's answers are asked for: up to a success, a final error, a cancellation, or the limit. */
  function Made(answers: seq<Attempt>, limit: nat): (made: nat)
    requires |answers| >= limit >= 1
    ensures 1 <= made <= limit
    decreases limit
  {
    if limit == 1 || !Retryable(answers[0].error) || answers[0].canceled then 1
    else 1 + Made(answers[1..], limit - 1)
  }

  function TotalCost(answers: seq<Attempt>): real {
    if answers == [] then 0.0 else TotalCost(answers[..|answers| - 1]) + answers[|answers| - 1].cost
  }

  function TotalInput(answers: seq<Attempt>): nat {
    if answers == [] then 0 else TotalInput(answers[..|answers| - 1]) + answers[|answers| - 1].inputTokens
  }

  function TotalOutput(answers: seq<Attempt>): nat {
    if answers == [] then 0 else TotalOutput(answers[..|answers| - 1]) + answers[|answers| - 1].outputTokens
  }

  /** The pause after the n-th attempt: doubling from 250 ms, capped. */
  function Pause(n: nat, maxBackoff: int): int
    requires n >= 1
  {
    Min(Power(n - 1) * 250, maxBackoff)
  }

  function Power(n: nat): nat { if n == 0 then 1 else 2 * Power(n - 1) }

  function Pauses(attempts: nat, maxBackoff: int): int {
    if attempts <= 1 then 0 else Pauses(attempts - 1, maxBackoff) + Max(0, Pause(attempts - 1, maxBackoff))
  }

  function Durations(answers: seq<Attempt>): nat {
    if answers == [] then 0 else Durations(answers[..|answers| - 1]) + answers[|answers| - 1].duration
  }

  lemma {:induction false} MadeStep(answers: seq<Attempt>, limit: nat, k: nat)
    requires |answers| >= limit >= 1 && k < Made(answers, limit)
    ensures k + 1 < limit && Retryable(answers[k].error) && !answers[k].canceled ==> k + 1 < Made(answers, limit)
    ensures k + 1 == limit || !Retryable(answers[k].error) || answers[k].canceled ==> Made(answers, limit) == k + 1
    decreases limit
  {
    if k > 0 {
      MadeStep(answers[1..], limit - 1, k - 1);
    }
  }

  /** The retry loop: usage is summed over the attempts that were made, and the last answer decides. */
  method ExecuteAttempts(answers: seq<Attempt>, maxAttempts: int, maxBackoff: int)
    returns (outcome: Outcome, elapsed: int)
    requires |answers| >= AttemptLimit(maxAttempts)
    ensures var made := Made(answers, AttemptLimit(maxAttempts));
            && outcome.attempts == made && outcome.output == answers[made - 1].output
            && outcome.cost == TotalCost(answers[..made]) && outcome.inputTokens == TotalInput(answers[..made])
            && outcome.outputTokens == TotalOutput(answers[..made]) && outcome.failed == answers[made - 1].error.Some?
            && elapsed == Durations(answers[..made]) + Pauses(made, maxBackoff)
  {
    var limit := AttemptLimit(maxAttempts);
    outcome := Outcome("", 0, 0, 0.0, 0, false);
    elapsed := 0;
    for attempt := 1 to limit + 1
      invariant attempt <= limit ==> attempt - 1 < Made(answers, limit)
      invariant attempt <= limit
      invariant outcome.attempts == attempt - 1
      invariant outcome.cost == TotalCost(answers[..attempt - 1])
                && outcome.inputTokens == TotalInput(answers[..attempt - 1])
      invariant outcome.outputTokens == TotalOutput(answers[..attempt - 1])
      invariant elapsed == Durations(answers[..attempt - 1]) + Pauses(attempt, maxBackoff)
    {
      var answer := answers[attempt - 1];
      assert answers[..attempt][..attempt - 1] == answers[..attempt - 1];
      MadeStep(answers, limit, attempt - 1);
      outcome :=
        Outcome(answer.output, outcome.inputTokens + answer.inputTokens, outcome.outputTokens + answer.outputTokens,
                         outcome.cost + answer.cost, attempt, answer.error.Some?);
      elapsed := elapsed + answer.duration;
      if answer.error.None? || !Retryable(answer.error) || attempt == limit || answer.canceled {
        return;
      }
      var delay := Pause(attempt, maxBackoff);
      if delay > 0 {
        elapsed := elapsed + delay;
      }
    }
  }

  // Cost.

  /** The price of some tokens, in USD, at prices per million tokens. */
  function Price(input: nat, output: nat, inputPrice: real, outputPrice: real): real {
    (input as real * inputPrice + output as real * outputPrice) / 1000000.0
  }

  /** The amount reserved before the first attempt. */
  function MaximumReservation(maxInput: nat, maxOutput: nat, maxAttempts: int, inputPrice: real, outputPrice: real)
    : real
  {
    Times(Price(maxInput, maxOutput, inputPrice, outputPrice), maxAttempts)
  }

  function Times(price: real, n: int): real { price * n as real }

  /** An attempt within both caps, charged by its tokens. */
  predicate WithinCaps(a: Attempt, maxInput: nat, maxOutput: nat, inputPrice: real, outputPrice: real) {
    && a.inputTokens <= maxInput && a.outputTokens <= maxOutput
    && a.cost == Price(a.inputTokens, a.outputTokens, inputPrice, outputPrice)
  }

  lemma PriceMonotone(input: nat, output: nat, maxInput: nat, maxOutput: nat, inputPrice: real, outputPrice: real)
    requires input <= maxInput && output <= maxOutput && inputPrice >= 0.0 && outputPrice >= 0.0
    ensures Price(input, output, inputPrice, outputPrice) <= Price(maxInput, maxOutput, inputPrice, outputPrice)
  {
    assert (maxInput - input) as real * inputPrice >= 0.0;
    assert (maxOutput - output) as real * outputPrice >= 0.0;
  }

  lemma {:induction false} CostPerAttempt(answers: seq<Attempt>, n: nat, price: real)
    requires n <= |answers| && forall a :: a in answers ==> a.cost <= price
    ensures TotalCost(answers[..n]) <= Times(price, n)
    decreases n
  {
    if n > 0 {
      CostPerAttempt(answers, n - 1, price);
      assert answers[n - 1] in answers && answers[..n][..n - 1] == answers[..n - 1];
      TimesStep(price, n - 1);
    }
  }

  lemma TimesStep(price: real, n: nat)
    ensures Times(price, n + 1) == Times(price, n) + price
  {
  }

  lemma TimesMonotone(price: real, n: nat, m: nat)
    requires price >= 0.0 && n <= m
    ensures Times(price, n) <= Times(price, m)
  {
    assert price * (m - n) as real >= 0.0;
  }

  lemma CostOfAttempts(answers: seq<Attempt>, maxAttempts: int, price: real)
    requires maxAttempts >= 1 && |answers| >= maxAttempts && price >= 0.0
    requires forall a :: a in answers ==> a.cost <= price
    ensures TotalCost(answers[..Made(answers, AttemptLimit(maxAttempts))]) <= Times(price, maxAttempts)
  {
    var made := Made(answers, AttemptLimit(maxAttempts));
    CostPerAttempt(answers, made, price);
    TimesMonotone(price, made, maxAttempts);
  }

  /** Whatever attempts are made, their cost stays within the reservation. */
  lemma CostWithinReservation(answers: seq<Attempt>, maxAttempts: int, maxInput: nat, maxOutput: nat, inputPrice: real,
                              outputPrice: real)
    requires maxAttempts >= 1 && |answers| >= maxAttempts && inputPrice >= 0.0 && outputPrice >= 0.0
    requires forall a :: a in answers ==> WithinCaps(a, maxInput, maxOutput, inputPrice, outputPrice)
    ensures TotalCost(answers[..Made(answers, AttemptLimit(maxAttempts))]) <=
              MaximumReservation(maxInput, maxOutput, maxAttempts, inputPrice, outputPrice)
  {
    forall a | a in answers ensures a.cost <= Price(maxInput, maxOutput, inputPrice, outputPrice) {
      PriceMonotone(a.inputTokens, a.outputTokens, maxInput, maxOutput, inputPrice, outputPrice);
    }
    PriceMonotone(0, 0, maxInput, maxOutput, inputPrice, outputPrice);
    CostOfAttempts(answers, maxAttempts, Price(maxInput, maxOutput, inputPrice, outputPrice));
  }

  /**
   Money as the ledger counts it: rounded to units of 1e-8 USD, whichever way a tie or a fraction goes, but never out
   of order.
   */
  ghost predicate Rounds(round: real -> int) {
    forall a: real, b: real :: a <= b ==> round(a) <= round(b)
  }

  ghost function Units(round: real -> int, usd: real): int { round(usd * 100000000.0) }

  /** What the ledger assumes of a report: in its units too, the cost is at most what was reserved. */
  lemma CostWithinUnits(round: real -> int, answers: seq<Attempt>, maxAttempts: int, maxInput: nat, maxOutput: nat,
                        inputPrice: real, outputPrice: real)
    requires Rounds(round) && maxAttempts >= 1 && |answers| >= maxAttempts && inputPrice >= 0.0 && outputPrice >= 0.0
    requires forall a :: a in answers ==> WithinCaps(a, maxInput, maxOutput, inputPrice, outputPrice)
    ensures Units(round, TotalCost(answers[..Made(answers, AttemptLimit(maxAttempts))])) <=
              Units(round, MaximumReservation(maxInput, maxOutput, maxAttempts, inputPrice, outputPrice))
  {
    CostWithinReservation(answers, maxAttempts, maxInput, maxOutput, inputPrice, outputPrice);
    MoreUnits(TotalCost(answers[..Made(answers, AttemptLimit(maxAttempts))]),
              MaximumReservation(maxInput, maxOutput, maxAttempts, inputPrice, outputPrice));
  }

  lemma MoreUnits(a: real, b: real)
    requires a <= b
    ensures a * 100000000.0 <= b * 100000000.0
  {
  }

  /** Rounding to the nearest unit is such a rounding. */
  function Nearest(a: real): int { (a + 0.5).Floor }

  lemma NearestRounds()
    ensures Rounds(Nearest)
  {
  }

  /** The request the configured selector settles on fits every attempt, with or without the retry instruction. */
  lemma RetryWithinSize(count: Counter, encode: Snapshot -> string, instructions: Operation -> string, retry: string,
                        attempts: int, maxCycles: int, s: Snapshot, limit: int)
    requires Selected(Configured(count, encode, instructions, retry, attempts, maxCycles), s, limit).Ok?
    requires count(instructions(s.operation)) <= count(instructions(s.operation) + retry)
    ensures var t := Selected(Configured(count, encode, instructions, retry, attempts, maxCycles), s, limit).value;
            && count(instructions(s.operation)) + count(encode(t)) + 32 <= limit
            && (attempts > 1 ==> count(instructions(s.operation) + retry) + count(encode(t)) + 32 <= limit)
  {
    ConfiguredFits(count, encode, instructions, retry, attempts, maxCycles, s, limit);
    assert instructions(s.operation) + "" == instructions(s.operation);
  }

  // Time.

  datatype Timing = Timing(timeout: int, maxAttempts: int, maxBackoff: int, grace: int, lease: int)

  /** What configuration validation demands of the times, in milliseconds. */
  predicate Validated(t: Timing) {
    && t.timeout > 0 && 1 <= t.maxAttempts <= 2 && t.maxBackoff >= 0 && t.grace > 0
    && t.lease > t.timeout * t.maxAttempts + t.maxBackoff + t.grace
  }

  lemma {:induction false} DurationsWithin(answers: seq<Attempt>, timeout: int)
    requires timeout >= 0 && forall a :: a in answers ==> a.duration <= timeout
    ensures Durations(answers) <= timeout * |answers|
    decreases |answers|
  {
    if answers != [] {
      var n := |answers| - 1;
      DurationsWithin(answers[..n], timeout);
      assert timeout * |answers| == timeout * n + timeout;
    }
  }

  /** Two attempts have one pause between them. */
  lemma PausesWithin(attempts: nat, maxBackoff: int)
    requires attempts <= 2 && maxBackoff >= 0
    ensures Pauses(attempts, maxBackoff) <= maxBackoff
  {
    assert Pauses(1, maxBackoff) == 0 && Power(0) == 1;
  }

  lemma MoreAttemptsLonger(timeout: int, made: nat, attempts: int)
    requires timeout >= 0 && made <= attempts
    ensures timeout * made <= timeout * attempts
  {
  }

  /** With a validated configuration every attempt, every pause and the finalization end before the lease does. */
  lemma LeaseOutlives(t: Timing, answers: seq<Attempt>)
    requires Validated(t) && |answers| >= t.maxAttempts && forall a :: a in answers ==> a.duration <= t.timeout
    ensures var made := Made(answers, AttemptLimit(t.maxAttempts));
            Durations(answers[..made]) + Pauses(made, t.maxBackoff) + t.grace < t.lease
  {
    var made := Made(answers, AttemptLimit(t.maxAttempts));
    DurationsWithin(answers[..made], t.timeout);
    MoreAttemptsLonger(t.timeout, made, t.maxAttempts);
    PausesWithin(made, t.maxBackoff);
  }

  /**
   And it asks for no more than that where the pause cannot end early: then a lease is accepted exactly if the longest
   call ends before it.
   */
  lemma LeaseIsExact(t: Timing)
    requires t.timeout > 0 && t.grace > 0 && t.maxBackoff >= 0
    requires if t.maxAttempts == 2 then t.maxBackoff <= 250 else t.maxAttempts == 1 && t.maxBackoff == 0
    ensures Validated(t) <==> t.timeout * t.maxAttempts + Pauses(t.maxAttempts, t.maxBackoff) + t.grace < t.lease
  {
    assert Pauses(1, t.maxBackoff) == 0 && Power(0) == 1;
  }

  // More than two attempts.

  /** All pauses before the n-th attempt, if none is cut off: 250 ms, doubling. */
  function Doubled(n: nat): int
    requires n >= 1
  {
    250 * (Power(n - 1) - 1)
  }

  lemma {:induction false} PowerGrows(n: nat)
    ensures Power(n) >= 1
    decreases n
  {
    if n > 0 {
      PowerGrows(n - 1);
    }
  }

  lemma {:induction false} PausesUncut(n: nat, maxBackoff: int)
    requires n >= 2 && maxBackoff >= 250 * Power(n - 2)
    ensures Pauses(n, maxBackoff) == Doubled(n)
    decreases n
  {
    PowerGrows(n - 2);
    if n > 2 {
      PausesUncut(n - 1, maxBackoff);
    } else {
      assert Pauses(1, maxBackoff) == 0;
    }
  }

  /** From the first pause that is cut off, the pauses together exceed one maximum. */
  lemma {:induction false} PausesPositive(n: nat, maxBackoff: int)
    requires n >= 2 && maxBackoff > 0
    ensures Pauses(n, maxBackoff) > 0
    decreases n
  {
    PowerGrows(n - 2);
    if n > 2 {
      PausesPositive(n - 1, maxBackoff);
    } else {
      assert Pauses(1, maxBackoff) == 0;
    }
  }

  /** The pauses stay within one maximum exactly for two attempts, or when the maximum covers all of them uncut. */
  lemma PausesWithinIff(n: nat, maxBackoff: int)
    requires n >= 1 && maxBackoff > 0
    ensures Pauses(n, maxBackoff) <= maxBackoff <==> n <= 2 || maxBackoff >= Doubled(n)
  {
    if n <= 2 {
      PausesWithin(n, maxBackoff);
    } else {
      PowerGrows(n - 2);
      if maxBackoff >= 250 * Power(n - 2) {
        PausesUncut(n, maxBackoff);
      } else {
        assert Pause(n - 1, maxBackoff) == maxBackoff;
        PausesPositive(n - 1, maxBackoff);
      }
    }
  }

  /** The inequality on the lease, for any number of attempts. */
  predicate LeaseExceeds(t: Timing) {
    t.timeout > 0 && t.grace > 0 && t.lease > t.timeout * t.maxAttempts + t.maxBackoff + t.grace
  }

  /** Every attempt takes its whole time and is asked for again. */
  function Longest(t: Timing): int
    requires t.maxAttempts >= 1
  {
    t.timeout * t.maxAttempts + Pauses(t.maxAttempts, t.maxBackoff) + t.grace
  }

  /**
   The inequality makes the lease outlive the longest call exactly for two attempts, or when one maximum covers all
   pauses.
   */
  lemma LeaseCoversIff(maxAttempts: int, maxBackoff: int)
    requires maxAttempts >= 1 && maxBackoff > 0
    ensures (forall t: Timing :: t.maxAttempts == maxAttempts && t.maxBackoff == maxBackoff && LeaseExceeds(t) ==>
              Longest(t) < t.lease) <==>
            maxAttempts <= 2 || maxBackoff >= Doubled(maxAttempts)
  {
    PausesWithinIff(maxAttempts, maxBackoff);
    if Pauses(maxAttempts, maxBackoff) > maxBackoff {
      var t := Timing(1, maxAttempts, maxBackoff, 1, maxAttempts + maxBackoff + 2);
      assert LeaseExceeds(t) && Longest(t) >= t.lease;
    }
  }

  /** Three attempts with a maximum of 250 ms, for one: two pauses exceed one maximum. */
  lemma ThreeAttemptsOutlast()
    ensures var t := Timing(1000, 3, 250, 1000, 4251); LeaseExceeds(t) && Longest(t) >= t.lease
  {
    assert Power(2) == 2 * Power(1) && Power(1) == 2 * Power(0);
    PausesWithinIff(3, 250);
  }

  // The rules of the loop, attempt by attempt.

  /** An attempt is made exactly if every one before it failed in a way worth repeating and nobody had given up. */
  lemma {:induction false} MadeIff(answers: seq<Attempt>, limit: nat, k: nat)
    requires |answers| >= limit >= 1 && k < limit
    ensures k < Made(answers, limit) <==>
              forall j :: 0 <= j < k ==>
                (answers[j].error == Some(InvalidOutput) || answers[j].error == Some(Unavailable))
                  && !answers[j].canceled
    decreases k
  {
    if k > 0 {
      if k - 1 < Made(answers, limit) {
        MadeStep(answers, limit, k - 1);
      }
      MadeIff(answers, limit, k - 1);
    }
  }

  /** At least one attempt is made, and never more than configured. */
  lemma AttemptLimitIs(maxAttempts: int)
    ensures AttemptLimit(maxAttempts) == Max(1, maxAttempts)
  {
  }

  /** The pauses: a quarter of a second, doubling, and never more than the maximum. */
  lemma PauseIs(n: nat, maxBackoff: int)
    requires n >= 1
    ensures Pause(1, maxBackoff) == Min(250, maxBackoff)
    ensures Pause(n, maxBackoff) <= maxBackoff
    ensures Pause(n, maxBackoff) < maxBackoff ==> Pause(n + 1, maxBackoff) == Min(2 * Pause(n, maxBackoff), maxBackoff)
  {
    assert Power(0) == 1;
  }

  /** The reservation is what all attempts at both caps cost, at prices per million tokens. */
  lemma ReservationIs(maxInput: nat, maxOutput: nat, maxAttempts: int, inputPrice: real, outputPrice: real)
    ensures 1000000.0 * MaximumReservation(maxInput, maxOutput, maxAttempts, inputPrice, outputPrice) ==
              (maxInput as real * inputPrice + maxOutput as real * outputPrice) * maxAttempts as real
  {
  }
}
