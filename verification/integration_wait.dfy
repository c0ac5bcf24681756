/**
 * The polling loops that tests use to wait for DHT op integration. Each database
 * read is an input: the sequence of values successive reads return. Delays are
 * in milliseconds and only accumulated.
 */
module IntegrationWait {

  /** What one read of an environment gives: ops in validation limbo, in integration limbo, and integrated. */
  datatype Counts = Counts(validationLimbo: nat, integrationLimbo: nat, integrated: nat)

  /**
   * `wait_for_integration`: poll at most `numAttempts` times, return right after
   * the first read equal to `expectedCount`, and sleep `delay` after every other
   * read. `counts[i]` is what the i-th read returns.
   */
  method WaitForIntegration(expectedCount: nat, numAttempts: nat, delay: nat, counts: seq<nat>)
    returns (polls: nat, integrated: bool, waited: nat)
    requires numAttempts <= |counts|
    ensures polls <= numAttempts
    ensures integrated ==> 0 < polls && counts[polls - 1] == expectedCount
    ensures !integrated ==> polls == numAttempts
    ensures forall j :: 0 <= j < polls - 1 ==> counts[j] != expectedCount
    ensures !integrated ==> forall j :: 0 <= j < polls ==> counts[j] != expectedCount
    ensures waited == delay * (if integrated then polls - 1 else polls)
  {
    polls, integrated, waited := 0, false, 0;
    for i := 0 to numAttempts
      invariant polls == i && !integrated
      invariant waited == delay * i
      invariant forall j :: 0 <= j < i ==> counts[j] != expectedCount
    {
      polls := polls + 1;
      if counts[i] == expectedCount {
        integrated := true;
        return;
      }
      waited := waited + delay;
    }
  }

  /**
   * `wait_for_integration_10s`: 100 attempts 100 ms apart. Without a match it
   * sleeps the full ten seconds; with one, 100 ms for each earlier read.
   */
  method WaitForIntegration10s(expectedCount: nat, counts: seq<nat>)
    returns (polls: nat, integrated: bool, waited: nat)
    requires 100 <= |counts|
    ensures polls <= 100 && waited <= 10_000
    ensures !integrated ==> polls == 100 && waited == 10_000
    ensures integrated ==> waited == 100 * (polls - 1)
    ensures integrated <==> exists j :: 0 <= j < 100 && counts[j] == expectedCount
    ensures integrated ==> 0 < polls && counts[polls - 1] == expectedCount
    ensures forall j :: 0 <= j < polls - 1 ==> counts[j] != expectedCount
  {
    polls, integrated, waited := WaitForIntegration(expectedCount, 100, 100, counts);
  }

  /** The integrated ops summed over several environments. */
  function IntegratedTotal(counts: seq<Counts>): nat
  {
    if counts == [] then 0 else counts[0].integrated + IntegratedTotal(counts[1..])
  }

  /** `last_total` before attempt i: zero before the first, then the previous attempt's total. */
  function PreviousTotal(others: seq<seq<Counts>>, i: nat): nat
    requires i <= |others|
  {
    if i == 0 then 0 else IntegratedTotal(others[i - 1])
  }

  /** Attempt i sees fewer integrated ops across the other environments than attempt i - 1. */
  predicate LostAt(others: seq<seq<Counts>>, i: nat)
    requires i < |others|
  {
    IntegratedTotal(others[i]) < PreviousTotal(others, i)
  }

  datatype WaitOutcome = Integrated(polls: nat) | GaveUp | LostAValue(attempt: nat)

  /**
   * `wait_for_integration_with_others`: each attempt reads this environment
   * (`own[i]`) and the others (`others[i]`), panics with "LOST A VALUE" when the
   * others' integrated total has dropped since the previous attempt, keeps the
   * new total, and returns when this environment's integrated count is the
   * expected one. The same slice of other environments is read at every
   * attempt, so every `others[i]` has one entry per environment.
   */
  method WaitForIntegrationWithOthers(expectedCount: nat, numAttempts: nat, delay: nat,
                                      own: seq<Counts>, others: seq<seq<Counts>>)
    returns (outcome: WaitOutcome, lastTotal: nat, waited: nat)
    requires numAttempts <= |own| && numAttempts <= |others|
    requires forall i :: 0 <= i < |others| ==> |others[i]| == |others[0]|
    ensures outcome.Integrated? ==>
              && 0 < outcome.polls <= numAttempts
              && own[outcome.polls - 1].integrated == expectedCount
              && !LostAt(others, outcome.polls - 1)
              && lastTotal == IntegratedTotal(others[outcome.polls - 1])
              && waited == delay * (outcome.polls - 1)
    ensures outcome.Integrated? ==>
              forall j :: 0 <= j < outcome.polls - 1 ==> !LostAt(others, j) && own[j].integrated != expectedCount
    ensures outcome.LostAValue? ==>
              && outcome.attempt < numAttempts
              && LostAt(others, outcome.attempt)
              && lastTotal == PreviousTotal(others, outcome.attempt)
              && waited == delay * outcome.attempt
    ensures outcome.LostAValue? ==>
              forall j :: 0 <= j < outcome.attempt ==> !LostAt(others, j) && own[j].integrated != expectedCount
    ensures outcome.GaveUp? ==>
              && lastTotal == PreviousTotal(others, numAttempts)
              && waited == delay * numAttempts
              && forall j :: 0 <= j < numAttempts ==> !LostAt(others, j) && own[j].integrated != expectedCount
  {
    lastTotal, waited := 0, 0;
    for i := 0 to numAttempts
      invariant lastTotal == PreviousTotal(others, i)
      invariant waited == delay * i
      invariant forall j :: 0 <= j < i ==> !LostAt(others, j) && own[j].integrated != expectedCount
    {
      var count := own[i];
      var total := IntegratedTotal(others[i]);
      if total < lastTotal {
        return LostAValue(i), lastTotal, waited;
      }
      lastTotal := total;
      if count.integrated == expectedCount {
        return Integrated(i + 1), lastTotal, waited;
      }
      waited := waited + delay;
    }
    outcome := GaveUp;
  }

  /** Without a loss after attempt j, totals from j on do not decrease. */
  lemma {:induction false} MonotoneFrom(others: seq<seq<Counts>>, j: nat, k: nat)
    requires j <= k < |others|
    requires forall m :: j < m <= k ==> !LostAt(others, m)
    ensures IntegratedTotal(others[j]) <= IntegratedTotal(others[k])
  {
    if j < k {
      MonotoneFrom(others, j, k - 1);
      assert !LostAt(others, k);
    }
  }

  /** While nothing is lost, the others' integrated total never decreases from one attempt to a later one. */
  lemma NoLossMeansMonotone(others: seq<seq<Counts>>, n: nat)
    requires n <= |others|
    requires forall j :: 0 <= j < n ==> !LostAt(others, j)
    ensures forall j, k :: 0 <= j <= k < n ==> IntegratedTotal(others[j]) <= IntegratedTotal(others[k])
  {
    forall j, k | 0 <= j <= k < n
      ensures IntegratedTotal(others[j]) <= IntegratedTotal(others[k])
    {
      MonotoneFrom(others, j, k);
    }
  }

  /** A later attempt that finds fewer integrated ops than an earlier one implies a loss reported in between. */
  lemma DropIsReported(others: seq<seq<Counts>>, j: nat, k: nat)
    requires j < k < |others|
    requires IntegratedTotal(others[k]) < IntegratedTotal(others[j])
    ensures exists m :: j < m <= k && LostAt(others, m)
  {
    if forall m :: j < m <= k ==> !LostAt(others, m) {
      MonotoneFrom(others, j, k);
    }
  }
}
