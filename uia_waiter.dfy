/** `UiaWaiter.Until`: evaluate a condition until it returns, retrying
    after the exceptions it is told to ignore, until a deadline. The
    condition is foreign code: its evaluations, each with the time it took,
    are given in order. `DateTime.Now` is a clock in milliseconds that
    starts at `start` and advances only by the evaluations and the sleeps. */
module UiaWaiter {
  import opened Wrappers
  import opened Exceptions
  import opened Values

  /** One evaluation of the condition: the element it returned (`None` for
      null) or the exception it threw, and the milliseconds it took. */
  datatype Evaluation = Evaluation(outcome: Result<Option<Element>, Exception>, elapsed: nat)

  /** 10 seconds, the timeout of the overloads that take none. */
  const DefaultTimeout: int := 10_000
  /** The `Thread.Sleep(100)` before a retry. */
  const RetryDelay: nat := 100

  /** The evaluation threw an exception whose exact type is in the ignored
      list (`Exists(i => i == e.GetType())`), so the loop sleeps and retries. */
  predicate Retries(ignored: Option<seq<ExceptionKind>>, e: Evaluation) {
    e.outcome.Failure? && ignored.Some? && e.outcome.error.kind in ignored.value
  }

  /** How `Until` ends on an evaluation it does not retry after: with the
      element, with the exception re-thrown, or, when the ignored list is
      null, with the `NullReferenceException` of calling `Exists` on it. */
  function Final(ignored: Option<seq<ExceptionKind>>, e: Evaluation): (r: Result<Option<Element>, Exception>)
    ensures e.outcome.Success? ==> r == e.outcome
    ensures e.outcome.Failure? && ignored.Some? ==> r == e.outcome
    ensures e.outcome.Failure? && ignored.None? ==> r == Failure(Raise(NullReference))
  {
    if e.outcome.Failure? && ignored.None? then Failure(Raise(NullReference)) else e.outcome
  }

  /** The clock after `k` evaluations that were each followed by the sleep. */
  function TimeAfter(condition: nat -> Evaluation, start: int, k: nat): int {
    if k == 0 then start else TimeAfter(condition, start, k - 1) + condition(k - 1).elapsed + RetryDelay
  }

  /** Every retry costs at least the sleep. */
  lemma {:induction false} TimeAfterGrows(condition: nat -> Evaluation, start: int, k: nat)
    ensures TimeAfter(condition, start, k) >= start + RetryDelay * k
  {
    if k > 0 {
      TimeAfterGrows(condition, start, k - 1);
    }
  }

  /** The loop's bound: the condition is evaluated more than once only when
      all the sleeps before the last evaluation fit in the timeout. */
  lemma EvaluationsAreBounded(condition: nat -> Evaluation, start: int, timeout: int, n: nat)
    requires n >= 1
    requires forall j :: 1 <= j < n ==> TimeAfter(condition, start, j) < start + timeout
    ensures n == 1 || (n - 1) * RetryDelay < timeout
  {
    if n > 1 {
      assert TimeAfter(condition, start, n - 1) < start + timeout;
      TimeAfterGrows(condition, start, n - 1);
    }
  }

  class UiaWaiter {
    const driver: Option<Driver>
    const ignored: Option<seq<ExceptionKind>>
    const timeout: int

    /** `new UiaWaiter(driver, ignoredException, timeout)`. */
    constructor (driver: Option<Driver>, ignored: Option<seq<ExceptionKind>>, timeout: int)
      ensures this.driver == driver && this.ignored == ignored && this.timeout == timeout
    {
      this.driver := driver;
      this.ignored := ignored;
      this.timeout := timeout;
    }

    /** `new UiaWaiter(driver)`: no ignored exceptions, 10 seconds. */
    constructor WithDefaults(driver: Option<Driver>)
      ensures this.driver == driver && ignored == Some([]) && timeout == DefaultTimeout
    {
      this.driver := driver;
      ignored := Some([]);
      timeout := DefaultTimeout;
    }

    /** `new UiaWaiter(driver, timeout)`: no ignored exceptions. */
    constructor WithTimeout(driver: Option<Driver>, timeout: int)
      ensures this.driver == driver && ignored == Some([]) && this.timeout == timeout
    {
      this.driver := driver;
      ignored := Some([]);
      this.timeout := timeout;
    }

    /** `new UiaWaiter(driver, ignoredException)`: 10 seconds. */
    constructor WithIgnored(driver: Option<Driver>, ignored: Option<seq<ExceptionKind>>)
      ensures this.driver == driver && this.ignored == ignored && timeout == DefaultTimeout
    {
      this.driver := driver;
      this.ignored := ignored;
      timeout := DefaultTimeout;
    }

    /** `Until(condition)` from time `start`: the `do`/`while` loop. The
        condition is evaluated at least once; every evaluation but the last
        threw an ignored exception and was followed by a sleep that ended
        before the deadline. The last one either ends the call (its element,
        its exception) or was retried too and its sleep reached the
        deadline, which throws `NoSuchElementException`. */
    method Until(condition: nat -> Evaluation, start: int) returns (r: Result<Option<Element>, Exception>, evaluations: nat, end: int)
      ensures evaluations >= 1
      ensures forall j :: 0 <= j < evaluations - 1 ==> Retries(ignored, condition(j))
      ensures forall j :: 1 <= j < evaluations ==> TimeAfter(condition, start, j) < start + timeout
      ensures !Retries(ignored, condition(evaluations - 1)) ==>
                r == Final(ignored, condition(evaluations - 1)) &&
                end == TimeAfter(condition, start, evaluations - 1) + condition(evaluations - 1).elapsed
      ensures Retries(ignored, condition(evaluations - 1)) ==>
                r == Failure(Raise(NoSuchElement)) &&
                end == TimeAfter(condition, start, evaluations) && end >= start + timeout
    {
      var deadline := start + timeout;
      var clock := start;
      var k: nat := 0;
      while true
        invariant clock == TimeAfter(condition, start, k)
        invariant forall j :: 0 <= j < k ==> Retries(ignored, condition(j))
        invariant forall j :: 1 <= j <= k ==> TimeAfter(condition, start, j) < deadline
        decreases if clock < deadline then deadline - clock else 0
      {
        var e := condition(k);
        if !Retries(ignored, e) {
          r := Final(ignored, e);
          evaluations := k + 1;
          end := clock + e.elapsed;
          return;
        }
        // the evaluation, then the sleep
        clock := clock + e.elapsed + RetryDelay;
        k := k + 1;
        if clock >= deadline {
          r := Failure(Raise(NoSuchElement));
          evaluations := k;
          end := clock;
          return;
        }
      }
    }
  }
}
