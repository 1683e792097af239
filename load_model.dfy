/** Loading a model from the Hugging Face Hub with retries and exponential backoff. Each
    attempt's outcome comes from an oracle indexed by the attempt number; the fetches and the
    waits are recorded as a call trace. */
module HubLoad {
  import opened Common

  const HubBase: string := "https://huggingface.co/"
  const DefaultFilename: string := "model.json"
  const DefaultMaxRetries: int := 3
  const DefaultInitialDelay: int := 2000

  /** What one load attempt does: yields a model, or throws an error. */
  datatype Attempt<M, E> = Loaded(model: M) | Failed(error: E)

  /** The outcome of the whole call: the model, or the error it throws. The thrown value is
      absent (`undefined`) when no attempt was made. */
  datatype LoadResult<M, E> = Model(model: M) | Thrown(error: Option<E>)

  /** One action with an effect: a fetch of the URL (as a graph or a layers model), or a wait. */
  datatype LoadCall = Fetch(url: string, graph: bool) | Sleep(ms: int)

  /** The address of a file in the main branch of a repository on the Hub. */
  function HubUrl(repoId: string, filename: string): string {
    HubBase + repoId + "/resolve/main/" + filename
  }

  function Pow2(i: nat): (p: nat)
    ensures p >= 1
  {
    if i == 0 then 1 else 2 * Pow2(i - 1)
  }

  /** The wait after failed attempt `i` (0-based). */
  function Delay(initialDelay: int, i: nat): int {
    initialDelay * Pow2(i)
  }

  /** The number of attempts the loop allows: `maxRetries`, or none when it is not positive. */
  function Attempts(maxRetries: int): (n: nat)
    ensures n == Max(maxRetries, 0)
  {
    if maxRetries <= 0 then 0 else maxRetries
  }

  /** The first of the attempts `0 .. n-1` that succeeds, if any. */
  function FirstSuccess<M, E>(outcome: nat -> Attempt<M, E>, n: nat): (k: Option<nat>)
    ensures k.Some? ==> k.value < n && outcome(k.value).Loaded?
    ensures k.Some? ==> forall j :: 0 <= j < k.value ==> outcome(j).Failed?
    ensures k.None? <==> forall j :: 0 <= j < n ==> outcome(j).Failed?
  {
    if n == 0 then None
    else
      var earlier := FirstSuccess(outcome, n - 1);
      if earlier.Some? then earlier
      else if outcome(n - 1).Loaded? then Some(n - 1)
      else None
  }

  /** The trace of `k` failed attempts: each is a fetch followed by its backoff wait. */
  function FailedCalls(url: string, graph: bool, initialDelay: int, k: nat): (calls: seq<LoadCall>)
    ensures |calls| == 2 * k
    ensures forall i :: 0 <= i < k ==> calls[2 * i] == Fetch(url, graph)
    ensures forall i :: 0 <= i < k ==> calls[2 * i + 1] == Sleep(Delay(initialDelay, i))
  {
    if k == 0 then []
    else FailedCalls(url, graph, initialDelay, k - 1) + [Fetch(url, graph), Sleep(Delay(initialDelay, k - 1))]
  }

  /** The total time the trace waits. */
  function TotalSleep(calls: seq<LoadCall>): int {
    if calls == [] then 0
    else TotalSleep(calls[..|calls| - 1]) + (match calls[|calls| - 1] case Sleep(ms) => ms case Fetch(_, _) => 0)
  }

  /** The number of fetches in the trace. */
  function Fetches(calls: seq<LoadCall>): nat {
    if calls == [] then 0
    else Fetches(calls[..|calls| - 1]) + (if calls[|calls| - 1].Fetch? then 1 else 0)
  }

  /** After `k` failures the waits add up to `initialDelay * (2^k - 1)`; with the defaults and
      every attempt failing, 2000 + 4000 + 8000 = 14000 ms. */
  lemma {:induction false} BackoffTotal(url: string, graph: bool, initialDelay: int, k: nat)
    ensures TotalSleep(FailedCalls(url, graph, initialDelay, k)) == initialDelay * (Pow2(k) - 1)
  {
    if k > 0 {
      var prev := FailedCalls(url, graph, initialDelay, k - 1);
      var calls := FailedCalls(url, graph, initialDelay, k);
      BackoffTotal(url, graph, initialDelay, k - 1);
      assert calls[..|calls| - 1] == prev + [Fetch(url, graph)];
      assert (prev + [Fetch(url, graph)])[..|prev|] == prev;
      assert TotalSleep(calls) == TotalSleep(prev) + Delay(initialDelay, k - 1);
      DoublingSum(initialDelay, Pow2(k - 1), Pow2(k));
    } else {
      assert initialDelay * (Pow2(k) - 1) == initialDelay * 0;
    }
  }

  lemma DoublingSum(d: int, p: int, q: int)
    requires q == 2 * p
    ensures d * (p - 1) + d * p == d * (q - 1)
  {
  }

  /** `k` failures make exactly `k` fetches. */
  lemma {:induction false} FailedFetches(url: string, graph: bool, initialDelay: int, k: nat)
    ensures Fetches(FailedCalls(url, graph, initialDelay, k)) == k
  {
    if k > 0 {
      var prev := FailedCalls(url, graph, initialDelay, k - 1);
      var calls := FailedCalls(url, graph, initialDelay, k);
      FailedFetches(url, graph, initialDelay, k - 1);
      assert calls[..|calls| - 1] == prev + [Fetch(url, graph)];
      assert (prev + [Fetch(url, graph)])[..|prev|] == prev;
    }
  }

  /** The trace and result the loader produces for the given attempt outcomes. */
  function LoadTrace<M, E>(url: string, graph: bool, outcome: nat -> Attempt<M, E>, maxRetries: int,
                           initialDelay: int): (LoadResult<M, E>, seq<LoadCall>)
  {
    match FirstSuccess(outcome, Attempts(maxRetries))
    case Some(k) => (Model(outcome(k).model), FailedCalls(url, graph, initialDelay, k) + [Fetch(url, graph)])
    case None =>
      (Thrown(if maxRetries <= 0 then None else Some(outcome(maxRetries - 1).error)),
       FailedCalls(url, graph, initialDelay, Attempts(maxRetries)))
  }

  /** At most `maxRetries` fetches happen, and the model is the one the first successful
      attempt returned; a failure that exhausts the attempts throws the last attempt's error. */
  lemma LoadTraceProperties<M, E>(url: string, graph: bool, outcome: nat -> Attempt<M, E>, maxRetries: int,
                                  initialDelay: int)
    ensures var (result, calls) := LoadTrace(url, graph, outcome, maxRetries, initialDelay);
      Fetches(calls) <= Attempts(maxRetries)
      && (result.Model? <==> exists k :: 0 <= k < maxRetries && outcome(k).Loaded?)
      && (result.Thrown? && maxRetries > 0 ==> result.error == Some(outcome(maxRetries - 1).error))
      && (maxRetries <= 0 ==> result == Thrown(None) && calls == [])
  {
    var (result, calls) := LoadTrace(url, graph, outcome, maxRetries, initialDelay);
    var n := Attempts(maxRetries);
    match FirstSuccess(outcome, n)
    case Some(k) =>
      FailedFetches(url, graph, initialDelay, k);
      var prev := FailedCalls(url, graph, initialDelay, k);
      assert (prev + [Fetch(url, graph)])[..|prev|] == prev;
    case None =>
      FailedFetches(url, graph, initialDelay, n);
  }

  method LoadModelFromHub<M, E>(repoId: string, outcome: nat -> Attempt<M, E>, filename: string := DefaultFilename,
                                graphModel: bool := false, maxRetries: int := DefaultMaxRetries,
                                initialDelay: int := DefaultInitialDelay)
    returns (result: LoadResult<M, E>, calls: seq<LoadCall>)
    ensures (result, calls) == LoadTrace(HubUrl(repoId, filename), graphModel, outcome, maxRetries, initialDelay)
  {
    var url := HubUrl(repoId, filename);
    calls := [];
    var lastError: Option<E> := None;
    var attempt: nat := 0;
    while attempt < maxRetries
      invariant attempt <= Attempts(maxRetries)
      invariant FirstSuccess(outcome, attempt) == None
      invariant calls == FailedCalls(url, graphModel, initialDelay, attempt)
      invariant lastError == if attempt == 0 then None else Some(outcome(attempt - 1).error)
      decreases maxRetries - attempt
    {
      calls := calls + [Fetch(url, graphModel)];
      var o := outcome(attempt);
      if o.Loaded? {
        assert FirstSuccess(outcome, attempt + 1) == Some(attempt);
        FirstSuccessStable(outcome, attempt, Attempts(maxRetries));
        return Model(o.model), calls;
      }
      lastError := Some(o.error);
      var delay := initialDelay * Pow2(attempt);
      calls := calls + [Sleep(delay)];
      attempt := attempt + 1;
    }
    result := Thrown(lastError);
  }

  /** Looking further than the first success does not move it. */
  lemma FirstSuccessStable<M, E>(outcome: nat -> Attempt<M, E>, k: nat, n: nat)
    requires k < n && FirstSuccess(outcome, k + 1) == Some(k)
    ensures FirstSuccess(outcome, n) == Some(k)
  {
  }
}
