/** The one-shot memoising initialisation shared by the lazy property and the
    lazy collections: a guarded `init` that, while the `initialized` flag is
    false, calls the provider, runs the builder stage on what it returned,
    caches the result and raises the flag. An exception from either leaves
    the flag down, so the next observation tries again. */
module OneShot {
  import opened Base

  /** The state every lazy wrapper keeps around its provider.
      `provider(k)` is the outcome of the provider's (k+1)-th invocation, so a
      provider backed by a changing data source can fail and later succeed.
      The counters record how often the provider and the builder have run. */
  datatype Lazy<S, T> = Lazy(
    provider: nat -> Result<S>,
    initialized: bool,
    cache: Option<T>,
    providerCalls: nat,
    builderCalls: nat)

  /** The state after an `init`, and the cached value or the exception it
      propagated. */
  datatype Step<S, T> = Step(state: Lazy<S, T>, result: Result<T>)

  /** One initialisation attempt made as the provider's (k+1)-th call. */
  function Attempt<S, T>(provider: nat -> Result<S>, build: S -> Built<T>, k: nat): Result<T> {
    match provider(k)
    case Err(e) => Err(e)
    case Ok(x) => build(x).outcome
  }

  predicate Succeeds<S, T>(provider: nat -> Result<S>, build: S -> Built<T>, k: nat) {
    Attempt(provider, build, k).Ok?
  }

  /** Builder calls made by that attempt: none when the provider throws. */
  function Cost<S, T>(provider: nat -> Result<S>, build: S -> Built<T>, k: nat): nat {
    match provider(k)
    case Err(_) => 0
    case Ok(x) => build(x).calls
  }

  /** Builder calls made by the attempts numbered 0 .. n-1. */
  function TotalCost<S, T>(provider: nat -> Result<S>, build: S -> Built<T>, n: nat): nat
    decreases n
  {
    if n == 0 then 0 else TotalCost(provider, build, n - 1) + Cost(provider, build, n - 1)
  }

  /** The earliest of the attempts 0 .. n-1 that succeeds, if any. */
  function FirstSuccess<S, T>(provider: nat -> Result<S>, build: S -> Built<T>, n: nat): (r: Option<nat>)
    ensures r.Some? ==>
      && r.value < n
      && Succeeds(provider, build, r.value)
      && forall j :: 0 <= j < r.value ==> !Succeeds(provider, build, j)
    ensures r.None? ==> forall j :: 0 <= j < n ==> !Succeeds(provider, build, j)
    decreases n
  {
    if n == 0 then None
    else
      match FirstSuccess(provider, build, n - 1)
      case Some(j) => Some(j)
      case None => if Succeeds(provider, build, n - 1) then Some(n - 1) else None
  }

  /** The wrapper invariant: the cache is present exactly when the flag is
      up, and then it holds what the builder stage made of the provider's
      most recent output. */
  ghost predicate Valid<S, T>(s: Lazy<S, T>, build: S -> Built<T>) {
    && (s.initialized <==> s.cache.Some?)
    && (s.initialized ==>
          && s.providerCalls > 0
          && Attempt(s.provider, build, s.providerCalls - 1) == Ok(s.cache.value))
  }

  /** A freshly constructed wrapper: it holds the provider and has run
      nothing. */
  function New<S, T>(provider: nat -> Result<S>): (s: Lazy<S, T>)
    ensures s.provider == provider
    ensures !s.initialized && s.providerCalls == 0 && s.builderCalls == 0
    ensures s.cache == None
  {
    Lazy(provider, false, None, 0, 0)
  }

  function Init<S, T>(s: Lazy<S, T>, build: S -> Built<T>): (r: Step<S, T>)
    requires Valid(s, build)
    ensures Valid(r.state, build)
    ensures r.state.provider == s.provider
    // the flag goes up exactly when the caller gets the value
    ensures r.result.Ok? <==> r.state.initialized
    ensures r.state.initialized ==> r.state.cache == Some(r.result.value)
    // once initialised: served from the cache, nothing runs
    ensures s.initialized ==> r.state == s && r.result == Ok(s.cache.value)
    // otherwise: exactly one provider call, the builder stage's calls, and
    // the attempt's outcome (its exception propagated unchanged)
    ensures !s.initialized ==>
      && r.state.providerCalls == s.providerCalls + 1
      && r.state.builderCalls == s.builderCalls + Cost(s.provider, build, s.providerCalls)
      && r.result == Attempt(s.provider, build, s.providerCalls)
  {
    if s.initialized then Step(s, Ok(s.cache.value))
    else
      var k := s.providerCalls;
      match s.provider(k)
      case Err(e) => Step(s.(providerCalls := k + 1), Err(e))
      case Ok(x) =>
        var b := build(x);
        var tried := s.(providerCalls := k + 1, builderCalls := s.builderCalls + b.calls);
        match b.outcome
        case Err(e) => Step(tried, Err(e))
        case Ok(t) => Step(tried.(initialized := true, cache := Some(t)), Ok(t))
  }

  /** The state after `n` observations in a row. */
  function Repeat<S, T>(s: Lazy<S, T>, build: S -> Built<T>, n: nat): (r: Lazy<S, T>)
    requires Valid(s, build)
    ensures Valid(r, build)
    ensures r.provider == s.provider
    // the flag never goes back down, and an initialised wrapper never changes
    ensures s.initialized ==> r == s
    ensures r.providerCalls <= s.providerCalls + n
    decreases n
  {
    if n == 0 then s else Init(Repeat(s, build, n - 1), build).state
  }

  /** Observing once and then `n` times is observing `n + 1` times. */
  lemma {:induction false} RepeatAfterInit<S, T>(s: Lazy<S, T>, build: S -> Built<T>, n: nat)
    requires Valid(s, build)
    ensures Repeat(Init(s, build).state, build, n) == Repeat(s, build, n + 1)
    decreases n
  {
    if n > 0 {
      RepeatAfterInit(s, build, n - 1);
    }
  }

  /** From construction, `n` observations run the provider once per attempt
      until the first success and never again; the builder runs only inside
      those attempts; and the cache holds the first successful attempt's
      value. While every attempt fails the wrapper stays uninitialised. */
  lemma {:induction false} FreshRun<S, T>(provider: nat -> Result<S>, build: S -> Built<T>, n: nat)
    ensures var r := Repeat(New(provider), build, n);
      match FirstSuccess(provider, build, n)
      case None =>
        && !r.initialized
        && r.providerCalls == n
        && r.builderCalls == TotalCost(provider, build, n)
      case Some(j) =>
        && r.initialized
        && r.providerCalls == j + 1
        && r.builderCalls == TotalCost(provider, build, j + 1)
        && r.cache == Some(Attempt(provider, build, j).value)
    decreases n
  {
    var s0: Lazy<S, T> := New(provider);
    if n > 0 {
      FreshRun(provider, build, n - 1);
      var prev := Repeat(s0, build, n - 1);
      var step := Init(prev, build);
      assert Repeat(s0, build, n) == step.state;
      match FirstSuccess(provider, build, n - 1)
      case Some(j) =>
        assert prev.initialized;
      case None =>
        assert !prev.initialized && prev.providerCalls == n - 1;
    }
  }

  /** A wrapper whose first provider call and build succeed makes exactly one
      provider call over any positive number of observations, and none over
      zero. */
  lemma {:induction false} ExactlyOnce<S, T>(provider: nat -> Result<S>, build: S -> Built<T>, n: nat)
    requires Succeeds(provider, build, 0)
    ensures var r := Repeat(New(provider), build, n);
      && r.providerCalls == (if n == 0 then 0 else 1)
      && r.builderCalls == (if n == 0 then 0 else Cost(provider, build, 0))
      && r.initialized == (n > 0)
      && (n > 0 ==> r.cache == Some(Attempt(provider, build, 0).value))
  {
    FreshRun(provider, build, n);
    if n > 0 {
      assert FirstSuccess(provider, build, n) == Some(0);
      assert TotalCost(provider, build, 1) == Cost(provider, build, 0);
    }
  }
}
