/** The lazy single-view proxy (`LazyProperty`): it holds an entity provider
    and a view builder, builds the view on the first property read, existence
    check or method call, and forwards that access and every later one to
    the cached view. Assignment is always refused. */
module LazyProperties {
  import opened Base
  import OneShot

  datatype LazyProperty<!E> = LazyProperty(
    viewBuilder: E -> Result<View>,
    cell: OneShot.Lazy<E, View>)

  /** The builder stage of a single entity: one builder call. */
  function Single<E>(f: E -> Result<View>): E -> Built<View> {
    e => Built(f(e), 1)
  }

  ghost predicate Valid<E>(s: LazyProperty<E>) {
    OneShot.Valid(s.cell, Single(s.viewBuilder))
  }

  /** `__construct`: stores the provider and the builder and runs neither. */
  function New<E>(entityProvider: nat -> Result<E>, viewBuilder: E -> Result<View>): (s: LazyProperty<E>)
    ensures Valid(s)
    ensures s.viewBuilder == viewBuilder && s.cell.provider == entityProvider
    ensures !s.cell.initialized && s.cell.providerCalls == 0 && s.cell.builderCalls == 0
  {
    LazyProperty(viewBuilder, OneShot.New(entityProvider))
  }

  /** The view the proxy stands for once initialised. */
  function CachedView<E>(s: LazyProperty<E>): View
    requires Valid(s) && s.cell.initialized
  {
    s.cell.cache.value
  }

  /** `init`: a no-op once initialised; otherwise one provider call and one
      builder call, whose view is cached only if both succeed. */
  function Init<E>(s: LazyProperty<E>): (r: Reply<LazyProperty<E>, View>)
    requires Valid(s)
    ensures Valid(r.state) && r.state.viewBuilder == s.viewBuilder
    ensures r.state.cell.provider == s.cell.provider
    ensures r.result.Ok? <==> r.state.cell.initialized
    ensures r.result.Ok? ==> r.result.value == CachedView(r.state)
    // memoised: nothing runs and nothing changes once initialised
    ensures s.cell.initialized ==> r.state == s && r.result == Ok(CachedView(s))
    // first time: the view is the builder applied to the provider's entity
    ensures !s.cell.initialized ==>
      var k := s.cell.providerCalls;
      && r.state.cell.providerCalls == k + 1
      && r.state.cell.builderCalls == s.cell.builderCalls + (if s.cell.provider(k).Ok? then 1 else 0)
      && (r.result.Ok? <==> s.cell.provider(k).Ok? && s.viewBuilder(s.cell.provider(k).value).Ok?)
      && (r.result.Ok? ==> s.viewBuilder(s.cell.provider(k).value) == r.result)
      // an exception from the provider or the builder reaches the caller unchanged
      && (s.cell.provider(k).Err? ==> r.result == Err(s.cell.provider(k).error))
      && (s.cell.provider(k).Ok? ==> r.result == s.viewBuilder(s.cell.provider(k).value))
    // a failure leaves the proxy uninitialised, so the next access retries
    ensures r.result.Err? ==> !r.state.cell.initialized && r.state.cell.cache == None
  {
    var step := OneShot.Init(s.cell, Single(s.viewBuilder));
    Reply(s.(cell := step.state), step.result)
  }

  /** `__get`: initialise, then read the named property of the view. */
  function Get<E>(s: LazyProperty<E>, name: Name): (r: Reply<LazyProperty<E>, Value>)
    requires Valid(s)
    ensures r.state == Init(s).state
    ensures r.state.cell.initialized ==> r.result == CachedView(r.state).read(name)
    // an init failure is returned as it was raised
    ensures !r.state.cell.initialized ==> r.result == Err(Init(s).result.error)
  {
    var init := Init(s);
    match init.result
    case Err(e) => Reply(init.state, Err(e))
    case Ok(view) => Reply(init.state, view.read(name))
  }

  /** `__set`: always refused, before or after initialisation, without
      touching the provider or the builder. */
  function Set<E>(s: LazyProperty<E>, name: Name, value: Value): (r: Reply<LazyProperty<E>, ()>)
    ensures r.state == s
    ensures r.result == Err(NoSetters)
  {
    Reply(s, Err(NoSetters))
  }

  /** `__isset`: initialise, then ask whether the view declares the
      property. */
  function IsSet<E>(s: LazyProperty<E>, name: Name): (r: Reply<LazyProperty<E>, bool>)
    requires Valid(s)
    ensures r.state == Init(s).state
    ensures r.state.cell.initialized ==> r.result == Ok(CachedView(r.state).hasProperty(name))
    // an init failure is returned as it was raised
    ensures !r.state.cell.initialized ==> r.result == Err(Init(s).result.error)
  {
    var init := Init(s);
    match init.result
    case Err(e) => Reply(init.state, Err(e))
    case Ok(view) => Reply(init.state, Ok(view.hasProperty(name)))
  }

  /** `__call` as written: initialise, then invoke the view's method of the
      same name with ONE argument, the whole argument list as an array. */
  function Call<E>(s: LazyProperty<E>, name: Name, args: seq<Value>): (r: Reply<LazyProperty<E>, Value>)
    requires Valid(s)
    ensures r.state == Init(s).state
    ensures r.state.cell.initialized ==> r.result == CachedView(r.state).invoke(name, [List(args)])
    // the corrected forwarding applied to the single packed argument
    ensures r == CallSpread(s, name, [List(args)])
    // an init failure is returned as it was raised
    ensures !r.state.cell.initialized ==> r.result == Err(Init(s).result.error)
  {
    var init := Init(s);
    match init.result
    case Err(e) => Reply(init.state, Err(e))
    case Ok(view) => Reply(init.state, view.invoke(name, [List(args)]))
  }

  /** `__call` as evidently intended: the arguments are passed on as they
      came, so the proxy answers exactly as the view would. */
  function CallSpread<E>(s: LazyProperty<E>, name: Name, args: seq<Value>): (r: Reply<LazyProperty<E>, Value>)
    requires Valid(s)
    ensures r.state == Init(s).state
    ensures r.state.cell.initialized ==> r.result == CachedView(r.state).invoke(name, args)
    // an init failure is returned as it was raised
    ensures !r.state.cell.initialized ==> r.result == Err(Init(s).result.error)
  {
    var init := Init(s);
    match init.result
    case Err(e) => Reply(init.state, Err(e))
    case Ok(view) => Reply(init.state, view.invoke(name, args))
  }

  /** A proxy whose view answers a method call with the number of arguments
      it received, as a witness for the argument-wrapping of `__call`. */
  function ArgCounter<E>(entity: E): Result<View> {
    Ok(View(_ => false, _ => Ok(Null), (_, args) => Ok(Int(|args|))))
  }

  /** Calling a two-argument method through the proxy as written delivers a
      single argument to the view, where calling the view directly delivers
      two. */
  lemma CallWrapsArguments()
    ensures var view := ArgCounter(0).value;
      && view.invoke("m", [Int(1), Int(2)]) == Ok(Int(2))
      && Call(New(_ => Ok(0), ArgCounter), "m", [Int(1), Int(2)]).result == Ok(Int(1))
  {
  }

  /** The accesses a caller can make on a proxy. */
  datatype Access = Read(name: Name) | Write(name: Name, value: Value) | Probe(name: Name) | Invoke(name: Name, args: seq<Value>)

  /** Every access except an assignment observes the view. */
  predicate Observes(a: Access) {
    !a.Write?
  }

  /** How many of the accesses observe the view. */
  function Observations(accesses: seq<Access>): (n: nat)
    ensures n <= |accesses|
  {
    if |accesses| == 0 then 0
    else (if Observes(accesses[0]) then 1 else 0) + Observations(accesses[1..])
  }

  /** One access, with every answer lifted to a `Value`. */
  function Apply<E>(s: LazyProperty<E>, a: Access): (r: Reply<LazyProperty<E>, Value>)
    requires Valid(s)
    ensures Valid(r.state) && r.state.viewBuilder == s.viewBuilder
    ensures Observes(a) ==> r.state == Init(s).state
    ensures !Observes(a) ==> r.state == s && r.result == Err(NoSetters)
  {
    match a
    case Read(n) => Get(s, n)
    case Write(n, v) => var w := Set(s, n, v); Reply(w.state, Err(w.result.error))
    case Probe(n) =>
      var p := IsSet(s, n);
      Reply(p.state, if p.result.Ok? then Ok(Bool(p.result.value)) else Err(p.result.error))
    case Invoke(n, args) => CallSpread(s, n, args)
  }

  /** The proxy after a sequence of accesses, in order. */
  function Run<E>(s: LazyProperty<E>, accesses: seq<Access>): (r: LazyProperty<E>)
    requires Valid(s)
    ensures Valid(r) && r.viewBuilder == s.viewBuilder
    // assignments cost nothing: at most one provider call per observation
    ensures r.cell.providerCalls <= s.cell.providerCalls + Observations(accesses)
    ensures r.cell.provider == s.cell.provider
    decreases |accesses|
  {
    if |accesses| == 0 then s else Run(Apply(s, accesses[0]).state, accesses[1..])
  }

  /** A sequence of accesses affects the proxy exactly as its observations
      do: assignments leave no trace. */
  lemma {:induction false} RunIsRepeat<E>(s: LazyProperty<E>, accesses: seq<Access>)
    requires Valid(s)
    ensures Run(s, accesses)
      == s.(cell := OneShot.Repeat(s.cell, Single(s.viewBuilder), Observations(accesses)))
    decreases |accesses|
  {
    var build := Single(s.viewBuilder);
    if |accesses| == 0 {
    } else {
      var next := Apply(s, accesses[0]).state;
      RunIsRepeat(next, accesses[1..]);
      if Observes(accesses[0]) {
        OneShot.RepeatAfterInit(s.cell, build, Observations(accesses[1..]));
      }
    }
  }

  /** Any number of assignments on a new proxy runs neither the provider nor
      the builder and leaves it uninitialised. */
  lemma {:induction false} NothingBeforeObservation<E>(entityProvider: nat -> Result<E>, viewBuilder: E -> Result<View>, accesses: seq<Access>)
    requires forall i :: 0 <= i < |accesses| ==> !Observes(accesses[i])
    ensures Run(New(entityProvider, viewBuilder), accesses) == New(entityProvider, viewBuilder)
  {
    ZeroObservations(accesses);
    RunIsRepeat(New(entityProvider, viewBuilder), accesses);
  }

  lemma {:induction false} ZeroObservations(accesses: seq<Access>)
    requires forall i :: 0 <= i < |accesses| ==> !Observes(accesses[i])
    ensures Observations(accesses) == 0
    decreases |accesses|
  {
    if |accesses| > 0 {
      ZeroObservations(accesses[1..]);
    }
  }

  /** When the first provider call and the build succeed, any sequence of
      accesses calls the provider once and the builder once if it observes
      the view at all, and neither otherwise. */
  lemma {:induction false} ExactlyOneEvaluation<E>(entityProvider: nat -> Result<E>, viewBuilder: E -> Result<View>, accesses: seq<Access>)
    requires entityProvider(0).Ok? && viewBuilder(entityProvider(0).value).Ok?
    ensures var r := Run(New(entityProvider, viewBuilder), accesses);
      && r.cell.providerCalls == (if Observations(accesses) == 0 then 0 else 1)
      && r.cell.builderCalls == (if Observations(accesses) == 0 then 0 else 1)
      && r.cell.initialized == (Observations(accesses) > 0)
  {
    var build := Single(viewBuilder);
    RunIsRepeat(New(entityProvider, viewBuilder), accesses);
    assert OneShot.Succeeds(entityProvider, build, 0);
    OneShot.ExactlyOnce(entityProvider, build, Observations(accesses));
  }

  /** What the view itself answers to an observing access. */
  function Direct(view: View, a: Access): Result<Value>
    requires Observes(a)
  {
    match a
    case Read(n) => view.read(n)
    case Probe(n) => Ok(Bool(view.hasProperty(n)))
    case Invoke(n, args) => view.invoke(n, args)
  }

  /** Transparent forwarding: once the first provider call and the build
      succeed, every observing access, after any history of accesses,
      answers exactly what the view built from the first entity answers. */
  lemma {:induction false} Transparent<E>(entityProvider: nat -> Result<E>, viewBuilder: E -> Result<View>, history: seq<Access>, a: Access)
    requires entityProvider(0).Ok? && viewBuilder(entityProvider(0).value).Ok?
    requires Observes(a)
    ensures Apply(Run(New(entityProvider, viewBuilder), history), a).result
      == Direct(viewBuilder(entityProvider(0).value).value, a)
  {
    var s0 := New(entityProvider, viewBuilder);
    var build := Single(viewBuilder);
    var n := Observations(history);
    RunIsRepeat(s0, history);
    OneShot.RepeatAfterInit(s0.cell, build, n);
    assert OneShot.Succeeds(entityProvider, build, 0);
    OneShot.ExactlyOnce(entityProvider, build, n + 1);
    var s := Run(s0, history);
    assert s.cell == OneShot.Repeat(s0.cell, build, n);
    OneShot.RepeatAfterInit(s.cell, build, 0);
  }
}
