/** The lazy view collection (`LazyCollection`): it holds a collection
    provider and a view builder; the first `count` or `getIterator` calls the
    provider, maps the builder over the entities in order and caches the
    views, and every later call is served from that cache. */
module LazyCollections {
  import opened Base
  import OneShot
  import Mapping

  datatype LazyCollection<!E, V> = LazyCollection(
    viewBuilder: E -> Result<V>,
    cell: OneShot.Lazy<seq<E>, seq<V>>)

  /** The builder stage of a collection: `array_map` of the builder. */
  function Each<E, V>(f: E -> Result<V>): seq<E> -> Built<seq<V>> {
    es => Mapping.MapAll(f, es)
  }

  ghost predicate Valid<E, V>(s: LazyCollection<E, V>) {
    OneShot.Valid(s.cell, Each(s.viewBuilder))
  }

  /** `__construct`: stores the provider and the builder and runs neither. */
  function New<E, V>(collectionProvider: nat -> Result<seq<E>>, viewBuilder: E -> Result<V>): (s: LazyCollection<E, V>)
    ensures Valid(s)
    ensures s.viewBuilder == viewBuilder && s.cell.provider == collectionProvider
    ensures !s.cell.initialized && s.cell.providerCalls == 0 && s.cell.builderCalls == 0
  {
    LazyCollection(viewBuilder, OneShot.New(collectionProvider))
  }

  /** The entities the provider returned on the call that initialised the
      collection. */
  ghost function Entities<E, V>(s: LazyCollection<E, V>): seq<E>
    requires Valid(s) && s.cell.initialized
  {
    s.cell.provider(s.cell.providerCalls - 1).value
  }

  /** The cached views: one per entity, each the builder's view of the
      entity at the same position. */
  function Views<E, V>(s: LazyCollection<E, V>): (vs: seq<V>)
    requires Valid(s) && s.cell.initialized
    ensures |vs| == |Entities(s)|
    ensures forall i :: 0 <= i < |vs| ==> s.viewBuilder(Entities(s)[i]) == Ok(vs[i])
  {
    s.cell.cache.value
  }

  /** `init`: a no-op once initialised; otherwise one provider call and the
      builder mapped over its entities, cached only if everything succeeds. */
  function Init<E, V>(s: LazyCollection<E, V>): (r: Reply<LazyCollection<E, V>, seq<V>>)
    requires Valid(s)
    ensures Valid(r.state) && r.state.viewBuilder == s.viewBuilder
    ensures r.state.cell.provider == s.cell.provider
    ensures r.result.Ok? <==> r.state.cell.initialized
    ensures r.result.Ok? ==> r.result.value == Views(r.state)
    // memoised: nothing runs and nothing changes once initialised
    ensures s.cell.initialized ==> r.state == s
    // first time: one provider call, then the builder on each entity
    ensures !s.cell.initialized ==>
      var k := s.cell.providerCalls;
      && r.state.cell.providerCalls == k + 1
      && (r.result.Ok? <==> s.cell.provider(k).Ok? && Mapping.AllBuild(s.viewBuilder, s.cell.provider(k).value))
      && (r.result.Ok? ==>
            && Entities(r.state) == s.cell.provider(k).value
            && r.state.cell.builderCalls == s.cell.builderCalls + |Entities(r.state)|)
      // a provider exception reaches the caller unchanged, with no builder call
      && (s.cell.provider(k).Err? ==>
            && r.result == Err(s.cell.provider(k).error)
            && r.state.cell.builderCalls == s.cell.builderCalls)
      // otherwise the outcome of the builder walk, the first builder exception
      // included, after the builder calls that walk made
      && (s.cell.provider(k).Ok? ==>
            && r.result == Mapping.MapAll(s.viewBuilder, s.cell.provider(k).value).outcome
            && r.state.cell.builderCalls == s.cell.builderCalls + Mapping.MapAll(s.viewBuilder, s.cell.provider(k).value).calls)
    // a failure leaves the collection uninitialised, so the next call retries
    ensures r.result.Err? ==> !r.state.cell.initialized && r.state.cell.cache == None
  {
    var step := OneShot.Init(s.cell, Each(s.viewBuilder));
    Reply(s.(cell := step.state), step.result)
  }

  /** `count`: initialise, then the number of cached views, which is the
      number of entities the provider returned. */
  function Count<E, V>(s: LazyCollection<E, V>): (r: Reply<LazyCollection<E, V>, int>)
    requires Valid(s)
    ensures r.state == Init(s).state
    ensures r.result.Ok? <==> r.state.cell.initialized
    ensures r.result.Ok? ==> r.result.value == |Entities(r.state)|
    // an init failure is returned as it was raised
    ensures r.result.Err? ==> r.result == Err(Init(s).result.error)
  {
    var init := Init(s);
    match init.result
    case Err(e) => Reply(init.state, Err(e))
    case Ok(views) => Reply(init.state, Ok(|views|))
  }

  /** `getIterator`: initialise, then a fresh iterator over the cached
      views; the iterator is modelled by the sequence it yields. */
  function GetIterator<E, V>(s: LazyCollection<E, V>): (r: Reply<LazyCollection<E, V>, seq<V>>)
    requires Valid(s)
    ensures r.state == Init(s).state
    ensures r.result.Ok? <==> r.state.cell.initialized
    ensures r.result.Ok? ==>
      && |r.result.value| == |Entities(r.state)|
      && forall i :: 0 <= i < |r.result.value| ==> s.viewBuilder(Entities(r.state)[i]) == Ok(r.result.value[i])
    // an init failure is returned as it was raised
    ensures r.result.Err? ==> r.result == Err(Init(s).result.error)
  {
    Init(s)
  }

  /** Two iterators taken one after the other yield the same views, and the
      second runs nothing. */
  lemma IteratorsShareSnapshot<E, V>(s: LazyCollection<E, V>)
    requires Valid(s)
    ensures var first := GetIterator(s);
      var second := GetIterator(first.state);
      first.result.Ok? ==> second.state == first.state && second.result == first.result
  {
  }

  /** An empty entity list counts zero and iterates over nothing, without
      error and without a builder call. */
  lemma EmptyCollection<E, V>(collectionProvider: nat -> Result<seq<E>>, viewBuilder: E -> Result<V>)
    requires collectionProvider(0) == Ok([])
    ensures Count(New(collectionProvider, viewBuilder)).result == Ok(0)
    ensures GetIterator(New(collectionProvider, viewBuilder)).result == Ok([])
    ensures Count(New(collectionProvider, viewBuilder)).state.cell.builderCalls == 0
  {
  }

  /** The calls a caller can make on a collection. */
  datatype Access = CountViews | Iterate

  /** What a call answers: a count or the iterated views. */
  datatype Answer<V> = Size(n: int) | Items(views: seq<V>)

  function Apply<E, V>(s: LazyCollection<E, V>, a: Access): (r: Reply<LazyCollection<E, V>, Answer<V>>)
    requires Valid(s)
    ensures Valid(r.state) && r.state.viewBuilder == s.viewBuilder
    ensures r.state == Init(s).state
  {
    match a
    case CountViews =>
      var c := Count(s);
      Reply(c.state, if c.result.Ok? then Ok(Size(c.result.value)) else Err(c.result.error))
    case Iterate =>
      var it := GetIterator(s);
      Reply(it.state, if it.result.Ok? then Ok(Items(it.result.value)) else Err(it.result.error))
  }

  /** The collection after a sequence of calls, in order. */
  function Run<E, V>(s: LazyCollection<E, V>, accesses: seq<Access>): (r: LazyCollection<E, V>)
    requires Valid(s)
    ensures Valid(r) && r.viewBuilder == s.viewBuilder
    decreases |accesses|
  {
    if |accesses| == 0 then s else Run(Apply(s, accesses[0]).state, accesses[1..])
  }

  /** Every call observes the collection, so a sequence of calls acts like
      that many initialisation attempts. */
  lemma {:induction false} RunIsRepeat<E, V>(s: LazyCollection<E, V>, accesses: seq<Access>)
    requires Valid(s)
    ensures Run(s, accesses) == s.(cell := OneShot.Repeat(s.cell, Each(s.viewBuilder), |accesses|))
    decreases |accesses|
  {
    if |accesses| > 0 {
      var next := Apply(s, accesses[0]).state;
      assert next == s.(cell := OneShot.Init(s.cell, Each(s.viewBuilder)).state);
      RunIsRepeat(next, accesses[1..]);
      OneShot.RepeatAfterInit(s.cell, Each(s.viewBuilder), |accesses| - 1);
    }
  }

  /** When the first provider call returns entities that all build, any
      non-empty sequence of `count` and `getIterator` calls makes one
      provider call and one builder call per entity in total, and an empty
      one makes none. */
  lemma {:induction false} ExactlyOneEvaluation<E, V>(collectionProvider: nat -> Result<seq<E>>, viewBuilder: E -> Result<V>, accesses: seq<Access>)
    requires collectionProvider(0).Ok? && Mapping.AllBuild(viewBuilder, collectionProvider(0).value)
    ensures var r := Run(New(collectionProvider, viewBuilder), accesses);
      && r.cell.providerCalls == (if |accesses| == 0 then 0 else 1)
      && r.cell.builderCalls == (if |accesses| == 0 then 0 else |collectionProvider(0).value|)
      && r.cell.initialized == (|accesses| > 0)
  {
    var build := Each(viewBuilder);
    RunIsRepeat(New(collectionProvider, viewBuilder), accesses);
    assert OneShot.Succeeds(collectionProvider, build, 0);
    OneShot.ExactlyOnce(collectionProvider, build, |accesses|);
  }

  /** After any history of calls, a call on a collection whose first provider
      call and builds succeed answers from the views of the first entities:
      the count of entities, or the builder's views in the entities' order. */
  lemma {:induction false} AnswersFromFirstEntities<E, V>(collectionProvider: nat -> Result<seq<E>>, viewBuilder: E -> Result<V>, history: seq<Access>, a: Access)
    requires collectionProvider(0).Ok? && Mapping.AllBuild(viewBuilder, collectionProvider(0).value)
    ensures var es := collectionProvider(0).value;
      var r := Apply(Run(New(collectionProvider, viewBuilder), history), a).result;
      && r.Ok?
      && (a.CountViews? ==> r.value == Size(|es|))
      && (a.Iterate? ==>
            && r.value.Items?
            && |r.value.views| == |es|
            && forall i :: 0 <= i < |es| ==> viewBuilder(es[i]) == Ok(r.value.views[i]))
  {
    var s0 := New(collectionProvider, viewBuilder);
    var build := Each(viewBuilder);
    var n := |history|;
    RunIsRepeat(s0, history);
    OneShot.RepeatAfterInit(s0.cell, build, n);
    assert OneShot.Succeeds(collectionProvider, build, 0);
    OneShot.ExactlyOnce(collectionProvider, build, n + 1);
    var s := Run(s0, history);
    OneShot.RepeatAfterInit(s.cell, build, 0);
    var after := Init(s).state;
    assert after.cell.providerCalls == 1;
    assert Entities(after) == collectionProvider(0).value;
  }
}
