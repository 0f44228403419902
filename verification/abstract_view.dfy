/** The factory every concrete view class inherits (`AbstractView`): an
    eager bulk conversion of entities into views, and the two constructors of
    the lazy wrappers. The class whose constructor `new static($entity)`
    would call is passed explicitly as a `ViewClass`. */
module AbstractViews {
  import opened Base
  import Mapping
  import OneShot
  import LazyProperties
  import LazyCollections

  /** A concrete view class, reduced to its constructor: building a view from
      one entity, which may throw. */
  datatype ViewClass<!E, V> = ViewClass(construct: E -> Result<V>)

  /** `fromIterable`: constructs one view per entity, in order, before
      returning; the first constructor exception propagates. Alongside the
      views it reports how many constructor calls were made. */
  method FromIterable<E, V>(cls: ViewClass<E, V>, entities: seq<E>) returns (views: Result<seq<V>>, calls: nat)
    // the same walk the lazy collections make with `array_map`
    ensures views == Mapping.MapAll(cls.construct, entities).outcome
    ensures calls == Mapping.MapAll(cls.construct, entities).calls
    // it fails exactly when some entity does not build
    ensures views.Ok? <==> Mapping.AllBuild(cls.construct, entities)
    // eager, order- and length-preserving: view i is entity i's view
    ensures views.Ok? ==>
      && |views.value| == |entities|
      && (forall i :: 0 <= i < |entities| ==> cls.construct(entities[i]) == Ok(views.value[i]))
      && calls == |entities|
    // on failure: the calls up to and including the first failing one
    ensures views.Err? ==> exists k :: Mapping.FirstFailureAt(cls.construct, entities, k) && calls == k + 1
  {
    var acc: seq<V> := [];
    var i := 0;
    while i < |entities|
      invariant 0 <= i <= |entities|
      invariant |acc| == i
      invariant forall j :: 0 <= j < i ==> cls.construct(entities[j]) == Ok(acc[j])
    {
      match cls.construct(entities[i]) {
        case Err(e) =>
          views, calls := Err(e), i + 1;
          FirstFailureWalk(cls.construct, entities, i);
          return;
        case Ok(v) =>
          acc := acc + [v];
      }
      i := i + 1;
    }
    views, calls := Ok(acc), |entities|;
    AllBuildWalk(cls.construct, entities, acc);
  }

  /** A walk that met its first failure at `k` is what `MapAll` reports. */
  lemma FirstFailureWalk<E, V>(f: E -> Result<V>, es: seq<E>, k: nat)
    requires Mapping.FirstFailureAt(f, es, k)
    ensures Mapping.MapAll(f, es) == Built(Err(f(es[k]).error), k + 1)
  {
  }

  /** A walk in which every entity built is what `MapAll` reports. */
  lemma AllBuildWalk<E, V>(f: E -> Result<V>, es: seq<E>, vs: seq<V>)
    requires |vs| == |es|
    requires forall j :: 0 <= j < |es| ==> f(es[j]) == Ok(vs[j])
    ensures Mapping.MapAll(f, es) == Built(Ok(vs), |es|)
  {
    var r := Mapping.MapAll(f, es);
    assert Mapping.AllBuild(f, es);
    assert r.outcome.value == vs;
  }

  /** `lazyCollection`: a new lazy collection over the provider and the
      class's constructor, neither of them called. */
  function LazyCollection<E, V>(cls: ViewClass<E, V>, collectionProvider: nat -> Result<seq<E>>): (r: LazyCollections.LazyCollection<E, V>)
    ensures r.viewBuilder == cls.construct && r.cell.provider == collectionProvider
    ensures LazyCollections.Valid(r)
    ensures !r.cell.initialized && r.cell.providerCalls == 0 && r.cell.builderCalls == 0
  {
    LazyCollections.New(collectionProvider, cls.construct)
  }

  /** `lazy`: a new lazy property over the provider and the class's
      constructor, neither of them called. */
  function Lazy<E>(cls: ViewClass<E, View>, entityProvider: nat -> Result<E>): (r: LazyProperties.LazyProperty<E>)
    ensures r.viewBuilder == cls.construct && r.cell.provider == entityProvider
    ensures LazyProperties.Valid(r)
    ensures !r.cell.initialized && r.cell.providerCalls == 0 && r.cell.builderCalls == 0
  {
    LazyProperties.New(entityProvider, cls.construct)
  }

  /** The lazy path agrees with the eager one: iterating a lazy collection
      whose provider returns `entities` yields what `fromIterable` returns
      for them, including the exception when an entity does not build. */
  lemma LazyMatchesEager<E, V>(cls: ViewClass<E, V>, entities: seq<E>)
    ensures var c := LazyCollection(cls, _ => Ok(entities));
      LazyCollections.GetIterator(c).result == Mapping.MapAll(cls.construct, entities).outcome
  {
  }
}
