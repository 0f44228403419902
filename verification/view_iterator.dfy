/** `ViewIterator`, the second lazy view collection of the library. Its
    `init`, `count` and `getIterator` are written out here directly, as the
    class writes them, and then shown to behave step for step like
    `LazyCollection`. */
module ViewIterators {
  import opened Base
  import Mapping
  import OneShot
  import LazyCollections

  datatype ViewIterator<!E, V> = ViewIterator(
    dataProvider: nat -> Result<seq<E>>,
    viewBuilder: E -> Result<V>,
    initialized: bool,
    views: Option<seq<V>>,
    providerCalls: nat,
    builderCalls: nat)

  /** The same object seen as a `LazyCollection`. */
  function AsLazyCollection<E, V>(s: ViewIterator<E, V>): LazyCollections.LazyCollection<E, V> {
    LazyCollections.LazyCollection(
      s.viewBuilder,
      OneShot.Lazy(s.dataProvider, s.initialized, s.views, s.providerCalls, s.builderCalls))
  }

  ghost predicate Valid<E, V>(s: ViewIterator<E, V>) {
    LazyCollections.Valid(AsLazyCollection(s))
  }

  /** `__construct`: stores the provider and the builder and runs neither. */
  function New<E, V>(dataProvider: nat -> Result<seq<E>>, viewBuilder: E -> Result<V>): (s: ViewIterator<E, V>)
    ensures Valid(s)
    ensures AsLazyCollection(s) == LazyCollections.New(dataProvider, viewBuilder)
  {
    ViewIterator(dataProvider, viewBuilder, false, None, 0, 0)
  }

  /** `init`: return at once when initialised; otherwise call the provider,
      map the builder over the entities and cache the views. An exception
      from either leaves the object as the calls left it, flag down. */
  function Init<E, V>(s: ViewIterator<E, V>): (r: Reply<ViewIterator<E, V>, seq<V>>)
    requires Valid(s)
    ensures Valid(r.state)
    ensures AsLazyCollection(r.state) == LazyCollections.Init(AsLazyCollection(s)).state
    ensures r.result == LazyCollections.Init(AsLazyCollection(s)).result
  {
    if s.initialized then Reply(s, Ok(s.views.value))
    else
      var calls := s.providerCalls + 1;
      match s.dataProvider(s.providerCalls)
      case Err(e) => Reply(s.(providerCalls := calls), Err(e))
      case Ok(entities) =>
        var mapped := Mapping.MapAll(s.viewBuilder, entities);
        var tried := s.(providerCalls := calls, builderCalls := s.builderCalls + mapped.calls);
        match mapped.outcome
        case Err(e) => Reply(tried, Err(e))
        case Ok(views) => Reply(tried.(initialized := true, views := Some(views)), Ok(views))
  }

  /** `count`: initialise, then the number of cached views. */
  function Count<E, V>(s: ViewIterator<E, V>): (r: Reply<ViewIterator<E, V>, int>)
    requires Valid(s)
    ensures Valid(r.state)
    ensures AsLazyCollection(r.state) == LazyCollections.Count(AsLazyCollection(s)).state
    ensures r.result == LazyCollections.Count(AsLazyCollection(s)).result
  {
    var init := Init(s);
    match init.result
    case Err(e) => Reply(init.state, Err(e))
    case Ok(views) => Reply(init.state, Ok(|views|))
  }

  /** `getIterator`: initialise, then a fresh iterator over the cached
      views, modelled by the sequence it yields. */
  function GetIterator<E, V>(s: ViewIterator<E, V>): (r: Reply<ViewIterator<E, V>, seq<V>>)
    requires Valid(s)
    ensures Valid(r.state)
    ensures AsLazyCollection(r.state) == LazyCollections.GetIterator(AsLazyCollection(s)).state
    ensures r.result == LazyCollections.GetIterator(AsLazyCollection(s)).result
  {
    var init := Init(s);
    match init.result
    case Err(e) => Reply(init.state, Err(e))
    case Ok(views) => Reply(init.state, Ok(views))
  }

  function Apply<E, V>(s: ViewIterator<E, V>, a: LazyCollections.Access): (r: Reply<ViewIterator<E, V>, LazyCollections.Answer<V>>)
    requires Valid(s)
    ensures Valid(r.state)
    ensures AsLazyCollection(r.state) == LazyCollections.Apply(AsLazyCollection(s), a).state
    ensures r.result == LazyCollections.Apply(AsLazyCollection(s), a).result
  {
    match a
    case CountViews =>
      var c := Count(s);
      Reply(c.state, if c.result.Ok? then Ok(LazyCollections.Size(c.result.value)) else Err(c.result.error))
    case Iterate =>
      var it := GetIterator(s);
      Reply(it.state, if it.result.Ok? then Ok(LazyCollections.Items(it.result.value)) else Err(it.result.error))
  }

  /** The object after a sequence of calls, in order. */
  function Run<E, V>(s: ViewIterator<E, V>, accesses: seq<LazyCollections.Access>): (r: ViewIterator<E, V>)
    requires Valid(s)
    ensures Valid(r)
    decreases |accesses|
  {
    if |accesses| == 0 then s else Run(Apply(s, accesses[0]).state, accesses[1..])
  }

  /** The answers to a sequence of calls, in order. */
  function Answers<E, V>(s: ViewIterator<E, V>, accesses: seq<LazyCollections.Access>): (r: seq<Result<LazyCollections.Answer<V>>>)
    requires Valid(s)
    ensures |r| == |accesses|
    decreases |accesses|
  {
    if |accesses| == 0 then []
    else
      var step := Apply(s, accesses[0]);
      [step.result] + Answers(step.state, accesses[1..])
  }

  /** The same answers from a `LazyCollection`. */
  function CollectionAnswers<E, V>(s: LazyCollections.LazyCollection<E, V>, accesses: seq<LazyCollections.Access>): (r: seq<Result<LazyCollections.Answer<V>>>)
    requires LazyCollections.Valid(s)
    ensures |r| == |accesses|
    decreases |accesses|
  {
    if |accesses| == 0 then []
    else
      var step := LazyCollections.Apply(s, accesses[0]);
      [step.result] + CollectionAnswers(step.state, accesses[1..])
  }

  /** A `ViewIterator` and a `LazyCollection` holding the same provider and
      builder give the same answers to every sequence of `count` and
      `getIterator` calls, with the same provider and builder calls. */
  lemma {:induction false} SameAsLazyCollection<E, V>(s: ViewIterator<E, V>, accesses: seq<LazyCollections.Access>)
    requires Valid(s)
    ensures Answers(s, accesses) == CollectionAnswers(AsLazyCollection(s), accesses)
    ensures AsLazyCollection(Run(s, accesses)) == LazyCollections.Run(AsLazyCollection(s), accesses)
    decreases |accesses|
  {
    if |accesses| > 0 {
      SameAsLazyCollection(Apply(s, accesses[0]).state, accesses[1..]);
    }
  }
}
