# view-mapper: lazy, memoising view construction in Dafny

This project models the view-mapper library. The library turns entities into
"view" objects through a builder. It can do this eagerly, for data already at
hand, or lazily, for data that a provider callable will fetch. The lazy forms are:

- a single-view proxy (`LazyProperty`). It builds the view on the first
  property read, existence check or method call, and then forwards every access
  to the cached view. Assigning a property through it is always refused.
- two interchangeable view collections (`LazyCollection`, `ViewIterator`). The
  first `count` or `getIterator` calls the provider once, maps the builder over
  the entities in order and caches the views.

The factory every concrete view class inherits (`AbstractView`) offers the eager
conversion `fromIterable` and the two lazy constructors `lazyCollection` and
`lazy`.

Layout:

- `base.dfy` (`Base`): errors, results, values, the opaque `View`, replies.
- `mapping.dfy` (`Mapping`): mapping a builder over entities. It is the
  `array_map` of the collections and the `foreach` of `fromIterable`, with
  exceptions.
- `one_shot.dfy` (`OneShot`): the guarded one-shot `init` shared by every lazy
  wrapper, and its theorems over any number of observations.
- `lazy_property.dfy` (`LazyProperties`): `LazyProperty`.
- `lazy_collection.dfy` (`LazyCollections`): `LazyCollection`.
- `view_iterator.dfy` (`ViewIterators`): `ViewIterator`, transcribed separately
  and proved to behave like `LazyCollection`.
- `abstract_view.dfy` (`AbstractViews`): `fromIterable`, `lazyCollection`,
  `lazy`.

Modelling choices:

- Each wrapper is an immutable state record. Every operation returns the next
  state together with the caller's result, so the state change is part of the
  contract.
- The state carries the `initialized` flag, an optional cache and two counters:
  how often the provider has run and how often the builder has run.
- The provider is `nat -> Result<S>`. `provider(k)` is the outcome of its
  (k+1)-th invocation. A provider backed by a changing data source can
  therefore throw once and succeed on the retry.
- The builder is a function `E -> Result<V>`. For the factory it is the view
  class's constructor (`ViewClass.construct`). This stands in for
  `new static($entity)`.
- A view is opaque. The core sees it only through `hasProperty`
  (`property_exists`), `read` (`$view->$name`) and `invoke` (a method call with
  positional arguments). The view decides what happens for a name it does not
  have.

## Model

| member | source | states |
|---|---|---|
| Mapping.MapAll | src/LazyCollection.php:54 | the map succeeds iff every entity builds; it then yields one view per entity in the entities' order, view i being the builder's view of entity i, after exactly one builder call per entity; otherwise it propagates the first failing entity's exception after the calls up to and including that one |
| OneShot.Init | src/LazyProperty.php:52-65 | the shared guarded init keeps the invariant "cache present iff initialized, and then equal to the build of the provider's latest output"; once initialised it changes nothing and calls nothing; otherwise it calls the provider exactly once, adds that attempt's builder calls, returns the attempt's outcome or its exception unchanged, and raises the flag only on success |
| OneShot.Repeat | src/LazyProperty.php:54-56 | over any number of observations the invariant is kept, the flag never drops back, an initialised wrapper is left exactly as it was, and at most one provider call is made per observation |
| OneShot.FreshRun | src/LazyProperty.php:52-65 | from construction, n observations call the provider once per attempt until the first successful one and never after; builder calls are those of the attempts made; while every attempt fails the wrapper stays uninitialised (retry), and after the first success the cache holds that attempt's value |
| OneShot.ExactlyOnce | src/LazyProperty.php:54-64 | if the first attempt succeeds, any positive number of observations makes exactly one provider call and one attempt's builder calls, and zero observations make none |
| LazyProperties.New | src/LazyProperty.php:20-24 | construction stores the given provider and builder, satisfies the invariant, leaves the proxy uninitialised and has called neither |
| LazyProperties.Init | src/LazyProperty.php:52-65 | a no-op once initialised; the first time, exactly one provider call, and one builder call iff the provider returned; succeeds iff both succeed; the cached view is then the builder's view of the entity; a provider exception, or else the builder's, is returned unchanged; a failure leaves the flag down and the cache empty so that the next access retries |
| LazyProperties.Get | src/LazyProperty.php:26-31 | initialises as `init` does, then answers the cached view's read of the name; an exception from the provider or builder is returned to the caller unchanged |
| LazyProperties.Set | src/LazyProperty.php:33-36 | always fails with the read-only error, whatever the state, name or value, and leaves the proxy and both counters unchanged (it never initialises) |
| LazyProperties.IsSet | src/LazyProperty.php:38-43 | initialises, then answers whether the cached view declares the property; an init exception is returned unchanged |
| LazyProperties.Call | src/LazyProperty.php:45-50 | as written: initialises, then invokes the view's method of the same name with exactly one argument, the whole argument list packed as an array; it equals the corrected forwarding applied to that one packed argument; an init exception is returned unchanged |
| LazyProperties.CallSpread | src/LazyProperty.php:45-50 | corrected forwarding: initialises, then invokes the view's method with the caller's arguments unchanged; an init exception is returned unchanged |
| LazyProperties.CallWrapsArguments | src/LazyProperty.php:49 | for a view whose method returns its argument count, a direct two-argument call answers 2 but the call through the proxy as written answers 1 |
| LazyProperties.Apply | src/LazyProperty.php:26-50 | an assignment leaves the proxy untouched and fails read-only; every other access changes the proxy exactly as one `init` does |
| LazyProperties.Run | src/LazyProperty.php:26-50 | a sequence of accesses keeps the invariant and the provider, and makes at most one provider call per observing access; assignments make none |
| LazyProperties.RunIsRepeat | src/LazyProperty.php:26-50 | any sequence of accesses leaves the proxy exactly as that many consecutive inits, one per non-assignment access, would |
| LazyProperties.NothingBeforeObservation | src/LazyProperty.php:20-36 | a new proxy that has seen only assignments is still the untouched new proxy: no provider call, no builder call, not initialised |
| LazyProperties.ExactlyOneEvaluation | src/LazyProperty.php:52-65 | when the first provider call and build succeed, any sequence of accesses makes one provider and one builder call in total if it observes the view at all and none otherwise, and the flag is up exactly then |
| LazyProperties.Transparent | src/LazyProperty.php:26-50 | after any history of accesses, every read, existence check and (corrected) call answers exactly what the view built from the first entity answers directly |
| LazyCollections.New | src/LazyCollection.php:23-27 | construction stores the given provider and builder, satisfies the invariant, leaves the collection uninitialised and has called neither |
| LazyCollections.Views | src/LazyCollection.php:54 | the cached views correspond one-to-one and in order to the entities of the initialising provider call, each the builder's view of its entity |
| LazyCollections.Init | src/LazyCollection.php:43-56 | a no-op once initialised; the first time, exactly one provider call; succeeds iff the provider returns and every entity builds; the views then correspond to those entities, at one builder call per entity; a provider exception is returned unchanged with no builder call, and otherwise the result and builder calls are those of the builder walk, which stops at the first builder exception; a failure leaves the flag down and the cache empty so that the next call retries |
| LazyCollections.Count | src/LazyCollection.php:36-41 | initialises, then answers the number of entities the provider returned; an init exception is returned unchanged |
| LazyCollections.GetIterator | src/LazyCollection.php:29-34 | initialises, then yields one view per entity, view i being the builder's view of entity i; an init exception is returned unchanged |
| LazyCollections.IteratorsShareSnapshot | src/LazyCollection.php:29-34 | a second iterator yields the same views as the first and calls nothing |
| LazyCollections.EmptyCollection | src/LazyCollection.php:54 | a provider returning no entities gives count 0 and an empty iteration, without error and without a builder call |
| LazyCollections.RunIsRepeat | src/LazyCollection.php:29-41 | any sequence of `count` and `getIterator` calls leaves the collection exactly as that many consecutive inits would |
| LazyCollections.ExactlyOneEvaluation | src/LazyCollection.php:43-56 | when the first provider call returns entities that all build, any non-empty sequence of calls makes one provider call and one builder call per entity in total, and an empty sequence none |
| LazyCollections.AnswersFromFirstEntities | src/LazyCollection.php:29-56 | in that situation, after any history, `count` answers the number of entities and iteration yields the builder's views of the entities in order |
| ViewIterators.New | src/ViewIterator.php:23-27 | construction is the same untouched state a new `LazyCollection` with the same provider and builder has |
| ViewIterators.Init | src/ViewIterator.php:43-56 | the separately transcribed init gives the same next state and result as `LazyCollection`'s |
| ViewIterators.Count | src/ViewIterator.php:36-41 | `count` gives the same next state and answer as `LazyCollection`'s, hence the number of entities the provider returned |
| ViewIterators.GetIterator | src/ViewIterator.php:29-34 | `getIterator` gives the same next state and views as `LazyCollection`'s, hence the builder mapped over the entities in order |
| ViewIterators.SameAsLazyCollection | src/ViewIterator.php:29-56 | over every sequence of calls, a `ViewIterator` answers exactly as a `LazyCollection` with the same provider and builder, and ends in the same state with the same call counts |
| AbstractViews.FromIterable | src/AbstractView.php:25-34 | eagerly builds one view per entity before returning, keyed 0..n-1 in input order with view i the constructor's view of entity i, using exactly n constructor calls; empty input gives an empty result; the first constructor exception propagates after the calls up to it; the result equals the collections' map |
| AbstractViews.LazyCollection | src/AbstractView.php:37-45 | answers a new, uninitialised lazy collection over the given provider and the class's constructor, with neither called |
| AbstractViews.Lazy | src/AbstractView.php:48-56 | answers a new, uninitialised lazy property over the given provider and the class's constructor, with neither called |
| AbstractViews.LazyMatchesEager | src/AbstractView.php:25-45 | iterating a lazy collection whose provider returns given entities yields exactly what the eager conversion of those entities yields, failure included |

## Left out

- PHP's magic-method dispatch, reflection and member visibility are left out. A
  view is reduced to the three accessor functions above, so the answer for an
  undefined property or method is whatever the view's `read` or `invoke` gives.
- Late static binding (`new static`) is replaced by an explicit `ViewClass`
  holding the constructor.
- `ArrayIterator`, `IteratorAggregate` and `Countable` are left out. An
  iterator is modelled by the sequence of views it yields.
- Two details of `array_map` are left out: key preservation for non-list
  arrays, and the `TypeError` raised when a collection provider returns a
  non-array Traversable. Entities are always a list.
- `fromIterable` accepts any iterable. It is modelled over a finite sequence;
  generators and infinite iterables are left out.
- Concurrency is left out. The source has none, and its check-then-act in
  `init` is not atomic.
- The commented-out constructor and its note in `src/AbstractView.php` are left out.
- Concrete exception classes are left out. The read-only refusal is the error
  `NoSetters`. Every exception from a provider, builder or view is
  `Raised(message)` and is propagated unchanged.
- The builder is deterministic: the same entity always gives the same outcome.
  Only the provider may answer differently on a retry.
- The call counters are plain fields of the state, not hidden instrumentation.
  The source has no such counters.
- The library does not say whether a failed initialisation should be
  retried. The model follows the code: after a failure the flag stays down and
  the next observation runs the provider again.
- LazyProperties.Apply uses the corrected forwarding `CallSpread` for method
  calls. The as-written `Call` is modelled separately and is proved to be
  `CallSpread` applied to the single packed argument, so the state theorems
  hold for it too; see Findings.

## Findings

| source | as written | input that shows it | evidently intended | confidence | as-written member | corrected member |
|---|---|---|---|---|---|---|
| src/LazyProperty.php:49 | `__call` passes the whole argument list to the view's method as one array argument | a view method that returns how many arguments it received, called through the proxy with two arguments, receives one argument (an array) and answers 1 instead of 2 | forward the arguments unchanged (spread), so the proxy answers exactly as the view does | medium, not executed | LazyProperties.CallWrapsArguments | LazyProperties.CallSpread |
