# scalatest-junit-runner in Dafny

A model of the core of scalatest-junit-runner, a JUnit Platform test engine that runs
ScalaTest suites.

- **Discovery** (`discovery.dfy`) turns a list of suite classes into a tree of test
  descriptors:
  - the engine descriptor is the root;
  - below it is one Suite node per instantiated suite, with a Test node per test name
    and a subtree per nested suite;
  - a class or nested suite that cannot be loaded, instantiated or queried becomes a
    FailedInit node.
- **Execution** (`executor.dfy`) walks such a tree and reports to the JUnit listener:
  - it dispatches on the kind of each node;
  - it honours the skip-after-fail policy;
  - it runs the sub-suites of a container in display-name order;
  - it runs the Test children of a suite as one native ScalaTest batch, with a test
    filter that selects them;
  - it classifies what that batch throws into a ScalaTest abort event;
  - it reports success for a container only when its batch did not fail.

Descriptors are heap objects (`Descriptors.Descriptor`) whose `parent` and `children`
fields `Discovery.LinkChild` updates in place. Both Java classes are imperative, so the
model keeps that form:

- The builder methods change the tree link by link. Each is proved against a pure
  function (`AddSuiteSpec`, `ClassShapes`, …) of the subtree it links.
- The executor methods append to the trace of a `Reporter` object. Each is proved
  against a ghost function (`ExecTest`, `ExecSuite`, `ExecSubs`) of a snapshot of the
  tree.
- The properties of an execution are lemmas about those functions
  (`execution_facts.dfy`).
- `ExecutionFacts.DiscoveredRootSucceeds` joins the two halves. A tree that discovery
  builds on a fresh engine is closed (`Descriptors.Closed`, ensured by
  `Discovery.Discover`). Executing its root starts the root and ends with the root's
  success.

The foreign code is represented by values (`scalatest.dfy`):

- the class loader is a function from class names to a suite instance or a throwable;
- a suite instance is a record of its id, name, test names, tag map and nested
  instances, plus a `Fault` that says where querying it throws;
- `Suite.run`, `Suite.execute`, `NameTransformer.decode` and the fatal-error test are
  the functions of a `Runtime`.

The model follows the code in these places, where its behaviour is easy to misread:

- A skipped node gets only `executionFinished(aborted(cause))`, with no
  `executionStarted` (Executor.java lines 43-46).
- A fatal error that `runScalatests` rethrows does not leave `executeTest`. The catch
  block of the enclosing `executeTest` turns it into `executionFinished(failed(e))` for
  the node being executed (lines 65-67).
- When the batch of a suite returns false, the executor itself calls no
  `executionFinished` for that suite (lines 93-96). The only event about the suite is
  then the abort event handed to the reporter's `apply` (lines 135-142), which names
  the suite instance.
- An instance that throws after its Suite node is linked leaves both the partial Suite
  node and a FailedInit node for its class (Discovery.java lines 24-29 and 42-51).
- The engine descriptor is executed through `executeSuite`. If it had Test children,
  the cast to a suite descriptor on line 86 would throw a ClassCastException, which
  becomes its failed result.
- The abort event `runScalatests` reports is stamped with the ordinal that the run's
  own `Tracker` gives next after the run (the `ordinalAfter` field of
  `ScalaTest.Runtime`). That Tracker is the fresh one `createArgs` puts into the
  arguments, and every event the native run reported has already advanced it.

## Model

| member | source | states |
|---|---|---|
| `Discovery.GetTags` | src/main/java/co/helmethair/scalatest/runtime/Discovery.java:71-78 | A tag belongs to a test if and only if the suite's tag map has an entry for the test's exact name and that entry holds the tag |
| `Discovery.ExtractTags` | src/main/java/co/helmethair/scalatest/runtime/Discovery.java:64-69 | A type name is in the result if and only if some annotation of the class has that type and the type carries @TagAnnotation |
| `Discovery.AddSuiteSpec` | src/main/java/co/helmethair/scalatest/runtime/Discovery.java:41-52 | addSuite links nothing when suiteId()/suiteName() throw; otherwise it links exactly one Suite node with the instance's id and name. It throws exactly when querying the instance throws, and then the instance's throwable |
| `Discovery.GuardedAdd` | src/main/java/co/helmethair/scalatest/runtime/Discovery.java:45-51 | A guarded addSuite leaves one or two nodes. The first is the Suite node unless identity threw. There are two exactly when the throw came after the Suite node was linked. Whenever it threw, the last node is the FailedInit node for the class with that cause |
| `Discovery.ClassesInOrder` | src/main/java/co/helmethair/scalatest/runtime/Discovery.java:22-33 | Every listed class is processed once, in list order, whatever earlier classes did: the nodes of `before + [c] + after` are those of `before`, then of `c`, then of `after` |
| `Discovery.FailedClassNode` | src/main/java/co/helmethair/scalatest/runtime/Discovery.java:35-39 | A class whose loading or instantiation throws leaves, right after the earlier classes' nodes, a FailedInit node with that cause, the class name and the class's tags |
| `Discovery.ClassLinksCount` | src/main/java/co/helmethair/scalatest/runtime/Discovery.java:24-29 | One listed class adds one or two nodes under the engine, none of them a Test node |
| `Discovery.ClassCount` | src/main/java/co/helmethair/scalatest/runtime/Discovery.java:22-33 | `k` classes add between `k` and `2k` nodes under the engine, none of them a Test node |
| `Discovery.NestedCount` | src/main/java/co/helmethair/scalatest/runtime/Discovery.java:45-51 | `k` nested suites add between `k` and `2k` nodes under the suite node, none of them a Test node |
| `Discovery.NestedPrefix` | src/main/java/co/helmethair/scalatest/runtime/Discovery.java:45-51 | Later nested suites, even failing ones, never change the nodes the earlier nested suites added; each adds at least one node |
| `Discovery.SuiteTestChildren` | src/main/java/co/helmethair/scalatest/runtime/Discovery.java:59-62 | A Suite node has exactly one Test child per test name reported before the instance threw (all of them when it did not), in order. Each is tagged with the tag-map entry for its exact name, or with no tags when there is none. |
| `Discovery.DistinctTestChildren` | src/main/java/co/helmethair/scalatest/runtime/Discovery.java:59-62 | When the suite reports each test name once, as ScalaTest's Set of names does, no two Test children of its Suite node share a name |
| `Discovery.Discover` | src/main/java/co/helmethair/scalatest/runtime/Discovery.java:22-33 | discover returns the engine it was given. The engine's children gain exactly the nodes the listed classes give in list order, each a new node whose parent is the engine and none a Test node. On an engine without children the result is a closed tree |
| `Discovery.AddClasses` | src/main/java/co/helmethair/scalatest/runtime/Discovery.java:23-30 | The class loop: after `i` iterations the engine's new children are the nodes of the first `i` classes, all in a closed set of new descriptors |
| `Discovery.AddClassStep` | src/main/java/co/helmethair/scalatest/runtime/Discovery.java:24-29 | One iteration appends the nodes of class `i` after those of the earlier classes and keeps them closed |
| `Discovery.AddClass` | src/main/java/co/helmethair/scalatest/runtime/Discovery.java:24-29 | One class is either loaded and added by addSuite, followed by a FailedInit node if that threw, or becomes a FailedInit node. Nothing escapes |
| `Discovery.LinkChild` | src/main/java/co/helmethair/scalatest/runtime/Discovery.java:54-57 | Afterwards the child's parent is `parent`, and `parent`'s children are the old ones followed by the child |
| `Discovery.AddFailedInit` | src/main/java/co/helmethair/scalatest/runtime/Discovery.java:35-39 | A new childless FailedInit node with the cause, the class name and the class's tags is appended to the parent's children |
| `Discovery.AddTests` | src/main/java/co/helmethair/scalatest/runtime/Discovery.java:59-62 | One new Test node per test name, linked in order under the suite node with that node as containing suite and with getTags' tags, until the instance throws; the throwable is returned |
| `Discovery.AddSuite` | src/main/java/co/helmethair/scalatest/runtime/Discovery.java:41-52 | Links what `AddSuiteSpec` says under `parent`, as a closed set of new nodes, and returns the throwable `AddSuiteSpec` says |
| `Discovery.FillSuite` | src/main/java/co/helmethair/scalatest/runtime/Discovery.java:44-51 | The Suite node, already linked, gets its Test nodes and then its nested suites' nodes; a throw leaves the node partial |
| `Discovery.AddNestedSuite` | src/main/java/co/helmethair/scalatest/runtime/Discovery.java:46-50 | The existing nested instance is added as it is; a throw from it leaves a FailedInit node for the instance's class under the suite node |
| `Discovery.AddNestedSuites` | src/main/java/co/helmethair/scalatest/runtime/Discovery.java:45-51 | Every nested instance is added in order under the suite node, and a throw on one does not stop the next |
| `Execution.Reporter.ExecutionStarted` | src/main/java/co/helmethair/scalatest/runtime/Executor.java:71-71 | The listener call appends exactly `Started(d)` to the trace |
| `Execution.Reporter.ExecutionFinished` | src/main/java/co/helmethair/scalatest/runtime/Executor.java:95-95 | The listener call appends exactly `Finished(d, result)` to the trace |
| `Execution.Reporter.Apply` | src/main/java/co/helmethair/scalatest/runtime/Executor.java:135-135 | Handing a native event to the reporter appends exactly `Reported(event)` to the trace |
| `Execution.NameLeqTotal` | src/main/java/co/helmethair/scalatest/runtime/Executor.java:81-81 | The display-name comparison orders any two names |
| `Execution.NameLeqTrans` | src/main/java/co/helmethair/scalatest/runtime/Executor.java:81-81 | The display-name comparison is transitive |
| `Execution.SortedPairs` | src/main/java/co/helmethair/scalatest/runtime/Executor.java:80-82 | In a sorted sequence every earlier descriptor's display name is at most every later one's |
| `Execution.Insert` | src/main/java/co/helmethair/scalatest/runtime/Executor.java:81-81 | Inserting adds exactly one occurrence of the descriptor and keeps all the others |
| `Execution.InsertSorted` | src/main/java/co/helmethair/scalatest/runtime/Executor.java:81-81 | Inserting into a sorted sequence keeps it sorted |
| `Execution.SortByName` | src/main/java/co/helmethair/scalatest/runtime/Executor.java:80-82 | The result is sorted by display name and is a permutation of the input |
| `Execution.TestChildren` | src/main/java/co/helmethair/scalatest/runtime/Executor.java:74-75 | Only Test nodes among the children are kept |
| `Execution.OtherChildren` | src/main/java/co/helmethair/scalatest/runtime/Executor.java:77-78 | Only children that are not Test nodes are kept |
| `Execution.TestKidsOfChildren` | src/main/java/co/helmethair/scalatest/runtime/Executor.java:74-75 | The Test children execution filters from a node's children are those whose shapes discovery records as Test children, in the same order, whenever each shape records its descriptor's kind |
| `Execution.ChildrenPartition` | src/main/java/co/helmethair/scalatest/runtime/Executor.java:74-78 | Every child is in exactly one of the two groups, as often as it is a child |
| `Execution.RequestedNames` | src/main/java/co/helmethair/scalatest/runtime/Executor.java:106-107 | A name is requested if and only if it is the test name of one of the requested tests |
| `Execution.SelectedNames` | src/main/java/co/helmethair/scalatest/runtime/Executor.java:105-108 | The selection is a subset of the suite's test names. A name `n` of the suite is selected if and only if `n` or `decode(n)` is requested |
| `Execution.SelectionFilter` | src/main/java/co/helmethair/scalatest/runtime/Executor.java:103-126 | The filter includes only the tag "Selected". Its dynamic tags have the suite's id as the only key. A name is tagged if and only if it is a test name of the suite equal to a requested test's name or decoding to one. Each tagged name carries exactly {"Selected"} |
| `Execution.Classify` | src/main/java/co/helmethair/scalatest/runtime/Executor.java:133-148 | InstantiationException and IllegalAccessException give SuiteAborted with the exception. TestFailedException gives SuiteAborted with its cause if present, else itself. NoClassDefFoundError gives RunAborted. Anything else gives RunAborted and is rethrown exactly when it is fatal. Every event carries the given ordinal and the suite's name, id and class |
| `Execution.RunBatch` | src/main/java/co/helmethair/scalatest/runtime/Executor.java:129-148 | runScalatests returns true if and only if the native run completes, and then reports nothing. Otherwise it reports exactly one abort event. When the run throws, the one event reported is the one `Classify` gives for that throwable, stamped with the ordinal the run's tracker gives next, and the call rethrows if and only if `Classify` says so. It rethrows only the run's own throwable, only a fatal one, after a RunAborted event |
| `Execution.SubSuites` | src/main/java/co/helmethair/scalatest/runtime/Executor.java:77-82 | The sub-suites run are children that are not Test nodes |
| `Execution.BatchTests` | src/main/java/co/helmethair/scalatest/runtime/Executor.java:85-89 | The tests requested in a batch are the Test children |
| `Execution.ClosedTree` | src/main/java/co/helmethair/scalatest/runtime/Executor.java:72-72 | A closed tree (what discovery builds) has a snapshot in which every child ranks below its parent and every Test node has a containing Suite node |
| `Execution.ExecTest` | src/main/java/co/helmethair/scalatest/runtime/Executor.java:41-68 | The events of executeTest(d): a single aborted result under the skip policy with a recorded cause; otherwise by kind of node, with a throwable escaping the body turned into `Finished(d, failed(e))`. Its properties are the `ExecutionFacts` lemmas below |
| `Execution.ExecSuite` | src/main/java/co/helmethair/scalatest/runtime/Executor.java:70-97 | The events of executeSuite(d) and what it throws: `Started(d)`, the sub-suites in display-name order, then `SuiteTail`. Its properties are `ExecutionFacts.ContainerShape` and the lemmas after it |
| `Execution.SuiteTail` | src/main/java/co/helmethair/scalatest/runtime/Executor.java:84-96 | The closing events end with `Finished(d, successful)` if and only if there are no Test children or the batch returned true. What escapes is the batch's rethrown error for a suite node, and the ClassCastException of the cast for an engine with Test children |
| `Execution.ExecSubs` | src/main/java/co/helmethair/scalatest/runtime/Executor.java:80-82 | The events of executeTest on the first `k` sub-suites, one after the other. Its properties are `ExecutionFacts.SubsEventsBelow` and `ExecutionFacts.SubsAvoidParent` |
| `Execution.Executor.constructor` | src/main/java/co/helmethair/scalatest/runtime/Executor.java:33-35 | The default executor does not skip after a failure |
| `Execution.Executor.WithSkipAfterFail` | src/main/java/co/helmethair/scalatest/runtime/Executor.java:37-39 | The executor keeps the given skip policy |
| `Execution.Executor.ExecuteTest` | src/main/java/co/helmethair/scalatest/runtime/Executor.java:41-68 | executeTest appends exactly the events `ExecTest` gives for the node. It never throws, and it changes nothing but the trace (in particular not the reporter's skip cause) |
| `Execution.Executor.ExecuteContainer` | src/main/java/co/helmethair/scalatest/runtime/Executor.java:53-60 | executeSuite inside the catch block: its events, then `Finished(d, failed(e))` if it threw `e` |
| `Execution.Executor.ExecuteSuite` | src/main/java/co/helmethair/scalatest/runtime/Executor.java:70-97 | executeSuite appends `Started(d)`, the sub-suites' events and the batch's closing events, and returns what it throws |
| `Execution.Executor.FinishSuite` | src/main/java/co/helmethair/scalatest/runtime/Executor.java:84-96 | The batch of the Test children, if any, then the success event only when there were none or the batch returned true; the cast failure or a rethrown error is returned |
| `Execution.Executor.ExecuteSubSuites` | src/main/java/co/helmethair/scalatest/runtime/Executor.java:80-82 | executeTest on each sub-suite in the given order, their events one after the other |
| `Execution.Executor.RunScalatests` | src/main/java/co/helmethair/scalatest/runtime/Executor.java:99-149 | Appends `RunBatch`'s events, and returns its flag or the fatal error it rethrows |
| `ExecutionFacts.TestEventsInSubtree` | src/main/java/co/helmethair/scalatest/runtime/Executor.java:41-68 | Every listener event of executeTest(d) is about `d` or a node below it |
| `ExecutionFacts.ContainerEventsInSubtree` | src/main/java/co/helmethair/scalatest/runtime/Executor.java:70-97 | Every listener event of a container's execution is about the container or a node below it |
| `ExecutionFacts.SubsEventsBelow` | src/main/java/co/helmethair/scalatest/runtime/Executor.java:80-82 | The sub-suites' listener events are about nodes strictly below the container |
| `ExecutionFacts.SubsAvoidParent` | src/main/java/co/helmethair/scalatest/runtime/Executor.java:80-82 | No sub-suite's event is about the container itself |
| `ExecutionFacts.SkipOnlyAborts` | src/main/java/co/helmethair/scalatest/runtime/Executor.java:43-46 | Under the skip policy with a recorded cause, a node gets only `Finished(aborted(cause))`: no start, no children, no native run |
| `ExecutionFacts.FailedInitEvents` | src/main/java/co/helmethair/scalatest/runtime/Executor.java:61-63 | A FailedInit node gets exactly `Started`, then `Finished(failed(its cause))` |
| `ExecutionFacts.ChildlessSuiteSilent` | src/main/java/co/helmethair/scalatest/runtime/Executor.java:47-51 | A childless suite is run natively with no listener event, and gets only `Finished(failed(e))` if that run throws `e` |
| `ExecutionFacts.DirectTestEvents` | src/main/java/co/helmethair/scalatest/runtime/Executor.java:55-58 | A Test node runs as a batch of its own in its containing suite; a rethrown fatal error becomes its failed result |
| `ExecutionFacts.ContainerShape` | src/main/java/co/helmethair/scalatest/runtime/Executor.java:70-97 | A container's events are `Started(d)`, then each sub-suite's execution in sorted order, then the closing events |
| `ExecutionFacts.ClosingShape` | src/main/java/co/helmethair/scalatest/runtime/Executor.java:84-96 | The closing events are at most one native abort event followed by at most one event about the container, which is then a result |
| `ExecutionFacts.ClosingLast` | src/main/java/co/helmethair/scalatest/runtime/Executor.java:84-96 | Without Test children the closing is just the success. Otherwise the last closing event is: the success when the batch returned true; the ClassCastException for an engine; the rethrown error; or the abort event when the batch returned false |
| `ExecutionFacts.ContainerBracket` | src/main/java/co/helmethair/scalatest/runtime/Executor.java:70-97 | A container is started first and not mentioned again before the last event; that last event, if about the container, is its result |
| `ExecutionFacts.ContainerEnd` | src/main/java/co/helmethair/scalatest/runtime/Executor.java:84-96 | A container's last event is: its success with no Test children or a batch that returned true; `failed(ClassCastException)` for an engine with Test children; `failed(e)` for a rethrown `e`; for a batch that returned false, the abort event `Classify` gives for the container's own suite and the throwable out of its run |
| `ExecutionFacts.ContainerSuccess` | src/main/java/co/helmethair/scalatest/runtime/Executor.java:93-96 | `Finished(d, successful)` is reported if and only if there are no Test children or the batch returned true |
| `ExecutionFacts.ContainerFinished` | src/main/java/co/helmethair/scalatest/runtime/Executor.java:84-96 | The executor itself calls `executionFinished` on a container if and only if its batch did not return false. After a false batch the only event about the container is the abort event handed to the reporter |
| `ExecutionFacts.ChildOrder` | src/main/java/co/helmethair/scalatest/runtime/Executor.java:74-89 | The sub-suites and the batch's tests are together exactly the children, each as often as it is a child. Each group is in ascending display-name order |
| `ExecutionFacts.SelectsAll` | src/main/java/co/helmethair/scalatest/runtime/Executor.java:105-108 | Requesting every test of a suite selects all of its test names |
| `ExecutionFacts.SelectsOne` | src/main/java/co/helmethair/scalatest/runtime/Executor.java:105-108 | A single requested test selects exactly the suite's names equal to its name or decoding to it |
| `ExecutionFacts.DiscoveredRootSucceeds` | src/main/java/co/helmethair/scalatest/runtime/Executor.java:59-60 | The root of a closed tree without Test children, as discovery builds it, is started first and ends with its success |

## Left out

- The descriptor classes (ScalatestEngineDescriptor, ScalatestSuiteDescriptor, ScalatestTestDescriptor, ScalatestFailedInitDescriptor) are not part of this model. The display names are taken to be "Scalatest" for the engine, the suite name, the test name and the class name. A descriptor's child set is a sequence in insertion order.
- JUnitReporter is not part of this model. Its skip cause is an input that the executor only reads. The listener is the trace of calls.
- JUnitReporter's translation of the abort event it receives through `apply` into a failed result for the suite is not modelled. The model stops at the event handed to `apply`.
- The events ScalaTest itself reports during `Suite.run` are part of the abstract run and do not appear in the trace.
- `createArgs` and the rest of `Args` (stopper, config map, chosen styles, distributor) are not modelled. Neither are the default excluded tags and the `excludeNestedSuites` flag of the filter. The `filter == null` branch of `createArgs` is never taken by the runner.
- The thread name, the time stamp and the empty `Option` fields of `SuiteAborted` and `RunAborted` are not modelled. The ordinal is a number, not a ScalaTest `Ordinal`. The message texts of `Resources` are kept only as the resource used and its argument.
- `TestTag.create` is not modelled: tags are plain strings, without its validation of tag names.
- `Execution.NameLeq` compares characters as Dafny `char` values. Java's `String.compareTo` compares UTF-16 code units, which orders characters outside the Basic Multilingual Plane differently.
- Execution.SortByName: it states sortedness and permutation but not the order of descriptors with equal display names. The sub-suites come out of a `HashSet`, whose order the code leaves unspecified.
- Execution.ExecuteTest: it is stated against a snapshot of the tree (`Execution.Tree`) that must mirror the descriptors' children fields. Nothing in the executor changes those fields.
- Execution.Executor.ExecuteTest: the reporter's skip cause is read once, before the call, and the whole walk sees that one value. The reporter is not part of this model, so neither the native run nor `apply` records a new cause. With the skip policy on, a later sibling is therefore never skipped because an earlier suite failed during the same walk. `ExecutionFacts.SkipOnlyAborts` covers only a cause recorded before the call.
- ExecutionFacts.SkipOnlyAborts: see the line above; skipping after a failure that happens during the walk is not stated.
- `ScalaTest.Suite.testNames` is a sequence, which may repeat a name, while ScalaTest's `testNames` is a Set. `Discovery.DistinctNames` states that the names are distinct. `Discovery.DistinctTestChildren` proves distinct Test children only under it.
- Discovery.Discover: it proves the built tree closed only when the engine starts without children. On an engine that already has children, it states only the appended nodes.
- The behaviour of a suite instance is summarised by `ScalaTest.Fault`, which records where querying it throws. An instance whose answers change between calls is not modelled.
- Reflection (`loadClass`, `newInstance`, `getAnnotations`) is a given load result and a given list of annotations. `NonFatal` is a given predicate on the exception class.
