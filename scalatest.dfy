/**
 * The parts of ScalaTest and of the JVM that the runner calls, as abstract values.
 *
 * Reflection, the class loader, a suite instance and the native `Suite.run` /
 * `Suite.execute` entry points are foreign code.  Each is represented by the
 * value it produces (or the exception it throws), so that the runner's own
 * logic can be stated over every possible behaviour of that code.
 */
module ScalaTest {
  import opened Options

  /** The exception classes the runner tells apart; every other class is `Other`. */
  datatype ExceptionKind =
    | InstantiationException
    | IllegalAccessException
    | TestFailedException
    | NoClassDefFoundError
    | ClassCastException
    | Other(className: string)

  /** A thrown java.lang.Throwable: its class, its message and its optional cause. */
  datatype Throwable = Throwable(kind: ExceptionKind, message: string, cause: Option<Throwable>)

  /** An annotation on a suite class; `isTagAnnotation` says whether its type carries @TagAnnotation. */
  datatype Annotation = Annotation(typeName: string, isTagAnnotation: bool)

  /** A suite class as the discovery request names it: its fully qualified name and its annotations. */
  datatype SuiteClass = SuiteClass(name: string, annotations: seq<Annotation>)

  /**
   * Where a suite instance throws while the tree builder queries it.
   * `ThrowsOnIdentity`: suiteId()/suiteName() throw, before any descriptor exists.
   * `ThrowsAfterTests(k, e)`: testNames()/tags() throw once `k` test descriptors are
   * linked; when `k` is at least the number of test names, it is nestedSuites() that throws.
   */
  datatype Fault =
    | Healthy
    | ThrowsOnIdentity(cause: Throwable)
    | ThrowsAfterTests(linked: nat, cause: Throwable)

  /**
   * A live org.scalatest.Suite instance.  `testNames` is the iteration order of the
   * suite's test-name set, `tags` its test-name to tag-set map, `nestedSuites` the
   * already constructed nested instances.
   */
  datatype Suite = Suite(
    cls: SuiteClass,
    suiteId: string,
    suiteName: string,
    testNames: seq<string>,
    tags: map<string, set<string>>,
    nestedSuites: seq<Suite>,
    fault: Fault)

  /** What `classLoader.loadClass(name).newInstance()` gives: an instance, or the throwable it raised. */
  datatype LoadResult = Loaded(suite: Suite) | LoadFailed(cause: Throwable)

  /** How a native run call ends: it completes, or it throws. */
  datatype RunOutcome = Completes | Throws(error: Throwable)

  /** The part of org.scalatest.Filter the runner sets: the tags to include and the dynamic tags. */
  datatype Filter = Filter(tagsToInclude: set<string>, dynaTags: map<string, map<string, set<string>>>)

  /**
   * The foreign behaviour the executor depends on:
   * `run`      — `Suite.run` with the given filter followed by `waitUntilCompleted`;
   * `execute`  — the unreported `Suite.execute` used for childless suites;
   * `decode`   — scala.reflect.NameTransformer.decode;
   * `isFatal`  — the negation of scala.util.control.NonFatal, by exception class;
   * `ordinalAfter` — what `nextOrdinal()` returns on the run's Tracker once that run
   *              has ended: the Tracker starts at the first ordinal and every event the
   *              run itself reported has taken one.
   */
  datatype Runtime = Runtime(
    run: (Suite, Filter) -> RunOutcome,
    execute: Suite -> RunOutcome,
    decode: string -> string,
    isFatal: ExceptionKind -> bool,
    ordinalAfter: (Suite, Filter) -> nat)
}
