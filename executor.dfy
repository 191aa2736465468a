/**
 * The execution engine: it walks a discovered descriptor tree, dispatches on the
 * kind of each node, runs the tests of a suite as one native ScalaTest batch and
 * reports what happens to a JUnit execution listener.
 *
 * The listener and the ScalaTest reporter are one `Reporter` object whose `trace`
 * records every call in order.  The native ScalaTest entry points are the abstract
 * functions of a `Runtime`.  Each imperative operation is proved against a ghost
 * function of the tree (`ExecTest`, `ExecSuite`, `ExecSubs`) and the properties of
 * an execution are lemmas about those functions.
 */
module Execution {
  import opened Options
  import opened ScalaTest
  import opened Descriptors

  /** The three JUnit execution results. */
  datatype TestResult = Successful | Failed(cause: Throwable) | Aborted(cause: Throwable)

  /** The ScalaTest message resource an abort event's text is built from. */
  datatype Reason =
    | CannotInstantiateSuite(message: string)
    | BigProblems(error: Throwable)
    | CannotLoadClass(message: string)

  /**
   * A native ScalaTest event the runner reports itself.  `ordinal` is the ordinal the
   * event is stamped with; thread name and time stamp are not modelled.
   */
  datatype NativeEvent =
    | SuiteAborted(ordinal: nat, reason: Reason, suiteName: string, suiteId: string, className: string, cause: Throwable)
    | RunAborted(ordinal: nat, reason: Reason, cause: Throwable, suite: Suite)

  /** One call on the reporter: a listener notification, or a native event handed to `apply`. */
  datatype Event =
    | Started(node: Descriptor)
    | Finished(node: Descriptor, result: TestResult)
    | Reported(event: NativeEvent)

  /** The event is a listener notification about `d`. */
  predicate About(ev: Event, d: Descriptor)
  {
    !ev.Reported? && ev.node == d
  }

  /**
   * The JUnitReporter handed to every call: the skip cause it has recorded and the
   * trace of the calls it received.
   */
  class Reporter {
    var skipWithCause: Option<Throwable>
    var trace: seq<Event>

    constructor (skipWithCause: Option<Throwable>)
      ensures this.skipWithCause == skipWithCause && trace == []
    {
      this.skipWithCause := skipWithCause;
      trace := [];
    }

    /** getJunitListener().executionStarted(d) */
    method ExecutionStarted(d: Descriptor)
      modifies this`trace
      ensures trace == old(trace) + [Started(d)]
    {
      trace := trace + [Started(d)];
    }

    /** getJunitListener().executionFinished(d, result) */
    method ExecutionFinished(d: Descriptor, result: TestResult)
      modifies this`trace
      ensures trace == old(trace) + [Finished(d, result)]
    {
      trace := trace + [Finished(d, result)];
    }

    /** apply(event) */
    method Apply(event: NativeEvent)
      modifies this`trace
      ensures trace == old(trace) + [Reported(event)]
    {
      trace := trace + [Reported(event)];
    }
  }

  // ---------------------------------------------------------------------------
  // Ordering by display name
  // ---------------------------------------------------------------------------

  /** `a.compareTo(b) <= 0`: lexicographic order on characters, a prefix first. */
  predicate NameLeq(a: string, b: string)
  {
    if a == [] then true
    else if b == [] then false
    else if a[0] != b[0] then a[0] < b[0]
    else NameLeq(a[1..], b[1..])
  }

  lemma {:induction false} NameLeqTotal(a: string, b: string)
    ensures NameLeq(a, b) || NameLeq(b, a)
    decreases |a|
  {
    if a != [] && b != [] && a[0] == b[0] {
      NameLeqTotal(a[1..], b[1..]);
    }
  }

  lemma {:induction false} NameLeqTrans(a: string, b: string, c: string)
    requires NameLeq(a, b) && NameLeq(b, c)
    ensures NameLeq(a, c)
    decreases |a|
  {
    if a != [] && b != [] && c != [] && a[0] == b[0] && b[0] == c[0] {
      NameLeqTrans(a[1..], b[1..], c[1..]);
    }
  }

  function Name(d: Descriptor): string
  {
    DisplayName(d.kind)
  }

  /** Neighbours are in display-name order. */
  predicate Sorted(ds: seq<Descriptor>)
  {
    forall i | 0 <= i < |ds| - 1 :: NameLeq(Name(ds[i]), Name(ds[i + 1]))
  }

  /** In a sorted sequence every earlier descriptor's name is at most every later one's. */
  lemma {:induction false} SortedPairs(ds: seq<Descriptor>, i: nat, j: nat)
    requires Sorted(ds) && i <= j < |ds|
    ensures NameLeq(Name(ds[i]), Name(ds[j]))
    decreases j - i
  {
    if i == j {
      NameLeqTotal(Name(ds[i]), Name(ds[i]));
    } else {
      SortedPairs(ds, i + 1, j);
      NameLeqTrans(Name(ds[i]), Name(ds[i + 1]), Name(ds[j]));
    }
  }

  /** Inserts `x` after every element whose name is at most its own. */
  function Insert(x: Descriptor, xs: seq<Descriptor>): (r: seq<Descriptor>)
    ensures multiset(r) == multiset(xs) + multiset{x}
    ensures r[0] == x || (xs != [] && r[0] == xs[0])
  {
    if xs == [] then [x]
    else if NameLeq(Name(xs[0]), Name(x)) then
      assert xs == [xs[0]] + xs[1..];
      [xs[0]] + Insert(x, xs[1..])
    else [x] + xs
  }

  lemma {:induction false} InsertSorted(x: Descriptor, xs: seq<Descriptor>)
    requires Sorted(xs)
    ensures Sorted(Insert(x, xs))
    decreases |xs|
  {
    if xs != [] {
      if NameLeq(Name(xs[0]), Name(x)) {
        var rest := Insert(x, xs[1..]);
        InsertSorted(x, xs[1..]);
        assert NameLeq(Name(xs[0]), Name(rest[0])) by {
          if rest[0] != x { assert rest[0] == xs[1]; }
        }
        var r := [xs[0]] + rest;
        forall i | 0 <= i < |r| - 1 ensures NameLeq(Name(r[i]), Name(r[i + 1])) {
          if i > 0 { assert r[i] == rest[i - 1] && r[i + 1] == rest[i]; }
        }
      } else {
        NameLeqTotal(Name(xs[0]), Name(x));
      }
    }
  }

  /**
   * `stream.sorted(Comparator.comparing(TestDescriptor::getDisplayName))`: an insertion
   * sort by display name.
   */
  function SortByName(xs: seq<Descriptor>): (r: seq<Descriptor>)
    ensures Sorted(r)
    ensures multiset(r) == multiset(xs)
    ensures forall y | y in r :: y in xs
  {
    if xs == [] then []
    else
      var init := xs[..|xs| - 1];
      assert xs == init + [xs[|xs| - 1]];
      var sorted := SortByName(init);
      InsertSorted(xs[|xs| - 1], sorted);
      var r := Insert(xs[|xs| - 1], sorted);
      assert forall y | y in r :: y in multiset(r);
      r
  }

  // ---------------------------------------------------------------------------
  // Children of a container
  // ---------------------------------------------------------------------------

  /** The Test children, in child order (`tests` in executeSuite). */
  function TestChildren(cs: seq<Descriptor>): (r: seq<Descriptor>)
    ensures forall c | c in r :: c in cs && c.kind.TestNode?
  {
    if cs == [] then []
    else TestChildren(cs[..|cs| - 1]) + (if cs[|cs| - 1].kind.TestNode? then [cs[|cs| - 1]] else [])
  }

  /** The remaining children: Suite and FailedInit nodes (`subSuites` in executeSuite). */
  function OtherChildren(cs: seq<Descriptor>): (r: seq<Descriptor>)
    ensures forall c | c in r :: c in cs && !c.kind.TestNode?
  {
    if cs == [] then []
    else OtherChildren(cs[..|cs| - 1]) + (if cs[|cs| - 1].kind.TestNode? then [] else [cs[|cs| - 1]])
  }

  /**
   * Discovery states its Test children on shapes (`TestKids`), execution on descriptors;
   * on descriptors whose shapes record their kinds, the two filters agree.
   */
  lemma {:induction false} TestKidsOfChildren(cs: seq<Descriptor>)
    requires forall c | c in cs :: c.shape.kind == c.kind
    ensures TestKids(ShapesOf(cs)) == ShapesOf(TestChildren(cs))
    decreases |cs|
  {
    if cs != [] {
      var init, last := cs[..|cs| - 1], cs[|cs| - 1];
      TestKidsOfChildren(init);
      assert ShapesOf(cs)[..|cs| - 1] == ShapesOf(init);
      ShapesOfAppend(TestChildren(init), if last.kind.TestNode? then [last] else []);
    }
  }

  /** Every child is either a test of the batch or a sub-suite, as often as it is a child. */
  lemma {:induction false} ChildrenPartition(cs: seq<Descriptor>)
    ensures multiset(TestChildren(cs)) + multiset(OtherChildren(cs)) == multiset(cs)
  {
    if cs != [] {
      var init := cs[..|cs| - 1];
      ChildrenPartition(init);
      assert cs == init + [cs[|cs| - 1]];
    }
  }

  // ---------------------------------------------------------------------------
  // The batch run: runScalatests
  // ---------------------------------------------------------------------------

  const SelectedTag := "Selected"

  /** The test names of the requested test descriptors. */
  function RequestedNames(tests: seq<Descriptor>): (names: set<string>)
    requires forall t | t in tests :: t.kind.TestNode?
    ensures forall t | t in tests :: t.kind.testName in names
    ensures forall n | n in names :: exists t | t in tests :: t.kind.testName == n
  {
    set t | t in tests :: t.kind.testName
  }

  /** `desiredTests`: the suite's test names kept by the stream filter, one name at a time. */
  function SelectedNames(names: seq<string>, requested: set<string>, decode: string -> string): (sel: set<string>)
    ensures forall n | n in sel :: n in names
    ensures forall n | n in names :: n in sel <==> (n in requested || decode(n) in requested)
  {
    if names == [] then {}
    else
      var n := names[|names| - 1];
      SelectedNames(names[..|names| - 1], requested, decode) + (if n in requested || decode(n) in requested then {n} else {})
  }

  /** The filter handed to `Suite.run`: include tag "Selected", carried by exactly the selected names. */
  function SelectionFilter(s: Suite, tests: seq<Descriptor>, decode: string -> string): (f: Filter)
    requires forall t | t in tests :: t.kind.TestNode?
    ensures f.tagsToInclude == {SelectedTag}
    ensures f.dynaTags.Keys == {s.suiteId}
    ensures forall n :: n in f.dynaTags[s.suiteId] <==>
      n in s.testNames && exists t | t in tests :: t.kind.testName == n || t.kind.testName == decode(n)
    ensures forall n | n in f.dynaTags[s.suiteId] :: f.dynaTags[s.suiteId][n] == {SelectedTag}
  {
    var sel := SelectedNames(s.testNames, RequestedNames(tests), decode);
    Filter({SelectedTag}, map[s.suiteId := map n | n in sel :: {SelectedTag}])
  }

  /** The abort event reported for a throwable out of the native run, and whether it is rethrown. */
  datatype Abort = Abort(event: NativeEvent, rethrow: bool)

  /** The exception classes with a branch of their own in the classification. */
  predicate Handled(k: ExceptionKind)
  {
    k == InstantiationException || k == IllegalAccessException || k == TestFailedException || k == NoClassDefFoundError
  }

  /** The catch block of runScalatests; `ordinal` is what the run's tracker gives next. */
  function Classify(e: Throwable, s: Suite, isFatal: ExceptionKind -> bool, ordinal: nat): (a: Abort)
    ensures a.event.ordinal == ordinal
    ensures a.event.SuiteAborted? <==>
      e.kind == InstantiationException || e.kind == IllegalAccessException || e.kind == TestFailedException
    ensures a.event.SuiteAborted? ==>
      a.event.suiteName == s.suiteName && a.event.suiteId == s.suiteId && a.event.className == s.cls.name
    ensures a.event.RunAborted? ==> a.event.suite == s
    ensures e.kind == InstantiationException || e.kind == IllegalAccessException ==>
      a.event.cause == e && a.event.reason == CannotInstantiateSuite(e.message)
    ensures e.kind == TestFailedException ==>
      a.event.cause == e.cause.GetOrElse(e) && a.event.reason == BigProblems(e)
    ensures e.kind == NoClassDefFoundError ==> a.event.cause == e && a.event.reason == CannotLoadClass(e.message)
    ensures !Handled(e.kind) ==> a.event.cause == e && a.event.reason == BigProblems(e)
    ensures a.rethrow <==> !Handled(e.kind) && isFatal(e.kind)
  {
    match e.kind
    case InstantiationException =>
      Abort(SuiteAborted(ordinal, CannotInstantiateSuite(e.message), s.suiteName, s.suiteId, s.cls.name, e), false)
    case IllegalAccessException =>
      Abort(SuiteAborted(ordinal, CannotInstantiateSuite(e.message), s.suiteName, s.suiteId, s.cls.name, e), false)
    case TestFailedException =>
      Abort(SuiteAborted(ordinal, BigProblems(e), s.suiteName, s.suiteId, s.cls.name, e.cause.GetOrElse(e)), false)
    case NoClassDefFoundError =>
      Abort(RunAborted(ordinal, CannotLoadClass(e.message), e, s), false)
    case _ =>
      Abort(RunAborted(ordinal, BigProblems(e), e, s), isFatal(e.kind))
  }

  /** How runScalatests ends: it returns a flag, or it rethrows a fatal error. */
  datatype BatchOutcome = Ran(ok: bool) | Rethrown(error: Throwable)

  /** The events runScalatests reports itself and how it ends. */
  datatype Batch = Batch(events: seq<Event>, outcome: BatchOutcome)

  /** runScalatests(suite, tests) as a value. */
  function RunBatch(s: Suite, tests: seq<Descriptor>, rt: Runtime): (b: Batch)
    requires forall t | t in tests :: t.kind.TestNode?
    ensures b.outcome == Ran(true) <==> rt.run(s, SelectionFilter(s, tests, rt.decode)).Completes?
    ensures b.outcome == Ran(true) ==> b.events == []
    ensures b.outcome != Ran(true) ==> |b.events| == 1 && b.events[0].Reported?
    ensures b.outcome.Rethrown? ==>
      b.outcome.error == rt.run(s, SelectionFilter(s, tests, rt.decode)).error
      && rt.isFatal(b.outcome.error.kind) && b.events[0].event.RunAborted?
    ensures var f := SelectionFilter(s, tests, rt.decode);
      rt.run(s, f).Throws? ==>
        var a := Classify(rt.run(s, f).error, s, rt.isFatal, rt.ordinalAfter(s, f));
        b.events == [Reported(a.event)] && (b.outcome.Rethrown? <==> a.rethrow)
  {
    var f := SelectionFilter(s, tests, rt.decode);
    match rt.run(s, f)
    case Completes => Batch([], Ran(true))
    case Throws(e) =>
      var a := Classify(e, s, rt.isFatal, rt.ordinalAfter(s, f));
      Batch([Reported(a.event)], if a.rethrow then Rethrown(e) else Ran(false))
  }

  // ---------------------------------------------------------------------------
  // The execution of a tree, as a value
  // ---------------------------------------------------------------------------

  /**
   * A snapshot of the descriptor tree an execution walks: the children of every node
   * and a rank that decreases from a node to each of its children.
   */
  datatype Tree = Tree(kids: map<Descriptor, seq<Descriptor>>, rank: map<Descriptor, nat>)
  {
    ghost predicate Valid()
    {
      && (forall d | d in kids :: d in rank)
      && (forall d, c | d in kids && c in kids[d] :: c in kids && c in rank && rank[c] < rank[d])
      && (forall d | d in kids && d.kind.TestNode? :: d.suite != null && d.suite.kind.SuiteNode?)
    }
  }

  /** The snapshot agrees with the descriptors' children fields. */
  ghost predicate Mirrors(T: Tree)
    reads T.kids.Keys
  {
    forall d | d in T.kids :: d.children == T.kids[d]
  }

  /** The snapshot of a finished tree, ranked by subtree size. */
  ghost function TreeOf(S: set<Descriptor>): (T: Tree)
    reads S
    ensures T.kids.Keys == S
  {
    Tree(map d | d in S :: d.children, map d | d in S :: Size(d.shape))
  }

  /** Every finished tree built by discovery can be executed. */
  lemma ClosedTree(S: set<Descriptor>)
    requires Closed(S)
    ensures TreeOf(S).Valid() && Mirrors(TreeOf(S))
  {
    var T := TreeOf(S);
    forall d, c | d in T.kids && c in T.kids[d] ensures c in T.kids && c in T.rank && T.rank[c] < T.rank[d] {
      ChildIsSmaller(S, d, c);
    }
    forall d | d in T.kids && d.kind.TestNode? ensures d.suite != null && d.suite.kind.SuiteNode? {
      assert NodeOk(d, S);
    }
  }

  /** What an execution reads besides the tree: the executor's policy, the reporter's skip cause, the runtime. */
  datatype Context = Context(skipAfterFail: bool, skipCause: Option<Throwable>, rt: Runtime)

  predicate Skipping(ctx: Context)
  {
    ctx.skipAfterFail && ctx.skipCause.Some?
  }

  /** The events of a call and the throwable it ends with, if any. */
  datatype Outcome = Outcome(events: seq<Event>, escaped: Option<Throwable>)

  /** The catch block of executeTest: a throwable out of `o` becomes `Finished(d, failed(e))`. */
  function Caught(d: Descriptor, o: Outcome): seq<Event>
  {
    if o.escaped.Some? then o.events + [Finished(d, Failed(o.escaped.value))] else o.events
  }

  /** A batch as a call that may throw. */
  function Escapes(b: Batch): Outcome
  {
    Outcome(b.events, if b.outcome.Rethrown? then Some(b.outcome.error) else None)
  }

  /** The ClassCastException raised by casting the engine descriptor to a suite descriptor. */
  const CastFailure := Throwable(ClassCastException, "", None)

  /** The sub-suites among `children`, in the order executeSuite runs them. */
  function SubSuites(children: seq<Descriptor>): (subs: seq<Descriptor>)
    ensures forall c | c in subs :: c in children && !c.kind.TestNode?
  {
    SortByName(OtherChildren(children))
  }

  /** The tests among `children`, in the order the batch requests them. */
  function BatchTests(children: seq<Descriptor>): (tests: seq<Descriptor>)
    ensures forall t | t in tests :: t in children && t.kind.TestNode?
  {
    SortByName(TestChildren(children))
  }

  /** The events of executeTest(d). */
  ghost function ExecTest(d: Descriptor, T: Tree, ctx: Context): seq<Event>
    requires T.Valid() && d in T.kids
    decreases T.rank[d], 2
  {
    if Skipping(ctx) then [Finished(d, Aborted(ctx.skipCause.value))]
    else match d.kind
      case Engine => Caught(d, ExecSuite(d, T, ctx))
      case SuiteNode(_, _, instance) =>
        if T.kids[d] == [] then
          match ctx.rt.execute(instance)
          case Completes => []
          case Throws(e) => [Finished(d, Failed(e))]
        else Caught(d, ExecSuite(d, T, ctx))
      case TestNode(_, _) => Caught(d, Escapes(RunBatch(d.suite.kind.instance, [d], ctx.rt)))
      case FailedInit(cause, _, _) => [Started(d), Finished(d, Failed(cause))]
  }

  /** The events of executeSuite(d) and the throwable it ends with. */
  ghost function ExecSuite(d: Descriptor, T: Tree, ctx: Context): Outcome
    requires T.Valid() && d in T.kids
    decreases T.rank[d], 1
  {
    var subs := SubSuites(T.kids[d]);
    var tail := SuiteTail(d, T.kids[d], ctx.rt);
    Outcome([Started(d)] + ExecSubs(d, subs, T, ctx, |subs|) + tail.events, tail.escaped)
  }

  /**
   * The end of executeSuite(d), after the sub-suites: the batch of the Test children
   * and the success event, which is reported only when the batch returned true.
   */
  function SuiteTail(d: Descriptor, children: seq<Descriptor>, rt: Runtime): (t: Outcome)
    ensures (t.events != [] && t.events[|t.events| - 1] == Finished(d, Successful)) <==>
      TestChildren(children) == []
      || (d.kind.SuiteNode? && RunBatch(d.kind.instance, BatchTests(children), rt).outcome == Ran(true))
    ensures t.escaped.Some? ==>
      if d.kind.SuiteNode?
      then RunBatch(d.kind.instance, BatchTests(children), rt).outcome == Rethrown(t.escaped.value)
      else TestChildren(children) != [] && t.escaped.value == CastFailure
  {
    if TestChildren(children) == [] then Outcome([Finished(d, Successful)], None)
    else if !d.kind.SuiteNode? then Outcome([], Some(CastFailure))
    else
      var b := RunBatch(d.kind.instance, BatchTests(children), rt);
      if b.outcome == Ran(true) then Outcome(b.events + [Finished(d, Successful)], None)
      else Escapes(b)
  }

  /** The events of executeTest on the first `k` of the sub-suites `subs` of `d`, one after the other. */
  ghost function ExecSubs(d: Descriptor, subs: seq<Descriptor>, T: Tree, ctx: Context, k: nat): seq<Event>
    requires T.Valid() && d in T.kids && k <= |subs|
    requires forall c | c in subs :: c in T.kids[d]
    decreases T.rank[d], 0, k
  {
    if k == 0 then []
    else ExecSubs(d, subs, T, ctx, k - 1) + ExecTest(subs[k - 1], T, ctx)
  }

  // ---------------------------------------------------------------------------
  // The executor
  // ---------------------------------------------------------------------------

  class Executor {
    const skipAfterFail: bool

    constructor ()
      ensures !skipAfterFail
    {
      skipAfterFail := false;
    }

    constructor WithSkipAfterFail(skipAfterFail: bool)
      ensures this.skipAfterFail == skipAfterFail
    {
      this.skipAfterFail := skipAfterFail;
    }

    /**
     * executeTest(test, reporter).  Every throwable of the body is caught and reported
     * as `Finished(test, failed(e))`; the method itself never throws.
     */
    method ExecuteTest(test: Descriptor, reporter: Reporter, rt: Runtime, ghost T: Tree)
      requires T.Valid() && test in T.kids && Mirrors(T)
      modifies reporter`trace
      decreases T.rank[test], 3
      ensures reporter.trace == old(reporter.trace) + ExecTest(test, T, Context(skipAfterFail, reporter.skipWithCause, rt))
    {
      if skipAfterFail && reporter.skipWithCause.Some? {
        reporter.ExecutionFinished(test, Aborted(reporter.skipWithCause.value));
        return;
      }
      match test.kind {
        case Engine =>
          ExecuteContainer(test, reporter, rt, T);
        case SuiteNode(_, _, instance) =>
          if test.children == [] {
            var outcome := rt.execute(instance);
            if outcome.Throws? {
              reporter.ExecutionFinished(test, Failed(outcome.error));
            }
          } else {
            ExecuteContainer(test, reporter, rt, T);
          }
        case TestNode(_, _) =>
          var _, rethrown := RunScalatests(test.suite, [test], reporter, rt);
          if rethrown.Some? {
            reporter.ExecutionFinished(test, Failed(rethrown.value));
          }
        case FailedInit(cause, _, _) =>
          reporter.ExecutionStarted(test);
          reporter.ExecutionFinished(test, Failed(cause));
      }
    }

    /** The Engine and non-empty Suite branches of executeTest: executeSuite inside the catch block. */
    method ExecuteContainer(test: Descriptor, reporter: Reporter, rt: Runtime, ghost T: Tree)
      requires T.Valid() && test in T.kids && Mirrors(T)
      modifies reporter`trace
      decreases T.rank[test], 2
      ensures reporter.trace == old(reporter.trace) + Caught(test, ExecSuite(test, T, Context(skipAfterFail, reporter.skipWithCause, rt)))
    {
      ghost var ctx := Context(skipAfterFail, reporter.skipWithCause, rt);
      var escaped := ExecuteSuite(test, reporter, rt, T);
      if escaped.Some? {
        reporter.ExecutionFinished(test, Failed(escaped.value));
        AppendAssoc(old(reporter.trace), ExecSuite(test, T, ctx).events, [Finished(test, Failed(escaped.value))]);
      }
    }

    /** executeSuite(test, reporter); a throwable it raises is returned in `escaped`. */
    method ExecuteSuite(test: Descriptor, reporter: Reporter, rt: Runtime, ghost T: Tree)
      returns (escaped: Option<Throwable>)
      requires T.Valid() && test in T.kids && Mirrors(T)
      modifies reporter`trace
      decreases T.rank[test], 1
      ensures reporter.trace == old(reporter.trace) + ExecSuite(test, T, Context(skipAfterFail, reporter.skipWithCause, rt)).events
      ensures escaped == ExecSuite(test, T, Context(skipAfterFail, reporter.skipWithCause, rt)).escaped
    {
      ghost var ctx := Context(skipAfterFail, reporter.skipWithCause, rt);
      reporter.ExecutionStarted(test);
      var children := test.children;
      var subSuites := SortByName(OtherChildren(children));
      ExecuteSubSuites(test, subSuites, reporter, rt, T);
      ghost var head := [Started(test)] + ExecSubs(test, subSuites, T, ctx, |subSuites|);
      AppendAssoc(old(reporter.trace), [Started(test)], ExecSubs(test, subSuites, T, ctx, |subSuites|));
      escaped := FinishSuite(test, children, reporter, rt);
      AppendAssoc(old(reporter.trace), head, SuiteTail(test, children, rt).events);
    }

    /** The end of executeSuite: the batch of the Test children, then the success event if it returned true. */
    method FinishSuite(test: Descriptor, children: seq<Descriptor>, reporter: Reporter, rt: Runtime)
      returns (escaped: Option<Throwable>)
      modifies reporter`trace
      ensures reporter.trace == old(reporter.trace) + SuiteTail(test, children, rt).events
      ensures escaped == SuiteTail(test, children, rt).escaped
    {
      var tests := TestChildren(children);
      var suitExecutedOk := true;
      if tests != [] {
        if !test.kind.SuiteNode? {
          return Some(CastFailure);
        }
        var rethrown;
        suitExecutedOk, rethrown := RunScalatests(test, SortByName(tests), reporter, rt);
        if rethrown.Some? {
          return rethrown;
        }
      }
      if suitExecutedOk {
        reporter.ExecutionFinished(test, Successful);
      }
      return None;
    }

    /** The `forEach` of executeSuite: executeTest on every sub-suite, in the given order. */
    method ExecuteSubSuites(test: Descriptor, subSuites: seq<Descriptor>, reporter: Reporter, rt: Runtime, ghost T: Tree)
      requires T.Valid() && test in T.kids && Mirrors(T)
      requires forall c | c in subSuites :: c in T.kids[test]
      modifies reporter`trace
      decreases T.rank[test], 0
      ensures reporter.trace == old(reporter.trace) +
        ExecSubs(test, subSuites, T, Context(skipAfterFail, reporter.skipWithCause, rt), |subSuites|)
    {
      ghost var ctx := Context(skipAfterFail, reporter.skipWithCause, rt);
      var i := 0;
      while i < |subSuites|
        invariant i <= |subSuites|
        invariant reporter.trace == old(reporter.trace) + ExecSubs(test, subSuites, T, ctx, i)
      {
        ExecuteTest(subSuites[i], reporter, rt, T);
        AppendAssoc(old(reporter.trace), ExecSubs(test, subSuites, T, ctx, i), ExecTest(subSuites[i], T, ctx));
        i := i + 1;
      }
    }

    /**
     * runScalatests(containingSuite, tests, reporter): returns whether the native run
     * completed, or rethrows (in `rethrown`) a fatal error after reporting it.
     */
    method RunScalatests(containingSuite: Descriptor, tests: seq<Descriptor>, reporter: Reporter, rt: Runtime)
      returns (ok: bool, rethrown: Option<Throwable>)
      requires containingSuite.kind.SuiteNode?
      requires forall t | t in tests :: t.kind.TestNode?
      modifies reporter`trace
      ensures reporter.trace == old(reporter.trace) + RunBatch(containingSuite.kind.instance, tests, rt).events
      ensures rethrown.None? ==> RunBatch(containingSuite.kind.instance, tests, rt).outcome == Ran(ok)
      ensures rethrown.Some? ==> RunBatch(containingSuite.kind.instance, tests, rt).outcome == Rethrown(rethrown.value)
    {
      var scalasuite := containingSuite.kind.instance;
      var filter := SelectionFilter(scalasuite, tests, rt.decode);
      var status := rt.run(scalasuite, filter);
      if status.Completes? {
        return true, None;
      }
      var abort := Classify(status.error, scalasuite, rt.isFatal, rt.ordinalAfter(scalasuite, filter));
      reporter.Apply(abort.event);
      if abort.rethrow {
        return false, Some(status.error);
      }
      return false, None;
    }
  }
}
