/**
 * What an execution of a descriptor tree reports, stated over the tree snapshot:
 * which nodes the events are about, how a container's events are bracketed, when a
 * container reports success, in which order its children run, and what a batch
 * selects.
 */
module ExecutionFacts {
  import opened Options
  import opened ScalaTest
  import opened Descriptors
  import opened Execution

  // ---------------------------------------------------------------------------
  // Subtrees
  // ---------------------------------------------------------------------------

  /** `d` and every node below it. */
  ghost function Subtree(d: Descriptor, T: Tree): set<Descriptor>
    requires T.Valid() && d in T.kids
    decreases T.rank[d], 1
  {
    {d} + Below(d, T, |T.kids[d]|)
  }

  /** The subtrees of the first `k` children of `d`. */
  ghost function Below(d: Descriptor, T: Tree, k: nat): set<Descriptor>
    requires T.Valid() && d in T.kids && k <= |T.kids[d]|
    decreases T.rank[d], 0, k
  {
    if k == 0 then {} else Below(d, T, k - 1) + Subtree(T.kids[d][k - 1], T)
  }

  lemma {:induction false} SubtreeRanks(d: Descriptor, T: Tree)
    requires T.Valid() && d in T.kids
    ensures forall x | x in Subtree(d, T) :: x in T.kids && T.rank[x] <= T.rank[d]
    decreases T.rank[d], 1
  {
    BelowRanks(d, T, |T.kids[d]|);
  }

  lemma {:induction false} BelowRanks(d: Descriptor, T: Tree, k: nat)
    requires T.Valid() && d in T.kids && k <= |T.kids[d]|
    ensures forall x | x in Below(d, T, k) :: x in T.kids && T.rank[x] < T.rank[d]
    decreases T.rank[d], 0, k
  {
    if k > 0 {
      BelowRanks(d, T, k - 1);
      SubtreeRanks(T.kids[d][k - 1], T);
    }
  }

  /** The subtree of every child lies below its parent. */
  lemma {:induction false} BelowHasChild(d: Descriptor, T: Tree, k: nat, m: nat)
    requires T.Valid() && d in T.kids && m < k <= |T.kids[d]|
    ensures Subtree(T.kids[d][m], T) <= Below(d, T, k)
    decreases k
  {
    if m < k - 1 {
      BelowHasChild(d, T, k - 1, m);
    }
  }

  /** A node is below itself in no way: it is not in the subtree of any of its children. */
  lemma NotBelowItself(d: Descriptor, T: Tree)
    requires T.Valid() && d in T.kids
    ensures d !in Below(d, T, |T.kids[d]|)
  {
    BelowRanks(d, T, |T.kids[d]|);
  }

  // ---------------------------------------------------------------------------
  // Which nodes the events are about
  // ---------------------------------------------------------------------------

  /** executeTest(d) notifies the listener about `d` and the nodes below it, and no others. */
  lemma {:induction false} TestEventsInSubtree(d: Descriptor, T: Tree, ctx: Context)
    requires T.Valid() && d in T.kids
    ensures forall ev | ev in ExecTest(d, T, ctx) && !ev.Reported? :: ev.node in Subtree(d, T)
    decreases T.rank[d], 2
  {
    if !Skipping(ctx) && IsContainer(d, T) {
      ContainerEventsInSubtree(d, T, ctx);
    }
  }

  lemma {:induction false} ContainerEventsInSubtree(d: Descriptor, T: Tree, ctx: Context)
    requires T.Valid() && d in T.kids && !Skipping(ctx) && IsContainer(d, T)
    ensures forall ev | ev in ExecTest(d, T, ctx) && !ev.Reported? :: ev.node in Subtree(d, T)
    decreases T.rank[d], 1
  {
    var subs := SubSuites(T.kids[d]);
    ContainerShape(d, T, ctx);
    SubsEventsBelow(d, subs, T, ctx, |subs|);
    ClosingShape(d, T.kids[d], ctx.rt);
    OnlyLastAbout(d, Closing(d, T.kids[d], ctx.rt));
    EventsWithin(d, ExecSubs(d, subs, T, ctx, |subs|), Closing(d, T.kids[d], ctx.rt), Below(d, T, |T.kids[d]|));
  }

  /** Native events, then possibly one event about `d`: every listener event in it is about `d`. */
  lemma OnlyLastAbout(d: Descriptor, r: seq<Event>)
    requires 1 <= |r| && forall i | 0 <= i < |r| - 1 :: r[i].Reported?
    requires !r[|r| - 1].Reported? ==> r[|r| - 1].node == d
    ensures forall ev | ev in r && !ev.Reported? :: ev.node == d
  {
  }

  /** The nodes `[Started(d)] + sub + r` is about, from those of its parts. */
  lemma EventsWithin(d: Descriptor, sub: seq<Event>, r: seq<Event>, below: set<Descriptor>)
    requires forall ev | ev in sub && !ev.Reported? :: ev.node in below
    requires forall ev | ev in r && !ev.Reported? :: ev.node == d
    ensures forall ev | ev in [Started(d)] + sub + r && !ev.Reported? :: ev.node in {d} + below
  {
  }

  /** The sub-suites' events are about nodes strictly below `d`. */
  lemma {:induction false} SubsEventsBelow(d: Descriptor, subs: seq<Descriptor>, T: Tree, ctx: Context, k: nat)
    requires T.Valid() && d in T.kids && k <= |subs|
    requires forall c | c in subs :: c in T.kids[d]
    ensures forall ev | ev in ExecSubs(d, subs, T, ctx, k) && !ev.Reported? :: ev.node in Below(d, T, |T.kids[d]|)
    decreases T.rank[d], 0, k
  {
    if k > 0 {
      SubsEventsBelow(d, subs, T, ctx, k - 1);
      var c := subs[k - 1];
      assert c in subs;
      TestEventsInSubtree(c, T, ctx);
      var m :| 0 <= m < |T.kids[d]| && T.kids[d][m] == c;
      BelowHasChild(d, T, |T.kids[d]|, m);
    }
  }

  /** The sub-suites' events never mention the container itself. */
  lemma SubsAvoidParent(d: Descriptor, T: Tree, ctx: Context)
    requires T.Valid() && d in T.kids
    ensures var subs := SubSuites(T.kids[d]);
      forall ev | ev in ExecSubs(d, subs, T, ctx, |subs|) :: !About(ev, d)
  {
    var subs := SubSuites(T.kids[d]);
    SubsEventsBelow(d, subs, T, ctx, |subs|);
    NotBelowItself(d, T);
  }

  // ---------------------------------------------------------------------------
  // Single nodes
  // ---------------------------------------------------------------------------

  /** Under the skip policy a node gets a single aborted result: no start, no children, no run. */
  lemma SkipOnlyAborts(d: Descriptor, T: Tree, ctx: Context)
    requires T.Valid() && d in T.kids && Skipping(ctx)
    ensures ExecTest(d, T, ctx) == [Finished(d, Aborted(ctx.skipCause.value))]
  {
  }

  /** A FailedInit node is started and then fails with the cause recorded at discovery. */
  lemma FailedInitEvents(d: Descriptor, T: Tree, ctx: Context)
    requires T.Valid() && d in T.kids && !Skipping(ctx) && d.kind.FailedInit?
    ensures ExecTest(d, T, ctx) == [Started(d), Finished(d, Failed(d.kind.cause))]
  {
  }

  /** A childless suite runs natively with no listener events, unless that run throws. */
  lemma ChildlessSuiteSilent(d: Descriptor, T: Tree, ctx: Context)
    requires T.Valid() && d in T.kids && !Skipping(ctx) && d.kind.SuiteNode? && T.kids[d] == []
    ensures ctx.rt.execute(d.kind.instance).Completes? ==> ExecTest(d, T, ctx) == []
    ensures ctx.rt.execute(d.kind.instance).Throws? ==>
      ExecTest(d, T, ctx) == [Finished(d, Failed(ctx.rt.execute(d.kind.instance).error))]
  {
  }

  /**
   * A Test node reached directly runs as a batch of its own in its containing suite;
   * a rethrown fatal error becomes its failed result.
   */
  lemma DirectTestEvents(d: Descriptor, T: Tree, ctx: Context)
    requires T.Valid() && d in T.kids && !Skipping(ctx) && d.kind.TestNode?
    ensures d.suite != null && d.suite.kind.SuiteNode?
    ensures var b := RunBatch(d.suite.kind.instance, [d], ctx.rt);
      && (b.outcome.Ran? ==> ExecTest(d, T, ctx) == b.events)
      && (b.outcome.Rethrown? ==> ExecTest(d, T, ctx) == b.events + [Finished(d, Failed(b.outcome.error))])
  {
  }

  // ---------------------------------------------------------------------------
  // Containers
  // ---------------------------------------------------------------------------

  /** A node that executeTest hands to executeSuite. */
  predicate IsContainer(d: Descriptor, T: Tree)
    requires d in T.kids
  {
    d.kind.Engine? || (d.kind.SuiteNode? && T.kids[d] != [])
  }

  /** What the batch of the Test children of the suite `d` returns or rethrows. */
  function BatchOf(d: Descriptor, children: seq<Descriptor>, rt: Runtime): BatchOutcome
    requires d.kind.SuiteNode?
  {
    RunBatch(d.kind.instance, BatchTests(children), rt).outcome
  }

  /** The batch of `d`'s Test children ran to completion. */
  predicate BatchOk(d: Descriptor, children: seq<Descriptor>, rt: Runtime)
  {
    d.kind.SuiteNode? && BatchOf(d, children, rt) == Ran(true)
  }

  function Last<X>(s: seq<X>): X
    requires |s| >= 1
  {
    s[|s| - 1]
  }

  /** The events that close a container: what is left of executeSuite after the sub-suites, then the catch. */
  function Closing(d: Descriptor, children: seq<Descriptor>, rt: Runtime): seq<Event>
  {
    Caught(d, SuiteTail(d, children, rt))
  }

  /** A container's events are its start, its sub-suites' events and its closing events. */
  lemma ContainerShape(d: Descriptor, T: Tree, ctx: Context)
    requires T.Valid() && d in T.kids && !Skipping(ctx) && IsContainer(d, T)
    ensures var subs := SubSuites(T.kids[d]);
      ExecTest(d, T, ctx) == [Started(d)] + ExecSubs(d, subs, T, ctx, |subs|) + Closing(d, T.kids[d], ctx.rt)
  {
    var subs := SubSuites(T.kids[d]);
    var tail := SuiteTail(d, T.kids[d], ctx.rt);
    var head := [Started(d)] + ExecSubs(d, subs, T, ctx, |subs|);
    if tail.escaped.Some? {
      AppendAssoc(head, tail.events, [Finished(d, Failed(tail.escaped.value))]);
    }
  }

  /**
   * The closing events: at most one native abort event, then possibly an event about
   * the container, which is then its result.
   */
  lemma ClosingShape(d: Descriptor, children: seq<Descriptor>, rt: Runtime)
    ensures var r := Closing(d, children, rt);
      && 1 <= |r| <= 2
      && (forall i | 0 <= i < |r| - 1 :: r[i].Reported?)
      && (!r[|r| - 1].Reported? ==> r[|r| - 1].Finished? && r[|r| - 1].node == d)
  {
    if TestChildren(children) != [] && d.kind.SuiteNode? {
      var b := RunBatch(d.kind.instance, BatchTests(children), rt);
      if b.outcome.Rethrown? {
        assert Closing(d, children, rt) == b.events + [Finished(d, Failed(b.outcome.error))];
      } else {
        assert Closing(d, children, rt) == SuiteTail(d, children, rt).events;
      }
    }
  }

  /**
   * The last closing event: a success when there are no Test children or the batch
   * returned true, the ClassCastException for an engine with Test children, the
   * rethrown error for a fatal batch, and the batch's abort event when it returned false.
   */
  lemma ClosingLast(d: Descriptor, children: seq<Descriptor>, rt: Runtime)
    ensures var r := Closing(d, children, rt);
      var tests := TestChildren(children);
      && |r| >= 1
      && (tests == [] ==> r == [Finished(d, Successful)])
      && (tests == [] ==> Last(r) == Finished(d, Successful))
      && (tests != [] && d.kind.Engine? ==> Last(r) == Finished(d, Failed(CastFailure)))
      && (tests != [] && d.kind.SuiteNode? ==>
            && (BatchOf(d, children, rt) == Ran(true) ==> Last(r) == Finished(d, Successful))
            && (BatchOf(d, children, rt).Rethrown? ==> Last(r) == Finished(d, Failed(BatchOf(d, children, rt).error)))
            && (BatchOf(d, children, rt) == Ran(false) ==> Last(r).Reported?))
  {
  }

  /** In `[Started(d)] + sub + r`, `d` is mentioned only first and, possibly, last. */
  lemma Bracketed(d: Descriptor, sub: seq<Event>, r: seq<Event>)
    requires forall ev | ev in sub :: !About(ev, d)
    requires 1 <= |r| && forall i | 0 <= i < |r| - 1 :: r[i].Reported?
    ensures var evs := [Started(d)] + sub + r;
      && |evs| >= 2 && evs[0] == Started(d)
      && (forall i | 0 < i < |evs| - 1 :: !About(evs[i], d))
  {
    var evs := [Started(d)] + sub + r;
    forall i | 0 < i < |evs| - 1 ensures !About(evs[i], d) {
      if i <= |sub| {
        assert evs[i] == sub[i - 1];
      } else {
        assert evs[i] == r[i - 1 - |sub|];
      }
    }
  }

  /** A sequence that mentions `d` only first and last holds a result for `d` only as its last event. */
  lemma OnlyLastFinishes(d: Descriptor, evs: seq<Event>)
    requires |evs| >= 2 && evs[0] == Started(d)
    requires forall i | 0 < i < |evs| - 1 :: !About(evs[i], d)
    ensures forall r :: Finished(d, r) in evs <==> evs[|evs| - 1] == Finished(d, r)
  {
    forall r | Finished(d, r) in evs ensures evs[|evs| - 1] == Finished(d, r) {
      var i :| 0 <= i < |evs| && evs[i] == Finished(d, r);
      assert About(evs[i], d);
    }
  }

  /**
   * A container is started first, is not mentioned again until the last event, and the
   * last event, if it is about the container, is its result.
   */
  lemma ContainerBracket(d: Descriptor, T: Tree, ctx: Context)
    requires T.Valid() && d in T.kids && !Skipping(ctx) && IsContainer(d, T)
    ensures var evs := ExecTest(d, T, ctx);
      && |evs| >= 2 && evs[0] == Started(d)
      && (forall i | 0 < i < |evs| - 1 :: !About(evs[i], d))
      && (About(evs[|evs| - 1], d) ==> evs[|evs| - 1].Finished?)
  {
    var subs := SubSuites(T.kids[d]);
    ContainerShape(d, T, ctx);
    SubsAvoidParent(d, T, ctx);
    ClosingShape(d, T.kids[d], ctx.rt);
    Bracketed(d, ExecSubs(d, subs, T, ctx, |subs|), Closing(d, T.kids[d], ctx.rt));
  }

  /** A container's last event is its last closing event. */
  lemma ContainerLast(d: Descriptor, T: Tree, ctx: Context)
    requires T.Valid() && d in T.kids && !Skipping(ctx) && IsContainer(d, T)
    ensures |ExecTest(d, T, ctx)| >= 2 && |Closing(d, T.kids[d], ctx.rt)| >= 1
    ensures Last(ExecTest(d, T, ctx)) == Last(Closing(d, T.kids[d], ctx.rt))
  {
    var subs := SubSuites(T.kids[d]);
    ContainerShape(d, T, ctx);
    ClosingShape(d, T.kids[d], ctx.rt);
    LastOf([Started(d)] + ExecSubs(d, subs, T, ctx, |subs|), Closing(d, T.kids[d], ctx.rt));
  }

  lemma LastOf<X>(a: seq<X>, r: seq<X>)
    requires |a| >= 1 && |r| >= 1
    ensures |a + r| >= 2 && Last(a + r) == Last(r)
  {
  }

  /**
   * How a container's execution ends: with its success when it has no Test children or
   * its batch returned true; with a failure for the ClassCastException of an engine
   * with Test children or for a fatal error rethrown by the batch; and, when the batch
   * returned false, with the abort event `Classify` gives for the container's own suite
   * and the throwable out of its run.
   */
  lemma ContainerEnd(d: Descriptor, T: Tree, ctx: Context)
    requires T.Valid() && d in T.kids && !Skipping(ctx) && IsContainer(d, T)
    ensures |ExecTest(d, T, ctx)| >= 2
    ensures var last := Last(ExecTest(d, T, ctx));
      var tests := TestChildren(T.kids[d]);
      && (tests == [] ==> last == Finished(d, Successful))
      && (tests != [] && d.kind.Engine? ==> last == Finished(d, Failed(CastFailure)))
      && (tests != [] && d.kind.SuiteNode? ==>
            var b := BatchOf(d, T.kids[d], ctx.rt);
            && (b == Ran(true) ==> last == Finished(d, Successful))
            && (b.Rethrown? ==> last == Finished(d, Failed(b.error)))
            && (b == Ran(false) ==>
                  var s := d.kind.instance;
                  var f := SelectionFilter(s, BatchTests(T.kids[d]), ctx.rt.decode);
                  last == Reported(Classify(ctx.rt.run(s, f).error, s, ctx.rt.isFatal, ctx.rt.ordinalAfter(s, f)).event)))
  {
    ContainerLast(d, T, ctx);
    ClosingLast(d, T.kids[d], ctx.rt);
  }

  /**
   * A container reports `Finished(successful)` if and only if it has no Test children
   * or the batch of its Test children returned true.
   */
  lemma ContainerSuccess(d: Descriptor, T: Tree, ctx: Context)
    requires T.Valid() && d in T.kids && !Skipping(ctx) && IsContainer(d, T)
    ensures Finished(d, Successful) in ExecTest(d, T, ctx) <==>
      TestChildren(T.kids[d]) == [] || BatchOk(d, T.kids[d], ctx.rt)
  {
    ContainerBracket(d, T, ctx);
    ContainerEnd(d, T, ctx);
    OnlyLastFinishes(d, ExecTest(d, T, ctx));
  }

  /**
   * The executor itself reports a result for a container exactly when its batch did not
   * return false. After a false batch the only event about the container is the abort
   * event handed to the reporter's `apply`.
   */
  lemma ContainerFinished(d: Descriptor, T: Tree, ctx: Context)
    requires T.Valid() && d in T.kids && !Skipping(ctx) && IsContainer(d, T)
    ensures (exists r :: Finished(d, r) in ExecTest(d, T, ctx)) <==>
      !(TestChildren(T.kids[d]) != [] && d.kind.SuiteNode? && BatchOf(d, T.kids[d], ctx.rt) == Ran(false))
  {
    var evs := ExecTest(d, T, ctx);
    ContainerBracket(d, T, ctx);
    ContainerEnd(d, T, ctx);
    OnlyLastFinishes(d, evs);
    var last := evs[|evs| - 1];
    if last.Finished? {
      assert Finished(d, last.result) in evs;
    }
  }

  // ---------------------------------------------------------------------------
  // Order of the children
  // ---------------------------------------------------------------------------

  /**
   * The sub-suites run once for each time they are children, in ascending display-name
   * order; the batch requests every Test child, also in ascending display-name order.
   */
  lemma ChildOrder(children: seq<Descriptor>)
    ensures var subs := SubSuites(children);
      var tests := BatchTests(children);
      && multiset(subs) + multiset(tests) == multiset(children)
      && (forall i, j | 0 <= i < j < |subs| :: NameLeq(Name(subs[i]), Name(subs[j])))
      && (forall i, j | 0 <= i < j < |tests| :: NameLeq(Name(tests[i]), Name(tests[j])))
  {
    ChildrenPartition(children);
    var subs := SubSuites(children);
    var tests := BatchTests(children);
    forall i, j | 0 <= i < j < |subs| ensures NameLeq(Name(subs[i]), Name(subs[j])) {
      SortedPairs(subs, i, j);
    }
    forall i, j | 0 <= i < j < |tests| ensures NameLeq(Name(tests[i]), Name(tests[j])) {
      SortedPairs(tests, i, j);
    }
  }

  // ---------------------------------------------------------------------------
  // Selection
  // ---------------------------------------------------------------------------

  /** Requesting tests named after all of a suite's test names selects every one of them. */
  lemma SelectsAll(s: Suite, tests: seq<Descriptor>, decode: string -> string)
    requires forall t | t in tests :: t.kind.TestNode?
    requires forall n | n in s.testNames :: exists t | t in tests :: t.kind.testName == n
    ensures SelectionFilter(s, tests, decode).dynaTags[s.suiteId].Keys == set n | n in s.testNames
  {
  }

  /** A single requested test selects its own name, if the suite reports it, and names decoding to it. */
  lemma SelectsOne(s: Suite, t: Descriptor, decode: string -> string, n: string)
    requires t.kind.TestNode?
    ensures n in SelectionFilter(s, [t], decode).dynaTags[s.suiteId] <==>
      n in s.testNames && (n == t.kind.testName || decode(n) == t.kind.testName)
  {
  }

  // ---------------------------------------------------------------------------
  // Discovered trees
  // ---------------------------------------------------------------------------

  /**
   * The root of a tree built by discovery has no Test children, so executing it
   * starts it and ends with its success, whatever its suites do.
   */
  lemma DiscoveredRootSucceeds(engine: Descriptor, S: set<Descriptor>, ctx: Context)
    requires Closed(S) && engine in S && engine.kind.Engine? && !Skipping(ctx)
    requires forall i | 0 <= i < |engine.children| :: !engine.children[i].kind.TestNode?
    ensures TreeOf(S).Valid()
    ensures var evs := ExecTest(engine, TreeOf(S), ctx);
      |evs| >= 2 && evs[0] == Started(engine) && evs[|evs| - 1] == Finished(engine, Successful)
  {
    ClosedTree(S);
    var T := TreeOf(S);
    assert T.kids[engine] == engine.children;
    NoTestChildren(engine.children);
    ContainerBracket(engine, T, ctx);
    ContainerEnd(engine, T, ctx);
  }

  /** A list of children none of which is a Test node has no Test children to batch. */
  lemma NoTestChildren(children: seq<Descriptor>)
    requires forall i | 0 <= i < |children| :: !children[i].kind.TestNode?
    ensures TestChildren(children) == []
  {
    if TestChildren(children) != [] {
      assert TestChildren(children)[0] in TestChildren(children);
    }
  }
}
