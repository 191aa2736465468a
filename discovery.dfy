/**
 * The tree builder (Discovery.java).
 *
 * `Discover`, `AddSuite`, `AddTests`, `AddFailedInit` and `LinkChild` build the
 * descriptor tree in place, as the Java methods do.  Each is proved against the
 * pure functions `ClassShapes`, `AddSuiteSpec`, `NestedShapes` and `TestShapes`,
 * which say what subtree every call links; the lemmas at the end state the
 * properties of those functions.
 */
module Discovery {
  import opened Options
  import opened ScalaTest
  import opened Descriptors

  function Min(a: nat, b: nat): nat { if a <= b then a else b }

  // ---------------------------------------------------------------------------
  // Tags

  /** getTags: a test's tags are its exact-name entry in the suite's tag map, else none. */
  function GetTags(s: Suite, testName: string): (tags: set<string>)
    ensures forall t :: t in tags <==> testName in s.tags && t in s.tags[testName]
  {
    if testName in s.tags then s.tags[testName] else {}
  }

  /** extractTags: one tag per class annotation whose type carries @TagAnnotation, named by that type. */
  function ExtractTags(c: SuiteClass): (tags: set<string>)
    ensures forall i :: 0 <= i < |c.annotations| && c.annotations[i].isTagAnnotation ==>
      c.annotations[i].typeName in tags
    ensures forall t :: t in tags ==>
      exists i :: 0 <= i < |c.annotations| && c.annotations[i].isTagAnnotation && c.annotations[i].typeName == t
  {
    set i | 0 <= i < |c.annotations| && c.annotations[i].isTagAnnotation :: c.annotations[i].typeName
  }

  /** The suite reports every test name once, as the Set that testNames returns does. */
  predicate DistinctNames(s: Suite)
  {
    forall i, j :: 0 <= i < j < |s.testNames| ==> s.testNames[i] != s.testNames[j]
  }

  // ---------------------------------------------------------------------------
  // What each call links: the specification

  /** The FailedInit node recorded for class `c` and cause `e`. */
  function FailedShape(e: Throwable, c: SuiteClass): Shape
  {
    Shape(FailedInit(e, c.name, ExtractTags(c)), [])
  }

  /** The number of test descriptors addTests links before the instance throws, if it does. */
  function TestsLinked(s: Suite): nat
  {
    if s.fault.ThrowsAfterTests? then Min(s.fault.linked, |s.testNames|) else |s.testNames|
  }

  /** The Test nodes for the first `k` test names, in the suite's iteration order. */
  function TestShapes(s: Suite, k: nat): seq<Shape>
    requires k <= |s.testNames|
  {
    seq(k, i requires 0 <= i < k => Shape(TestNode(s.testNames[i], GetTags(s, s.testNames[i])), []))
  }

  /** The result of one addSuite call: the nodes it linked under its parent, and what it threw. */
  datatype Built = Built(linked: seq<Shape>, escaped: Option<Throwable>)

  /**
   * addSuite(s, parent): the Suite node is linked before its children are added, so a
   * throw after that point leaves the partial Suite node behind.
   */
  function AddSuiteSpec(s: Suite): (b: Built)
    decreases s, |s.nestedSuites| + 1
    ensures |b.linked| <= 1
    ensures b.linked == [] <==> s.fault.ThrowsOnIdentity?
    ensures b.linked != [] ==> b.linked[0].kind == SuiteNode(s.suiteId, s.suiteName, s)
    ensures b.escaped.Some? <==> !s.fault.Healthy?
    ensures !s.fault.Healthy? ==> b.escaped == Some(s.fault.cause)
  {
    var kind := SuiteNode(s.suiteId, s.suiteName, s);
    match s.fault
    case ThrowsOnIdentity(e) => Built([], Some(e))
    case ThrowsAfterTests(_, e) => Built([Shape(kind, TestShapes(s, TestsLinked(s)))], Some(e))
    case Healthy => Built([Shape(kind, TestShapes(s, |s.testNames|) + NestedShapes(s, |s.nestedSuites|))], None)
  }

  /**
   * addSuite(s, ...) inside a try/catch: what it linked, then a FailedInit node for
   * class `c` if it threw.  A throw after the Suite node was linked leaves both the
   * partial Suite node and the FailedInit node; a throw before leaves only the latter.
   */
  function GuardedAdd(s: Suite, c: SuiteClass): (r: seq<Shape>)
    decreases s, |s.nestedSuites| + 2
    ensures 1 <= |r| <= 2
    ensures r[0].kind.SuiteNode? <==> !s.fault.ThrowsOnIdentity?
    ensures r[0].kind.SuiteNode? ==> r[0].kind == SuiteNode(s.suiteId, s.suiteName, s)
    ensures |r| == 2 <==> s.fault.ThrowsAfterTests?
    ensures !s.fault.Healthy? ==> r[|r| - 1] == FailedShape(s.fault.cause, c)
  {
    var b := AddSuiteSpec(s);
    b.linked + (if b.escaped.Some? then [FailedShape(b.escaped.value, c)] else [])
  }

  /** The nodes the first `k` nested suites of `s` add under the suite's node. */
  function NestedShapes(s: Suite, k: nat): seq<Shape>
    requires k <= |s.nestedSuites|
    decreases s, k
  {
    if k == 0 then []
    else
      var n := s.nestedSuites[k - 1];
      NestedShapes(s, k - 1) + GuardedAdd(n, n.cls)
  }

  /** The nodes one listed class adds under the engine descriptor. */
  function ClassLinks(c: SuiteClass, load: string -> LoadResult): seq<Shape>
  {
    match load(c.name)
    case LoadFailed(e) => [FailedShape(e, c)]
    case Loaded(s) => GuardedAdd(s, c)
  }

  /** The nodes `f` gives for each of the first `k` classes of `classes`, one class after the other. */
  function Concat(classes: seq<SuiteClass>, f: SuiteClass -> seq<Shape>, k: nat): seq<Shape>
    requires k <= |classes|
  {
    if k == 0 then [] else Concat(classes, f, k - 1) + f(classes[k - 1])
  }

  /** The first `k` classes of a longer list give the same nodes as on their own. */
  lemma {:induction false} ConcatPrefix(a: seq<SuiteClass>, b: seq<SuiteClass>, f: SuiteClass -> seq<Shape>, k: nat)
    requires k <= |a|
    ensures Concat(a + b, f, k) == Concat(a, f, k)
  {
    if k > 0 {
      ConcatPrefix(a, b, f, k - 1);
      assert (a + b)[k - 1] == a[k - 1];
    }
  }

  /** The nodes of `a + b` are those of `a`, then those of `b`. */
  lemma {:induction false} ConcatAppend(a: seq<SuiteClass>, b: seq<SuiteClass>, f: SuiteClass -> seq<Shape>, k: nat)
    requires k <= |b|
    ensures Concat(a + b, f, |a| + k) == Concat(a, f, |a|) + Concat(b, f, k)
  {
    if k == 0 {
      ConcatPrefix(a, b, f, |a|);
    } else {
      ConcatAppend(a, b, f, k - 1);
      assert (a + b)[|a| + k - 1] == b[k - 1];
    }
  }

  /** `ClassLinks` for a fixed loader, as a function of the class alone. */
  function ClassLinksOf(load: string -> LoadResult): SuiteClass -> seq<Shape>
  {
    c => ClassLinks(c, load)
  }

  /** The nodes discover adds under the engine descriptor, class by class in list order. */
  function ClassShapes(classes: seq<SuiteClass>, load: string -> LoadResult): seq<Shape>
  {
    Concat(classes, ClassLinksOf(load), |classes|)
  }

  /**
   * Every listed class is processed exactly once, in list order, whatever the classes
   * before it did: its nodes sit between those of the earlier and of the later classes.
   */
  lemma ClassesInOrder(before: seq<SuiteClass>, c: SuiteClass, after: seq<SuiteClass>, load: string -> LoadResult)
    ensures ClassShapes(before + [c] + after, load)
      == ClassShapes(before, load) + ClassLinks(c, load) + ClassShapes(after, load)
  {
    var f := ClassLinksOf(load);
    ConcatAppend(before, [c], f, 1);
    ConcatAppend(before + [c], after, f, |after|);
    assert f(c) == ClassLinks(c, load);
  }

  /**
   * A listed class that cannot be loaded or instantiated leaves, right after the
   * earlier classes' nodes, a FailedInit node with that cause, the class's name and the
   * class's tag annotations.
   */
  lemma FailedClassNode(before: seq<SuiteClass>, c: SuiteClass, after: seq<SuiteClass>, load: string -> LoadResult)
    requires load(c.name).LoadFailed?
    ensures var at := |ClassShapes(before, load)|;
      && at < |ClassShapes(before + [c] + after, load)|
      && ClassShapes(before + [c] + after, load)[at]
         == Shape(FailedInit(load(c.name).cause, c.name, ExtractTags(c)), [])
  {
    ClassesInOrder(before, c, after, load);
  }

  /** One listed class adds one or two nodes under the engine, none of them a Test node. */
  lemma ClassLinksCount(c: SuiteClass, load: string -> LoadResult)
    ensures 1 <= |ClassLinks(c, load)| <= 2
    ensures forall i :: 0 <= i < |ClassLinks(c, load)| ==> !ClassLinks(c, load)[i].kind.TestNode?
  {
  }

  /** Each listed class adds one or two nodes under the engine, and none of them is a Test node. */
  lemma {:induction false} ClassCount(classes: seq<SuiteClass>, load: string -> LoadResult, k: nat)
    requires k <= |classes|
    ensures var r := Concat(classes, ClassLinksOf(load), k);
      k <= |r| <= 2 * k && forall i :: 0 <= i < |r| ==> !r[i].kind.TestNode?
  {
    if k > 0 {
      ClassCount(classes, load, k - 1);
      ClassLinksCount(classes[k - 1], load);
    }
  }

  /** Each nested suite adds one or two nodes under the suite node, and none of them is a Test node. */
  lemma {:induction false} NestedCount(s: Suite, k: nat)
    requires k <= |s.nestedSuites|
    ensures k <= |NestedShapes(s, k)| <= 2 * k
    ensures forall i :: 0 <= i < |NestedShapes(s, k)| ==> !NestedShapes(s, k)[i].kind.TestNode?
  {
    if k > 0 {
      NestedCount(s, k - 1);
    }
  }

  /** Adding more nested suites never changes the nodes the earlier ones added. */
  lemma {:induction false} NestedPrefix(s: Suite, j: nat, k: nat)
    requires j <= k <= |s.nestedSuites|
    ensures |NestedShapes(s, j)| + (k - j) <= |NestedShapes(s, k)|
    ensures NestedShapes(s, k)[..|NestedShapes(s, j)|] == NestedShapes(s, j)
    decreases k
  {
    if j < k {
      NestedPrefix(s, j, k - 1);
      var p := NestedShapes(s, k - 1);
      assert NestedShapes(s, k)[..|p|] == p;
    }
  }

  /**
   * A linked Suite node has exactly one Test child per test name the instance reported
   * before it threw (all of them when it did not throw), in order, each tagged with the
   * tag-map entry of its exact name or with no tag at all.
   */
  lemma SuiteTestChildren(s: Suite)
    requires !s.fault.ThrowsOnIdentity?
    ensures var ts := TestKids(AddSuiteSpec(s).linked[0].children);
      && |ts| == TestsLinked(s) <= |s.testNames|
      && (s.fault.Healthy? ==> |ts| == |s.testNames|)
      && forall i :: 0 <= i < |ts| ==>
           var name := s.testNames[i];
           ts[i] == Shape(TestNode(name, if name in s.tags then s.tags[name] else {}), [])
  {
    var tests := TestShapes(s, TestsLinked(s));
    var children := AddSuiteSpec(s).linked[0].children;
    assert TestKids(children) == tests by {
      TestKidsAllOrNone(tests);
      if s.fault.Healthy? {
        var nested := NestedShapes(s, |s.nestedSuites|);
        assert children == tests + nested;
        NestedCount(s, |s.nestedSuites|);
        TestKidsAllOrNone(nested);
        TestKidsAppend(tests, nested);
      } else {
        assert children == tests;
      }
    }
  }

  /** A suite that reports each test name once gets Test children with pairwise distinct names. */
  lemma DistinctTestChildren(s: Suite)
    requires !s.fault.ThrowsOnIdentity? && DistinctNames(s)
    ensures var ts := TestKids(AddSuiteSpec(s).linked[0].children);
      forall i, j :: 0 <= i < j < |ts| ==> ts[i].kind.testName != ts[j].kind.testName
  {
    SuiteTestChildren(s);
  }

  // ---------------------------------------------------------------------------
  // The builder

  /**
   * discover: every listed class in order is loaded and instantiated through `load`
   * and added with addSuite (`AddClasses`); the engine descriptor itself is returned.
   * On a fresh engine the result is a closed tree of exactly the listed classes' nodes.
   */
  method Discover(engine: Descriptor, classes: seq<SuiteClass>, load: string -> LoadResult)
    returns (result: Descriptor, ghost added: seq<Descriptor>, ghost made: set<Descriptor>)
    requires engine.kind.Engine?
    modifies engine`children, engine`shape
    ensures result == engine
    ensures engine.children == old(engine.children) + added
    ensures fresh(made) && Closed(made)
    ensures (forall j | 0 <= j < |added| :: added[j] in made && added[j].parent == engine && !added[j].kind.TestNode?)
    ensures ShapesOf(added) == ClassShapes(classes, load)
    ensures old(engine.children) == [] ==>
      engine.shape == Shape(Engine, ClassShapes(classes, load)) && Closed(made + {engine})
  {
    added, made := AddClasses(engine, classes, load);
    if old(engine.children) == [] {
      ghost var all := SealNode(engine, [], added, made);
      assert ShapesOf([]) + ShapesOf(added) == ShapesOf(added);
      assert all == made + {engine};
    }
    result := engine;
  }

  /**
   * The class loop of discover: a throw while loading, instantiating or adding one
   * class leaves a FailedInit node for that class, and the later classes are still added.
   */
  method AddClasses(engine: Descriptor, classes: seq<SuiteClass>, load: string -> LoadResult)
    returns (ghost added: seq<Descriptor>, ghost made: set<Descriptor>)
    requires engine.kind.Engine?
    modifies engine`children
    ensures engine.children == old(engine.children) + added
    ensures fresh(made) && Closed(made)
    ensures (forall j | 0 <= j < |added| :: added[j] in made && added[j].parent == engine && !added[j].kind.TestNode?)
    ensures ShapesOf(added) == ClassShapes(classes, load)
  {
    added, made := [], {};
    var i := 0;
    while i < |classes|
      invariant 0 <= i <= |classes|
      invariant engine.children == old(engine.children) + added
      invariant fresh(made) && Closed(made)
      invariant forall j | 0 <= j < |added| :: added[j] in made && added[j].parent == engine && !added[j].kind.TestNode?
      invariant ShapesOf(added) == Concat(classes, ClassLinksOf(load), i)
    {
      added, made := AddClassStep(engine, classes, load, i, added, made);
      i := i + 1;
    }
  }

  /** One iteration of the class loop: the nodes of class `i` follow those of the earlier classes. */
  method AddClassStep(engine: Descriptor, classes: seq<SuiteClass>, load: string -> LoadResult, i: nat,
                      ghost added: seq<Descriptor>, ghost made: set<Descriptor>)
    returns (ghost added': seq<Descriptor>, ghost made': set<Descriptor>)
    requires engine.kind.Engine? && i < |classes|
    requires Closed(made) && engine !in made
    requires forall j | 0 <= j < |added| :: added[j] in made && added[j].parent == engine && !added[j].kind.TestNode?
    requires ShapesOf(added) == Concat(classes, ClassLinksOf(load), i)
    modifies engine`children
    ensures |added| <= |added'| && added'[..|added|] == added
    ensures engine.children == old(engine.children) + added'[|added|..]
    ensures made <= made' && fresh(made' - made) && Closed(made')
    ensures forall j | 0 <= j < |added'| :: added'[j] in made' && added'[j].parent == engine && !added'[j].kind.TestNode?
    ensures ShapesOf(added') == Concat(classes, ClassLinksOf(load), i + 1)
  {
    var a, m := AddClass(classes[i], load, engine);
    ClosedUnion(made, m);
    ShapesOfAppend(added, a);
    added', made' := added + a, made + m;
    assert added'[|added|..] == a;
  }

  /** One listed class of discover: loaded, instantiated and added, or a FailedInit node for it. */
  method AddClass(c: SuiteClass, load: string -> LoadResult, engine: Descriptor)
    returns (ghost added: seq<Descriptor>, ghost made: set<Descriptor>)
    requires engine.kind.Engine?
    modifies engine`children
    ensures engine.children == old(engine.children) + added
    ensures fresh(made) && Closed(made)
    ensures (forall j | 0 <= j < |added| :: added[j] in made && added[j].parent == engine && !added[j].kind.TestNode?)
    ensures ShapesOf(added) == ClassLinksOf(load)(c)
  {
    match load(c.name)
    case LoadFailed(e) =>
      var f := AddFailedInit(e, c, engine);
      added, made := [f], {f};
    case Loaded(s) =>
      var thrown, l, m := AddSuite(s, engine);
      added, made := l, m;
      if thrown.Some? {
        ghost var f := AddFailedInit(thrown.value, c, engine);
        ClosedUnion(made, {f});
        ShapesOfAppend(added, [f]);
        added, made := added + [f], made + {f};
      }
  }

  /** linkChild: the child's parent becomes `parent` and `parent`'s children gain the child. */
  method LinkChild(parent: Descriptor, child: Descriptor)
    requires parent != child
    modifies parent`children, child`parent
    ensures child.parent == parent
    ensures parent.children == old(parent.children) + [child]
  {
    child.parent := parent;
    parent.children := parent.children + [child];
  }

  /** addFailedInit: a FailedInit node with the cause, the class name and the class's tags. */
  method AddFailedInit(cause: Throwable, clazz: SuiteClass, parent: Descriptor) returns (ghost failed: Descriptor)
    modifies parent`children
    ensures fresh(failed)
    ensures parent.children == old(parent.children) + [failed]
    ensures failed.parent == parent && failed.children == [] && failed.suite == null && failed.kind == FailedShape(cause, clazz).kind
    ensures failed.shape == FailedShape(cause, clazz) && Closed({failed})
  {
    var className := clazz.name;
    var f := new Descriptor.ForFailedInit(cause, className, ExtractTags(clazz));
    LinkChild(parent, f);
    failed := f;
    assert ShapesOf(f.children) == [];
    assert NodeOk(f, {f});
  }

  /** A Test node linked under suite node `sd`, with no children. */
  ghost predicate LinkedTest(t: Descriptor, sd: Descriptor)
    reads t
  {
    t.kind.TestNode? && t.parent == sd && t.suite == sd && t.children == [] && t.shape == Shape(t.kind, [])
  }

  /**
   * Sets the shape of node `sd` once all its children are linked; with its Test nodes
   * and its closed subtrees it is then a closed tree.
   */
  ghost method SealNode(sd: Descriptor, tests: seq<Descriptor>, nested: seq<Descriptor>, nestedSet: set<Descriptor>)
    returns (made: set<Descriptor>)
    requires !sd.kind.TestNode? && (tests != [] ==> sd.kind.SuiteNode?) && sd.children == tests + nested
    requires forall t | t in tests :: LinkedTest(t, sd)
    requires Closed(nestedSet) && sd !in nestedSet
    requires (forall j | 0 <= j < |nested| :: nested[j] in nestedSet && nested[j].parent == sd && !nested[j].kind.TestNode?)
    modifies sd`shape
    ensures sd.shape == Shape(sd.kind, old(ShapesOf(tests)) + old(ShapesOf(nested)))
    ensures made == {sd} + (set t | t in tests) + nestedSet && Closed(made)
  {
    assert sd !in tests && sd !in nested;
    ShapesOfAppend(tests, nested);
    sd.shape := Shape(sd.kind, ShapesOf(tests) + ShapesOf(nested));
    made := {sd} + (set t | t in tests) + nestedSet;
    forall d | d in made ensures NodeOk(d, made) {
      if d in tests {
        assert ShapesOf(d.children) == [];
      } else if d in nestedSet {
        assert NodeOk(d, nestedSet);
      }
    }
  }

  /** addTests: one Test node per test name, tagged by getTags, until the instance throws. */
  method AddTests(sd: Descriptor, s: Suite) returns (thrown: Option<Throwable>, ghost tests: seq<Descriptor>)
    requires sd.kind.SuiteNode?
    modifies sd`children
    ensures sd.children == old(sd.children) + tests
    ensures forall t | t in tests :: fresh(t) && LinkedTest(t, sd)
    ensures ShapesOf(tests) == TestShapes(s, TestsLinked(s))
    ensures thrown == (if s.fault.ThrowsAfterTests? && s.fault.linked < |s.testNames| then Some(s.fault.cause) else None)
  {
    var names := s.testNames;
    tests := [];
    var i := 0;
    while i < |names|
      invariant 0 <= i <= |names| && |tests| == i
      invariant s.fault.ThrowsAfterTests? ==> i <= s.fault.linked
      invariant sd.children == old(sd.children) + tests
      invariant forall t | t in tests :: fresh(t) && LinkedTest(t, sd)
      invariant forall j :: 0 <= j < i ==> tests[j].shape == TestShapes(s, i)[j]
    {
      if s.fault.ThrowsAfterTests? && s.fault.linked == i {
        break;
      }
      var name := names[i];
      var t := new Descriptor.ForTest(sd, name, GetTags(s, name));
      LinkChild(sd, t);
      tests := tests + [t];
      i := i + 1;
    }
    assert i == TestsLinked(s);
    assert ShapesOf(tests) == TestShapes(s, i);
    thrown := if i < |names| then Some(s.fault.cause) else None;
  }

  /**
   * addSuite: a Suite node with the instance's id and name is linked under `parent`
   * first, and only then are its children added (`FillSuite`).
   */
  method AddSuite(s: Suite, parent: Descriptor)
    returns (thrown: Option<Throwable>, ghost linked: seq<Descriptor>, ghost made: set<Descriptor>)
    modifies parent`children
    decreases s, 2
    ensures parent.children == old(parent.children) + linked
    ensures fresh(made)
    ensures forall d | d in linked :: d in made && d.parent == parent && d.kind.SuiteNode?
    ensures Closed(made)
    ensures ShapesOf(linked) == AddSuiteSpec(s).linked
    ensures thrown == AddSuiteSpec(s).escaped
  {
    if s.fault.ThrowsOnIdentity? {
      // suiteId() or suiteName() threw before the descriptor was created
      return Some(s.fault.cause), [], {};
    }
    var sd := new Descriptor.ForSuite(s);
    LinkChild(parent, sd);
    thrown, made := FillSuite(sd, s);
    linked := [sd];
    assert ShapesOf(linked) == [sd.shape];
  }

  /**
   * The rest of addSuite, on the already linked Suite node `sd`: its Test nodes, then
   * its nested suites; a throw from the instance stops it and leaves `sd` partial.
   */
  method FillSuite(sd: Descriptor, s: Suite) returns (thrown: Option<Throwable>, ghost made: set<Descriptor>)
    requires sd.kind == SuiteNode(s.suiteId, s.suiteName, s) && sd.children == []
    requires !s.fault.ThrowsOnIdentity?
    modifies sd`children, sd`shape
    decreases s, 1
    ensures sd in made && fresh(made - {sd}) && Closed(made)
    ensures [sd.shape] == AddSuiteSpec(s).linked
    ensures thrown == AddSuiteSpec(s).escaped
  {
    var testsThrown, tests := AddTests(sd, s);
    assert sd.children == tests && sd !in tests;
    ghost var testShapes := ShapesOf(tests);
    ghost var testSet := set t | t in tests;
    assert fresh(testSet);
    ghost var nested: seq<Descriptor> := [];
    ghost var nestedSet: set<Descriptor> := {};
    if testsThrown.Some? || s.fault.ThrowsAfterTests? {
      // testNames(), tags() or nestedSuites() threw: the partial Suite node stays linked
      thrown := Some(s.fault.cause);
    } else {
      nested, nestedSet := AddNestedSuites(sd, s);
      assert sd.children == tests + nested;
      assert ShapesOf(tests) == testShapes;
      thrown := None;
    }
    ghost var nestedShapes := ShapesOf(nested);
    made := SealNode(sd, tests, nested, nestedSet);
    FilledShape(s, testShapes, nestedShapes);
  }

  /** The shape `FillSuite` leaves on the Suite node is the one `AddSuiteSpec` links. */
  lemma FilledShape(s: Suite, testShapes: seq<Shape>, nestedShapes: seq<Shape>)
    requires !s.fault.ThrowsOnIdentity?
    requires testShapes == TestShapes(s, TestsLinked(s))
    requires s.fault.Healthy? ==> nestedShapes == NestedShapes(s, |s.nestedSuites|)
    requires !s.fault.Healthy? ==> nestedShapes == []
    ensures [Shape(SuiteNode(s.suiteId, s.suiteName, s), testShapes + nestedShapes)] == AddSuiteSpec(s).linked
  {
    if !s.fault.Healthy? {
      assert testShapes + nestedShapes == testShapes;
    }
  }

  /**
   * One nested instance of the loop in addSuite: it is added under the suite node `sd`
   * as it is, without a new instantiation, and a throw from it leaves a FailedInit node
   * for that instance's class.
   */
  method AddNestedSuite(n: Suite, sd: Descriptor) returns (ghost added: seq<Descriptor>, ghost made: set<Descriptor>)
    modifies sd`children
    decreases n, 3
    ensures sd.children == old(sd.children) + added
    ensures fresh(made) && Closed(made)
    ensures (forall j | 0 <= j < |added| :: added[j] in made && added[j].parent == sd && !added[j].kind.TestNode?)
    ensures ShapesOf(added) == GuardedAdd(n, n.cls)
  {
    var e, l, m := AddSuite(n, sd);
    added, made := l, m;
    if e.Some? {
      ghost var f := AddFailedInit(e.value, n.cls, sd);
      ClosedUnion(made, {f});
      ShapesOfAppend(added, [f]);
      added, made := added + [f], made + {f};
    }
  }

  /** The nested-suite loop of addSuite: every nested instance in order, a throw from one not stopping the next. */
  method AddNestedSuites(sd: Descriptor, s: Suite) returns (ghost nested: seq<Descriptor>, ghost nestedSet: set<Descriptor>)
    modifies sd`children
    decreases s, 0
    ensures sd.children == old(sd.children) + nested
    ensures fresh(nestedSet) && Closed(nestedSet)
    ensures (forall j | 0 <= j < |nested| :: nested[j] in nestedSet && nested[j].parent == sd && !nested[j].kind.TestNode?)
    ensures ShapesOf(nested) == NestedShapes(s, |s.nestedSuites|)
  {
    var nestedSuites := s.nestedSuites;
    nested, nestedSet := [], {};
    for i := 0 to |nestedSuites|
      invariant sd.children == old(sd.children) + nested
      invariant fresh(nestedSet) && Closed(nestedSet)
      invariant (forall j | 0 <= j < |nested| :: nested[j] in nestedSet && nested[j].parent == sd && !nested[j].kind.TestNode?)
      invariant ShapesOf(nested) == NestedShapes(s, i)
    {
      var added, made := AddNestedSuite(nestedSuites[i], sd);
      ClosedUnion(nestedSet, made);
      ShapesOfAppend(nested, added);
      AppendAssoc(old(sd.children), nested, added);
      LinkedUnderAppend(nested, nestedSet, added, made, sd);
      nested, nestedSet := nested + added, nestedSet + made;
    }
  }

  /** Two runs of sub-suite nodes linked under `sd` join into one. */
  lemma LinkedUnderAppend(a: seq<Descriptor>, A: set<Descriptor>, b: seq<Descriptor>, B: set<Descriptor>, sd: Descriptor)
    requires forall j | 0 <= j < |a| :: a[j] in A && a[j].parent == sd && !a[j].kind.TestNode?
    requires forall j | 0 <= j < |b| :: b[j] in B && b[j].parent == sd && !b[j].kind.TestNode?
    ensures forall j | 0 <= j < |a + b| :: (a + b)[j] in A + B && (a + b)[j].parent == sd && !(a + b)[j].kind.TestNode?
  {
    forall j | 0 <= j < |a + b| ensures (a + b)[j] in A + B && (a + b)[j].parent == sd && !(a + b)[j].kind.TestNode? {
      if j >= |a| {
        assert (a + b)[j] == b[j - |a|];
      }
    }
  }
}
