/**
 * Test descriptors: the nodes of the tree that discovery builds and the executor walks.
 *
 * A descriptor is a heap object, as in the JUnit Platform: its kind and containing
 * suite are fixed when it is created, while its parent link and its children are
 * set by `linkChild` during discovery.  The ghost field `shape` is the abstract
 * value of the subtree below a descriptor; `Closed` ties it to the real links.
 */
module Descriptors {
  import opened Options
  import opened ScalaTest

  /** The four descriptor classes and the data each one carries. */
  datatype Kind =
    | Engine
    | SuiteNode(suiteId: string, suiteName: string, instance: Suite)
    | TestNode(testName: string, tags: set<string>)
    | FailedInit(cause: Throwable, className: string, tags: set<string>)

  /** The display name the executor sorts by. */
  function DisplayName(k: Kind): string
  {
    match k
    case Engine => "Scalatest"
    case SuiteNode(_, suiteName, _) => suiteName
    case TestNode(testName, _) => testName
    case FailedInit(_, className, _) => className
  }

  /** The abstract value of a subtree: a node's kind and the shapes of its children, in order. */
  datatype Shape = Shape(kind: Kind, children: seq<Shape>)

  /** Number of nodes of a shape. */
  function Size(sh: Shape): nat
  {
    1 + SizeAll(sh.children)
  }

  function SizeAll(shs: seq<Shape>): nat
  {
    if shs == [] then 0 else Size(shs[0]) + SizeAll(shs[1..])
  }

  /** Every child of a shape is strictly smaller than the shape. */
  lemma {:induction false} SizeOfChild(shs: seq<Shape>, i: nat)
    requires i < |shs|
    ensures Size(shs[i]) <= SizeAll(shs)
  {
    if i > 0 {
      SizeOfChild(shs[1..], i - 1);
    }
  }

  /** The Test nodes among `shs`, in order. */
  function TestKids(shs: seq<Shape>): (r: seq<Shape>)
    ensures |r| <= |shs|
    ensures forall i :: 0 <= i < |r| ==> r[i].kind.TestNode? && r[i] in shs
  {
    if shs == [] then []
    else TestKids(shs[..|shs| - 1]) + (if shs[|shs| - 1].kind.TestNode? then [shs[|shs| - 1]] else [])
  }

  /** Filtering a concatenation filters each part. */
  lemma {:induction false} TestKidsAppend(a: seq<Shape>, b: seq<Shape>)
    ensures TestKids(a + b) == TestKids(a) + TestKids(b)
    decreases |b|
  {
    if b != [] {
      var b' := b[..|b| - 1];
      assert (a + b)[..|a + b| - 1] == a + b';
      TestKidsAppend(a, b');
    } else {
      assert a + b == a;
    }
  }

  /** A sequence of Test nodes only is its own filter; one without any filters to nothing. */
  lemma {:induction false} TestKidsAllOrNone(shs: seq<Shape>)
    ensures (forall i :: 0 <= i < |shs| ==> shs[i].kind.TestNode?) ==> TestKids(shs) == shs
    ensures (forall i :: 0 <= i < |shs| ==> !shs[i].kind.TestNode?) ==> TestKids(shs) == []
  {
    if shs != [] {
      TestKidsAllOrNone(shs[..|shs| - 1]);
      assert shs[..|shs| - 1] + [shs[|shs| - 1]] == shs;
    }
  }

  class Descriptor {
    const kind: Kind
    /** The containing suite descriptor of a Test descriptor; null for the other kinds. */
    const suite: Descriptor?
    var parent: Descriptor?
    var children: seq<Descriptor>
    ghost var shape: Shape

    constructor ForEngine()
      ensures kind == Engine && suite == null
      ensures parent == null && children == [] && shape == Shape(kind, [])
    {
      kind := Engine;
      suite := null;
      parent := null;
      children := [];
      shape := Shape(Engine, []);
    }

    /** ScalatestSuiteDescriptor(suite, suite.suiteId(), suite.suiteName()). */
    constructor ForSuite(instance: Suite)
      ensures kind == SuiteNode(instance.suiteId, instance.suiteName, instance) && suite == null
      ensures parent == null && children == [] && shape == Shape(kind, [])
    {
      kind := SuiteNode(instance.suiteId, instance.suiteName, instance);
      suite := null;
      parent := null;
      children := [];
      shape := Shape(SuiteNode(instance.suiteId, instance.suiteName, instance), []);
    }

    /** ScalatestTestDescriptor(suite, testName, tags). */
    constructor ForTest(containing: Descriptor, testName: string, tags: set<string>)
      requires containing.kind.SuiteNode?
      ensures kind == TestNode(testName, tags) && suite == containing
      ensures parent == null && children == [] && shape == Shape(kind, [])
    {
      kind := TestNode(testName, tags);
      suite := containing;
      parent := null;
      children := [];
      shape := Shape(TestNode(testName, tags), []);
    }

    /** ScalatestFailedInitDescriptor(cause, className, tags). */
    constructor ForFailedInit(cause: Throwable, className: string, tags: set<string>)
      ensures kind == FailedInit(cause, className, tags) && suite == null
      ensures parent == null && children == [] && shape == Shape(kind, [])
    {
      kind := FailedInit(cause, className, tags);
      suite := null;
      parent := null;
      children := [];
      shape := Shape(FailedInit(cause, className, tags), []);
    }
  }

  /** The shapes of a sequence of descriptors, position by position. */
  ghost function ShapesOf(ds: seq<Descriptor>): (r: seq<Shape>)
    reads ds
    ensures |r| == |ds|
    ensures forall i {:trigger r[i]} :: 0 <= i < |ds| ==> r[i] == ds[i].shape
  {
    if ds == [] then [] else [ds[0].shape] + ShapesOf(ds[1..])
  }

  lemma AppendAssoc<X>(a: seq<X>, b: seq<X>, c: seq<X>)
    ensures (a + b) + c == a + (b + c)
  {
  }

  lemma ShapesOfAppend(a: seq<Descriptor>, b: seq<Descriptor>)
    ensures ShapesOf(a + b) == ShapesOf(a) + ShapesOf(b)
  {
    var l, r := ShapesOf(a + b), ShapesOf(a) + ShapesOf(b);
    assert |l| == |r|;
    forall i | 0 <= i < |l| ensures l[i] == r[i] {
      if i < |a| { assert r[i] == ShapesOf(a)[i]; } else { assert r[i] == ShapesOf(b)[i - |a|]; }
    }
  }

  /** A descriptor's shape records its kind and its children's shapes. */
  ghost predicate Consistent(d: Descriptor)
    reads d, d.children
  {
    d.shape == Shape(d.kind, ShapesOf(d.children))
  }

  /**
   * `d` is a finished node of `S`: its children are in `S` and point back at it, a Test
   * child's containing suite is `d`, a Test node's containing suite is a suite
   * descriptor, and its shape is consistent.
   */
  ghost predicate NodeOk(d: Descriptor, S: set<Descriptor>)
    reads S
  {
    && d in S
    && (forall c | c in d.children :: c in S && c.parent == d && (c.kind.TestNode? ==> c.suite == d))
    && (d.kind.TestNode? ==> d.suite != null && d.suite.kind.SuiteNode?)
    && Consistent(d)
  }

  /**
   * `S` is a finished tree (or forest): every node in it is finished.  The quantifier
   * fires only on `NodeOk` terms, so a proof asks for the node it needs.
   */
  ghost predicate Closed(S: set<Descriptor>)
    reads S
  {
    forall d {:trigger NodeOk(d, S)} | d in S :: NodeOk(d, S)
  }

  /** Two closed sets together are closed. */
  lemma ClosedUnion(A: set<Descriptor>, B: set<Descriptor>)
    requires Closed(A) && Closed(B)
    ensures Closed(A + B)
  {
    forall d | d in A + B ensures NodeOk(d, A + B) {
      if d in A { assert NodeOk(d, A); } else { assert NodeOk(d, B); }
    }
  }

  /** In a closed tree, a child's subtree is strictly smaller than its parent's. */
  lemma ChildIsSmaller(S: set<Descriptor>, d: Descriptor, c: Descriptor)
    requires Closed(S) && d in S && c in d.children
    ensures c in S && c.shape in d.shape.children
    ensures Size(c.shape) < Size(d.shape)
  {
    assert NodeOk(d, S);
    var i :| 0 <= i < |d.children| && d.children[i] == c;
    assert d.shape.children[i] == c.shape;
    SizeOfChild(d.shape.children, i);
  }
}
