/**
 * The server's test-control operations: building the node tree of a run
 * from its uploaded description, registering the run under a session
 * token, starting a test and replacing the resources a test used.
 *
 * The stored test-data objects of a session are the entries of a node
 * store, numbered in creation order; a node refers to another node (its
 * children, the session's map from test ids) by that number, which keeps
 * the sharing of the original objects: a later duplicate id replaces the
 * map entry while the earlier node stays linked in the tree.
 */
module TestControl {
  import opened Wrappers
  import opened Api

  type TestId = int
  type NodeRef = nat
  type Token = string
  /** Identity of the stored run-data record shared by the nodes of a run. */
  type RunRef = int
  type Time = int
  /** Identity of a stored resource. */
  type ResourceId = int

  /** The optional `subtests` list of an uploaded test description. */
  datatype Subtests = Absent | Present(items: seq<TestDict>)

  /** An uploaded test description: `{id, name, class, subtests}`. */
  datatype TestDict = TestDict(id: TestId, name: string, cls: string, subtests: Subtests)

  /** The children of a description; none when it has no `subtests` key. */
  function Subs(d: TestDict): seq<TestDict>
  {
    if d.subtests.Present? then d.subtests.items else []
  }

  datatype TestState = NotStarted | InProgress

  /** A stored test-data object. */
  datatype TestNode = TestNode(
    name: string,
    cls: string,
    runData: RunRef,
    children: seq<NodeRef>,
    state: TestState,
    startTime: Option<Time>,
    resources: set<ResourceId>)

  /** The object created for a description, before any child is attached. */
  function NewNode(d: TestDict, run: RunRef): TestNode
  {
    TestNode(d.name, d.cls, run, [], NotStarted, None, {})
  }

  // ---------------------------------------------------------------------
  // Reference definitions of the tree built by `_create_test_data`

  /** Every description of the tree, in the order their objects are created. */
  function Pre(d: TestDict): seq<TestDict>
    decreases d, 1
  {
    [d] + PreAll(d, |Subs(d)|)
  }

  /** The descriptions under the first `n` subtests of `d`, in creation order. */
  function PreAll(d: TestDict, n: nat): seq<TestDict>
    requires n <= |Subs(d)|
    decreases d, 0, n
  {
    if n == 0 then [] else PreAll(d, n - 1) + Pre(Subs(d)[n - 1])
  }

  /** References to the objects of the first `n` subtests of `d`, whose own object is `base`. */
  function ChildRefs(d: TestDict, base: nat, n: nat): (refs: seq<NodeRef>)
    requires n <= |Subs(d)|
    ensures |refs| == n
  {
    if n == 0 then [] else ChildRefs(d, base, n - 1) + [base + 1 + |PreAll(d, n - 1)|]
  }

  /** The objects created for the tree of `d` when the first of them is numbered `base`. */
  function Built(d: TestDict, run: RunRef, base: nat): seq<TestNode>
    decreases d, 1
  {
    [NewNode(d, run).(children := ChildRefs(d, base, |Subs(d)|))] + BuiltAll(d, run, base, |Subs(d)|)
  }

  /** The objects created for the first `n` subtrees of `d`, whose own object is `base`. */
  function BuiltAll(d: TestDict, run: RunRef, base: nat, n: nat): seq<TestNode>
    requires n <= |Subs(d)|
    decreases d, 0, n
  {
    if n == 0 then []
    else BuiltAll(d, run, base, n - 1) + Built(Subs(d)[n - 1], run, base + 1 + |PreAll(d, n - 1)|)
  }

  /** `all_tests[id] = object` for each description in order, the k-th object being `base + k`. */
  function Registered(m: map<TestId, NodeRef>, ds: seq<TestDict>, base: nat): map<TestId, NodeRef>
  {
    if ds == [] then m
    else Registered(m, ds[..|ds| - 1], base)[ds[|ds| - 1].id := base + |ds| - 1]
  }

  /** One object per description. */
  lemma {:induction false} BuiltSize(d: TestDict, run: RunRef, base: nat)
    ensures |Built(d, run, base)| == |Pre(d)|
    decreases d, 1
  {
    BuiltAllSize(d, run, base, |Subs(d)|);
  }

  lemma {:induction false} BuiltAllSize(d: TestDict, run: RunRef, base: nat, n: nat)
    requires n <= |Subs(d)|
    ensures |BuiltAll(d, run, base, n)| == |PreAll(d, n)|
    decreases d, 0, n
  {
    if n > 0 {
      BuiltAllSize(d, run, base, n - 1);
      BuiltSize(Subs(d)[n - 1], run, base + 1 + |PreAll(d, n - 1)|);
    }
  }

  /** Registering two lists is registering their concatenation. */
  lemma {:induction false} RegisteredAppend(m: map<TestId, NodeRef>, a: seq<TestDict>, b: seq<TestDict>, base: nat)
    ensures Registered(m, a + b, base) == Registered(Registered(m, a, base), b, base + |a|)
  {
    if b == [] {
      assert a + b == a;
    } else {
      assert (a + b)[..|a + b| - 1] == a + b[..|b| - 1];
      RegisteredAppend(m, a, b[..|b| - 1], base);
    }
  }

  /** The object of `d`, numbered `base`, once its first `n` children are attached. */
  function Head(d: TestDict, run: RunRef, base: nat, n: nat): TestNode
    requires n <= |Subs(d)|
  {
    NewNode(d, run).(children := ChildRefs(d, base, n))
  }

  /**
   * Creating the tree of the next subtest after the store of `d`'s first
   * `i` subtrees, then attaching its object, gives the store of the first
   * `i + 1` subtrees.
   */
  lemma AttachChild(d: TestDict, run: RunRef, nodes: seq<TestNode>, i: nat, mid: seq<TestNode>)
    requires i < |Subs(d)|
    requires mid == nodes + [Head(d, run, |nodes|, i)] + BuiltAll(d, run, |nodes|, i)
    ensures |mid| == |nodes| + 1 + |PreAll(d, i)|
    ensures var after := mid + Built(Subs(d)[i], run, |mid|);
            after[|nodes| := after[|nodes|].(children := after[|nodes|].children + [|mid|])] ==
            nodes + [Head(d, run, |nodes|, i + 1)] + BuiltAll(d, run, |nodes|, i + 1)
  {
    BuiltAllSize(d, run, |nodes|, i);
  }

  /** Registering the next subtree after `d` and its first `i` subtrees registers the first `i + 1`. */
  lemma RegisterChild(m: map<TestId, NodeRef>, d: TestDict, i: nat, base: nat, next: nat)
    requires i < |Subs(d)|
    requires next == base + 1 + |PreAll(d, i)|
    ensures Registered(Registered(m, [d] + PreAll(d, i), base), Pre(Subs(d)[i]), next) ==
            Registered(m, [d] + PreAll(d, i + 1), base)
  {
    var a := [d] + PreAll(d, i);
    var b := Pre(Subs(d)[i]);
    assert PreAll(d, i + 1) == PreAll(d, i) + b;
    assert [d] + PreAll(d, i + 1) == a + b;
    RegisteredAppend(m, a, b, base);
  }

  /** The store and the map right after the object of `d` is created and registered. */
  lemma TreeStart(d: TestDict, run: RunRef, nodes: seq<TestNode>, allTests: map<TestId, NodeRef>)
    ensures nodes + [NewNode(d, run)] == nodes + [Head(d, run, |nodes|, 0)] + BuiltAll(d, run, |nodes|, 0)
    ensures allTests[d.id := |nodes|] == Registered(allTests, [d] + PreAll(d, 0), |nodes|)
  {
    assert [d] + PreAll(d, 0) == [d];
    assert [d][..0] == [];
  }

  /** Once every subtest is attached, the store and the map are those of the whole tree. */
  lemma TreeEnd(d: TestDict, run: RunRef, nodes: seq<TestNode>, allTests: map<TestId, NodeRef>,
                nodes': seq<TestNode>, allTests': map<TestId, NodeRef>, n: nat)
    requires n == |Subs(d)|
    requires nodes' == nodes + [Head(d, run, |nodes|, n)] + BuiltAll(d, run, |nodes|, n)
    requires allTests' == Registered(allTests, [d] + PreAll(d, n), |nodes|)
    ensures nodes' == nodes + Built(d, run, |nodes|)
    ensures allTests' == Registered(allTests, Pre(d), |nodes|)
  {
  }

  /**
   * `_create_test_data`: creates the object of `d` (sharing the run data),
   * registers it under its id, then creates each subtest in order and
   * attaches it as the next child.
   */
  method CreateTestData(d: TestDict, run: RunRef, nodes: seq<TestNode>, allTests: map<TestId, NodeRef>)
    returns (root: NodeRef, nodes': seq<TestNode>, allTests': map<TestId, NodeRef>)
    ensures root == |nodes|
    ensures nodes' == nodes + Built(d, run, |nodes|)
    ensures allTests' == Registered(allTests, Pre(d), |nodes|)
    decreases d
  {
    root := |nodes|;
    nodes' := nodes + [NewNode(d, run)];
    allTests' := allTests[d.id := root];
    TreeStart(d, run, nodes, allTests);
    var i := 0;
    if d.subtests.Present? {
      var subs := d.subtests.items;
      while i < |subs|
        invariant 0 <= i <= |subs|
        invariant nodes' == nodes + [Head(d, run, root, i)] + BuiltAll(d, run, root, i)
        invariant allTests' == Registered(allTests, [d] + PreAll(d, i), root)
      {
        AttachChild(d, run, nodes, i, nodes');
        RegisterChild(allTests, d, i, root, |nodes'|);
        assert subs[i] == Subs(d)[i];
        var child;
        child, nodes', allTests' := CreateTestData(subs[i], run, nodes', allTests');
        nodes' := nodes'[root := nodes'[root].(children := nodes'[root].children + [child])];
        i := i + 1;
      }
    }
    TreeEnd(d, run, nodes, allTests, nodes', allTests', i);
  }

  // ---------------------------------------------------------------------
  // What `_create_test_data` promises about the objects and the id map

  /** The first description of a tree is its root. */
  lemma PreHead(d: TestDict)
    ensures |Pre(d)| >= 1 && Pre(d)[0] == d
  {
  }

  /** The descriptions of fewer subtrees are a prefix of those of more. */
  lemma {:induction false} PreAllPrefix(d: TestDict, j: nat, n: nat)
    requires j <= n <= |Subs(d)|
    ensures |PreAll(d, j)| <= |PreAll(d, n)|
    ensures PreAll(d, n)[..|PreAll(d, j)|] == PreAll(d, j)
    decreases n
  {
    if j < n {
      PreAllPrefix(d, j, n - 1);
    }
  }

  /** The `j`-th child reference of `d`'s object points just past the first `j` subtrees. */
  lemma {:induction false} ChildRefsAt(d: TestDict, base: nat, n: nat, j: nat)
    requires j < n <= |Subs(d)|
    ensures ChildRefs(d, base, n)[j] == base + 1 + |PreAll(d, j)|
  {
    if j < n - 1 {
      ChildRefsAt(d, base, n - 1, j);
    }
  }

  /** Later subtests' objects come strictly later, so no object is attached twice. */
  lemma ChildRefsIncreasing(d: TestDict, base: nat, n: nat, i: nat, j: nat)
    requires i < j < n <= |Subs(d)|
    ensures ChildRefs(d, base, n)[i] < ChildRefs(d, base, n)[j]
  {
    ChildRefsAt(d, base, n, i);
    ChildRefsAt(d, base, n, j);
    PreAllPrefix(d, i + 1, j);
    PreHead(Subs(d)[i]);
    assert PreAll(d, i + 1) == PreAll(d, i) + Pre(Subs(d)[i]);
  }

  /** The `j`-th subtest's description sits just past the first `j` subtrees. */
  lemma SubtestPosition(d: TestDict, j: nat)
    requires j < |Subs(d)|
    ensures 1 + |PreAll(d, j)| < |Pre(d)|
    ensures Pre(d)[1 + |PreAll(d, j)|] == Subs(d)[j]
  {
    PreAllPrefix(d, j + 1, |Subs(d)|);
    PreHead(Subs(d)[j]);
    assert PreAll(d, j + 1)[|PreAll(d, j)|] == Subs(d)[j];
  }

  /** `c` is the number of the object made from description `x`, the objects of `ds` being numbered from `off`. */
  ghost predicate MadeFrom(ds: seq<TestDict>, off: nat, c: NodeRef, x: TestDict)
  {
    off <= c < off + |ds| && ds[c - off] == x
  }

  /**
   * Object `k` of `nodes` is a fresh object made from description `k` of
   * `ds` with the run's data, and its children are the objects made from
   * that description's subtests, in their order, each at the position
   * just past the subtrees of the subtests before it.
   */
  ghost predicate NodeFor(nodes: seq<TestNode>, ds: seq<TestDict>, run: RunRef, off: nat, k: nat)
    requires k < |nodes| && k < |ds|
  {
    nodes[k].(children := []) == NewNode(ds[k], run) &&
    nodes[k].children == ChildRefs(ds[k], off + k, |Subs(ds[k])|) &&
    forall j :: 0 <= j < |Subs(ds[k])| ==> MadeFrom(ds, off, nodes[k].children[j], Subs(ds[k])[j])
  }

  /** Appending more objects and descriptions keeps what object `k` was made from. */
  lemma NodeForKeep(nodes: seq<TestNode>, more: seq<TestNode>, ds: seq<TestDict>, rest: seq<TestDict>,
                    run: RunRef, off: nat, k: nat, all: seq<TestNode>, allDs: seq<TestDict>)
    requires k < |nodes| == |ds|
    requires all == nodes + more && allDs == ds + rest
    requires NodeFor(nodes, ds, run, off, k)
    ensures NodeFor(all, allDs, run, off, k)
  {
    var x := ds[k];
    assert (nodes + more)[k] == nodes[k] && (ds + rest)[k] == x;
    forall j | 0 <= j < |Subs(x)|
      ensures MadeFrom(ds + rest, off, nodes[k].children[j], Subs(x)[j])
    {
      assert MadeFrom(ds, off, nodes[k].children[j], Subs(x)[j]);
    }
  }

  /** Prepending objects and descriptions keeps what a later object was made from. */
  lemma NodeForShift(first: seq<TestNode>, nodes: seq<TestNode>, pre: seq<TestDict>, ds: seq<TestDict>,
                     run: RunRef, off: nat, inner: nat, k: nat,
                     all: seq<TestNode>, allDs: seq<TestDict>, at: nat)
    requires |first| == |pre| && k < |nodes| && k < |ds| && inner == off + |pre|
    requires all == first + nodes && allDs == pre + ds && at == |pre| + k
    requires NodeFor(nodes, ds, run, inner, k)
    ensures NodeFor(all, allDs, run, off, at)
  {
    var x := ds[k];
    assert (first + nodes)[|pre| + k] == nodes[k] && (pre + ds)[|pre| + k] == x;
    forall j | 0 <= j < |Subs(x)|
      ensures MadeFrom(pre + ds, off, nodes[k].children[j], Subs(x)[j])
    {
      var c := nodes[k].children[j];
      assert MadeFrom(ds, inner, c, Subs(x)[j]);
      assert (pre + ds)[c - off] == ds[c - off - |pre|];
    }
  }

  /** The object of the root is made from the root, its children from the subtests. */
  lemma BuiltRoot(d: TestDict, run: RunRef, base: nat)
    ensures |Built(d, run, base)| == |Pre(d)|
    ensures NodeFor(Built(d, run, base), Pre(d), run, base, 0)
  {
    BuiltSize(d, run, base);
    PreHead(d);
    forall j | 0 <= j < |Subs(d)|
      ensures MadeFrom(Pre(d), base, Built(d, run, base)[0].children[j], Subs(d)[j])
    {
      ChildRefsAt(d, base, |Subs(d)|, j);
      SubtestPosition(d, j);
    }
  }

  /**
   * Object `k` of the tree is a fresh object made from the `k`-th
   * description, sharing the run's data, and its children are the objects
   * made from that description's subtests, in their order.
   */
  lemma {:induction false} BuiltShape(d: TestDict, run: RunRef, base: nat, k: nat)
    requires k < |Pre(d)|
    ensures |Built(d, run, base)| == |Pre(d)|
    ensures NodeFor(Built(d, run, base), Pre(d), run, base, k)
    decreases d, 1
  {
    if k == 0 {
      BuiltRoot(d, run, base);
    } else {
      BuiltAllShape(d, run, base, |Subs(d)|, k - 1);
      NodeForShift([Head(d, run, base, |Subs(d)|)], BuiltAll(d, run, base, |Subs(d)|), [d],
                   PreAll(d, |Subs(d)|), run, base, base + 1, k - 1, Built(d, run, base), Pre(d), k);
    }
  }

  /** `BuiltShape` for the objects of the first `n` subtrees of `d`, numbered from `base + 1`. */
  lemma {:induction false} BuiltAllShape(d: TestDict, run: RunRef, base: nat, n: nat, k: nat)
    requires n <= |Subs(d)| && k < |PreAll(d, n)|
    ensures |BuiltAll(d, run, base, n)| == |PreAll(d, n)|
    ensures NodeFor(BuiltAll(d, run, base, n), PreAll(d, n), run, base + 1, k)
    decreases d, 0, n
  {
    BuiltAllSize(d, run, base, n);
    BuiltAllSize(d, run, base, n - 1);
    var sub := Subs(d)[n - 1];
    var o := base + 1 + |PreAll(d, n - 1)|;
    var objs, descs := BuiltAll(d, run, base, n - 1), PreAll(d, n - 1);
    var all, allDs := BuiltAll(d, run, base, n), PreAll(d, n);
    assert all == objs + Built(sub, run, o);
    assert allDs == descs + Pre(sub);
    if k < |descs| {
      BuiltAllShape(d, run, base, n - 1, k);
      NodeForKeep(objs, Built(sub, run, o), descs, Pre(sub), run, base + 1, k, all, allDs);
    } else {
      var kk := k - |descs|;
      BuiltShape(sub, run, o, kk);
      NodeForShift(objs, Built(sub, run, o), descs, Pre(sub), run, base + 1, o, kk, all, allDs, k);
    }
  }

  /** The descriptions' ids. */
  function IdsOf(ds: seq<TestDict>): set<TestId>
  {
    set k | 0 <= k < |ds| :: ds[k].id
  }

  /** After registration the map holds its old ids and the id of every description. */
  lemma {:induction false} RegisteredKeys(m: map<TestId, NodeRef>, ds: seq<TestDict>, base: nat)
    ensures Registered(m, ds, base).Keys == m.Keys + IdsOf(ds)
  {
    if ds != [] {
      var init := ds[..|ds| - 1];
      RegisteredKeys(m, init, base);
      assert IdsOf(ds) == IdsOf(init) + {ds[|ds| - 1].id} by {
        assert forall k :: 0 <= k < |init| ==> init[k] == ds[k];
      }
    }
  }

  /** The id of a description that no later description repeats refers to its object. */
  lemma {:induction false} RegisteredLastWins(m: map<TestId, NodeRef>, ds: seq<TestDict>, base: nat, k: nat)
    requires k < |ds|
    requires forall j :: k < j < |ds| ==> ds[j].id != ds[k].id
    ensures ds[k].id in Registered(m, ds, base)
    ensures Registered(m, ds, base)[ds[k].id] == base + k
  {
    if k < |ds| - 1 {
      RegisteredLastWins(m, ds[..|ds| - 1], base, k);
    }
  }

  /** Ids that no description carries keep their old object. */
  lemma {:induction false} RegisteredKeepsOthers(m: map<TestId, NodeRef>, ds: seq<TestDict>, base: nat, id: TestId)
    requires id in m && id !in IdsOf(ds)
    ensures id in Registered(m, ds, base) && Registered(m, ds, base)[id] == m[id]
  {
    if ds != [] {
      var init := ds[..|ds| - 1];
      assert IdsOf(init) <= IdsOf(ds) by {
        assert forall k :: 0 <= k < |init| ==> init[k] == ds[k];
      }
      RegisteredKeepsOthers(m, init, base, id);
    }
  }

  /** Registration refers only to the old objects and to the new ones. */
  lemma {:induction false} RegisteredBound(m: map<TestId, NodeRef>, ds: seq<TestDict>, base: nat, id: TestId)
    requires id in Registered(m, ds, base)
    ensures var r := Registered(m, ds, base)[id];
            (id in m && r == m[id]) || base <= r < base + |ds|
  {
    if ds != [] && ds[|ds| - 1].id != id {
      RegisteredBound(m, ds[..|ds| - 1], base, id);
    }
  }

  /** With pairwise distinct new ids, the map grows by one entry per description. */
  lemma {:induction false} RegisteredSize(m: map<TestId, NodeRef>, ds: seq<TestDict>, base: nat)
    requires forall i, j :: 0 <= i < j < |ds| ==> ds[i].id != ds[j].id
    requires forall i :: 0 <= i < |ds| ==> ds[i].id !in m
    ensures |Registered(m, ds, base)| == |m| + |ds|
  {
    if ds != [] {
      var init := ds[..|ds| - 1];
      RegisteredSize(m, init, base);
      RegisteredKeys(m, init, base);
      var last := ds[|ds| - 1];
      assert last.id !in IdsOf(init);
      assert last.id !in Registered(m, init, base);
    }
  }

  // ---------------------------------------------------------------------
  // The session store

  /** The stored run data: its record, main test and requesting host. */
  datatype RunData = RunData(id: RunRef, mainTest: NodeRef, userName: string)

  /** What the server keeps for one run under its token. */
  datatype Session = Session(
    allTests: map<TestId, NodeRef>,
    nodes: seq<TestNode>,
    runData: RunData,
    mainTest: NodeRef,
    userName: string)

  /** The lookups that fail: an unknown token or test id, or a descriptor matching no resource. */
  datatype ControlError = UnknownToken(token: Token) | UnknownTest(id: TestId) | NoSuchResource(descriptor: Descriptor)

  /** Every reference of the session points into its node store. */
  ghost predicate Wellformed(s: Session)
  {
    s.mainTest < |s.nodes| &&
    (forall id :: id in s.allTests ==> s.allTests[id] < |s.nodes|) &&
    (forall k, j :: 0 <= k < |s.nodes| && 0 <= j < |s.nodes[k].children| ==> s.nodes[k].children[j] < |s.nodes|)
  }

  /** The session `post` of `start_test_run` registers: the tree's objects, their ids, the root as main test. */
  function NewSession(tests: TestDict, run: RunRef, host: string): Session
  {
    Session(Registered(map[], Pre(tests), 0), Built(tests, run, 0), RunData(run, 0, host), 0, host)
  }

  /** A freshly registered session is well formed and its main test is the object of the top-level description. */
  lemma NewSessionWellformed(tests: TestDict, run: RunRef, host: string)
    ensures Wellformed(NewSession(tests, run, host))
    ensures NewSession(tests, run, host).nodes[0].(children := []) == NewNode(tests, run)
    ensures NewSession(tests, run, host).allTests.Keys == IdsOf(Pre(tests))
  {
    var s := NewSession(tests, run, host);
    BuiltSize(tests, run, 0);
    BuiltRoot(tests, run, 0);
    RegisteredKeys(map[], Pre(tests), 0);
    forall id | id in s.allTests ensures s.allTests[id] < |s.nodes| {
      RegisteredBound(map[], Pre(tests), 0, id);
    }
    forall k, j | 0 <= k < |s.nodes| && 0 <= j < |s.nodes[k].children|
      ensures s.nodes[k].children[j] < |s.nodes|
    {
      BuiltShape(tests, run, 0, k);
      assert MadeFrom(Pre(tests), 0, s.nodes[k].children[j], Subs(Pre(tests)[k])[j]);
    }
  }

  /** The session with object `k` replaced by `n`, whose children are those of the old object. */
  function WithNode(s: Session, k: NodeRef, n: TestNode): (r: Session)
    requires Wellformed(s) && k < |s.nodes| && n.children == s.nodes[k].children
    ensures Wellformed(r)
    ensures |r.nodes| == |s.nodes| && r.nodes[k] == n
    ensures forall j :: 0 <= j < |s.nodes| && j != k ==> r.nodes[j] == s.nodes[j]
    ensures r.allTests == s.allTests && r.runData == s.runData && r.mainTest == s.mainTest && r.userName == s.userName
  {
    s.(nodes := s.nodes[k := n])
  }

  /** `start()`: the test is in progress and started at `now`; nothing else of it changes. */
  function Started(n: TestNode, now: Time): (r: TestNode)
    ensures r.state == InProgress && r.startTime == Some(now)
    ensures r.(state := n.state, startTime := n.startTime) == n
  {
    n.(state := InProgress, startTime := Some(now))
  }

  /** The test's resources, cleared and refilled with exactly `used`. */
  function WithResources(n: TestNode, used: set<ResourceId>): (r: TestNode)
    ensures r.resources == used
    ensures r.(resources := n.resources) == n
  {
    n.(resources := used)
  }

  /** The resources the first `i` descriptors resolve to. */
  function ResolvedUpTo(descriptors: seq<Descriptor>, resolve: Descriptor -> Option<ResourceId>, i: nat): set<ResourceId>
    requires i <= |descriptors|
  {
    set j | 0 <= j < i && resolve(descriptors[j]).Some? :: resolve(descriptors[j]).value
  }

  /** A set never holds more resources than there were descriptors. */
  lemma {:induction false} ResolvedUpToSize(descriptors: seq<Descriptor>, resolve: Descriptor -> Option<ResourceId>, i: nat)
    requires i <= |descriptors|
    ensures |ResolvedUpTo(descriptors, resolve, i)| <= i
  {
    if i > 0 {
      ResolvedUpToSize(descriptors, resolve, i - 1);
      ResolvedUpToStep(descriptors, resolve, i - 1);
    }
  }

  /** The next descriptor adds its resource, if any, to those of the previous ones. */
  lemma ResolvedUpToStep(descriptors: seq<Descriptor>, resolve: Descriptor -> Option<ResourceId>, i: nat)
    requires i < |descriptors|
    ensures ResolvedUpTo(descriptors, resolve, i + 1) ==
            ResolvedUpTo(descriptors, resolve, i) +
            (if resolve(descriptors[i]).Some? then {resolve(descriptors[i]).value} else {})
  {
  }

  /** A descriptor resolving to a resource an earlier one already added adds nothing. */
  lemma ResolvedUpToRepeat(descriptors: seq<Descriptor>, resolve: Descriptor -> Option<ResourceId>, i: nat, j: nat)
    requires j < i < |descriptors|
    requires resolve(descriptors[j]).Some? && resolve(descriptors[i]) == resolve(descriptors[j])
    ensures ResolvedUpTo(descriptors, resolve, i + 1) == ResolvedUpTo(descriptors, resolve, i)
  {
    ResolvedUpToStep(descriptors, resolve, i);
    assert resolve(descriptors[i]).value in ResolvedUpTo(descriptors, resolve, i);
  }

  /** The live sessions of the server, by token. */
  class SessionStore {
    var sessions: map<Token, Session>

    ghost predicate Valid()
      reads this
    {
      forall t :: t in sessions ==> Wellformed(sessions[t])
    }

    constructor()
      ensures Valid() && sessions == map[]
    {
      sessions := map[];
    }

    /**
     * `StartTestRun.post`: builds the run's objects, makes the root the run's
     * main test and keeps the session under a new token (the uuid is `token`,
     * the run-data record `run`, the requesting host `host`).
     */
    method StartTestRun(tests: TestDict, run: RunRef, host: string, token: Token)
      returns (status: int, body: Token)
      requires Valid()
      modifies this
      ensures Valid()
      ensures sessions == old(sessions)[token := NewSession(tests, run, host)]
      ensures status == OK && body == token
    {
      var mainTest, nodes, allTests := CreateTestData(tests, run, [], map[]);
      assert nodes == Built(tests, run, 0);
      var runData := RunData(run, mainTest, host);
      NewSessionWellformed(tests, run, host);
      sessions := sessions[token := Session(allTests, nodes, runData, mainTest, runData.userName)];
      return OK, token;
    }

    /**
     * `StartTest.post`: looks the session up by token and the test by id,
     * then starts that test.
     */
    method StartTest(token: Token, testId: TestId, now: Time) returns (r: Result<int, ControlError>)
      requires Valid()
      modifies this
      ensures Valid()
      ensures token !in old(sessions) ==> r == Failure(UnknownToken(token)) && sessions == old(sessions)
      ensures token in old(sessions) && testId !in old(sessions)[token].allTests ==>
                r == Failure(UnknownTest(testId)) && sessions == old(sessions)
      ensures token in old(sessions) && testId in old(sessions)[token].allTests ==>
                var s := old(sessions)[token];
                var k := s.allTests[testId];
                r == Success(NO_CONTENT) &&
                sessions == old(sessions)[token := WithNode(s, k, Started(s.nodes[k], now))]
    {
      if token !in sessions {
        return Failure(UnknownToken(token));
      }
      var session := sessions[token];
      if testId !in session.allTests {
        return Failure(UnknownTest(testId));
      }
      var k := session.allTests[testId];
      sessions := sessions[token := WithNode(session, k, Started(session.nodes[k], now))];
      r := Success(NO_CONTENT);
    }

    /**
     * `UpdateResources.post`: looks the session and the test up, clears the
     * test's resources, then adds the resource of each descriptor in turn.
     * Resolving a descriptor (decoding it and fetching the matching record)
     * is `resolve`; when it finds nothing the request fails, keeping the
     * resources added so far.
     */
    method UpdateResources(token: Token, testId: TestId, descriptors: seq<Descriptor>,
                           resolve: Descriptor -> Option<ResourceId>)
      returns (r: Result<int, ControlError>)
      requires Valid()
      modifies this
      ensures Valid()
      ensures token !in old(sessions) ==> r == Failure(UnknownToken(token)) && sessions == old(sessions)
      ensures token in old(sessions) && testId !in old(sessions)[token].allTests ==>
                r == Failure(UnknownTest(testId)) && sessions == old(sessions)
      ensures token in old(sessions) && testId in old(sessions)[token].allTests ==>
                var s := old(sessions)[token];
                var k := s.allTests[testId];
                (r.Success? <==> forall i :: 0 <= i < |descriptors| ==> resolve(descriptors[i]).Some?) &&
                (r.Success? ==>
                   r.value == NO_CONTENT &&
                   sessions == old(sessions)[token := WithNode(s, k, WithResources(s.nodes[k],
                                 ResolvedUpTo(descriptors, resolve, |descriptors|)))]) &&
                (r.Failure? ==>
                   exists i :: 0 <= i < |descriptors| && resolve(descriptors[i]).None? &&
                     (forall j :: 0 <= j < i ==> resolve(descriptors[j]).Some?) &&
                     r.error == NoSuchResource(descriptors[i]) &&
                     sessions == old(sessions)[token := WithNode(s, k, WithResources(s.nodes[k],
                                   ResolvedUpTo(descriptors, resolve, i)))])
    {
      if token !in sessions {
        return Failure(UnknownToken(token));
      }
      var session := sessions[token];
      if testId !in session.allTests {
        return Failure(UnknownTest(testId));
      }
      var k := session.allTests[testId];
      var used: set<ResourceId> := {};
      sessions := sessions[token := WithNode(session, k, WithResources(session.nodes[k], used))];
      var i := 0;
      while i < |descriptors|
        invariant 0 <= i <= |descriptors|
        invariant forall j :: 0 <= j < i ==> resolve(descriptors[j]).Some?
        invariant used == ResolvedUpTo(descriptors, resolve, i)
        invariant sessions == old(sessions)[token := WithNode(session, k, WithResources(session.nodes[k], used))]
      {
        var resource := resolve(descriptors[i]);
        if resource.None? {
          return Failure(NoSuchResource(descriptors[i]));
        }
        ResolvedUpToStep(descriptors, resolve, i);
        used := used + {resource.value};
        sessions := sessions[token := WithNode(session, k, WithResources(session.nodes[k], used))];
        i := i + 1;
      }
      r := Success(NO_CONTENT);
    }
  }
}
