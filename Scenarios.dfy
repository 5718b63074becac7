/**
 * The scenarios of keypath/_core_test.py on concrete object graphs: a
 * plain chain and its re-resolution after a mutation, a cyclic graph, the
 * common mistakes, recovery after a failed read, and a computed member
 * whose getter reads further members.
 */
module Scenarios {
  import opened Wrappers
  import opened ObjectGraph
  import opened KeyPaths
  import opened Recording
  import opened RecorderProperties
  import opened Threads

  /** `a` (an `A`) whose `b` (a `B`) holds `c == leaf`; both classes support key-paths. */
  function LeafGraph(leaf: int): Graph {
    Graph({0, 1}, map[0 := map["b" := Stored(Ref(1))], 1 := map["c" := Stored(Int(leaf))]])
  }

  /** `a.a is a`, `a.b.b is a.b`, and `a.b.c` is an object of a class that does not support key-paths. */
  const CycleGraph: Graph :=
    Graph({0, 1},
          map[0 := map["a" := Stored(Ref(0)), "b" := Stored(Ref(1))],
              1 := map["b" := Stored(Ref(1)), "c" := Stored(Ref(2))],
              2 := map[]])

  /** `a.b.c` is an object of a class `C` that does not support key-paths and has no members. */
  const PlainLeafGraph: Graph :=
    Graph({0, 1}, map[0 := map["b" := Stored(Ref(1))], 1 := map["c" := Stored(Ref(2))], 2 := map[]])

  /** `c.v0` returns `self.v1.v2`, `c.v1` returns `self`, `c.v2` returns `0`; all three are properties. */
  const ComputedGraph: Graph :=
    Graph({0},
          map[0 := map["v0" := Computed(Attr(Attr(This, "v1"), "v2")),
                       "v1" := Computed(This),
                       "v2" := Computed(Const(Int(0)))]])

  /**
   * `KeyPath.of(a.b.c) == KeyPath(target=a, keys=("b", "c"))`; calling it
   * gives `0`, and after `a.b.c = 1` calling it again gives `1`.
   */
  lemma ChainThenMutate(depth: nat)
    ensures Capture(LeafGraph(0), Chain(Const(Ref(0)), ["b", "c"]), None, depth) ==
            Step(Success(Make(Ref(0), Keys(["b", "c"]))), None)
    ensures Equal(Make(Ref(0), Dotted("b.c")), Make(Ref(0), Keys(["b", "c"])))
    ensures Resolve(LeafGraph(0), Ref(0), ["b", "c"], None, depth) == Step(Success(Int(0)), None)
    ensures SetAttr(LeafGraph(0), 1, "c", Int(1)) == LeafGraph(1)
    ensures Resolve(LeafGraph(1), Ref(0), ["b", "c"], None, depth) == Step(Success(Int(1)), None)
  {
    assert map["c" := Stored(Int(0))]["c" := Stored(Int(1))] == map["c" := Stored(Int(1))];
    assert ChainSupported(LeafGraph(0), Ref(0), ["b", "c"], depth);
    CaptureChain(LeafGraph(0), Ref(0), ["b", "c"], depth);
    assert Join(["b", "c"]) == "b.c";
    DottedMatchesKeys(Ref(0), ["b", "c"]);
  }

  /** `KeyPath.of(a.a.b.b.c) == KeyPath(target=a, keys=("a", "b", "b", "c"))`. */
  lemma CycleReference(depth: nat)
    ensures Capture(CycleGraph, Chain(Const(Ref(0)), ["a", "b", "b", "c"]), None, depth) ==
            Step(Success(KeyPath(Ref(0), ["a", "b", "b", "c"])), None)
  {
    assert ChainSupported(CycleGraph, Ref(0), ["a", "b", "b", "c"], depth);
    CaptureChain(CycleGraph, Ref(0), ["a", "b", "b", "c"], depth);
  }

  /** `KeyPath.of(a)` and `KeyPath.of(a.b.c is not None)` are refused. */
  lemma CommonMistakes(depth: nat)
    ensures Capture(PlainLeafGraph, Const(Ref(0)), None, depth) == Step(Failure(NoKeyRecorded), None)
    ensures Capture(PlainLeafGraph, IsNotNone(Chain(Const(Ref(0)), ["b", "c"])), None, depth) ==
            Step(Failure(BrokenChain), None)
  {
    CaptureWithoutRead(PlainLeafGraph, Ref(0), depth);
    assert ChainSupported(PlainLeafGraph, Ref(0), ["b", "c"], depth);
    assert PlainResolve(PlainLeafGraph, Ref(0), ["b", "c"], depth) == Success(Ref(2));
    CaptureOfComparisonBreaks(PlainLeafGraph, Ref(0), ["b", "c"], depth);
  }

  /** `a.f` holds a boolean; the class of `a` supports key-paths. */
  function FlagGraph(flag: bool): Graph {
    Graph({0}, map[0 := map["f" := Stored(Bool(flag))]])
  }

  /**
   * `KeyPath.of(a.f is not None)` is accepted when `a.f` is `True`, since the
   * comparison's result is then the end of the recorded chain, and refused
   * as broken when `a.f` is `False`.
   */
  lemma ComparisonAtBoolean(depth: nat)
    ensures Capture(FlagGraph(true), IsNotNone(Chain(Const(Ref(0)), ["f"])), None, depth) ==
            Step(Success(KeyPath(Ref(0), ["f"])), None)
    ensures Capture(FlagGraph(false), IsNotNone(Chain(Const(Ref(0)), ["f"])), None, depth) ==
            Step(Failure(BrokenChain), None)
  {
    assert ChainSupported(FlagGraph(true), Ref(0), ["f"], depth);
    assert PlainResolve(FlagGraph(true), Ref(0), ["f"], depth) == Success(Bool(true));
    CaptureOfComparisonAtTrue(FlagGraph(true), Ref(0), ["f"], depth);
    assert ChainSupported(FlagGraph(false), Ref(0), ["f"], depth);
    assert PlainResolve(FlagGraph(false), Ref(0), ["f"], depth) == Success(Bool(false));
    CaptureOfComparisonBreaks(FlagGraph(false), Ref(0), ["f"], depth);
  }

  /** `a.b` is an object `s` of a class that does not support key-paths, and `s.s is s`. */
  const SelfLoopGraph: Graph :=
    Graph({0}, map[0 := map["b" := Stored(Ref(1))], 1 := map["s" := Stored(Ref(1))]])

  /** `KeyPath.of(a.b.s)` is accepted as `KeyPath(a, ("b",))`: the key `s` is dropped. */
  lemma SelfLoopDropsKey(depth: nat)
    ensures Capture(SelfLoopGraph, Chain(Const(Ref(0)), ["b", "s"]), None, depth) ==
            Step(Success(KeyPath(Ref(0), ["b"])), None)
  {
    assert ChainSupported(SelfLoopGraph, Ref(0), ["b"], depth);
    assert PlainResolve(SelfLoopGraph, Ref(0), ["b"], depth) == Success(Ref(1));
    assert ["b", "s"] == ["b"] + ["s"];
    CaptureThroughUnsupportedSelfLoop(SelfLoopGraph, Ref(0), ["b"], "s", depth);
  }

  /**
   * `KeyPath.of(a.b.c.d)` raises the lookup failure for `d`, and a
   * following `KeyPath.of(a.b.c)` on the same thread succeeds.
   */
  lemma ErrorHandling(depth: nat)
    ensures Capture(PlainLeafGraph, Chain(Const(Ref(0)), ["b", "c", "d"]), None, depth) ==
            Step(Failure(NoSuchAttribute("d")), None)
    ensures Capture(PlainLeafGraph, Chain(Const(Ref(0)), ["b", "c"]), None, depth) ==
            Step(Success(KeyPath(Ref(0), ["b", "c"])), None)
  {
    assert ChainSupported(PlainLeafGraph, Ref(0), ["b", "c"], depth);
    CaptureChain(PlainLeafGraph, Ref(0), ["b", "c"], depth);
    assert ["b", "c", "d"] == ["b", "c"] + ["d"];
    assert PlainResolve(PlainLeafGraph, Ref(0), ["b", "c"], depth) == Success(Ref(2));
    CaptureOfMissingMember(PlainLeafGraph, Ref(0), ["b", "c"], "d", depth);
  }

  /**
   * `KeyPath.of(c.v0) == KeyPath(target=c, keys=("v0",))`: the reads the
   * getter of `v0` performs happen while the recorder is busy and are not recorded.
   */
  lemma InternalReference(depth: nat)
    requires depth >= 2
    ensures Capture(ComputedGraph, Attr(Const(Ref(0)), "v0"), None, depth) ==
            Step(Success(KeyPath(Ref(0), ["v0"])), None)
  {
    assert PlainRead(ComputedGraph, Ref(0), "v1", depth - 1) == Success(Ref(0));
    assert PlainEval(ComputedGraph, Attr(This, "v1"), Ref(0), depth - 1) == Success(Ref(0));
    assert PlainRead(ComputedGraph, Ref(0), "v2", depth - 1) == Success(Int(0));
    assert PlainEval(ComputedGraph, Attr(Attr(This, "v1"), "v2"), Ref(0), depth - 1) == Success(Int(0));
    assert PlainRead(ComputedGraph, Ref(0), "v0", depth) == Success(Int(0));
    assert ChainSupported(ComputedGraph, Ref(0), ["v0"], depth);
    CaptureChain(ComputedGraph, Ref(0), ["v0"], depth);
  }

  /**
   * The same scenario on a thread object: the first `KeyPath.of(a.b.c.d)`
   * raises, and the thread's next `KeyPath.of(a.b.c)` succeeds.
   */
  method RecoverAfterMissingMember(depth: nat) returns (failed: Result<KeyPath, Error>, recovered: Result<KeyPath, Error>)
    ensures failed == Failure(NoSuchAttribute("d"))
    ensures recovered == Success(KeyPath(Ref(0), ["b", "c"]))
  {
    ErrorHandling(depth);
    var t := new Thread();
    failed := t.Capture(PlainLeafGraph, Chain(Const(Ref(0)), ["b", "c", "d"]), depth);
    recovered := t.Capture(PlainLeafGraph, Chain(Const(Ref(0)), ["b", "c"]), depth);
  }

  /**
   * `of = KeyPath.of; of(a.b.c); of(a.b.c)` on a thread object: the first
   * call returns the key-path, the second finds no recorder and fails.
   */
  method SavedOfCalledTwice(depth: nat) returns (first: Result<KeyPath, Error>, second: Result<KeyPath, Error>)
    ensures first == Success(KeyPath(Ref(0), ["b", "c"]))
    ensures second == Failure(NotCalledDirectly)
  {
    var g := PlainLeafGraph;
    var e := Chain(Const(Ref(0)), ["b", "c"]);
    assert ChainSupported(g, Ref(0), ["b", "c"], depth);
    CaptureChain(g, Ref(0), ["b", "c"], depth);
    SecondCallRefused(g, Ref(0), ["b", "c"], depth);
    var t := new Thread();
    var of := t.Open();
    var f := of.value;
    var v := t.Eval(g, e, Nil, depth);
    first := f.Call(v.value);
    v := t.Eval(g, e, Nil, depth);
    second := f.Call(v.value);
    f.Del();
  }

  /** `KeyPath.of` looked up again before the first one was called is refused; the first recorder stays. */
  method NestedOf() returns (outer: Result<OfFunction, Error>, inner: Result<OfFunction, Error>)
    ensures outer.Success? && inner == Failure(UnfinishedRecorder)
  {
    var t := new Thread();
    outer := t.Open();
    inner := t.Open();
  }
}
