/**
 * What the recorder achieves over whole expressions: a chain of reads on
 * supporting objects is recorded key by key, `KeyPath.of` of such a chain
 * is the key-path from its root along its keys, every key-path it returns
 * leads back to the value the expression produced, and the expressions that
 * are not such chains are refused.
 */
module RecorderProperties {
  import opened Wrappers
  import opened ObjectGraph
  import opened KeyPaths
  import opened Recording

  /** Evaluating a member chain under the hook is resolving its keys from the base's value. */
  lemma {:induction false} EvalChain(g: Graph, base: Expr, keys: seq<string>, self: Value, s: Slot, depth: nat)
    ensures Eval(g, Chain(base, keys), self, s, depth) ==
      var b := Eval(g, base, self, s, depth);
      if b.result.Failure? then b else Resolve(g, b.result.value, keys, b.slot, depth)
    decreases |keys|
  {
    if keys != [] {
      EvalChain(g, Attr(base, keys[0]), keys[1..], self, s, depth);
    }
  }

  /** `base.keys...k` is the chain `base.keys...` followed by one more read of `k`. */
  lemma {:induction false} ChainSnoc(base: Expr, keys: seq<string>, k: string)
    ensures Chain(base, keys + [k]) == Attr(Chain(base, keys), k)
    decreases |keys|
  {
    if keys == [] {
      assert [] + [k] == [k];
    } else {
      assert (keys + [k])[1..] == keys[1..] + [k];
      ChainSnoc(Attr(base, keys[0]), keys[1..], k);
    }
  }

  /**
   * Resolving a chain of supporting receivers from the end of the chain
   * recorded so far appends every key, starts the chain at `v` if it had not
   * started, ends it at the value reached, and leaves the recorder idle.
   */
  lemma {:induction false} RecordChain(g: Graph, v: Value, keys: seq<string>, rs: RecState, depth: nat)
    requires ChainSupported(g, v, keys, depth)
    requires !rs.busy && Consistent(rs)
    requires rs.terminals.None? || rs.terminals.value.end == v
    ensures var st := Resolve(g, v, keys, Some(rs), depth);
      && st.result == PlainResolve(g, v, keys, depth)
      && st.result.Success?
      && st.slot.Some? && !st.slot.value.busy
      && st.slot.value.keyList == rs.keyList + keys
      && (keys != [] ==>
            st.slot.value.terminals ==
              Some(Terminals(if rs.terminals.None? then v else rs.terminals.value.start, st.result.value)))
    decreases |keys|
  {
    if keys == [] {
      assert rs.keyList + keys == rs.keyList;
    } else {
      var next := GetAttr(g, v, keys[0], Some(rs), depth);
      RecordChain(g, next.result.value, keys[1..], next.slot.value, depth);
      assert rs.keyList + keys == rs.keyList + [keys[0]] + keys[1..];
    }
  }

  /**
   * `KeyPath.of(root.k1...kn)` where every receiver supports key-paths is
   * `KeyPath(root, [k1, ..., kn])`, and the thread's slot is empty again.
   * Nothing is assumed about the objects being distinct: a chain may
   * revisit an object any number of times.
   */
  lemma CaptureChain(g: Graph, root: Value, keys: seq<string>, depth: nat)
    requires |keys| >= 1 && ChainSupported(g, root, keys, depth)
    ensures Capture(g, Chain(Const(root), keys), None, depth) == Step(Success(KeyPath(root, keys)), None)
  {
    EvalChain(g, Const(root), keys, Nil, Some(Fresh), depth);
    RecordChain(g, root, keys, Fresh, depth);
    assert [] + keys == keys;
  }

  /**
   * A recording is sound for `top` when it is consistent and following its
   * keys from its start, with no recorder, reaches its end.
   */
  ghost predicate Sound(g: Graph, rs: RecState, top: nat) {
    && Consistent(rs)
    && (rs.terminals.Some? ==>
          PlainResolve(g, rs.terminals.value.start, rs.keyList, top) == Success(rs.terminals.value.end))
  }

  /** A member read, recorded or not, keeps the recording sound. */
  lemma {:induction false} GetAttrSound(g: Graph, recv: Value, key: string, s: Slot, depth: nat, top: nat)
    requires depth <= top && s.Some? && Sound(g, s.value, top)
    ensures GetAttr(g, recv, key, s, depth).slot.Some?
    ensures Sound(g, GetAttr(g, recv, key, s, depth).slot.value, top)
    decreases depth, 0
  {
    var rs := s.value;
    if Supports(g, recv) && !rs.busy {
      var st := Access(g, recv, key, s, depth);
      if st.result.Success? {
        PlainReadMonotonic(g, recv, key, depth, top);
        if rs.terminals.Some? {
          PlainResolveSnoc(g, rs.terminals.value.start, rs.keyList, key, top);
        } else {
          assert [] + [key] == [key];
        }
      }
    } else if !Supports(g, recv) {
      match MemberOf(g, recv, key)
      case None =>
      case Some(Stored(_)) =>
      case Some(Computed(body)) =>
        if depth > 0 {
          EvalSound(g, body, recv, s, depth - 1, top);
        }
    }
  }

  /** Evaluating an expression under the hook keeps the recording sound. */
  lemma {:induction false} EvalSound(g: Graph, e: Expr, self: Value, s: Slot, depth: nat, top: nat)
    requires depth <= top && s.Some? && Sound(g, s.value, top)
    ensures Eval(g, e, self, s, depth).slot.Some?
    ensures Sound(g, Eval(g, e, self, s, depth).slot.value, top)
    decreases depth, 1, e
  {
    match e
    case Const(_) =>
    case This =>
    case Attr(obj, key) =>
      EvalSound(g, obj, self, s, depth, top);
      var o := Eval(g, obj, self, s, depth);
      if o.result.Success? {
        GetAttrSound(g, o.result.value, key, o.slot, depth, top);
      }
    case IsNotNone(operand) =>
      EvalSound(g, operand, self, s, depth, top);
    case Then(first, second) =>
      EvalSound(g, first, self, s, depth, top);
      var f := Eval(g, first, self, s, depth);
      if f.result.Success? {
        EvalSound(g, second, self, f.slot, depth, top);
      }
    case HasAttr(obj, key) =>
      EvalSound(g, obj, self, s, depth, top);
      var o := Eval(g, obj, self, s, depth);
      if o.result.Success? {
        GetAttrSound(g, o.result.value, key, o.slot, depth, top);
      }
  }

  /**
   * Every key-path `KeyPath.of(e)` returns leads back to the value `e`
   * produced: calling it (with no recorder installed) re-reads its keys
   * from its target and returns exactly that value.
   */
  lemma CapturedPathResolves(g: Graph, e: Expr, depth: nat)
    requires Capture(g, e, None, depth).result.Success?
    ensures PlainEval(g, e, Nil, depth).Success?
    ensures var p := Capture(g, e, None, depth).result.value;
      Resolve(g, p.target, p.keys, None, depth) == Step(PlainEval(g, e, Nil, depth), None)
  {
    EvalSound(g, e, Nil, Some(Fresh), depth, depth);
  }

  /** `KeyPath.of(a)`: an expression that reads no member records no key and is refused. */
  lemma CaptureWithoutRead(g: Graph, v: Value, depth: nat)
    ensures Capture(g, Const(v), None, depth) == Step(Failure(NoKeyRecorded), None)
  {
  }

  /**
   * `KeyPath.of(a.b.c is not None)`: unless the chain ends at `True`, the
   * comparison yields a boolean that is not the end of the recorded chain,
   * so the commit refuses it as broken.
   */
  lemma CaptureOfComparisonBreaks(g: Graph, root: Value, keys: seq<string>, depth: nat)
    requires |keys| >= 1 && ChainSupported(g, root, keys, depth)
    requires PlainResolve(g, root, keys, depth).Success? && PlainResolve(g, root, keys, depth).value != Bool(true)
    ensures Capture(g, IsNotNone(Chain(Const(root), keys)), None, depth) == Step(Failure(BrokenChain), None)
  {
    EvalChain(g, Const(root), keys, Nil, Some(Fresh), depth);
    RecordChain(g, root, keys, Fresh, depth);
  }

  /**
   * `KeyPath.of(a.b.c is not None)` where `a.b.c` is `True`: the comparison
   * yields `True`, which is the end of the recorded chain, so the commit
   * accepts it and returns the chain's key-path.
   */
  lemma CaptureOfComparisonAtTrue(g: Graph, root: Value, keys: seq<string>, depth: nat)
    requires |keys| >= 1 && ChainSupported(g, root, keys, depth)
    requires PlainResolve(g, root, keys, depth) == Success(Bool(true))
    ensures Capture(g, IsNotNone(Chain(Const(root), keys)), None, depth) == Step(Success(KeyPath(root, keys)), None)
  {
    EvalChain(g, Const(root), keys, Nil, Some(Fresh), depth);
    RecordChain(g, root, keys, Fresh, depth);
    var chain := Eval(g, Chain(Const(root), keys), Nil, Some(Fresh), depth);
    assert chain == Resolve(g, root, keys, Some(Fresh), depth);
    assert chain.slot == Some(RecState(Some(Terminals(root, Bool(true))), keys, false)) by {
      assert [] + keys == keys;
    }
    assert Eval(g, IsNotNone(Chain(Const(root), keys)), Nil, Some(Fresh), depth) == Step(Success(Bool(true)), chain.slot);
  }

  /**
   * A chain whose last receiver does not support key-paths: its last read
   * is not recorded, so the value produced is not the end of the recorded
   * chain and the commit refuses it as broken.
   */
  lemma CaptureThroughUnsupportedBreaks(g: Graph, root: Value, keys: seq<string>, k: string, depth: nat)
    requires |keys| >= 1 && ChainSupported(g, root, keys, depth)
    requires PlainResolve(g, root, keys, depth).Success?
    requires var w := PlainResolve(g, root, keys, depth).value;
      && !Supports(g, w)
      && MemberOf(g, w, k).Some? && MemberOf(g, w, k).value.Stored?
      && MemberOf(g, w, k).value.value != w
    ensures Capture(g, Chain(Const(root), keys + [k]), None, depth) == Step(Failure(BrokenChain), None)
  {
    ChainSnoc(Const(root), keys, k);
    EvalChain(g, Const(root), keys, Nil, Some(Fresh), depth);
    RecordChain(g, root, keys, Fresh, depth);
    var prefix := Eval(g, Chain(Const(root), keys), Nil, Some(Fresh), depth);
    var w := PlainResolve(g, root, keys, depth).value;
    assert prefix.result == Success(w);
    assert [] + keys == keys;
    assert prefix.slot == Some(RecState(Some(Terminals(root, w)), keys, false));
    var x := MemberOf(g, w, k).value.value;
    assert Read(g, w, k, prefix.slot, depth) == Step(Success(x), prefix.slot);
    assert Eval(g, Attr(Chain(Const(root), keys), k), Nil, Some(Fresh), depth) == Step(Success(x), prefix.slot);
    assert Commit(prefix.slot, x) == Step(Failure(BrokenChain), None);
  }

  /**
   * A chain whose last receiver `w` does not support key-paths, where
   * `w.k is w`: the last read is not recorded, but its value is the end of
   * the recorded chain, so the commit accepts the chain without `k`.
   */
  lemma CaptureThroughUnsupportedSelfLoop(g: Graph, root: Value, keys: seq<string>, k: string, depth: nat)
    requires |keys| >= 1 && ChainSupported(g, root, keys, depth)
    requires PlainResolve(g, root, keys, depth).Success?
    requires var w := PlainResolve(g, root, keys, depth).value;
      && !Supports(g, w)
      && MemberOf(g, w, k) == Some(Stored(w))
    ensures Capture(g, Chain(Const(root), keys + [k]), None, depth) == Step(Success(KeyPath(root, keys)), None)
  {
    ChainSnoc(Const(root), keys, k);
    EvalChain(g, Const(root), keys, Nil, Some(Fresh), depth);
    RecordChain(g, root, keys, Fresh, depth);
    var prefix := Eval(g, Chain(Const(root), keys), Nil, Some(Fresh), depth);
    var w := PlainResolve(g, root, keys, depth).value;
    assert prefix.result == Success(w);
    assert [] + keys == keys;
    assert prefix.slot == Some(RecState(Some(Terminals(root, w)), keys, false));
    assert Read(g, w, k, prefix.slot, depth) == Step(Success(w), prefix.slot);
    assert Eval(g, Attr(Chain(Const(root), keys), k), Nil, Some(Fresh), depth) == Step(Success(w), prefix.slot);
  }

  /**
   * Reading a member the last receiver does not have raises the host's
   * lookup failure. On a supporting receiver the hook had already marked the
   * recorder busy and leaves it so; either way `KeyPath.of` then discards
   * the recorder, so the thread's slot is empty again.
   */
  lemma CaptureOfMissingMember(g: Graph, root: Value, keys: seq<string>, k: string, depth: nat)
    requires ChainSupported(g, root, keys, depth)
    requires PlainResolve(g, root, keys, depth).Success?
    requires MemberOf(g, PlainResolve(g, root, keys, depth).value, k).None?
    ensures Capture(g, Chain(Const(root), keys + [k]), None, depth) == Step(Failure(NoSuchAttribute(k)), None)
    ensures var st := Eval(g, Chain(Const(root), keys + [k]), Nil, Some(Fresh), depth);
      st.slot.Some? && (st.slot.value.busy <==> Supports(g, PlainResolve(g, root, keys, depth).value))
  {
    ChainSnoc(Const(root), keys, k);
    EvalChain(g, Const(root), keys, Nil, Some(Fresh), depth);
    RecordChain(g, root, keys, Fresh, depth);
    var prefix := Eval(g, Chain(Const(root), keys), Nil, Some(Fresh), depth);
    var w := PlainResolve(g, root, keys, depth).value;
    assert prefix.result == Success(w);
    assert prefix.slot.value.terminals.None? || prefix.slot.value.terminals.value.end == w by {
      if keys == [] {
        assert prefix.slot == Some(Fresh);
      }
    }
    if Supports(g, w) {
      var last := Access(g, w, k, prefix.slot, depth);
      assert last.result == Failure(NoSuchAttribute(k));
    } else {
      assert Read(g, w, k, prefix.slot, depth) == Step(Failure(NoSuchAttribute(k)), prefix.slot);
    }
    assert Eval(g, Attr(Chain(Const(root), keys), k), Nil, Some(Fresh), depth).result == Failure(NoSuchAttribute(k));
  }

  /**
   * `KeyPath.of((hasattr(a, k), a.keys...)[1])` where `a` supports key-paths
   * and has no member `k`: the hook marks the recorder busy before the read
   * raises, `hasattr` catches the failure, the recorder stays busy, so the
   * chain that follows is not recorded and the commit's check that the
   * recorder is not busy fails.
   */
  lemma CaughtFailureLeavesRecorderBusy(g: Graph, root: Value, k: string, keys: seq<string>, depth: nat)
    requires Supports(g, root) && MemberOf(g, root, k).None?
    requires ChainSupported(g, root, keys, depth)
    ensures Capture(g, Then(HasAttr(Const(root), k), Chain(Const(root), keys)), None, depth) ==
            Step(Failure(AssertionFailed), None)
  {
    var probe := Eval(g, HasAttr(Const(root), k), Nil, Some(Fresh), depth);
    assert Access(g, root, k, Some(Fresh), depth) == Step(Failure(NoSuchAttribute(k)), Some(Fresh.(busy := true)));
    assert GetAttr(g, root, k, Some(Fresh), depth) == Access(g, root, k, Some(Fresh), depth);
    assert Eval(g, Const(root), Nil, Some(Fresh), depth) == Step(Success(root), Some(Fresh));
    assert probe == Step(Success(Bool(false)), Some(Fresh.(busy := true)));
    EvalChain(g, Const(root), keys, Nil, probe.slot, depth);
    var chain := Eval(g, Chain(Const(root), keys), Nil, probe.slot, depth);
    assert chain.slot == probe.slot;
    ChainSupportedResolves(g, root, keys, depth);
    PlainEvalChain(g, Const(root), keys, Nil, depth);
    assert chain.result.Success?;
  }

  /**
   * A function object of `KeyPath.of` saved and called a second time: the
   * first call commits and empties the slot, so the second finds no
   * recorder, its argument is read without recording, and it fails.
   */
  lemma SecondCallRefused(g: Graph, root: Value, keys: seq<string>, depth: nat)
    requires |keys| >= 1 && ChainSupported(g, root, keys, depth)
    ensures var first := Capture(g, Chain(Const(root), keys), None, depth);
      var again := Eval(g, Chain(Const(root), keys), Nil, first.slot, depth);
      && first.result == Success(KeyPath(root, keys))
      && again.slot == None
      && again.result.Success?
      && Commit(again.slot, again.result.value) == Step(Failure(NotCalledDirectly), None)
  {
    CaptureChain(g, root, keys, depth);
    PlainEvalChain(g, Const(root), keys, Nil, depth);
    RecordChain(g, root, keys, Fresh, depth);
    EvalChain(g, Const(root), keys, Nil, Some(Fresh), depth);
  }

  /** Opening while a recorder is installed is refused and leaves that recorder as it was. */
  lemma NestedOpenRefused(rs: RecState)
    ensures Open(Open(None).slot) == Step(Failure(UnfinishedRecorder), Some(Fresh))
    ensures Open(Some(rs)) == Step(Failure(UnfinishedRecorder), Some(rs))
  {
  }
}
