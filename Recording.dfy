/**
 * The key-path recorder of one thread, as a state machine over values.
 *
 * A thread's slot holds no recorder or one recorder. `Open` installs a fresh
 * recorder, `Access` is the hook every member read on a supporting object
 * goes through, `Commit` removes the recorder and builds the key-path, and
 * `Discard` removes a recorder that was never committed. `Eval` evaluates an
 * expression under the hook, `Resolve` is the re-traversal a key-path
 * performs when called, and `Capture` is `KeyPath.of(e)` as the host
 * language runs it: open, evaluate the argument, then commit or discard.
 */
module Recording {
  import opened Wrappers
  import opened ObjectGraph
  import opened KeyPaths

  /** The start object of the recorded chain and the value its last read produced. */
  datatype Terminals = Terminals(start: Value, end: Value)

  /** The fields of a recorder. */
  datatype RecState = RecState(terminals: Option<Terminals>, keyList: seq<string>, busy: bool)

  /** The recorder slot of one thread. */
  type Slot = Option<RecState>

  /** What an operation raised or returned, and the thread's slot afterwards. */
  datatype Step<+T> = Step(result: Result<T, Error>, slot: Slot)

  /** A recorder as it is created. */
  const Fresh := RecState(None, [], false)

  /** No read is recorded now: there is no recorder, or it is busy with another read. */
  predicate Quiet(s: Slot) {
    s.None? || s.value.busy
  }

  /** A chain has been started exactly when a key has been recorded. */
  predicate Consistent(rs: RecState) {
    rs.terminals.None? <==> rs.keyList == []
  }

  /** The slot as it is between two reads: empty, or a consistent recorder that is not busy. */
  predicate Idle(s: Slot) {
    s.None? || (!s.value.busy && Consistent(s.value))
  }

  /**
   * What every evaluation step keeps: the slot neither appears nor
   * disappears; the key list only grows; a started chain keeps its start;
   * consistency is kept.
   */
  ghost predicate Keeps(s: Slot, st: Step<Value>) {
    && (st.slot.Some? <==> s.Some?)
    && (s.Some? && st.slot.Some? ==>
          && s.value.keyList <= st.slot.value.keyList
          && (s.value.terminals.Some? ==>
                st.slot.value.terminals.Some? &&
                st.slot.value.terminals.value.start == s.value.terminals.value.start)
          && (Consistent(s.value) ==> Consistent(st.slot.value)))
  }

  /**
   * A step that returns normally leaves an idle slot idle, provided nothing
   * it ran caught a failure: a failed read leaves the recorder busy, so
   * returning normally after one (through `hasattr`) leaves it busy too.
   */
  ghost predicate StaysIdle(s: Slot, st: Step<Value>) {
    Idle(s) && st.result.Success? ==> Idle(st.slot)
  }

  /** `KeyPath.of` being looked up: refuses when a recorder is installed, else installs a fresh one. */
  function Open(s: Slot): (st: Step<()>)
    ensures st.result.Success? <==> s.None?
    ensures s.Some? ==> st.result == Failure(UnfinishedRecorder) && st.slot == s
    ensures s.None? ==> st.slot == Some(RecState(None, [], false))
  {
    if s.Some? then Step(Failure(UnfinishedRecorder), s) else Step(Success(()), Some(Fresh))
  }

  /** The recorder after `key` was read from `self` and produced `value`. */
  function Recorded(rs: RecState, self: Value, key: string, value: Value): RecState {
    var terminals := match rs.terminals
      case None => Terminals(self, value)
      case Some(t) => t.(end := value);
    RecState(Some(terminals), rs.keyList + [key], false)
  }

  /**
   * The real member read (`super().__getattribute__`, or plain `getattr` on
   * an object that does not support key-paths). A computed member runs its
   * getter, whose own reads go through the hook again.
   */
  function Read(g: Graph, recv: Value, key: string, s: Slot, depth: nat): (st: Step<Value>)
    ensures Quiet(s) ==> st == Step(PlainRead(g, recv, key, depth), s)
    ensures st.result == PlainRead(g, recv, key, depth) || st.result == Failure(BrokenChain)
    ensures Keeps(s, st)
    ensures GraphCatchFree(g) ==> StaysIdle(s, st)
    decreases depth, 0
  {
    match MemberOf(g, recv, key)
    case None => Step(Failure(NoSuchAttribute(key)), s)
    case Some(Stored(v)) => Step(Success(v), s)
    case Some(Computed(body)) =>
      if depth == 0 then Step(Failure(RecursionDepthExceeded), s) else Eval(g, body, recv, s, depth - 1)
  }

  /**
   * `KeyPathSupporting.__getattribute__`: with no recorder, or a busy one,
   * the read passes straight through. Otherwise the recorder is marked busy;
   * a read whose receiver is not the end of the chain so far is refused as
   * broken; else the real read runs and, if it returns, `key` is appended,
   * the chain starts at `self` if it had not started, its end moves to the
   * value read, and the recorder is no longer busy. When a read raises, the
   * recorder stays busy.
   */
  function Access(g: Graph, self: Value, key: string, s: Slot, depth: nat): (st: Step<Value>)
    requires Supports(g, self)
    ensures Quiet(s) ==> st == Step(PlainRead(g, self, key, depth), s)
    ensures st.result == PlainRead(g, self, key, depth) || st.result == Failure(BrokenChain)
    ensures Keeps(s, st)
    ensures GraphCatchFree(g) ==> StaysIdle(s, st)
    ensures s.Some? && !s.value.busy ==>
      (st.result == Failure(BrokenChain) <==>
         s.value.terminals.Some? && s.value.terminals.value.end != self)
    ensures s.Some? && !s.value.busy && st.result.Failure? ==> st.slot == Some(s.value.(busy := true))
    ensures s.Some? && !s.value.busy && st.result.Success? ==>
      && st.slot.Some?
      && st.slot.value.keyList == s.value.keyList + [key]
      && st.slot.value.terminals.Some?
      && st.slot.value.terminals.value.start ==
           (if s.value.terminals.None? then self else s.value.terminals.value.start)
      && st.slot.value.terminals.value.end == st.result.value
      && !st.slot.value.busy
    decreases depth, 1
  {
    match s
    case None => Read(g, self, key, s, depth)
    case Some(rs) =>
      if rs.busy then Read(g, self, key, s, depth)
      else
        var claimed := rs.(busy := true);
        if rs.terminals.Some? && rs.terminals.value.end != self then
          Step(Failure(BrokenChain), Some(claimed))
        else
          var read := Read(g, self, key, Some(claimed), depth);
          if read.result.Failure? then read
          else Step(read.result, Some(Recorded(claimed, self, key, read.result.value)))
  }

  /** `getattr(recv, key)`: through the hook when `recv` supports key-paths. */
  function GetAttr(g: Graph, recv: Value, key: string, s: Slot, depth: nat): (st: Step<Value>)
    ensures Quiet(s) ==> st == Step(PlainRead(g, recv, key, depth), s)
    ensures st.result == PlainRead(g, recv, key, depth) || st.result == Failure(BrokenChain)
    ensures Keeps(s, st)
    ensures GraphCatchFree(g) ==> StaysIdle(s, st)
    decreases depth, 2
  {
    if Supports(g, recv) then Access(g, recv, key, s, depth) else Read(g, recv, key, s, depth)
  }

  /**
   * Evaluates `e` with every member read going through `GetAttr`. The
   * recorder never changes a value the expression produces: the result is the
   * one without the recorder, or the recorder refuses the chain as broken.
   */
  function Eval(g: Graph, e: Expr, self: Value, s: Slot, depth: nat): (st: Step<Value>)
    ensures Quiet(s) ==> st == Step(PlainEval(g, e, self, depth), s)
    ensures st.result == PlainEval(g, e, self, depth) || st.result == Failure(BrokenChain)
    ensures Keeps(s, st)
    ensures GraphCatchFree(g) && CatchFree(e) ==> StaysIdle(s, st)
    decreases depth, 3, e
  {
    match e
    case Const(v) => Step(Success(v), s)
    case This => Step(Success(self), s)
    case Attr(obj, key) =>
      var o := Eval(g, obj, self, s, depth);
      if o.result.Failure? then o else GetAttr(g, o.result.value, key, o.slot, depth)
    case IsNotNone(operand) =>
      var o := Eval(g, operand, self, s, depth);
      if o.result.Failure? then o else Step(Success(Bool(o.result.value != Nil)), o.slot)
    case Then(first, second) =>
      var f := Eval(g, first, self, s, depth);
      if f.result.Failure? then f else Eval(g, second, self, f.slot, depth)
    case HasAttr(obj, key) =>
      var o := Eval(g, obj, self, s, depth);
      if o.result.Failure? then o
      else
        var read := GetAttr(g, o.result.value, key, o.slot, depth);
        Step(Caught(read.result), read.slot)
  }

  /** `KeyPath.__call__`: `getattr` on each key in turn, starting from `v`. */
  function Resolve(g: Graph, v: Value, keys: seq<string>, s: Slot, depth: nat): (st: Step<Value>)
    ensures Quiet(s) ==> st == Step(PlainResolve(g, v, keys, depth), s)
    decreases |keys|
  {
    if keys == [] then Step(Success(v), s)
    else
      var next := GetAttr(g, v, keys[0], s, depth);
      if next.result.Failure? then next else Resolve(g, next.result.value, keys[1..], next.slot, depth)
  }

  /**
   * `_KeyPathOfFunction.__call__`: removes the recorder whatever happens,
   * then fails when there was none, fails when no key was recorded, fails
   * as broken when `value` is not the end of the recorded chain, and
   * otherwise returns the key-path from the chain's start along the recorded keys.
   */
  function Commit(s: Slot, value: Value): (st: Step<KeyPath>)
    ensures st.slot == None
    ensures s.None? ==> st.result == Failure(NotCalledDirectly)
    ensures Idle(s) && s.Some? && s.value.terminals.None? ==> st.result == Failure(NoKeyRecorded)
    ensures Idle(s) && s.Some? && s.value.terminals.Some? && s.value.terminals.value.end != value ==>
      st.result == Failure(BrokenChain)
    ensures st.result.Success? <==>
      && Idle(s) && s.Some? && s.value.terminals.Some?
      && s.value.terminals.value.end == value
    ensures st.result.Success? ==>
      st.result.value == KeyPath(s.value.terminals.value.start, s.value.keyList) &&
      st.result.value.keys != []
    ensures st.result == Failure(AssertionFailed) ==> !Idle(s)
  {
    match s
    case None => Step(Failure(NotCalledDirectly), None)
    case Some(rs) =>
      if rs.busy then Step(Failure(AssertionFailed), None)
      else if rs.terminals.None? then
        if |rs.keyList| != 0 then Step(Failure(AssertionFailed), None)
        else Step(Failure(NoKeyRecorded), None)
      else if |rs.keyList| == 0 then Step(Failure(AssertionFailed), None)
      else if rs.terminals.value.end != value then Step(Failure(BrokenChain), None)
      else Step(Success(KeyPath(rs.terminals.value.start, rs.keyList)), None)
  }

  /** `_KeyPathOfFunction.__del__`: a function object that was never called removes the recorder. */
  function Discard(called: bool, s: Slot): (s': Slot)
    ensures !called ==> s' == None
    ensures called ==> s' == s
  {
    if called then s else None
  }

  /**
   * `KeyPath.of(e)`: looking up `KeyPath.of` opens a recorder, the argument is
   * evaluated under it, and the call commits; if the argument raises, the
   * uncalled function object is dropped and discards the recorder.
   */
  function Capture(g: Graph, e: Expr, s: Slot, depth: nat): (st: Step<KeyPath>)
    ensures s.Some? ==> st == Step(Failure(UnfinishedRecorder), s)
    ensures s.None? ==> st.slot == None
    ensures GraphCatchFree(g) && CatchFree(e) ==> st.result != Failure(AssertionFailed)
    ensures st.result.Success? ==> st.result.value.keys != []
  {
    var installed := Open(s);
    if installed.result.Failure? then Step(Failure(installed.result.error), installed.slot)
    else
      var ev := Eval(g, e, Nil, installed.slot, depth);
      if ev.result.Failure? then Step(Failure(ev.result.error), Discard(false, ev.slot))
      else Commit(ev.slot, ev.result.value)
  }
}
