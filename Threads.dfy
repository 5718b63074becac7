/**
 * The recorder as the objects that hold it: a thread's local storage with
 * its optional recorder, the recorder whose fields the hook updates in
 * place, and the function object `KeyPath.of` returns, which commits when
 * called and discards the recorder when dropped uncalled. Every method's
 * effect is the corresponding step of the `Recording` state machine.
 */
module Threads {
  import opened Wrappers
  import opened ObjectGraph
  import opened KeyPaths
  import opened Recording

  /** `_KeyPathRecorder`: the chain's terminals, the keys recorded so far, and the busy flag. */
  class Recorder {
    var terminals: Option<Terminals>
    var keyList: seq<string>
    var busy: bool

    constructor ()
      ensures terminals == None && keyList == [] && !busy
    {
      terminals := None;
      keyList := [];
      busy := false;
    }

    function Snapshot(): RecState
      reads this
    {
      RecState(terminals, keyList, busy)
    }
  }

  /** The thread-local storage of one thread, where at most one recorder is installed. */
  class Thread {
    var recorder: Recorder?

    constructor ()
      ensures recorder == null
    {
      recorder := null;
    }

    /** The thread's slot as a value. */
    ghost function State(): Slot
      reads this, recorder
    {
      if recorder == null then None else Some(recorder.Snapshot())
    }

    /** `KeyPath.of` being looked up: installs a fresh recorder unless one is installed already. */
    method Open() returns (r: Result<OfFunction, Error>)
      modifies this
      ensures r.Success? <==> old(recorder) == null
      ensures r.Failure? ==> r.error == UnfinishedRecorder && recorder == old(recorder)
      ensures r.Success? ==> fresh(recorder) && fresh(r.value) && r.value.thread == this && !r.value.called
      ensures State() == Recording.Open(old(State())).slot
    {
      if recorder != null {
        return Failure(UnfinishedRecorder);
      }
      var rec := new Recorder();
      recorder := rec;
      var f := new OfFunction(this);
      return Success(f);
    }

    /** The real member read; a computed member's getter runs under the hook. */
    method Read(g: Graph, recv: Value, key: string, depth: nat) returns (r: Result<Value, Error>)
      modifies recorder
      ensures Step(r, State()) == Recording.Read(g, recv, key, old(State()), depth)
      decreases depth, 0
    {
      match MemberOf(g, recv, key)
      case None =>
        r := Failure(NoSuchAttribute(key));
      case Some(Stored(v)) =>
        r := Success(v);
      case Some(Computed(body)) =>
        if depth == 0 {
          r := Failure(RecursionDepthExceeded);
        } else {
          r := Eval(g, body, recv, depth - 1);
        }
    }

    /** `KeyPathSupporting.__getattribute__`: records the read of `key` on `self` in this thread's recorder. */
    method Access(g: Graph, self: Value, key: string, depth: nat) returns (r: Result<Value, Error>)
      requires Supports(g, self)
      modifies recorder
      ensures Step(r, State()) == Recording.Access(g, self, key, old(State()), depth)
      decreases depth, 1
    {
      var rec := recorder;
      if rec == null || rec.busy {
        r := Read(g, self, key, depth);
        return;
      }
      rec.busy := true;
      var terminals := rec.terminals;
      if terminals.Some? && terminals.value.end != self {
        return Failure(BrokenChain);
      }
      r := Read(g, self, key, depth);
      if r.Failure? {
        return;
      }
      terminals := match terminals
        case None => Some(Terminals(self, r.value))
        case Some(t) => Some(t.(end := r.value));
      rec.terminals := terminals;
      rec.keyList := rec.keyList + [key];
      rec.busy := false;
    }

    /** `getattr(recv, key)`. */
    method GetAttr(g: Graph, recv: Value, key: string, depth: nat) returns (r: Result<Value, Error>)
      modifies recorder
      ensures Step(r, State()) == Recording.GetAttr(g, recv, key, old(State()), depth)
      decreases depth, 2
    {
      if Supports(g, recv) {
        r := Access(g, recv, key, depth);
      } else {
        r := Read(g, recv, key, depth);
      }
    }

    /** Evaluates `e` on this thread, every member read going through `GetAttr`. */
    method Eval(g: Graph, e: Expr, self: Value, depth: nat) returns (r: Result<Value, Error>)
      modifies recorder
      ensures Step(r, State()) == Recording.Eval(g, e, self, old(State()), depth)
      decreases depth, 3, e
    {
      match e
      case Const(v) =>
        r := Success(v);
      case This =>
        r := Success(self);
      case Attr(obj, key) =>
        r := Eval(g, obj, self, depth);
        if r.Success? {
          r := GetAttr(g, r.value, key, depth);
        }
      case IsNotNone(operand) =>
        r := Eval(g, operand, self, depth);
        if r.Success? {
          r := Success(Bool(r.value != Nil));
        }
      case Then(first, second) =>
        r := Eval(g, first, self, depth);
        if r.Success? {
          r := Eval(g, second, self, depth);
        }
      case HasAttr(obj, key) =>
        r := Eval(g, obj, self, depth);
        if r.Success? {
          r := GetAttr(g, r.value, key, depth);
          r := Caught(r);
        }
    }

    /**
     * `KeyPath.of(e)` on this thread: look up `KeyPath.of`, evaluate the
     * argument, call the function object; it is dropped afterwards, which
     * discards the recorder only when the call was never reached.
     */
    method Capture(g: Graph, e: Expr, depth: nat) returns (r: Result<KeyPath, Error>)
      modifies this
      ensures Step(r, State()) == Recording.Capture(g, e, old(State()), depth)
    {
      var of := Open();
      if of.Failure? {
        return Failure(of.error);
      }
      var f := of.value;
      var v := Eval(g, e, Nil, depth);
      if v.Failure? {
        f.Del();
        return Failure(v.error);
      }
      r := f.Call(v.value);
      f.Del();
    }
  }

  /** `_KeyPathOfFunction`: what `KeyPath.of` returns, bound to the thread that looked it up. */
  class OfFunction {
    const thread: Thread
    var called: bool

    constructor (thread: Thread)
      ensures this.thread == thread && !called
    {
      this.thread := thread;
      called := false;
    }

    /** `__call__`: removes the recorder and turns the recording into a key-path ending at `value`. */
    method Call(value: Value) returns (r: Result<KeyPath, Error>)
      modifies this, thread
      ensures called && thread.recorder == null
      ensures Step(r, thread.State()) == Commit(old(thread.State()), value)
    {
      called := true;
      var rec := thread.recorder;
      if rec == null {
        return Failure(NotCalledDirectly);
      }
      thread.recorder := null;
      if rec.busy {
        return Failure(AssertionFailed);
      }
      var terminals := rec.terminals;
      var keyList := rec.keyList;
      if terminals.None? {
        if |keyList| != 0 {
          return Failure(AssertionFailed);
        }
        return Failure(NoKeyRecorded);
      }
      if |keyList| == 0 {
        return Failure(AssertionFailed);
      }
      if terminals.value.end != value {
        return Failure(BrokenChain);
      }
      return Success(KeyPath(terminals.value.start, keyList));
    }

    /** `__del__`: a function object that was never called removes the recorder. */
    method Del()
      modifies thread
      ensures called == old(called)
      ensures thread.State() == Discard(called, old(thread.State()))
    {
      if !called {
        thread.recorder := null;
      }
    }
  }

  /** `KeyPath.__call__`: reads the keys one after the other from the target, through `getattr`. */
  method CallPath(p: KeyPath, t: Thread, g: Graph, depth: nat) returns (r: Result<Value, Error>)
    modifies t.recorder
    ensures Step(r, t.State()) == Resolve(g, p.target, p.keys, old(t.State()), depth)
  {
    var value := p.target;
    var i := 0;
    while i < |p.keys|
      invariant 0 <= i <= |p.keys|
      invariant Resolve(g, p.target, p.keys, old(t.State()), depth) == Resolve(g, value, p.keys[i..], t.State(), depth)
    {
      assert p.keys[i..][1..] == p.keys[i + 1..];
      var next := t.GetAttr(g, value, p.keys[i], depth);
      if next.Failure? {
        return next;
      }
      value := next.value;
      i := i + 1;
    }
    return Success(value);
  }
}
