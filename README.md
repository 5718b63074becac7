# py-keypath: the key-path recorder, modelled in Dafny

`KeyPath.of(a.b.c)` returns `KeyPath(target=a, keys=("b", "c"))`. It gets this result by watching the
expression `a.b.c` being evaluated. Looking up `KeyPath.of` installs a recorder in the current
thread's local storage. Every member read on an object whose class derives from `KeyPathSupporting`
then goes through the `__getattribute__` hook. The first such read starts the chain at its
receiver, and each recorded read appends the member's name and makes the value read the chain's
end. Each later read must have that end as its receiver. Otherwise the hook raises "Key-path is
broken" and leaves the recorder busy. Reads made while another read is in progress, that is inside
a getter, are not recorded. Calling the function object that `KeyPath.of` returned removes the
recorder. It then turns the recording into a key-path, or refuses it. A key-path is an immutable
pair: a target and a tuple of keys. Calling it reads the keys again, one after the other, starting from the target.

The model has six modules:

- `ObjectGraph` models the heap abstractly. It has object ids, values (`Ref`, `Int`, `Bool`,
  `Nil`), the set of objects whose class supports key-paths, and each object's members. A member
  is either stored or computed. A computed member (a property) has a getter expression that can
  read further members. The module also defines the member reads and expression evaluation the
  host language performs when no recorder intervenes (`PlainRead`, `PlainEval`, `PlainResolve`).
- `KeyPaths` holds the `KeyPath` value. Its constructor splits a string argument on `"."`.
  Equality compares target identity and the keys.
- `Recording` is the recorder of one thread as a state machine over values. The slot is
  `Option<RecState>`, and `RecState` holds `terminals`, `keyList` and `busy`. The module defines
  `Open`, the hook `Access`, `Commit` and `Discard`, plus evaluation under the hook (`Eval`),
  `Resolve` (calling a key-path) and `Capture` (`KeyPath.of(e)` as Python runs it).
- `RecorderProperties` proves what the recorder achieves over whole expressions:
  - a chain of supporting receivers is recorded as its keys, cycles included;
  - every key-path that `KeyPath.of` returns resolves back to the value its expression produced;
  - expressions that are not such chains are refused.
- `Threads` is the imperative form of the same thing: the classes `Recorder`, `Thread` (one
  thread's local storage) and `OfFunction`, whose fields are updated in place, and the loop of
  `KeyPath.__call__`. Every method's contract ties its result and new state to the matching step
  of `Recording`.
- `Scenarios` holds the scenarios of `keypath/_core_test.py` on concrete object graphs.

Errors are the variants of `ObjectGraph.Error`. `AttributeError` is `NoSuchAttribute`. The four
`RuntimeError`s are `UnfinishedRecorder`, `NotCalledDirectly`, `NoKeyRecorded` and `BrokenChain`.
The recorder's own errors share this type with the host's lookup failures, because a recorder
error raised inside a getter travels through the host's evaluation like any other exception.
An `assert` of the recorder that fails is `AssertionFailed`. Python's recursion limit is the
`depth` parameter. It goes down by one each time a computed member's getter is entered, and at
zero the read fails with `RecursionDepthExceeded`.

Behaviours of the code that its docstrings (`keypath/_core.py:74-93`) and tests
(`keypath/_core_test.py:74-80`) do not lead one to expect, and that the model keeps:

- `KeyPath.of(a.b.c is not None)` records `b` and `c`. It then fails at the commit with
  "Key-path is broken" (`keypath/_core.py:215-223`), because the boolean result is not the end of
  the recorded chain. It does not fail with "no key recorded".
- Such a comparison is not always refused. When the chain ends at `True`, the commit's identity
  test `True is not True` is false (`keypath/_core.py:215`). The commit then returns
  `KeyPath(a, ("b", "c"))`. `CaptureOfComparisonAtTrue` and `Scenarios.ComparisonAtBoolean`
  show this.
- Reads that a computed member's getter performs are not recorded, because the recorder is busy
  (`keypath/_core.py:289-294`). So `KeyPath.of(c.v0)` has the single key `"v0"`.
- A chain whose last receiver `w` does not support key-paths is refused as broken, except when
  the last member gives `w` back (`w.k is w`). Then the commit's test `w is not w` is false
  (`keypath/_core.py:215`), and the commit returns the key-path without `k`.
  `CaptureThroughUnsupportedSelfLoop` and `Scenarios.SelfLoopDropsKey` show this.
- A failed read through the hook, that is, on a supporting receiver, leaves the recorder busy
  (`keypath/_core.py:296-309`). The recorder goes away only
  when the uncalled function object is dropped (`keypath/_core.py:228-233`). If the expression
  itself catches the failure (`hasattr`), the commit's `assert not recorder.busy`
  (`keypath/_core.py:204`) fails. `CaughtFailureLeavesRecorderBusy` shows this.
- A reentrant use is refused when `KeyPath.of` is looked up (`keypath/_core.py:115-127`), not
  when it is called.
- A key-path built directly may have no keys (`KeyPath(a, [])`). Only `KeyPath.of` guarantees at
  least one key.

## Model

| member | source | states |
|---|---|---|
| `ObjectGraph.PlainRead` | keypath/_core.py:309 | reading a member the receiver lacks raises `NoSuchAttribute`; the only failures of a plain read are lookup failures |
| `ObjectGraph.PlainEval` | keypath/_core_test.py:149-161 | evaluating an expression with computed members and no recorder fails only with lookup failures |
| `ObjectGraph.SetAttr` | keypath/_core_test.py:30 | `obj.key = v` on a stored or absent member makes `obj.key` the stored value `v` and changes no other member and no class |
| `KeyPaths.Split` | keypath/_core.py:241-242 | the `"."`-split of a string has at least one piece, no piece contains a dot, and joining the pieces with dots gives the string back |
| `KeyPaths.SplitJoin` | keypath/_core.py:241-242 | splitting the dotted form of a non-empty sequence of dot-free keys gives those keys back |
| `KeyPaths.Make` | keypath/_core.py:238-245 | the constructor keeps the target; a string argument becomes dot-free keys whose join is the string; a sequence argument is kept as it is |
| `KeyPaths.DottedMatchesKeys` | keypath/_core.py:241-244 | `KeyPath(t, "b.c")` equals `KeyPath(t, ("b", "c"))` for dot-free keys |
| `KeyPaths.Equal` | keypath/_core.py:258-263 | two key-paths are equal exactly when their targets are the same object and their keys are equal; equality is symmetric |
| `Recording.Open` | keypath/_core.py:115-130 | opening succeeds exactly when no recorder is installed; it then installs one with no terminals, no keys and `busy` false; otherwise it fails with `UnfinishedRecorder` and leaves the slot as it was |
| `Recording.Read` | keypath/_core.py:309 | the real read gives the host's result, or `BrokenChain` raised by a read inside a getter; with no recorder or a busy one it changes nothing; it keeps the recorder's invariants |
| `Recording.Access` | keypath/_core.py:281-320 | the hook: with no recorder or a busy one, it gives the real read and changes nothing. Otherwise it fails with `BrokenChain` exactly when a chain has started and the receiver is not its end. A recorded read appends exactly `key`, sets the start only on the first read, moves the end to the value read and clears `busy`. Any failure leaves the recorder busy and otherwise unchanged |
| `Recording.GetAttr` | keypath/_core.py:281-294 | `getattr` gives the host's result or `BrokenChain`, changes nothing with no recorder or a busy one, and keeps the recorder's invariants |
| `Recording.Eval` | keypath/_core.py:281-320 | the recorder never alters a value an expression produces: the result is the one without the recorder, or `BrokenChain`. The slot never appears or disappears, keys are only appended, a started chain keeps its start, and consistency is kept. With no catching expression, a normal return leaves an idle recorder idle |
| `Recording.Resolve` | keypath/_core.py:268-272 | calling a key-path with no recorder (or a busy one) is the plain traversal of its keys and changes nothing |
| `Recording.Commit` | keypath/_core.py:187-226 | the slot is empty afterwards whatever happens. No recorder gives `NotCalledDirectly`; no key recorded gives `NoKeyRecorded`; a value that is not the chain's end gives `BrokenChain`. It succeeds exactly when an idle recorder's chain ends at the value, and then returns `KeyPath(start, keys)` with at least one key. `AssertionFailed` happens only when the recorder is not idle |
| `Recording.Discard` | keypath/_core.py:228-233 | a function object dropped uncalled empties the slot; one that was called leaves it as it is |
| `Recording.Capture` | keypath/_core.py:115-233 | `KeyPath.of(e)` with a recorder already installed fails with `UnfinishedRecorder` and leaves it untouched. With none, the slot is empty afterwards whatever the outcome. With no catching expression, the internal assertions never fail. A returned key-path has at least one key |
| `RecorderProperties.RecordChain` | keypath/_core.py:296-318 | reading a chain of supporting receivers, starting from the end of the chain so far, returns the plain value, appends every key in order, keeps or sets the start, ends at the value reached and leaves the recorder idle |
| `RecorderProperties.CaptureChain` | keypath/_core.py:97-112 | `KeyPath.of(root.k1...kn)` over supporting receivers is `KeyPath(root, [k1..kn])` and leaves the slot empty, even when the chain revisits objects |
| `RecorderProperties.GetAttrSound` | keypath/_core.py:296-318 | a read keeps the recording sound: its keys, read from its start, lead to its end |
| `RecorderProperties.EvalSound` | keypath/_core.py:296-318 | evaluating any expression under the hook keeps the recording sound |
| `RecorderProperties.CapturedPathResolves` | keypath/_core.py:268-272 | every key-path `KeyPath.of(e)` returns, when called, gives exactly the value `e` produced |
| `RecorderProperties.CaptureWithoutRead` | keypath/_core.py:208-211 | `KeyPath.of(a)` fails with `NoKeyRecorded` and leaves the slot empty |
| `RecorderProperties.CaptureOfComparisonBreaks` | keypath/_core.py:215-223 | `KeyPath.of(chain is not None)` over supporting receivers, where the chain does not end at `True`, fails as broken at the commit and leaves the slot empty |
| `RecorderProperties.CaptureOfComparisonAtTrue` | keypath/_core.py:215-225 | `KeyPath.of(chain is not None)` over supporting receivers, where the chain ends at `True`, is accepted as `KeyPath(root, keys)` and leaves the slot empty |
| `RecorderProperties.CaptureThroughUnsupportedBreaks` | keypath/_core.py:215-223 | a chain whose last receiver `w` does not support key-paths, and whose last member is stored and is not `w` itself, fails as broken at the commit and leaves the slot empty |
| `RecorderProperties.CaptureThroughUnsupportedSelfLoop` | keypath/_core.py:215-225 | a chain whose last receiver `w` does not support key-paths, and whose last member holds `w` itself, is accepted without the last key as `KeyPath(root, keys)` and leaves the slot empty |
| `RecorderProperties.CaptureOfMissingMember` | keypath/_core.py:296-309 | reading a missing member raises `NoSuchAttribute` through `KeyPath.of` and leaves the slot empty; just before the discard, the recorder is busy exactly when the receiver supports key-paths |
| `RecorderProperties.CaughtFailureLeavesRecorderBusy` | keypath/_core.py:204 | after `hasattr` catches a missing member on a supporting object, the recorder stays busy, and the commit's assertion fails |
| `RecorderProperties.SecondCallRefused` | keypath/_core.py:190-200 | a saved `KeyPath.of` called twice: the first call returns the key-path, and the second finds no recorder and fails with `NotCalledDirectly` |
| `RecorderProperties.NestedOpenRefused` | keypath/_core.py:115-127 | looking up `KeyPath.of` while a recorder is installed fails and leaves that recorder as it was |
| `Threads.Recorder.constructor` | keypath/_core.py:46-51 | a new recorder has no terminals, an empty key list and `busy` false |
| `Threads.OfFunction.constructor` | keypath/_core.py:183-185 | a new function object is bound to its thread and has not been called |
| `Threads.Thread.Open` | keypath/_core.py:115-133 | installs a fresh recorder and returns an uncalled function object bound to this thread exactly when none was installed; the new slot is `Recording.Open`'s |
| `Threads.Thread.Read` | keypath/_core.py:309 | result and new slot are `Recording.Read`'s |
| `Threads.Thread.Access` | keypath/_core.py:281-320 | updates the recorder's fields in place; result and new slot are `Recording.Access`'s |
| `Threads.Thread.GetAttr` | keypath/_core.py:281-294 | result and new slot are `Recording.GetAttr`'s |
| `Threads.Thread.Eval` | keypath/_core.py:281-320 | result and new slot are `Recording.Eval`'s |
| `Threads.Thread.Capture` | keypath/_core.py:115-233 | open, evaluate, then call or drop the function object; result and new slot are `Recording.Capture`'s |
| `Threads.OfFunction.Call` | keypath/_core.py:187-226 | marks the object called, removes the thread's recorder, and returns `Recording.Commit`'s result |
| `Threads.OfFunction.Del` | keypath/_core.py:228-233 | the thread's slot afterwards is `Recording.Discard`'s |
| `Threads.CallPath` | keypath/_core.py:268-272 | the loop of `getattr` over the keys returns `Recording.Resolve`'s result and slot |
| `Scenarios.ChainThenMutate` | keypath/_core_test.py:12-31 | `KeyPath.of(a.b.c)` equals `KeyPath(a, ("b","c"))`, and `KeyPath(a, "b.c")` is `__eq__`-equal to it; calling it gives 0, and after `a.b.c = 1` it gives 1 |
| `Scenarios.CycleReference` | keypath/_core_test.py:33-54 | `KeyPath.of(a.a.b.b.c)` equals `KeyPath(a, ("a","b","b","c"))` |
| `Scenarios.CommonMistakes` | keypath/_core_test.py:56-80 | `KeyPath.of(a)` and `KeyPath.of(a.b.c is not None)` fail |
| `Scenarios.ComparisonAtBoolean` | keypath/_core.py:215-225 | `KeyPath.of(a.f is not None)` gives `KeyPath(a, ("f",))` when `a.f` is `True`, and fails as broken when it is `False` |
| `Scenarios.SavedOfCalledTwice` | keypath/_core_test.py:82-86 | on thread objects, a saved `of` called twice returns the key-path, then fails with `NotCalledDirectly` |
| `Scenarios.SelfLoopDropsKey` | keypath/_core.py:215-225 | with `a.b` an unsupporting object `s` such that `s.s is s`, `KeyPath.of(a.b.s)` is `KeyPath(a, ("b",))` |
| `Scenarios.ErrorHandling` | keypath/_core_test.py:88-112 | `KeyPath.of(a.b.c.d)` raises the lookup failure for `d`; a following `KeyPath.of(a.b.c)` equals `KeyPath(a, ("b","c"))` |
| `Scenarios.RecoverAfterMissingMember` | keypath/_core_test.py:104-112 | the same on one thread object: first the lookup failure, then the key-path |
| `Scenarios.InternalReference` | keypath/_core_test.py:149-164 | `KeyPath.of(c.v0)` equals `KeyPath(c, ("v0",))`; the reads inside the getter of `v0` are not recorded |
| `Scenarios.NestedOf` | keypath/_core.py:115-127 | on a thread object, a second lookup of `KeyPath.of` before the first is called fails with `UnfinishedRecorder` |

## Left out

- Thread-local storage across threads, and the 1000-thread test. Isolation between threads is
  concurrency. The model has one thread's slot; a second `Thread` object is a second,
  independent slot.
- The metaclass property that runs code when `KeyPath.of` is looked up. It is modelled as the
  explicit call `Thread.Open`.
- When the garbage collector runs `__del__`. Dropping the function object is the explicit call
  `OfFunction.Del`, made right after the call or the failure, as CPython's reference counting
  does. In Python, `__del__` on an absent recorder raises inside `__del__`, and that error is
  ignored. The model leaves the slot empty in that case.
- `KeyPath.__hash__`, `__repr__`, the `target`/`keys` properties and the text of error messages.
  Errors are datatype variants.
- `KeyPath.__eq__` against an object that is not a key-path (it returns `False`). The model only
  compares key-paths.
- Generic typing and `TYPE_CHECKING` blocks.
- Python's attribute resolution (class attributes, methods, descriptors other than properties,
  `__getattr__`, `__slots__`). Members are an abstract map from name to a stored value or a
  getter expression. Getters and captured expressions use a small expression language: member
  reads, `self`, `is not None`, sequencing and `hasattr`. Assignment inside an expression,
  `try`, and a nested `KeyPath.of` inside an expression are not modelled. Reentrancy is shown
  on `Open` directly.
- `is` on values other than references is taken as equality. That is exact for `None`, booleans
  and CPython's small integers, not for other integers.
- The recursion limit counts only nested computed-member getters, not the interpreter frames that
  the hook and `getattr` use.
- Python's `assert` statements are modelled as the `AssertionFailed` error. Under `python -O`
  they are removed; that mode is not modelled.
