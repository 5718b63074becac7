/**
 * The object graph that key-paths are recorded on and resolved against:
 * object identities, the values a member can hold, member reads as the host
 * language performs them when nothing intercepts them, and the small
 * expression language whose evaluation the recorder observes.
 */
module ObjectGraph {
  import opened Wrappers

  /** The identity of an object; two references denote the same object exactly when their ids are equal. */
  type ObjId = nat

  /**
   * A value as the recorder can tell values apart. `x is y` on two values is
   * `x == y`: identity for references, and for `None`, booleans and small
   * integers the value itself.
   */
  datatype Value = Ref(id: ObjId) | Int(i: int) | Bool(b: bool) | Nil

  /** An expression built from member reads, evaluated left to right. */
  datatype Expr =
    | Const(value: Value)              // a value the expression already holds, such as the variable `a`
    | This                             // `self` inside a computed member
    | Attr(obj: Expr, key: string)     // `obj.key`
    | IsNotNone(operand: Expr)         // `operand is not None`
    | Then(first: Expr, second: Expr)  // evaluates `first`, drops its value, then yields `second`
    | HasAttr(obj: Expr, key: string)  // `hasattr(obj, key)`: reads the member, catching a missing one

  /** A member is a stored attribute or a computed one (a property) whose getter is `body`. */
  datatype Member = Stored(value: Value) | Computed(body: Expr)

  /**
   * The heap: which objects are instances of a `KeyPathSupporting` class,
   * and each object's members by name. Values other than references have no members.
   */
  datatype Graph = Graph(supporting: set<ObjId>, attrs: map<ObjId, map<string, Member>>)

  /** The failures the model distinguishes (Python raises them as exceptions). */
  datatype Error =
    | NoSuchAttribute(key: string)  // AttributeError from the host's own lookup
    | RecursionDepthExceeded        // RecursionError: computed members nested deeper than the stack allows
    | UnfinishedRecorder            // opening while this thread already holds a recorder
    | NotCalledDirectly             // committing when this thread holds no recorder
    | NoKeyRecorded                 // committing a recording with no key in it
    | BrokenChain                   // the member chain is not a single chain of supporting objects
    | AssertionFailed               // an internal `assert` of the recorder did not hold

  /** The failures the host's own member lookup raises. */
  predicate LookupError(e: Error) {
    e.NoSuchAttribute? || e.RecursionDepthExceeded?
  }

  /** Whether member reads on `v` go through the recording hook. */
  predicate Supports(g: Graph, v: Value) {
    v.Ref? && v.id in g.supporting
  }

  /** The member named `key` of `v`, if it has one. */
  function MemberOf(g: Graph, v: Value, key: string): Option<Member> {
    if v.Ref? && v.id in g.attrs && key in g.attrs[v.id] then Some(g.attrs[v.id][key]) else None
  }

  /**
   * `getattr(recv, key)` with no recorder involved; `depth` is how many
   * computed members may still be entered before the stack is exhausted.
   */
  function PlainRead(g: Graph, recv: Value, key: string, depth: nat): (r: Result<Value, Error>)
    ensures r.Failure? ==> LookupError(r.error)
    ensures MemberOf(g, recv, key).None? ==> r == Failure(NoSuchAttribute(key))
    decreases depth, 0
  {
    match MemberOf(g, recv, key)
    case None => Failure(NoSuchAttribute(key))
    case Some(Stored(v)) => Success(v)
    case Some(Computed(body)) =>
      if depth == 0 then Failure(RecursionDepthExceeded) else PlainEval(g, body, recv, depth - 1)
  }

  /** The value of `e` with `self` bound to `self`, with no recorder involved. */
  function PlainEval(g: Graph, e: Expr, self: Value, depth: nat): (r: Result<Value, Error>)
    ensures r.Failure? ==> LookupError(r.error)
    decreases depth, 1, e
  {
    match e
    case Const(v) => Success(v)
    case This => Success(self)
    case Attr(obj, key) =>
      var o := PlainEval(g, obj, self, depth);
      if o.Failure? then o else PlainRead(g, o.value, key, depth)
    case IsNotNone(operand) =>
      var o := PlainEval(g, operand, self, depth);
      if o.Failure? then o else Success(Bool(o.value != Nil))
    case Then(first, second) =>
      var f := PlainEval(g, first, self, depth);
      if f.Failure? then f else PlainEval(g, second, self, depth)
    case HasAttr(obj, key) =>
      var o := PlainEval(g, obj, self, depth);
      if o.Failure? then o else Caught(PlainRead(g, o.value, key, depth))
  }

  /** What `hasattr` makes of a read: true if it returned, false if the member was missing, else the failure. */
  function Caught(r: Result<Value, Error>): Result<Value, Error> {
    if r.Success? then Success(Bool(true))
    else if r.error.NoSuchAttribute? then Success(Bool(false))
    else r
  }

  /** `e` catches no failure, so a failed read inside it ends the evaluation. */
  predicate CatchFree(e: Expr) {
    match e
    case Const(_) => true
    case This => true
    case Attr(obj, _) => CatchFree(obj)
    case IsNotNone(operand) => CatchFree(operand)
    case Then(first, second) => CatchFree(first) && CatchFree(second)
    case HasAttr(_, _) => false
  }

  /** No getter of a computed member catches a failure. */
  predicate GraphCatchFree(g: Graph) {
    forall o, k :: o in g.attrs && k in g.attrs[o] && g.attrs[o][k].Computed? ==> CatchFree(g.attrs[o][k].body)
  }

  /** Reads `keys` one after the other starting from `v`, with no recorder involved. */
  function PlainResolve(g: Graph, v: Value, keys: seq<string>, depth: nat): Result<Value, Error>
    decreases |keys|
  {
    if keys == [] then Success(v)
    else
      var next := PlainRead(g, v, keys[0], depth);
      if next.Failure? then next else PlainResolve(g, next.value, keys[1..], depth)
  }

  /** The member chain `base.keys[0].keys[1]...`. */
  function Chain(base: Expr, keys: seq<string>): Expr
    decreases |keys|
  {
    if keys == [] then base else Chain(Attr(base, keys[0]), keys[1..])
  }

  /** Every receiver along `v.keys[0]...` supports key-paths and every read along it succeeds. */
  predicate ChainSupported(g: Graph, v: Value, keys: seq<string>, depth: nat)
    decreases |keys|
  {
    keys == [] ||
    (Supports(g, v) && PlainRead(g, v, keys[0], depth).Success? &&
     ChainSupported(g, PlainRead(g, v, keys[0], depth).value, keys[1..], depth))
  }

  /** Along a supported chain every read succeeds. */
  lemma {:induction false} ChainSupportedResolves(g: Graph, v: Value, keys: seq<string>, depth: nat)
    requires ChainSupported(g, v, keys, depth)
    ensures PlainResolve(g, v, keys, depth).Success?
    decreases |keys|
  {
    if keys != [] {
      ChainSupportedResolves(g, PlainRead(g, v, keys[0], depth).value, keys[1..], depth);
    }
  }

  /**
   * The graph after `obj.key = v` on a stored or absent member (assigning
   * to a property without a setter raises instead, and is not modelled).
   */
  function SetAttr(g: Graph, obj: ObjId, key: string, v: Value): (g': Graph)
    requires MemberOf(g, Ref(obj), key).None? || MemberOf(g, Ref(obj), key).value.Stored?
    ensures g'.supporting == g.supporting
    ensures MemberOf(g', Ref(obj), key) == Some(Stored(v))
    ensures forall o: ObjId, k: string :: (o, k) != (obj, key) ==> MemberOf(g', Ref(o), k) == MemberOf(g, Ref(o), k)
  {
    var members := if obj in g.attrs then g.attrs[obj] else map[];
    g.(attrs := g.attrs[obj := members[key := Stored(v)]])
  }

  /**
   * A read that does not run out of depth has the same outcome with more
   * depth: only `RecursionDepthExceeded` depends on how much is left.
   */
  lemma {:induction false} PlainReadMonotonic(g: Graph, recv: Value, key: string, d: nat, d': nat)
    requires d <= d' && PlainRead(g, recv, key, d) != Failure(RecursionDepthExceeded)
    ensures PlainRead(g, recv, key, d') == PlainRead(g, recv, key, d)
    decreases d, 0
  {
    match MemberOf(g, recv, key)
    case None =>
    case Some(Stored(v)) =>
    case Some(Computed(body)) => PlainEvalMonotonic(g, body, recv, d - 1, d' - 1);
  }

  lemma {:induction false} PlainEvalMonotonic(g: Graph, e: Expr, self: Value, d: nat, d': nat)
    requires d <= d' && PlainEval(g, e, self, d) != Failure(RecursionDepthExceeded)
    ensures PlainEval(g, e, self, d') == PlainEval(g, e, self, d)
    decreases d, 1, e
  {
    match e
    case Const(v) =>
    case This =>
    case Attr(obj, key) =>
      PlainEvalMonotonic(g, obj, self, d, d');
      if PlainEval(g, obj, self, d).Success? {
        PlainReadMonotonic(g, PlainEval(g, obj, self, d).value, key, d, d');
      }
    case IsNotNone(operand) => PlainEvalMonotonic(g, operand, self, d, d');
    case Then(first, second) =>
      PlainEvalMonotonic(g, first, self, d, d');
      if PlainEval(g, first, self, d).Success? {
        PlainEvalMonotonic(g, second, self, d, d');
      }
    case HasAttr(obj, key) =>
      PlainEvalMonotonic(g, obj, self, d, d');
      if PlainEval(g, obj, self, d).Success? {
        PlainReadMonotonic(g, PlainEval(g, obj, self, d).value, key, d, d');
      }
  }

  /** Resolving one more key reads it from where the shorter path leads. */
  lemma {:induction false} PlainResolveSnoc(g: Graph, v: Value, keys: seq<string>, key: string, depth: nat)
    ensures PlainResolve(g, v, keys + [key], depth) ==
      var r := PlainResolve(g, v, keys, depth);
      if r.Failure? then r else PlainRead(g, r.value, key, depth)
    decreases |keys|
  {
    if keys != [] {
      assert (keys + [key])[1..] == keys[1..] + [key];
      var next := PlainRead(g, v, keys[0], depth);
      if next.Success? {
        PlainResolveSnoc(g, next.value, keys[1..], key, depth);
      }
    }
  }

  /** Evaluating a member chain is resolving its keys from the base's value. */
  lemma {:induction false} PlainEvalChain(g: Graph, base: Expr, keys: seq<string>, self: Value, depth: nat)
    ensures PlainEval(g, Chain(base, keys), self, depth) ==
      var b := PlainEval(g, base, self, depth);
      if b.Failure? then b else PlainResolve(g, b.value, keys, depth)
    decreases |keys|
  {
    if keys != [] {
      PlainEvalChain(g, Attr(base, keys[0]), keys[1..], self, depth);
    }
  }
}
