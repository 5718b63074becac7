/**
 * The key-path value: a target object and the ordered keys that lead from it
 * to a value. Key-paths are immutable; two of them are equal when their
 * targets are the same object and their keys are equal.
 */
module KeyPaths {
  import opened ObjectGraph

  datatype KeyPath = KeyPath(target: Value, keys: seq<string>)

  /** The `keys` argument of the constructor: a dotted string or a sequence of keys. */
  datatype KeysArgument = Dotted(text: string) | Keys(keys: seq<string>)

  /** `".".join(pieces)`. */
  function Join(pieces: seq<string>): string
    decreases |pieces|
  {
    if |pieces| == 0 then ""
    else if |pieces| == 1 then pieces[0]
    else pieces[0] + "." + Join(pieces[1..])
  }

  /** No piece contains the separator. */
  predicate DotFree(pieces: seq<string>) {
    forall i :: 0 <= i < |pieces| ==> '.' !in pieces[i]
  }

  /**
   * `s.split(".")`: the pieces between the dots, empty ones included, so
   * that joining them with dots gives `s` back.
   */
  function Split(s: string): (pieces: seq<string>)
    ensures |pieces| >= 1
    ensures DotFree(pieces)
    ensures Join(pieces) == s
    decreases |s|
  {
    if s == [] then [""]
    else
      var rest := Split(s[1..]);
      if s[0] == '.' then
        assert s == "." + Join(rest);
        [""] + rest
      else
        var pieces := [[s[0]] + rest[0]] + rest[1..];
        assert pieces[1..] == rest[1..];
        assert Join(pieces) == [s[0]] + Join(rest);
        pieces
  }

  /** Splitting text whose leading part has no dot keeps that part at the front of the first piece. */
  lemma {:induction false} SplitDotFreePrefix(a: string, t: string)
    requires '.' !in a
    ensures Split(a + t) == [a + Split(t)[0]] + Split(t)[1..]
    decreases |a|
  {
    if a == [] {
      assert a + t == t && a + Split(t)[0] == Split(t)[0];
      assert Split(t) == [Split(t)[0]] + Split(t)[1..];
    } else {
      assert (a + t)[1..] == a[1..] + t;
      SplitDotFreePrefix(a[1..], t);
      assert [a[0]] + (a[1..] + Split(t)[0]) == a + Split(t)[0];
    }
  }

  /** Splitting the dotted form of dot-free keys gives the keys back. */
  lemma {:induction false} SplitJoin(pieces: seq<string>)
    requires |pieces| >= 1 && DotFree(pieces)
    ensures Split(Join(pieces)) == pieces
    decreases |pieces|
  {
    if |pieces| == 1 {
      SplitDotFreePrefix(pieces[0], "");
      assert pieces[0] + "" == pieces[0];
    } else {
      var tail := pieces[1..];
      assert DotFree(tail) by {
        forall i | 0 <= i < |tail| ensures '.' !in tail[i] { assert tail[i] == pieces[i + 1]; }
      }
      SplitJoin(tail);
      assert pieces[0] + "." + Join(tail) == pieces[0] + ("." + Join(tail));
      SplitDotFreePrefix(pieces[0], "." + Join(tail));
      assert ("." + Join(tail))[1..] == Join(tail);
      assert Split("." + Join(tail)) == [""] + tail;
      assert pieces[0] + "" == pieces[0];
      assert pieces == [pieces[0]] + tail;
    }
  }

  /** `KeyPath(target, keys)`: a string argument is split on dots, a sequence is kept as it is. */
  function Make(target: Value, keys: KeysArgument): (p: KeyPath)
    ensures p.target == target
    ensures keys.Dotted? ==> |p.keys| >= 1 && DotFree(p.keys) && Join(p.keys) == keys.text
    ensures keys.Keys? ==> p.keys == keys.keys
  {
    match keys
    case Dotted(text) => KeyPath(target, Split(text))
    case Keys(ks) => KeyPath(target, ks)
  }

  /** The dotted and the sequence forms of the same dot-free keys build equal key-paths. */
  lemma DottedMatchesKeys(target: Value, keys: seq<string>)
    requires |keys| >= 1 && DotFree(keys)
    ensures Make(target, Dotted(Join(keys))) == Make(target, Keys(keys))
  {
    SplitJoin(keys);
  }

  /** `p == q`: the targets are the same object and the keys are equal. */
  function Equal(p: KeyPath, q: KeyPath): (r: bool)
    ensures r <==> p == q
    ensures r ==> Equal(q, p)
  {
    p.target == q.target && p.keys == q.keys
  }
}
