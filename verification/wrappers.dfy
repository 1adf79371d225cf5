/** Small helpers shared by the binding extractor model: an Option type for
    the visitor's "NULL means unsupported" returns, and the prefix test of
    the engine's String class. */
module Wrappers {

  /** A value or nothing; `None` stands for the NULL pointer the visitor
      returns when a type, parameter or function cannot be bound. */
  datatype Option<+T> = None | Some(value: T)

  /** String::StartsWith with the default case-sensitive comparison. */
  predicate StartsWith(s: string, prefix: string)
  {
    |prefix| <= |s| && s[..|prefix|] == prefix
  }

  /** Concatenation regroups freely; a stand-alone fact so that callers
      need not reason about the elements. */
  lemma AppendAssoc<T>(x: seq<T>, y: seq<T>, z: seq<T>)
    ensures (x + y) + z == x + (y + z)
  {
  }

  /** The value of an option as a sequence of zero or one element. */
  function OptionToSeq<T>(o: Option<T>): seq<T>
  {
    match o
    case None => []
    case Some(x) => [x]
  }

  /** The values `f` produces on `xs`, in order, dropping the `None`s. */
  function FilterMap<A, T>(f: A -> Option<T>, xs: seq<A>): seq<T>
  {
    if |xs| == 0 then [] else OptionToSeq(f(xs[0])) + FilterMap(f, xs[1..])
  }

  /** Every value kept is produced by some element. */
  lemma {:induction false} FilterMapSound<A, T>(f: A -> Option<T>, xs: seq<A>, j: nat)
    requires j < |FilterMap(f, xs)|
    ensures exists i :: 0 <= i < |xs| && f(xs[i]) == Some(FilterMap(f, xs)[j])
  {
    var head := OptionToSeq(f(xs[0]));
    if j < |head| {
      assert f(xs[0]) == Some(FilterMap(f, xs)[j]);
    } else {
      FilterMapSound(f, xs[1..], j - |head|);
      var i :| 0 <= i < |xs[1..]| && f(xs[1..][i]) == Some(FilterMap(f, xs[1..])[j - |head|]);
      assert xs[1..][i] == xs[i + 1];
    }
  }

  /** Every value produced is kept. */
  lemma {:induction false} FilterMapComplete<A, T>(f: A -> Option<T>, xs: seq<A>, i: nat)
    requires i < |xs| && f(xs[i]).Some?
    ensures f(xs[i]).value in FilterMap(f, xs)
  {
    if i > 0 {
      assert xs[1..][i - 1] == xs[i];
      FilterMapComplete(f, xs[1..], i - 1);
    }
  }
}
