/** Sequence facts that the solver needs to be told, one at a time. */
module Sequences {

  lemma Empty<T>(s: seq<T>)
    ensures [] + s == s == s + []
  {
  }

  lemma Associative<T>(a: seq<T>, b: seq<T>, c: seq<T>)
    ensures (a + b) + c == a + (b + c)
  {
  }

  lemma SplitAt<T>(s: seq<T>, i: nat)
    requires i < |s|
    ensures s[..i + 1] == s[..i] + [s[i]] && s[i..] == [s[i]] + s[i + 1..]
  {
  }

  lemma DropBoth<T>(a: seq<T>, b: seq<T>, first: seq<T>, rest: seq<T>)
    requires a + b == first + rest && |first| <= |a|
    ensures a[|first|..] + b == rest
  {
    assert (a + b)[|first|..] == a[|first|..] + b;
    assert (first + rest)[|first|..] == rest;
  }

  lemma PrefixOfAppend<T>(a: seq<T>, b: seq<T>, b': seq<T>, c: seq<T>)
    requires b <= b'
    ensures a + b <= (a + b') + c
    ensures b != b' ==> a + b != (a + b') + c
  {
  }

  function Flatten<T>(parts: seq<seq<T>>): seq<T> {
    if parts == [] then [] else Flatten(parts[..|parts| - 1]) + parts[|parts| - 1]
  }

  lemma FlattenAppend<T>(parts: seq<seq<T>>, part: seq<T>)
    ensures Flatten(parts + [part]) == Flatten(parts) + part
  {
    assert (parts + [part])[..|parts|] == parts;
  }

  /** Flattening fewer parts gives a prefix. */
  lemma {:induction false} FlattenPrefix<T>(parts: seq<seq<T>>, n: nat)
    requires n <= |parts|
    ensures Flatten(parts[..n]) <= Flatten(parts)
    decreases |parts|
  {
    if n < |parts| {
      FlattenPrefix(parts[..|parts| - 1], n);
      assert parts[..|parts| - 1][..n] == parts[..n];
    } else {
      assert parts[..n] == parts;
    }
  }
}
