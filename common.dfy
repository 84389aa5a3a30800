/** The optional value Rust spells `Option<T>`. */
module Options {

  datatype Option<+T> = None | Some(value: T)
}

/** Sequence and string helpers the trace lemmas are stated with. */
module Text {

  /** `suffix` is what is left at the end of `s`. */
  predicate IsSuffix<X(==)>(suffix: seq<X>, s: seq<X>)
  {
    |suffix| <= |s| && s[|s| - |suffix|..] == suffix
  }

  /** The elements of `s` in the opposite order. */
  function Reversed<X>(s: seq<X>): (r: seq<X>)
    ensures |r| == |s|
  {
    if s == [] then [] else Reversed(s[1..]) + [s[0]]
  }

  /** Reversing a sequence with one more element at its end puts that element first. */
  lemma {:induction false} ReversedSnoc<X>(s: seq<X>, x: X)
    ensures Reversed(s + [x]) == [x] + Reversed(s)
  {
    if s == [] {
      assert s + [x] == [x];
    } else {
      calc {
        Reversed(s + [x]);
        { assert (s + [x])[1..] == s[1..] + [x]; assert (s + [x])[0] == s[0]; }
        Reversed(s[1..] + [x]) + [s[0]];
        { ReversedSnoc(s[1..], x); }
        [x] + Reversed(s[1..]) + [s[0]];
      }
    }
  }

  /** The segments, first to last, separated by ": ". */
  function Join(segments: seq<string>): (r: string)
    requires |segments| > 0
    ensures segments[0] <= r
    ensures IsSuffix(segments[|segments| - 1], r)
  {
    if |segments| == 1 then segments[0]
    else
      var rest := Join(segments[1..]);
      assert segments[1..][|segments[1..]| - 1] == segments[|segments| - 1];
      segments[0] + ": " + rest
  }
}
