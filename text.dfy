/**
  String joining as Python's `sep.join(parts)` does it, plus the reference
  shape used to state what a joined text looks like.
*/
module Text {

  /** `sep.join(parts)`: the parts in order with `sep` between neighbours. */
  function Join(parts: seq<string>, sep: string): (r: string)
    ensures |parts| == 1 ==> r == parts[0]
    ensures parts == [] ==> r == ""
  {
    if |parts| <= 1 then
      (if parts == [] then "" else parts[0])
    else
      Join(parts[..|parts| - 1], sep) + sep + parts[|parts| - 1]
  }

  /** Every part preceded by `sep`: the text that follows the first part of a join. */
  function Prefixed(parts: seq<string>, sep: string): (r: string)
  {
    if parts == [] then "" else Prefixed(parts[..|parts| - 1], sep) + sep + parts[|parts| - 1]
  }

  /** A join is its first part followed by every later part, each preceded by `sep`. */
  lemma {:induction false} JoinFirstRest(first: string, rest: seq<string>, sep: string)
    ensures Join([first] + rest, sep) == first + Prefixed(rest, sep)
  {
    if rest != [] {
      var parts := [first] + rest;
      assert parts[..|parts| - 1] == [first] + rest[..|rest| - 1];
      JoinFirstRest(first, rest[..|rest| - 1], sep);
    }
  }

  /** Appending one part to a non-empty join adds exactly `sep` and that part. */
  lemma JoinAppend(parts: seq<string>, last: string, sep: string)
    requires parts != []
    ensures Join(parts + [last], sep) == Join(parts, sep) + sep + last
  {
  }

  /** Prefixing distributes over concatenation of the part lists. */
  lemma {:induction false} PrefixedConcat(a: seq<string>, b: seq<string>, sep: string)
    ensures Prefixed(a + b, sep) == Prefixed(a, sep) + Prefixed(b, sep)
  {
    if b == [] {
      assert a + b == a;
    } else {
      var ab := a + b;
      assert ab[..|ab| - 1] == a + b[..|b| - 1];
      PrefixedConcat(a, b[..|b| - 1], sep);
    }
  }

  /** `s` ends with `t`. */
  predicate EndsWith(s: string, t: string)
  {
    |t| <= |s| && s[|s| - |t|..] == t
  }

  /** Text put in front of `s` does not change how `s` ends. */
  lemma EndsWithAfter(prefix: string, s: string, t: string)
    requires EndsWith(s, t)
    ensures EndsWith(prefix + s, t)
  {
  }
}
