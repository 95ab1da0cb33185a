/**
  String helpers shared by the generator and the manifest writer:
  concatenation of a list of fragments, joining with a separator,
  splitting at the first occurrence of a delimiter, and counting characters.
 */
module Text {
  import opened Wrappers

  /** The fragments of `parts`, one after the other. */
  function Concat(parts: seq<string>): string
  {
    if parts == [] then "" else parts[0] + Concat(parts[1..])
  }

  lemma {:induction false} ConcatAppend(a: seq<string>, b: seq<string>)
    ensures Concat(a + b) == Concat(a) + Concat(b)
  {
    if a == [] {
      assert a + b == b;
    } else {
      assert (a + b)[1..] == a[1..] + b;
      ConcatAppend(a[1..], b);
    }
  }

  /** Appending the next fragment extends the concatenation of a prefix by one. */
  lemma ConcatStep(parts: seq<string>, i: nat, s: string, next: string)
    requires i < |parts| && s == Concat(parts[..i]) && next == parts[i]
    ensures s + next == Concat(parts[..i + 1])
  {
    assert parts[..i + 1] == parts[..i] + [next];
    ConcatAppend(parts[..i], [next]);
    assert [next][1..] == [];
  }

  lemma ConcatStepAfter(before: string, parts: seq<string>, i: nat, s: string, next: string)
    requires i < |parts| && s == before + Concat(parts[..i]) && next == parts[i]
    ensures s + next == before + Concat(parts[..i + 1])
  {
    ConcatStep(parts, i, Concat(parts[..i]), next);
  }

  lemma ConcatAll(parts: seq<string>)
    ensures Concat(parts[..|parts|]) == Concat(parts)
  {
    assert parts[..|parts|] == parts;
  }

  /** The non-empty list `parts` with `sep` between neighbours and nowhere else. */
  function Join(parts: seq<string>, sep: string): string
    requires |parts| > 0
  {
    if |parts| == 1 then parts[0] else parts[0] + sep + Join(parts[1..], sep)
  }

  lemma {:induction false} JoinSnoc(parts: seq<string>, sep: string, p: string)
    requires |parts| > 0
    ensures Join(parts + [p], sep) == Join(parts, sep) + sep + p
  {
    if |parts| == 1 {
      assert (parts + [p])[1..] == [p];
    } else {
      assert (parts + [p])[1..] == parts[1..] + [p];
      JoinSnoc(parts[1..], sep, p);
    }
  }

  /** Number of occurrences of `c` in `s`. */
  function Count(s: string, c: char): nat
  {
    if s == [] then 0 else (if s[0] == c then 1 else 0) + Count(s[1..], c)
  }

  lemma {:induction false} CountAppend(a: string, b: string, c: char)
    ensures Count(a + b, c) == Count(a, c) + Count(b, c)
  {
    if a == [] {
      assert a + b == b;
    } else {
      assert (a + b)[1..] == a[1..] + b;
      CountAppend(a[1..], b, c);
    }
  }

  lemma {:induction false} CountAbsent(s: string, c: char)
    requires c !in s
    ensures Count(s, c) == 0
  {
    if s != [] {
      assert c !in s[1..];
      CountAbsent(s[1..], c);
    }
  }

  predicate StartsWith(s: string, prefix: string)
  {
    |prefix| <= |s| && s[..|prefix|] == prefix
  }

  /**
    Splits `s` at the first occurrence of `d`: the text before it and the
    text after it, or None when `d` does not occur.
   */
  function SplitAtFirst(s: string, d: char): (r: Option<(string, string)>)
    ensures r.None? <==> d !in s
    ensures r.Some? ==> d !in r.value.0 && s == r.value.0 + [d] + r.value.1
  {
    if s == [] then None
    else if s[0] == d then Some(([], s[1..]))
    else
      match SplitAtFirst(s[1..], d)
      case None => None
      case Some(split) => Some(([s[0]] + split.0, split.1))
  }

  /** Splitting finds the delimiter that ends a delimiter-free prefix. */
  lemma {:induction false} SplitAtFirstAfter(t: string, d: char, rest: string)
    requires d !in t
    ensures SplitAtFirst(t + [d] + rest, d) == Some((t, rest))
  {
    var s := t + [d] + rest;
    if t == [] {
      assert s == [d] + rest;
    } else {
      assert s[0] == t[0];
      assert s[1..] == t[1..] + [d] + rest;
      SplitAtFirstAfter(t[1..], d, rest);
      assert [t[0]] + t[1..] == t;
    }
  }
}
