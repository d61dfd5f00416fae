/**
 * `Array.prototype.join` with its default separator, and the splitting that
 * undoes it. URLs in this library are built by concatenating segments with
 * '/' and lists with ','; `Split` is how a receiver reads them back.
 */
module Text {

  /** `xs.join(sep)`: the elements with one separator between neighbours. */
  function Join(xs: seq<string>, sep: char): string
  {
    if |xs| == 0 then ""
    else if |xs| == 1 then xs[0]
    else xs[0] + [sep] + Join(xs[1..], sep)
  }

  /** The pieces of s between separators, in order; "" splits into [""]. */
  function Split(s: string, sep: char): (r: seq<string>)
    ensures |r| >= 1
    decreases |s|
  {
    if |s| == 0 then [""]
    else
      var rest := Split(s[1..], sep);
      if s[0] == sep then [""] + rest
      else [[s[0]] + rest[0]] + rest[1..]
  }

  /** No element of xs contains the separator. */
  predicate SeparatorFree(xs: seq<string>, sep: char)
  {
    forall i :: 0 <= i < |xs| ==> sep !in xs[i]
  }

  /** The length of a join: every element plus one separator between each pair. */
  function TotalLength(xs: seq<string>): nat
  {
    if |xs| == 0 then 0 else |xs[0]| + TotalLength(xs[1..])
  }

  lemma {:induction false} JoinLength(xs: seq<string>, sep: char)
    requires |xs| >= 1
    ensures |Join(xs, sep)| == TotalLength(xs) + |xs| - 1
  {
    if |xs| > 1 {
      JoinLength(xs[1..], sep);
    }
  }

  /** A string without the separator is a single piece. */
  lemma {:induction false} SplitNoSeparator(w: string, sep: char)
    requires sep !in w
    ensures Split(w, sep) == [w]
    decreases |w|
  {
    if |w| > 0 {
      SplitNoSeparator(w[1..], sep);
      assert [w[0]] + w[1..] == w;
    }
  }

  /** Splitting distributes over a separator placed between two strings. */
  lemma {:induction false} SplitAround(a: string, b: string, sep: char)
    ensures Split(a + [sep] + b, sep) == Split(a, sep) + Split(b, sep)
    decreases |a|
  {
    var s := a + [sep] + b;
    if |a| == 0 {
      assert s[1..] == b;
    } else {
      assert s[1..] == a[1..] + [sep] + b;
      SplitAround(a[1..], b, sep);
    }
  }

  /**
   * Join and Split are inverse on a non-empty list of separator-free pieces.
   * (The empty list is the exception: it joins to "" as [""] does.)
   */
  lemma {:induction false} SplitJoin(xs: seq<string>, sep: char)
    requires |xs| >= 1 && SeparatorFree(xs, sep)
    ensures Split(Join(xs, sep), sep) == xs
  {
    if |xs| == 1 {
      SplitNoSeparator(xs[0], sep);
    } else {
      SplitNoSeparator(xs[0], sep);
      assert SeparatorFree(xs[1..], sep) by {
        forall i | 0 <= i < |xs[1..]| ensures sep !in xs[1..][i] {
          assert xs[1..][i] == xs[i + 1];
        }
      }
      SplitJoin(xs[1..], sep);
      SplitAround(xs[0], Join(xs[1..], sep), sep);
      assert [xs[0]] + xs[1..] == xs;
    }
  }

  /** A path that adds three separator-free segments to a prefix splits into the prefix's pieces and those three. */
  lemma SplitThreeSegments(prefix: string, a: string, b: string, c: string, sep: char)
    requires sep !in a && sep !in b && sep !in c
    ensures Split(prefix + [sep] + a + [sep] + b + [sep] + c, sep) == Split(prefix, sep) + [a, b, c]
  {
    var tail := b + [sep] + c;
    var mid := a + [sep] + tail;
    assert prefix + [sep] + a + [sep] + b + [sep] + c == prefix + [sep] + mid;
    SplitNoSeparator(a, sep);
    SplitNoSeparator(b, sep);
    SplitNoSeparator(c, sep);
    SplitAround(b, c, sep);
    SplitAround(a, tail, sep);
    SplitAround(prefix, mid, sep);
  }
}
