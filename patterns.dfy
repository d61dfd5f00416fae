/**
 * Regular expressions over characters, with the constructs the date pattern of
 * the reviver uses, and their language semantics. `Matches(r, s)` says that the
 * whole of s is in the language of r, which is what an exec of the anchored
 * pattern ^r$ (no flags) succeeds on: a backtracking matcher explores every
 * alternative before giving up, so for patterns without look-around or
 * back-references it accepts exactly the strings of the language.
 */
module Patterns {

  datatype Regex =
    | Class(chars: set<char>)          // [...]: one character of the set
    | Cat(first: Regex, second: Regex) // concatenation
    | Alt(left: Regex, right: Regex)   // left|right
    | Opt(body: Regex)                 // body?
    | Plus(body: Regex)                // body+

  /** A single literal character. */
  function Lit(c: char): Regex
  {
    Class({c})
  }

  predicate Matches(r: Regex, s: seq<char>)
    decreases r, |s|
  {
    match r
    case Class(cs) => |s| == 1 && s[0] in cs
    case Cat(a, b) => exists i :: 0 <= i <= |s| && Matches(a, s[..i]) && Matches(b, s[i..])
    case Alt(a, b) => Matches(a, s) || Matches(b, s)
    case Opt(a) => |s| == 0 || Matches(a, s)
    case Plus(a) =>
      Matches(a, s) || exists i :: 0 < i < |s| && Matches(a, s[..i]) && Matches(r, s[i..])
  }

  /** The length every match of a pattern has, when there is one such length. */
  datatype Width = Fixed(n: nat) | Varies

  function WidthOf(r: Regex): Width
  {
    match r
    case Class(_) => Fixed(1)
    case Cat(a, b) =>
      if WidthOf(a).Fixed? && WidthOf(b).Fixed? then Fixed(WidthOf(a).n + WidthOf(b).n) else Varies
    case Alt(a, b) => if WidthOf(a).Fixed? && WidthOf(b) == WidthOf(a) then WidthOf(a) else Varies
    case Opt(_) => Varies
    case Plus(_) => Varies
  }

  lemma {:induction false} WidthSound(r: Regex, s: seq<char>)
    requires WidthOf(r).Fixed? && Matches(r, s)
    ensures |s| == WidthOf(r).n
  {
    match r
    case Class(_) =>
    case Cat(a, b) =>
      var i :| 0 <= i <= |s| && Matches(a, s[..i]) && Matches(b, s[i..]);
      WidthSound(a, s[..i]);
      WidthSound(b, s[i..]);
    case Alt(a, b) =>
      if Matches(a, s) {
        WidthSound(a, s);
      } else {
        WidthSound(b, s);
      }
  }

  /** A concatenation whose first part has a fixed width splits at that width. */
  lemma CatFixed(a: Regex, b: Regex, s: seq<char>)
    requires WidthOf(a).Fixed?
    ensures Matches(Cat(a, b), s) <==>
      |s| >= WidthOf(a).n && Matches(a, s[..WidthOf(a).n]) && Matches(b, s[WidthOf(a).n..])
  {
    if Matches(Cat(a, b), s) {
      var i :| 0 <= i <= |s| && Matches(a, s[..i]) && Matches(b, s[i..]);
      WidthSound(a, s[..i]);
    }
  }

  /** An optional first part is either absent or present. */
  lemma CatOpt(a: Regex, b: Regex, s: seq<char>)
    ensures Matches(Cat(Opt(a), b), s) <==> Matches(b, s) || Matches(Cat(a, b), s)
  {
    if Matches(Cat(Opt(a), b), s) {
      var i :| 0 <= i <= |s| && Matches(Opt(a), s[..i]) && Matches(b, s[i..]);
      if i == 0 {
        assert s[i..] == s;
      }
    }
    if Matches(b, s) {
      assert s[..0] == [] && s[0..] == s;
      assert Matches(Opt(a), s[..0]);
    }
  }

  /** Concatenation is associative. */
  lemma CatAssoc(a: Regex, b: Regex, c: Regex, s: seq<char>)
    ensures Matches(Cat(Cat(a, b), c), s) <==> Matches(Cat(a, Cat(b, c)), s)
  {
    if Matches(Cat(Cat(a, b), c), s) {
      CatAssocRight(a, b, c, s);
    }
    if Matches(Cat(a, Cat(b, c)), s) {
      CatAssocLeft(a, b, c, s);
    }
  }

  /** Matches of the two parts concatenate to a match of the concatenation. */
  lemma CatOfConcat(a: Regex, b: Regex, x: seq<char>, y: seq<char>)
    requires Matches(a, x) && Matches(b, y)
    ensures Matches(Cat(a, b), x + y)
  {
    assert (x + y)[..|x|] == x && (x + y)[|x|..] == y;
  }

  /** A match of a concatenation comes from matches of its two parts. */
  lemma CatParts(a: Regex, b: Regex, s: seq<char>) returns (x: seq<char>, y: seq<char>)
    requires Matches(Cat(a, b), s)
    ensures s == x + y && Matches(a, x) && Matches(b, y)
  {
    var i :| 0 <= i <= |s| && Matches(a, s[..i]) && Matches(b, s[i..]);
    x, y := s[..i], s[i..];
    assert s == x + y;
  }

  lemma CatAssocRight(a: Regex, b: Regex, c: Regex, s: seq<char>)
    requires Matches(Cat(Cat(a, b), c), s)
    ensures Matches(Cat(a, Cat(b, c)), s)
  {
    var u, z := CatParts(Cat(a, b), c, s);
    var x, y := CatParts(a, b, u);
    CatOfThreeRight(a, b, c, x, y, z);
  }

  lemma CatAssocLeft(a: Regex, b: Regex, c: Regex, s: seq<char>)
    requires Matches(Cat(a, Cat(b, c)), s)
    ensures Matches(Cat(Cat(a, b), c), s)
  {
    var x, v := CatParts(a, Cat(b, c), s);
    var y, z := CatParts(b, c, v);
    CatOfThreeLeft(a, b, c, x, y, z);
  }

  lemma CatOfThreeLeft(a: Regex, b: Regex, c: Regex, x: seq<char>, y: seq<char>, z: seq<char>)
    requires Matches(a, x) && Matches(b, y) && Matches(c, z)
    ensures Matches(Cat(Cat(a, b), c), x + (y + z))
  {
    CatOfConcat(a, b, x, y);
    CatOfConcat(Cat(a, b), c, x + y, z);
    assert (x + y) + z == x + (y + z);
  }

  lemma CatOfThreeRight(a: Regex, b: Regex, c: Regex, x: seq<char>, y: seq<char>, z: seq<char>)
    requires Matches(a, x) && Matches(b, y) && Matches(c, z)
    ensures Matches(Cat(a, Cat(b, c)), (x + y) + z)
  {
    CatOfConcat(b, c, y, z);
    CatOfConcat(a, Cat(b, c), x, y + z);
    assert (x + y) + z == x + (y + z);
  }

  /** One or more characters of a class. */
  lemma {:induction false} PlusClass(cs: set<char>, s: seq<char>)
    ensures Matches(Plus(Class(cs)), s) <==> |s| >= 1 && forall i :: 0 <= i < |s| ==> s[i] in cs
    decreases |s|
  {
    var r := Plus(Class(cs));
    if |s| > 1 {
      PlusClass(cs, s[1..]);
      if Matches(r, s) {
        assert !Matches(Class(cs), s);
        var i :| 0 < i < |s| && Matches(Class(cs), s[..i]) && Matches(r, s[i..]);
        assert i == 1;
      }
      if forall i :: 0 <= i < |s| ==> s[i] in cs {
        assert forall i :: 0 <= i < |s[1..]| ==> s[1..][i] in cs by {
          forall i | 0 <= i < |s[1..]| ensures s[1..][i] in cs {
            assert s[1..][i] == s[i + 1];
          }
        }
        assert Matches(Class(cs), s[..1]);
      }
    }
  }

  /** A fixed run of character classes, one per position: [A][B][C]... */
  function Word(classes: seq<set<char>>): (r: Regex)
    requires |classes| >= 1
    ensures WidthOf(r) == Fixed(|classes|)
  {
    if |classes| == 1 then Class(classes[0]) else Cat(Class(classes[0]), Word(classes[1..]))
  }

  lemma {:induction false} WordMatches(classes: seq<set<char>>, s: seq<char>)
    requires |classes| >= 1
    ensures Matches(Word(classes), s) <==>
      |s| == |classes| && forall i :: 0 <= i < |s| ==> s[i] in classes[i]
  {
    if |classes| > 1 {
      CatFixed(Class(classes[0]), Word(classes[1..]), s);
      if |s| >= 1 {
        WordMatches(classes[1..], s[1..]);
        if |s| == |classes| && forall i :: 0 <= i < |s| ==> s[i] in classes[i] {
          forall i | 0 <= i < |s[1..]| ensures s[1..][i] in classes[1..][i] {
            assert s[1..][i] == s[i + 1];
          }
        }
        if Matches(Word(classes), s) {
          forall i | 0 <= i < |s| ensures s[i] in classes[i] {
            if i > 0 {
              assert s[i] == s[1..][i - 1];
            }
          }
        }
      }
    }
  }

  /** Every character that some class of the pattern admits. */
  function CharsOf(r: Regex): set<char>
  {
    match r
    case Class(cs) => cs
    case Cat(a, b) => CharsOf(a) + CharsOf(b)
    case Alt(a, b) => CharsOf(a) + CharsOf(b)
    case Opt(a) => CharsOf(a)
    case Plus(a) => CharsOf(a)
  }

  /** A word over classes drawn from a set of characters uses no other character. */
  lemma {:induction false} WordChars(classes: seq<set<char>>, alphabet: set<char>)
    requires |classes| >= 1
    requires forall i :: 0 <= i < |classes| ==> classes[i] <= alphabet
    ensures CharsOf(Word(classes)) <= alphabet
  {
    if |classes| > 1 {
      WordChars(classes[1..], alphabet);
    }
  }

  /** A pattern matches only strings written in its own characters. */
  lemma {:induction false} MatchesOnlyOwnChars(r: Regex, s: seq<char>)
    requires Matches(r, s)
    ensures forall i :: 0 <= i < |s| ==> s[i] in CharsOf(r)
    decreases r, |s|
  {
    match r
    case Class(_) =>
    case Cat(a, b) =>
      var x, y := CatParts(a, b, s);
      MatchesOnlyOwnChars(a, x);
      MatchesOnlyOwnChars(b, y);
      forall i | 0 <= i < |s| ensures s[i] in CharsOf(r) {
        if i < |x| {
          assert s[i] == x[i];
        } else {
          assert s[i] == y[i - |x|];
        }
      }
    case Alt(a, b) =>
      if Matches(a, s) {
        MatchesOnlyOwnChars(a, s);
      } else {
        MatchesOnlyOwnChars(b, s);
      }
    case Opt(a) =>
      if |s| > 0 {
        MatchesOnlyOwnChars(a, s);
      }
    case Plus(a) =>
      if Matches(a, s) {
        MatchesOnlyOwnChars(a, s);
      } else {
        var i :| 0 < i < |s| && Matches(a, s[..i]) && Matches(r, s[i..]);
        MatchesOnlyOwnChars(a, s[..i]);
        MatchesOnlyOwnChars(r, s[i..]);
        forall j | 0 <= j < |s| ensures s[j] in CharsOf(r) {
          if j < i {
            assert s[j] == s[..i][j];
          } else {
            assert s[j] == s[i..][j - i];
          }
        }
      }
  }
}
