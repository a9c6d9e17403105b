/**
  Paragraphs of a combined summary: Python's `str.split("\n\n")` and
  `"\n\n".join(...)`, the two string operations the detail trimmer and the
  page use to cut a summary into paragraphs and put it back together.

  `Split` scans left to right and cuts at every non-overlapping occurrence of
  the separator, exactly as `str.split(sep)` does; it always yields at least
  one piece. The lemmas show that `Split` and `Join` are inverse bijections
  between strings and "canonical" paragraph lists.
*/
module Paragraphs {

  /** The paragraph separator: one blank line. */
  const Sep: string := "\n\n"

  /** A separator starts at index `i` of `s`. */
  predicate SepAt(s: string, i: int)
  {
    0 <= i && i + 2 <= |s| && s[i] == '\n' && s[i + 1] == '\n'
  }

  /** `s` contains the separator as a substring. */
  predicate HasSep(s: string)
  {
    exists i | 0 <= i < |s| :: SepAt(s, i)
  }

  predicate IsPrefix(p: string, s: string)
  {
    |p| <= |s| && s[..|p|] == p
  }

  /**
    `s.split("\n\n")`: if a separator starts at the current position the
    current piece ends there and scanning resumes after the separator;
    otherwise the current character belongs to the current piece.
  */
  function Split(s: string): (r: seq<string>)
    ensures |r| >= 1
    decreases |s|
  {
    if |s| < 2 then [s]
    else if SepAt(s, 0) then [""] + Split(s[2..])
    else
      var rest := Split(s[1..]);
      [[s[0]] + rest[0]] + rest[1..]
  }

  /** `"\n\n".join(ps)`; the empty list joins to the empty string. */
  function Join(ps: seq<string>): string
  {
    if |ps| == 0 then ""
    else if |ps| == 1 then ps[0]
    else ps[0] + Sep + Join(ps[1..])
  }

  /**
    The lists `Split` can produce: at least one piece, no piece holds a
    separator, and no piece but the last ends with a newline (such a newline
    and the separator after it would have formed an earlier separator).
  */
  ghost predicate Canonical(ps: seq<string>)
  {
    && |ps| >= 1
    && (forall i | 0 <= i < |ps| :: !HasSep(ps[i]))
    && (forall i | 0 <= i < |ps| - 1 :: ps[i] == [] || ps[i][|ps[i]| - 1] != '\n')
  }

  lemma JoinConsChar(c: char, ps: seq<string>)
    requires |ps| >= 1
    ensures Join([[c] + ps[0]] + ps[1..]) == [c] + Join(ps)
  {
    if |ps| > 1 {
      assert ([[c] + ps[0]] + ps[1..])[1..] == ps[1..];
    }
  }

  /** Joining the pieces of a split gives the original string back. */
  lemma {:induction false} JoinSplit(s: string)
    ensures Join(Split(s)) == s
    decreases |s|
  {
    if |s| < 2 {
    } else if SepAt(s, 0) {
      JoinSplit(s[2..]);
      assert ([""] + Split(s[2..]))[1..] == Split(s[2..]);
      assert s == Sep + s[2..];
    } else {
      var rest := Split(s[1..]);
      JoinSplit(s[1..]);
      JoinConsChar(s[0], rest);
      assert s == [s[0]] + s[1..];
    }
  }

  /**
    The first piece of a split is the prefix of `s` that ends just before the
    leftmost separator, or all of `s` when there is none.
  */
  lemma {:induction false} SplitFirst(s: string)
    ensures IsPrefix(Split(s)[0], s)
    ensures forall i | 0 <= i < |Split(s)[0]| :: !SepAt(s, i)
    ensures |Split(s)[0]| == |s| || SepAt(s, |Split(s)[0]|)
    decreases |s|
  {
    if |s| < 2 {
    } else if SepAt(s, 0) {
    } else {
      SplitFirst(s[1..]);
      SplitFirstStep(s);
    }
  }

  /** The inductive step of `SplitFirst`: the first character joins the first piece of the rest. */
  lemma SplitFirstStep(s: string)
    requires |s| >= 2 && !SepAt(s, 0)
    requires IsPrefix(Split(s[1..])[0], s[1..])
    requires forall i | 0 <= i < |Split(s[1..])[0]| :: !SepAt(s[1..], i)
    requires |Split(s[1..])[0]| == |s| - 1 || SepAt(s[1..], |Split(s[1..])[0]|)
    ensures IsPrefix(Split(s)[0], s)
    ensures forall i | 0 <= i < |Split(s)[0]| :: !SepAt(s, i)
    ensures |Split(s)[0]| == |s| || SepAt(s, |Split(s)[0]|)
  {
    var t := s[1..];
    var q := Split(t)[0];
    var p := Split(s)[0];
    assert p == [s[0]] + q;
    assert s == [s[0]] + t;
    assert s[..|p|] == [s[0]] + t[..|q|];
    forall i | 0 <= i < |p|
      ensures !SepAt(s, i)
    {
      if i > 0 {
        assert !SepAt(t, i - 1);
        assert s[i] == t[i - 1];
      }
    }
    if |p| < |s| {
      assert SepAt(t, |q|);
      assert s[|p|] == t[|q|];
      assert s[|p| + 1] == t[|q| + 1];
    }
  }

  /** A string holds a separator exactly when it splits into more than one piece. */
  lemma SplitSingle(s: string)
    ensures |Split(s)| == 1 <==> !HasSep(s)
  {
    SplitFirst(s);
    var p := Split(s)[0];
    JoinSplit(s);
    if |Split(s)| == 1 {
      assert p == s;
    } else {
      assert Join(Split(s)) == p + Sep + Join(Split(s)[1..]);
      assert |p| < |s|;
      assert SepAt(s, |p|);
    }
  }

  /** A prefix free of separators contains no separator of its own. */
  lemma NoSepInPrefix(s: string, p: string)
    requires IsPrefix(p, s)
    requires forall i | 0 <= i < |p| :: !SepAt(s, i)
    ensures !HasSep(p)
  {
    forall i | 0 <= i < |p|
      ensures !SepAt(p, i)
    {
      assert !SepAt(s, i);
    }
  }

  /** Dropping the first character of a separator-free string keeps it separator-free. */
  lemma NoSepAfterFirst(p: string)
    requires |p| >= 1 && !HasSep(p)
    ensures !HasSep(p[1..])
  {
    var p' := p[1..];
    forall i | 0 <= i < |p'|
      ensures !SepAt(p', i)
    {
      assert !SepAt(p, i + 1);
    }
  }

  /** Every split is canonical. */
  lemma {:induction false} SplitCanonical(s: string)
    ensures Canonical(Split(s))
    decreases |s|
  {
    if |s| < 2 {
      assert !HasSep(s);
    } else if SepAt(s, 0) {
      SplitCanonical(s[2..]);
      CanonicalAfterSep(s);
    } else {
      SplitCanonical(s[1..]);
      CanonicalAfterChar(s);
    }
  }

  lemma CanonicalAfterSep(s: string)
    requires |s| >= 2 && SepAt(s, 0)
    requires Canonical(Split(s[2..]))
    ensures Canonical(Split(s))
  {
    var r := Split(s);
    var rest := Split(s[2..]);
    assert r == [""] + rest;
    assert !HasSep("");
    forall i | 1 <= i < |r|
      ensures !HasSep(r[i])
    {
      assert r[i] == rest[i - 1];
    }
  }

  lemma CanonicalAfterChar(s: string)
    requires |s| >= 2 && !SepAt(s, 0)
    requires Canonical(Split(s[1..]))
    ensures Canonical(Split(s))
  {
    var rest := Split(s[1..]);
    var r := Split(s);
    assert r == [[s[0]] + rest[0]] + rest[1..];
    FirstPieceNoSep(s);
    if |r| > 1 {
      FirstPieceEnd(s);
    }
    assert forall i | 1 <= i < |r| :: r[i] == rest[i];
  }

  /** The first piece of a split holds no separator. */
  lemma FirstPieceNoSep(s: string)
    ensures !HasSep(Split(s)[0])
  {
    SplitFirst(s);
    NoSepInPrefix(s, Split(s)[0]);
  }

  /** When a split has several pieces, the first one does not end with a newline. */
  lemma FirstPieceEnd(s: string)
    requires |Split(s)| > 1
    ensures Split(s)[0] == [] || Split(s)[0][|Split(s)[0]| - 1] != '\n'
  {
    var r := Split(s);
    SplitFirst(s);
    JoinSplit(s);
    assert Join(r) == r[0] + Sep + Join(r[1..]);
    assert SepAt(s, |r[0]|);
    if r[0] != [] {
      assert !SepAt(s, |r[0]| - 1);
      assert s[|r[0]| - 1] == r[0][|r[0]| - 1];
    }
  }

  /** A piece that holds no separator and does not end with a newline is cut off intact. */
  lemma {:induction false} SplitAfterPiece(p: string, t: string)
    requires !HasSep(p)
    requires p == [] || p[|p| - 1] != '\n'
    ensures Split(p + Sep + t) == [p] + Split(t)
    decreases |p|
  {
    var s := p + Sep + t;
    if p == [] {
      assert s == Sep + t;
      assert s[2..] == t;
    } else {
      var p' := p[1..];
      NoSepAfterFirst(p);
      assert p' == [] || p'[|p'| - 1] != '\n';
      SplitAfterPiece(p', t);
      SplitAfterPieceStep(p, t);
    }
  }

  /** The inductive step of `SplitAfterPiece`: the first character of the piece joins its rest. */
  lemma SplitAfterPieceStep(p: string, t: string)
    requires |p| >= 1 && !HasSep(p) && p[|p| - 1] != '\n'
    requires Split(p[1..] + Sep + t) == [p[1..]] + Split(t)
    ensures Split(p + Sep + t) == [p] + Split(t)
  {
    var s := p + Sep + t;
    var p' := p[1..];
    assert s[1..] == p' + Sep + t;
    assert s[0] == p[0];
    if |p'| > 0 {
      assert !SepAt(p, 0);
      assert s[1] == p[1];
    }
    assert !SepAt(s, 0);
    var rest := Split(s[1..]);
    assert Split(s) == [[s[0]] + rest[0]] + rest[1..];
    assert rest[0] == p' && rest[1..] == Split(t);
    assert [s[0]] + p' == p;
  }

  /** A string without a separator is a single piece. */
  lemma {:induction false} SplitNoSep(p: string)
    requires !HasSep(p)
    ensures Split(p) == [p]
    decreases |p|
  {
    if |p| >= 2 {
      assert !SepAt(p, 0);
      NoSepAfterFirst(p);
      SplitNoSep(p[1..]);
      assert p == [p[0]] + p[1..];
    }
  }

  /** Splitting the join of a canonical list gives the list back. */
  lemma {:induction false} SplitJoin(ps: seq<string>)
    requires Canonical(ps)
    ensures Split(Join(ps)) == ps
    decreases |ps|
  {
    if |ps| == 1 {
      SplitNoSep(ps[0]);
    } else {
      assert Canonical(ps[1..]) by {
        forall i | 0 <= i < |ps| - 1
          ensures !HasSep(ps[1..][i])
        {
          assert ps[1..][i] == ps[i + 1];
        }
      }
      SplitJoin(ps[1..]);
      SplitAfterPiece(ps[0], Join(ps[1..]));
      assert ps == [ps[0]] + ps[1..];
    }
  }

  /** Joining the first `n` paragraphs of a split gives a prefix of the string. */
  lemma JoinPrefixOfSplit(s: string, n: nat)
    requires 1 <= n <= |Split(s)|
    ensures IsPrefix(Join(Split(s)[..n]), s)
  {
    var ps := Split(s);
    JoinSplit(s);
    if n < |ps| {
      JoinAppend(ps, n);
    } else {
      assert ps[..n] == ps;
    }
  }

  /** A canonical list keeps being canonical when cut after its first `n` pieces. */
  lemma CanonicalPrefix(ps: seq<string>, n: nat)
    requires Canonical(ps)
    requires 1 <= n <= |ps|
    ensures Canonical(ps[..n])
  {
    forall i | 0 <= i < n
      ensures !HasSep(ps[..n][i])
    {
      assert ps[..n][i] == ps[i];
    }
  }

  /** The join of the first `n` pieces, a separator, and the join of the rest is the whole join. */
  lemma {:induction false} JoinAppend(ps: seq<string>, n: nat)
    requires 1 <= n < |ps|
    ensures Join(ps) == Join(ps[..n]) + Sep + Join(ps[n..])
    decreases n
  {
    if n == 1 {
      assert ps[..1] == [ps[0]];
      assert ps[1..] == ps[n..];
    } else {
      JoinAppend(ps[1..], n - 1);
      assert ps[1..][..n - 1] == ps[..n][1..];
      assert ps[1..][n - 1..] == ps[n..];
    }
  }
}
