/** JavaScript's `String.prototype.split` on a one-character separator,
    `Array.prototype.join` and `filter(Boolean)` on arrays of strings, as
    the page header chains them. */
module Strings {

  /** `s.split(c)`: the maximal pieces between occurrences of `c`. There is
      always at least one piece; an empty `s` gives one empty piece, and a
      separator at either end gives an empty piece there. */
  function Split(s: string, c: char): (pieces: seq<string>)
    ensures |pieces| >= 1
  {
    if |s| == 0 then [[]]
    else if s[0] == c then [[]] + Split(s[1..], c)
    else
      var rest := Split(s[1..], c);
      [[s[0]] + rest[0]] + rest[1..]
  }

  /** `parts.join(sep)`; an empty array joins to the empty string. */
  function Join(parts: seq<string>, sep: string): string
  {
    if |parts| == 0 then []
    else if |parts| == 1 then parts[0]
    else parts[0] + sep + Join(parts[1..], sep)
  }

  /** `parts.filter(Boolean)`: the non-empty strings, in order. */
  function NonEmpty(parts: seq<string>): (kept: seq<string>)
    ensures |kept| <= |parts|
    ensures forall i :: 0 <= i < |kept| ==> kept[i] != [] && kept[i] in parts
  {
    if |parts| == 0 then []
    else if parts[0] == [] then NonEmpty(parts[1..])
    else [parts[0]] + NonEmpty(parts[1..])
  }

  /** The characters of `s` other than `c`, in order. */
  function Without(s: string, c: char): string
  {
    if |s| == 0 then []
    else (if s[0] == c then [] else [s[0]]) + Without(s[1..], c)
  }

  /** All pieces laid end to end. */
  function Concat(parts: seq<string>): string
  {
    if |parts| == 0 then [] else parts[0] + Concat(parts[1..])
  }

  predicate Free(s: string, c: char) { forall i :: 0 <= i < |s| ==> s[i] != c }

  predicate AllFree(parts: seq<string>, c: char) {
    forall i :: 0 <= i < |parts| ==> Free(parts[i], c)
  }

  /** No piece of a split contains the separator. */
  lemma {:induction false} SplitPiecesFree(s: string, c: char)
    ensures AllFree(Split(s, c), c)
  {
    if |s| > 0 {
      SplitPiecesFree(s[1..], c);
      var rest := Split(s[1..], c);
      if s[0] != c {
        assert Free(rest[0], c);
        var first := [s[0]] + rest[0];
        assert Free(first, c);
      }
    }
  }

  /** The pieces of a split, joined with the separator, give back the input. */
  lemma {:induction false} JoinSplit(s: string, c: char)
    ensures Join(Split(s, c), [c]) == s
  {
    if |s| > 0 {
      JoinSplit(s[1..], c);
      var rest := Split(s[1..], c);
      if s[0] == c {
        assert Split(s, c) == [[]] + rest;
        assert s == [] + [c] + Join(rest, [c]);
      } else {
        var pieces := Split(s, c);
        assert pieces[1..] == rest[1..];
        if |rest| == 1 {
          assert s == [s[0]] + rest[0];
        } else {
          assert Join(rest, [c]) == rest[0] + [c] + Join(rest[1..], [c]);
          assert s == ([s[0]] + rest[0]) + [c] + Join(rest[1..], [c]);
        }
      }
    }
  }

  /** Splitting a join of separator-free pieces gives back the pieces. */
  lemma {:induction false} SplitJoin(parts: seq<string>, c: char)
    requires |parts| >= 1
    requires AllFree(parts, c)
    ensures Split(Join(parts, [c]), c) == parts
  {
    if |parts| == 1 {
      SplitFree(parts[0], c);
    } else {
      SplitJoin(parts[1..], c);
      SplitAround(parts[0], Join(parts[1..], [c]), c);
      SplitFree(parts[0], c);
      assert parts == [parts[0]] + parts[1..];
    }
  }

  /** A separator-free string is a single piece. */
  lemma {:induction false} SplitFree(s: string, c: char)
    requires Free(s, c)
    ensures Split(s, c) == [s]
  {
    if |s| > 0 {
      SplitFree(s[1..], c);
      assert [s[0]] + s[1..] == s;
    }
  }

  /** One separator between `u` and `v` is one piece boundary: the pieces
      of `u` followed by the pieces of `v`. */
  lemma {:induction false} SplitAround(u: string, v: string, c: char)
    ensures Split(u + [c] + v, c) == Split(u, c) + Split(v, c)
  {
    var s := u + [c] + v;
    if |u| == 0 {
      assert s == [c] + v;
      assert s[1..] == v;
    } else {
      assert s[1..] == u[1..] + [c] + v;
      SplitAround(u[1..], v, c);
    }
  }

  /** Kept pieces are exactly the non-empty ones: their characters, laid end
      to end, are those of all pieces. */
  lemma {:induction false} ConcatNonEmpty(parts: seq<string>)
    ensures Concat(NonEmpty(parts)) == Concat(parts)
  {
    if |parts| > 0 {
      ConcatNonEmpty(parts[1..]);
      if parts[0] != [] {
        assert ([parts[0]] + NonEmpty(parts[1..]))[1..] == NonEmpty(parts[1..]);
      }
    }
  }

  /** Laying the pieces of a split end to end drops exactly the separators. */
  lemma {:induction false} ConcatSplit(s: string, c: char)
    ensures Concat(Split(s, c)) == Without(s, c)
  {
    if |s| > 0 {
      ConcatSplit(s[1..], c);
      var rest := Split(s[1..], c);
      if s[0] == c {
        assert Split(s, c)[1..] == rest;
      } else {
        var pieces := Split(s, c);
        assert pieces[1..] == rest[1..];
        assert Concat(rest) == rest[0] + Concat(rest[1..]);
      }
    }
  }

  lemma {:induction false} NonEmptyAppend(a: seq<string>, b: seq<string>)
    ensures NonEmpty(a + b) == NonEmpty(a) + NonEmpty(b)
  {
    if |a| > 0 {
      NonEmptyAppend(a[1..], b);
      assert (a + b)[1..] == a[1..] + b;
    } else {
      assert a + b == b;
    }
  }

  lemma {:induction false} NonEmptyIdentity(parts: seq<string>)
    requires forall i :: 0 <= i < |parts| ==> parts[i] != []
    ensures NonEmpty(parts) == parts
  {
    if |parts| > 0 {
      NonEmptyIdentity(parts[1..]);
      assert [parts[0]] + parts[1..] == parts;
    }
  }

  /** Only a string made of `c` alone loses every character. */
  lemma {:induction false} WithoutEmpty(s: string, c: char)
    ensures Without(s, c) == [] <==> forall i :: 0 <= i < |s| ==> s[i] == c
  {
    if |s| > 0 {
      WithoutEmpty(s[1..], c);
      assert forall i :: 1 <= i < |s| ==> s[i] == s[1..][i - 1];
    }
  }

  /** Non-empty pieces laid end to end are empty only when there are none. */
  lemma ConcatEmpty(parts: seq<string>)
    requires forall i :: 0 <= i < |parts| ==> parts[i] != []
    ensures Concat(parts) == [] <==> parts == []
  {
    if |parts| > 0 {
      assert |Concat(parts)| >= |parts[0]| > 0;
    }
  }
}
