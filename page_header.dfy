/** The page header's breadcrumb: the pathname is cut into its non-empty
    `/`-separated segments, the last one (or "Dashboard" when there is none)
    is the title, and the title is displayed with each `-` turned into a
    space and each word's first character upper-cased. */
module PageHeader {
  import opened Strings
  import opened Ascii

  const DefaultTitle: string := "Dashboard"

  /** `pathname.split('/').filter(Boolean)`. */
  function Segments(pathname: string): (segments: seq<string>)
    ensures forall i :: 0 <= i < |segments| ==> segments[i] != [] && Free(segments[i], '/')
  {
    SplitPiecesFree(pathname, '/');
    NonEmpty(Split(pathname, '/'))
  }

  /** The last segment, or "Dashboard" when the pathname has none. */
  function Title(pathname: string): (title: string)
    ensures title != [] && Free(title, '/')
  {
    var segments := Segments(pathname);
    if |segments| > 0 then segments[|segments| - 1] else DefaultTitle
  }

  /** `word.charAt(0).toUpperCase() + word.slice(1)`; an empty word stays empty. */
  function Capitalize(word: string): string
  {
    if |word| == 0 then [] else [ToUpper(word[0])] + word[1..]
  }

  function CapitalizeAll(words: seq<string>): (r: seq<string>)
    ensures |r| == |words|
  {
    if |words| == 0 then [] else [Capitalize(words[0])] + CapitalizeAll(words[1..])
  }

  /** `formatSegment`: split on `-`, capitalize each word, join with a space. */
  function FormatSegment(segment: string): string
  {
    Join(CapitalizeAll(Split(segment, '-')), " ")
  }

  /** What the header shows: the chevron after "AgriFlow", and the formatted title. */
  datatype Header = Header(chevron: bool, caption: string)

  function Render(pathname: string): Header
  {
    Header(|Segments(pathname)| > 0, FormatSegment(Title(pathname)))
  }

  /** A reference for `FormatSegment`, written as one left-to-right pass:
      `-` becomes a space and starts a new word, and only the first
      character of a word is upper-cased. */
  function Scan(s: string, wordStart: bool): (r: string)
    ensures |r| == |s|
  {
    if |s| == 0 then []
    else if s[0] == '-' then [' '] + Scan(s[1..], true)
    else [if wordStart then ToUpper(s[0]) else s[0]] + Scan(s[1..], false)
  }

  // ---------------------------------------------------------------------
  // Segments and title

  /** The segments hold every character of the pathname except the slashes,
      in order. */
  lemma SegmentsKeepCharacters(pathname: string)
    ensures Concat(Segments(pathname)) == Without(pathname, '/')
  {
    ConcatNonEmpty(Split(pathname, '/'));
    ConcatSplit(pathname, '/');
  }

  /** There is no segment exactly when the pathname is made of slashes only,
      as "" and "/" are; then the title is "Dashboard" and no chevron shows. */
  lemma NoSegmentsIff(pathname: string)
    ensures Segments(pathname) == [] <==> forall i :: 0 <= i < |pathname| ==> pathname[i] == '/'
    ensures Segments(pathname) == [] <==> Title(pathname) == DefaultTitle && !Render(pathname).chevron
  {
    SegmentsKeepCharacters(pathname);
    ConcatEmpty(Segments(pathname));
    WithoutEmpty(pathname, '/');
  }

  /** The chevron is shown exactly when the pathname has a character other than `/`. */
  lemma ChevronIff(pathname: string)
    ensures Render(pathname).chevron <==> exists i :: 0 <= i < |pathname| && pathname[i] != '/'
  {
    NoSegmentsIff(pathname);
  }

  /** A path built from non-empty, slash-free segments, with or without a
      leading slash, gives those segments back. */
  lemma {:induction false} SegmentsOfPath(segments: seq<string>)
    requires forall i :: 0 <= i < |segments| ==> segments[i] != [] && Free(segments[i], '/')
    ensures Segments(Join(segments, "/")) == segments
    ensures Segments("/" + Join(segments, "/")) == segments
  {
    var path := Join(segments, "/");
    if |segments| == 0 {
      assert Split(path, '/') == [[]];
      assert ("/" + path)[1..] == path;
    } else {
      SplitJoin(segments, '/');
      NonEmptyIdentity(segments);
      assert ("/" + path)[1..] == path;
      assert Split("/" + path, '/') == [[]] + segments;
      assert NonEmpty([[]] + segments) == NonEmpty(segments);
    }
  }

  /** A trailing slash changes neither the segments nor the title. */
  lemma TrailingSlash(pathname: string)
    ensures Segments(pathname + "/") == Segments(pathname)
    ensures Title(pathname + "/") == Title(pathname)
  {
    SplitAround(pathname, [], '/');
    assert pathname + "/" == pathname + ['/'] + [];
    NonEmptyAppend(Split(pathname, '/'), [[]]);
  }

  /** A non-empty slash-free word after a slash is the last segment and the title. */
  lemma TitleAfterSlash(pathname: string, word: string)
    requires word != [] && Free(word, '/')
    ensures Segments(pathname + "/" + word) == Segments(pathname) + [word]
    ensures Title(pathname + "/" + word) == word
  {
    SplitAround(pathname, word, '/');
    SplitFree(word, '/');
    NonEmptyAppend(Split(pathname, '/'), [word]);
  }

  /** A non-empty slash-free pathname is its own title. */
  lemma TitleOfWord(word: string)
    requires word != [] && Free(word, '/')
    ensures Title(word) == word
  {
    SplitFree(word, '/');
  }

  // ---------------------------------------------------------------------
  // Formatting

  /** Scanning a hyphen-free word: from a word start it is capitalized, and
      elsewhere it is copied. */
  lemma {:induction false} ScanWord(w: string)
    requires Free(w, '-')
    ensures Scan(w, true) == Capitalize(w)
    ensures Scan(w, false) == w
  {
    if |w| > 0 {
      ScanWord(w[1..]);
      assert [w[0]] + w[1..] == w;
    }
  }

  /** A hyphen after a hyphen-free word becomes a space and starts the next word. */
  lemma {:induction false} ScanWordThenHyphen(w: string, rest: string, wordStart: bool)
    requires Free(w, '-')
    ensures Scan(w + "-" + rest, wordStart) == Scan(w, wordStart) + " " + Scan(rest, true)
  {
    var s := w + "-" + rest;
    if |w| == 0 {
      assert s == "-" + rest;
      assert s[1..] == rest;
    } else {
      assert s[1..] == w[1..] + "-" + rest;
      ScanWordThenHyphen(w[1..], rest, false);
    }
  }

  lemma {:induction false} JoinCapitalized(words: seq<string>)
    requires |words| >= 1 && AllFree(words, '-')
    ensures Join(CapitalizeAll(words), " ") == Scan(Join(words, "-"), true)
  {
    ScanWord(words[0]);
    if |words| > 1 {
      JoinCapitalized(words[1..]);
      ScanWordThenHyphen(words[0], Join(words[1..], "-"), true);
      assert CapitalizeAll(words)[1..] == CapitalizeAll(words[1..]);
    }
  }

  /** Formatting is the left-to-right pass `Scan` from a word start. */
  lemma FormatSegmentIsScan(segment: string)
    ensures FormatSegment(segment) == Scan(segment, true)
  {
    var words := Split(segment, '-');
    SplitPiecesFree(segment, '-');
    JoinSplit(segment, '-');
    JoinCapitalized(words);
  }

  lemma {:induction false} ScanAt(s: string, wordStart: bool, i: nat)
    requires i < |s|
    ensures Scan(s, wordStart)[i] ==
      if s[i] == '-' then ' '
      else if (if i == 0 then wordStart else s[i - 1] == '-') then ToUpper(s[i])
      else s[i]
  {
    if i > 0 {
      ScanAt(s[1..], s[0] == '-', i - 1);
    }
  }

  /** Character `i` of a formatted segment: a `-` shows as a space, the
      first character of a hyphen-separated word is upper-cased, and every
      other character is copied. */
  function FormattedAt(segment: string, i: nat): char
    requires i < |segment|
  {
    if segment[i] == '-' then ' '
    else if i == 0 || segment[i - 1] == '-' then ToUpper(segment[i])
    else segment[i]
  }

  /** The formatted segment has the input's length, and each of its
      characters is the one `FormattedAt` gives: only the first character of
      a word may change, and each `-` becomes exactly one space. */
  lemma FormatSegmentPointwise(segment: string)
    ensures |FormatSegment(segment)| == |segment|
    ensures forall i :: 0 <= i < |segment| ==> FormatSegment(segment)[i] == FormattedAt(segment, i)
  {
    FormatSegmentIsScan(segment);
    forall i | 0 <= i < |segment|
      ensures Scan(segment, true)[i] == FormattedAt(segment, i)
    {
      ScanAt(segment, true, i);
    }
  }

  /** A formatted segment has no `-` left. */
  lemma FormatSegmentHyphenFree(segment: string)
    ensures Free(FormatSegment(segment), '-')
  {
    FormatSegmentPointwise(segment);
    forall i | 0 <= i < |segment|
      ensures FormatSegment(segment)[i] != '-'
    {
      assert FormattedAt(segment, i) != '-';
    }
  }

  /** Formatting an already formatted title leaves it unchanged. */
  lemma FormatSegmentIdempotent(segment: string)
    ensures FormatSegment(FormatSegment(segment)) == FormatSegment(segment)
  {
    var once := FormatSegment(segment);
    FormatSegmentPointwise(segment);
    FormatSegmentHyphenFree(segment);
    FormatSegmentPointwise(once);
    forall i | 0 <= i < |once|
      ensures FormatSegment(once)[i] == once[i]
    {
      assert once[i] != '-';
      if i == 0 {
        ToUpperIdempotent(segment[0]);
        assert FormattedAt(once, 0) == ToUpper(once[0]);
      } else {
        assert once[i - 1] != '-';
      }
    }
  }

  /** A pathname made of slashes only, as "" and "/" are, renders as
      "Dashboard" with no chevron. */
  lemma RenderRoot(pathname: string)
    requires forall i :: 0 <= i < |pathname| ==> pathname[i] == '/'
    ensures Render(pathname) == Header(false, "Dashboard")
  {
    NoSegmentsIff(pathname);
    FormatSegmentPointwise(DefaultTitle);
    assert FormatSegment(DefaultTitle) == DefaultTitle;
  }
}
