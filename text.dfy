/**
 * The parts of Python's `str` that the pipeline relies on: whitespace,
 * `split()`, `strip()`, `join()`, `lower()`, `re.split` on a character class,
 * and decimal rendering of integers in f-strings.
 */
module Text {

  /** `str.isspace()`: the characters that `split()`, `strip()` and the regex `\s` treat as whitespace. */
  predicate IsSpace(c: char)
  {
    c == ' ' || ('\t' <= c <= '\r') || ('\U{1C}' <= c <= '\U{1F}') || c == '\U{85}' || c == '\U{A0}'
    || c == '\U{1680}' || ('\U{2000}' <= c <= '\U{200A}') || c == '\U{2028}' || c == '\U{2029}'
    || c == '\U{202F}' || c == '\U{205F}' || c == '\U{3000}'
  }

  predicate NoSpace(s: string)
  {
    forall k :: 0 <= k < |s| ==> !IsSpace(s[k])
  }

  /** An item of `str.split()`: non-empty, without whitespace. */
  predicate IsWord(w: string)
  {
    |w| > 0 && NoSpace(w)
  }

  predicate AllWords(ws: seq<string>)
  {
    forall k :: 0 <= k < |ws| ==> IsWord(ws[k])
  }

  /**
   * Whitespace normal form: stripped, every whitespace character is a plain
   * space, and no two whitespace characters are adjacent.
   */
  predicate SingleSpaced(s: string)
  {
    && (|s| > 0 ==> !IsSpace(s[0]) && !IsSpace(s[|s| - 1]))
    && (forall k :: 0 <= k < |s| && IsSpace(s[k]) ==> s[k] == ' ')
    && (forall k :: 0 <= k < |s| - 1 && IsSpace(s[k]) ==> !IsSpace(s[k + 1]))
  }

  /** Length of the leading run of non-whitespace characters. */
  function WordLength(s: string): (n: nat)
    ensures n <= |s|
    ensures forall k :: 0 <= k < n ==> !IsSpace(s[k])
    ensures n < |s| ==> IsSpace(s[n])
  {
    if s == [] || IsSpace(s[0]) then 0 else 1 + WordLength(s[1..])
  }

  /** `s.split()`: the maximal runs of non-whitespace characters, in order. */
  function Words(s: string): (ws: seq<string>)
    ensures AllWords(ws)
    decreases |s|
  {
    if s == [] then []
    else if IsSpace(s[0]) then Words(s[1..])
    else
      var n := WordLength(s);
      [s[..n]] + Words(s[n..])
  }

  /** `s.rstrip()` */
  function StripRight(s: string): (r: string)
    ensures |r| <= |s| && r == s[..|r|]
    ensures r == [] || !IsSpace(r[|r| - 1])
    ensures forall k :: |r| <= k < |s| ==> IsSpace(s[k])
  {
    if s != [] && IsSpace(s[|s| - 1]) then StripRight(s[..|s| - 1]) else s
  }

  /** Number of whitespace characters at the start of `s`. */
  function LeadingSpaces(s: string): (n: nat)
    ensures n <= |s|
    ensures forall k :: 0 <= k < n ==> IsSpace(s[k])
    ensures n < |s| ==> !IsSpace(s[n])
  {
    if s != [] && IsSpace(s[0]) then 1 + LeadingSpaces(s[1..]) else 0
  }

  /** `s.strip()`: the slice of `s` left after removing whitespace at both ends. */
  function Strip(s: string): (r: string)
    ensures r == [] || (!IsSpace(r[0]) && !IsSpace(r[|r| - 1]))
    ensures LeadingSpaces(s) + |r| <= |s| && r == s[LeadingSpaces(s)..LeadingSpaces(s) + |r|]
    ensures forall k :: LeadingSpaces(s) + |r| <= k < |s| ==> IsSpace(s[k])
  {
    var i := LeadingSpaces(s);
    StripRightOfSuffix(s, i);
    var r := StripRight(s[i..]);
    assert r != [] ==> r[0] == s[i];
    r
  }

  /** `rstrip` of a suffix is a slice of the whole, followed only by whitespace. */
  lemma StripRightOfSuffix(s: string, i: nat)
    requires i <= |s|
    ensures var r := StripRight(s[i..]);
            i + |r| <= |s| && r == s[i..i + |r|] && (forall k :: i + |r| <= k < |s| ==> IsSpace(s[k]))
  {
    var t := s[i..];
    var r := StripRight(t);
    assert t[..|r|] == s[i..i + |r|];
    forall k | i + |r| <= k < |s|
      ensures IsSpace(s[k])
    {
      assert s[k] == t[k - i];
    }
  }

  /** `[w.strip() for w in ws]` */
  function StripEach(ws: seq<string>): seq<string>
  {
    seq(|ws|, k requires 0 <= k < |ws| => Strip(ws[k]))
  }

  /** `sep.join(parts)` */
  function Join(sep: string, parts: seq<string>): string
  {
    if |parts| == 0 then ""
    else if |parts| == 1 then parts[0]
    else parts[0] + sep + Join(sep, parts[1..])
  }

  /**
   * `' '.join(w.strip() for w in text.split())`: `normalize_whitespace`, and
   * `clear_spaces_inside` in the data scripts. The result is in whitespace
   * normal form and has the same words as the input.
   */
  function NormalizeWhitespace(text: string): (r: string)
    ensures SingleSpaced(r)
    ensures Words(r) == Words(text)
  {
    var ws := Words(text);
    StripWordsUnchanged(ws);
    JoinWords(ws);
    Join(" ", StripEach(ws))
  }

  // ---------------------------------------------------------------------------
  // Lemmas about split / strip / join

  lemma StripWord(w: string)
    requires NoSpace(w)
    ensures Strip(w) == w
  {
  }

  lemma StripWordsUnchanged(ws: seq<string>)
    requires AllWords(ws)
    ensures StripEach(ws) == ws
  {
    forall k | 0 <= k < |ws| ensures StripEach(ws)[k] == ws[k] {
      StripWord(ws[k]);
    }
  }

  /** Stripping changes nothing on a string in whitespace normal form. */
  lemma StripSingleSpaced(s: string)
    requires SingleSpaced(s)
    ensures Strip(s) == s
  {
  }

  lemma {:induction false} WordLengthOfWord(w: string, t: string)
    requires NoSpace(w)
    requires t == [] || IsSpace(t[0])
    ensures WordLength(w + t) == |w|
    decreases |w|
  {
    if w != [] {
      assert (w + t)[1..] == w[1..] + t;
      WordLengthOfWord(w[1..], t);
    }
  }

  /** A word followed by whitespace (or nothing) is the first item of `split()`. */
  lemma WordsOfWordThen(w: string, t: string)
    requires IsWord(w)
    requires t == [] || IsSpace(t[0])
    ensures Words(w + t) == [w] + Words(t)
  {
    WordLengthOfWord(w, t);
    assert (w + t)[0] == w[0];
    assert (w + t)[..|w|] == w;
    assert (w + t)[|w|..] == t;
  }

  lemma JoinNonEmpty(ws: seq<string>)
    requires AllWords(ws) && |ws| > 0
    ensures |Join(" ", ws)| > 0 && Join(" ", ws)[0] == ws[0][0]
  {
  }

  /**
   * Joining words with single spaces gives a string in whitespace normal form
   * whose `split()` returns exactly those words.
   */
  lemma JoinWords(ws: seq<string>)
    requires AllWords(ws)
    ensures SingleSpaced(Join(" ", ws))
    ensures Words(Join(" ", ws)) == ws
  {
    JoinWordsSpaced(ws);
    JoinWordsSplit(ws);
  }

  lemma {:induction false} JoinWordsSpaced(ws: seq<string>)
    requires AllWords(ws)
    ensures SingleSpaced(Join(" ", ws))
  {
    if |ws| > 1 {
      JoinWordsSpaced(ws[1..]);
      JoinNonEmpty(ws[1..]);
      SpacedCons(ws[0], Join(" ", ws[1..]));
    }
  }

  lemma SpacedCons(w: string, j: string)
    requires IsWord(w) && SingleSpaced(j) && |j| > 0
    ensures SingleSpaced(w + " " + j)
  {
    var s := w + " " + j;
    assert forall k :: 0 <= k < |w| ==> s[k] == w[k];
    assert s[|w|] == ' ';
    assert forall k :: |w| < k < |s| ==> s[k] == j[k - |w| - 1];
  }

  lemma {:induction false} JoinWordsSplit(ws: seq<string>)
    requires AllWords(ws)
    ensures Words(Join(" ", ws)) == ws
  {
    if |ws| == 1 {
      WordsOfWordThen(ws[0], "");
      assert ws[0] + "" == ws[0];
    } else if |ws| > 1 {
      var j := Join(" ", ws[1..]);
      JoinWordsSplit(ws[1..]);
      JoinCons(ws[0], ws[1..]);
      assert [ws[0]] + ws[1..] == ws;
      assert ws[0] + " " + j == ws[0] + (" " + j);
      calc {
        Words(Join(" ", ws));
        Words(ws[0] + (" " + j));
        { WordsOfWordThen(ws[0], " " + j); }
        [ws[0]] + Words(" " + j);
        { WordsAfterSpace(j); }
        [ws[0]] + ws[1..];
      }
    }
  }

  lemma WordsAfterSpace(j: string)
    ensures Words(" " + j) == Words(j)
  {
    assert (" " + j)[1..] == j;
  }

  /** A string in whitespace normal form is the single-space join of its words. */
  lemma {:induction false} SingleSpacedIsJoin(s: string)
    requires SingleSpaced(s)
    ensures s == Join(" ", Words(s))
    decreases |s|
  {
    if s != [] {
      var n := WordLength(s);
      if n == |s| {
        assert s[..n] == s && s[n..] == [];
      } else {
        var rest := s[n + 1..];
        SingleSpacedSplit(s, n);
        SingleSpacedIsJoin(rest);
        JoinCons(s[..n], Words(rest));
        SplitAtSpace(s, n);
      }
    }
  }

  lemma JoinCons(w: string, ws: seq<string>)
    requires |ws| > 0
    ensures Join(" ", [w] + ws) == w + " " + Join(" ", ws)
  {
    assert ([w] + ws)[1..] == ws;
  }

  lemma SplitAtSpace(s: string, n: nat)
    requires n < |s| && s[n] == ' '
    ensures s == s[..n] + " " + s[n + 1..]
  {
  }

  /** Splitting a string in whitespace normal form at its first space. */
  lemma SingleSpacedSplit(s: string, n: nat)
    requires SingleSpaced(s) && s != [] && n == WordLength(s) && n < |s|
    ensures n + 1 < |s| && s[n] == ' '
    ensures SingleSpaced(s[n + 1..])
    ensures Words(s) == [s[..n]] + Words(s[n + 1..])
    ensures |Words(s[n + 1..])| > 0
  {
    SingleSpacedTail(s, n);
    assert !IsSpace(s[n + 1]);
    WordsAtSpace(s, n);
  }

  lemma SingleSpacedTail(s: string, n: nat)
    requires SingleSpaced(s) && 0 < n < |s| && IsSpace(s[n])
    ensures n + 1 < |s| && s[n] == ' '
    ensures SingleSpaced(s[n + 1..])
  {
    var rest := s[n + 1..];
    assert forall k :: 0 <= k < |rest| ==> rest[k] == s[n + 1 + k];
  }

  lemma WordsAtSpace(s: string, n: nat)
    requires s != [] && n == WordLength(s) && n + 1 < |s| && n > 0
    ensures Words(s) == [s[..n]] + Words(s[n + 1..])
  {
    var t := s[n..];
    assert Words(s) == [s[..n]] + Words(t);
    assert IsSpace(t[0]);
    assert t[1..] == s[n + 1..];
  }

  /** `normalize_whitespace` is idempotent. */
  lemma NormalizeWhitespaceIdempotent(text: string)
    ensures NormalizeWhitespace(NormalizeWhitespace(text)) == NormalizeWhitespace(text)
  {
  }

  /**
   * `normalize_whitespace(text)` is the only string in whitespace normal form
   * that has the words of `text`.
   */
  lemma NormalizeWhitespaceUnique(text: string, s: string)
    requires SingleSpaced(s) && Words(s) == Words(text)
    ensures s == NormalizeWhitespace(text)
  {
    SingleSpacedIsJoin(s);
    StripWordsUnchanged(Words(text));
  }

  // ---------------------------------------------------------------------------
  // Case folding

  /**
   * `str.lower()` on one character, for ASCII, Latin-1 and the basic Cyrillic
   * block (А-Я, Ё and the other U+0400-U+040F capitals).
   */
  function LowerChar(c: char): char
  {
    if 'A' <= c <= 'Z' then (c as int + 32) as char
    else if '\U{C0}' <= c <= '\U{DE}' && c != '\U{D7}' then (c as int + 32) as char
    else if '\U{410}' <= c <= '\U{42F}' then (c as int + 32) as char
    else if '\U{400}' <= c <= '\U{40F}' then (c as int + 80) as char
    else c
  }

  /** `s.lower()` */
  function Lower(s: string): string
  {
    seq(|s|, k requires 0 <= k < |s| => LowerChar(s[k]))
  }

  predicate IsLower(s: string)
  {
    forall k :: 0 <= k < |s| ==> LowerChar(s[k]) == s[k]
  }

  /** Lower-casing is idempotent, so `lower()` output is lower case. */
  lemma LowerIsLower(s: string)
    ensures IsLower(Lower(s))
  {
  }

  lemma LowerKeepsSpaces(c: char)
    ensures IsSpace(LowerChar(c)) == IsSpace(c)
  {
  }

  lemma {:induction false} JoinLower(sep: string, parts: seq<string>)
    requires IsLower(sep)
    requires forall k :: 0 <= k < |parts| ==> IsLower(parts[k])
    ensures IsLower(Join(sep, parts))
  {
    if |parts| > 1 {
      JoinLower(sep, parts[1..]);
      var j := Join(sep, parts[1..]);
      var s := parts[0] + sep + j;
      assert forall k :: 0 <= k < |s| ==>
        s[k] == (if k < |parts[0]| then parts[0][k]
                 else if k < |parts[0]| + |sep| then sep[k - |parts[0]|]
                 else j[k - |parts[0]| - |sep|]);
    }
  }

  // ---------------------------------------------------------------------------
  // re.split on a character class

  /** Length of the leading run of characters outside `delims`. */
  function SegmentLength(s: string, delims: set<char>): (n: nat)
    ensures n <= |s|
    ensures forall k :: 0 <= k < n ==> s[k] !in delims
    ensures n < |s| ==> s[n] in delims
  {
    if s == [] || s[0] in delims then 0 else 1 + SegmentLength(s[1..], delims)
  }

  predicate Avoids(s: string, delims: set<char>)
  {
    forall k :: 0 <= k < |s| ==> s[k] !in delims
  }

  /**
   * `re.split('[...]', s)` for a one-character class: the pieces between
   * delimiters, empty pieces included, so one more piece than delimiters.
   */
  function SplitWhere(s: string, delims: set<char>): (parts: seq<string>)
    ensures |parts| > 0
    ensures forall k :: 0 <= k < |parts| ==> Avoids(parts[k], delims)
    decreases |s|
  {
    var n := SegmentLength(s, delims);
    if n == |s| then [s] else [s[..n]] + SplitWhere(s[n + 1..], delims)
  }

  /** Every character of `w` occurs in `s`. */
  predicate CharsFrom(w: string, s: string)
  {
    forall c :: c in w ==> c in s
  }

  lemma SliceCharsFrom(s: string, i: nat, j: nat)
    requires i <= j <= |s|
    ensures CharsFrom(s[i..j], s)
  {
    forall c | c in s[i..j] ensures c in s {
      var k :| 0 <= k < j - i && s[i..j][k] == c;
      assert s[i + k] == c;
    }
  }

  /** The items of `split()` are made of the characters of the string. */
  lemma {:induction false} WordsFrom(s: string)
    ensures forall w :: w in Words(s) ==> CharsFrom(w, s)
    decreases |s|
  {
    if s != [] {
      if IsSpace(s[0]) {
        WordsFrom(s[1..]);
        SliceCharsFrom(s, 1, |s|);
      } else {
        var n := WordLength(s);
        WordsFrom(s[n..]);
        SliceCharsFrom(s, n, |s|);
        SliceCharsFrom(s, 0, n);
      }
    }
  }

  /** The pieces of `re.split` are made of the characters of the string. */
  lemma {:induction false} SplitWhereFrom(s: string, delims: set<char>)
    ensures forall p :: p in SplitWhere(s, delims) ==> CharsFrom(p, s)
    decreases |s|
  {
    var n := SegmentLength(s, delims);
    SliceCharsFrom(s, 0, n);
    if n < |s| {
      SplitWhereFrom(s[n + 1..], delims);
      SliceCharsFrom(s, n + 1, |s|);
    } else {
      assert s[..n] == s;
    }
  }

  /** Splitting at a separator undoes joining with it, when no piece contains a delimiter. */
  lemma {:induction false} SplitJoin(sep: char, parts: seq<string>, delims: set<char>)
    requires sep in delims && |parts| > 0
    requires forall k :: 0 <= k < |parts| ==> Avoids(parts[k], delims)
    ensures SplitWhere(Join([sep], parts), delims) == parts
  {
    var p := parts[0];
    var s := Join([sep], parts);
    if |parts| == 1 {
      SegmentLengthOfSegment(p, "", delims);
    } else {
      var rest := Join([sep], parts[1..]);
      assert s == p + ([sep] + rest);
      SegmentLengthOfSegment(p, [sep] + rest, delims);
      assert s[..|p|] == p;
      assert s[|p| + 1..] == rest;
      SplitJoin(sep, parts[1..], delims);
    }
  }

  lemma {:induction false} SegmentLengthOfSegment(p: string, t: string, delims: set<char>)
    requires Avoids(p, delims)
    requires t == [] || t[0] in delims
    ensures SegmentLength(p + t, delims) == |p|
    decreases |p|
  {
    if p != [] {
      assert (p + t)[1..] == p[1..] + t;
      SegmentLengthOfSegment(p[1..], t, delims);
    } else {
      assert p + t == t;
    }
  }

  /** `s.endswith(t)` */
  predicate EndsWith(s: string, t: string)
  {
    |t| <= |s| && s[|s| - |t|..] == t
  }

  lemma EndsWithConcat(s: string, t: string)
    ensures EndsWith(s + t, t)
  {
    assert (s + t)[|s|..] == t;
  }

  /** The last joined part ends the joined string. */
  lemma {:induction false} JoinEndsWith(sep: string, parts: seq<string>, last: string)
    ensures EndsWith(Join(sep, parts + [last]), last)
    decreases |parts|
  {
    if parts == [] {
      assert parts + [last] == [last];
      EndsWithConcat("", last);
      assert "" + last == last;
    } else {
      var rest := Join(sep, parts[1..] + [last]);
      assert (parts + [last])[1..] == parts[1..] + [last];
      assert Join(sep, parts + [last]) == parts[0] + sep + rest;
      JoinEndsWith(sep, parts[1..], last);
      EndsWithAppend(parts[0] + sep, rest, last);
    }
  }

  lemma EndsWithAppend(s: string, t: string, u: string)
    requires EndsWith(t, u)
    ensures EndsWith(s + t, u)
  {
    assert (s + t)[|s + t| - |u|..] == t[|t| - |u|..];
  }

  // ---------------------------------------------------------------------------
  // Decimal rendering (`f"{n}"`)

  function DigitChar(d: nat): char
    requires d < 10
  {
    ('0' as int + d) as char
  }

  /** `str(n)` for a non-negative integer. */
  function NatToString(n: nat): (r: string)
    ensures |r| > 0
    ensures forall k :: 0 <= k < |r| ==> '0' <= r[k] <= '9'
  {
    if n < 10 then [DigitChar(n)] else NatToString(n / 10) + [DigitChar(n % 10)]
  }

  /** `int(s)` for a string of decimal digits. */
  function ParseDigits(s: string): nat
    requires forall k :: 0 <= k < |s| ==> '0' <= s[k] <= '9'
  {
    if s == [] then 0 else 10 * ParseDigits(s[..|s| - 1]) + (s[|s| - 1] as int - '0' as int)
  }

  /** Reading the rendered number back gives the number. */
  lemma {:induction false} ParseNatToString(n: nat)
    ensures ParseDigits(NatToString(n)) == n
  {
    if n >= 10 {
      var s := NatToString(n);
      assert s[..|s| - 1] == NatToString(n / 10);
      ParseNatToString(n / 10);
    }
  }
}
