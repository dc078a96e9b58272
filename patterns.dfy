/**
 * The regular expressions of the normalisers and data scripts, as a closed
 * set of patterns with their match lengths, and `re.sub`'s left-to-right,
 * non-overlapping replacement. None of these patterns matches the empty
 * string, so `re.sub` tries each position in turn and, after a match,
 * resumes right after it.
 */
module Patterns {
  import opened Text

  datatype Pattern =
    | Email              // [a-zA-Z0-9_.+-]+@[a-zA-Z0-9-]+\.[a-zA-Z0-9-.]+
    | Link               // (https?://[^\s]+|www\.[^\s]+)
    | Literal(lit: string)     // an escaped literal, or str.replace(..., regex=False)
    | Digits(prefix: string)   // <prefix>\d+
    | SpaceRun           // \s+

  predicate IsAsciiAlnum(c: char)
  {
    'a' <= c <= 'z' || 'A' <= c <= 'Z' || '0' <= c <= '9'
  }

  /** `[a-zA-Z0-9_.+-]`, the local part of an e-mail address. */
  predicate IsLocalChar(c: char) { IsAsciiAlnum(c) || c == '_' || c == '.' || c == '+' || c == '-' }

  /** `[a-zA-Z0-9-]`, the first domain label. */
  predicate IsLabelChar(c: char) { IsAsciiAlnum(c) || c == '-' }

  /** `[a-zA-Z0-9-.]`, the rest of the domain. */
  predicate IsDomainChar(c: char) { IsAsciiAlnum(c) || c == '-' || c == '.' }

  /** `\d` (ASCII digits only in this model). */
  predicate IsDigit(c: char) { '0' <= c <= '9' }

  predicate NotSpace(c: char) { !IsSpace(c) }

  /** Length of the longest run of `cls` characters starting at `i`. */
  function Run(s: string, i: nat, cls: char -> bool): (n: nat)
    requires i <= |s|
    ensures i + n <= |s|
    ensures forall k :: i <= k < i + n ==> cls(s[k])
    ensures i + n < |s| ==> !cls(s[i + n])
    decreases |s| - i
  {
    if i < |s| && cls(s[i]) then 1 + Run(s, i + 1, cls) else 0
  }

  predicate StartsAt(s: string, i: nat, lit: string)
  {
    i + |lit| <= |s| && s[i..i + |lit|] == lit
  }

  /**
   * Length of the match of `p` at `i`, 0 for none. Every quantifier in these
   * patterns is greedy and each character class excludes the character that
   * follows it, so backtracking never finds a different match.
   */
  function MatchLength(p: Pattern, s: string, i: nat): (n: nat)
    requires i <= |s|
    ensures i + n <= |s|
    ensures p.Literal? && |p.lit| > 0 ==> (n > 0 <==> StartsAt(s, i, p.lit))
  {
    match p
    case Email =>
      var a := Run(s, i, IsLocalChar);
      if a == 0 || i + a == |s| || s[i + a] != '@' then 0
      else
        var b := Run(s, i + a + 1, IsLabelChar);
        if b == 0 || i + a + 1 + b == |s| || s[i + a + 1 + b] != '.' then 0
        else
          var c := Run(s, i + a + b + 2, IsDomainChar);
          if c == 0 then 0 else a + b + 2 + c
    case Link =>
      if (StartsAt(s, i, "https://") && i + 8 < |s| && NotSpace(s[i + 8]))
         || (StartsAt(s, i, "http://") && i + 7 < |s| && NotSpace(s[i + 7]))
         || (StartsAt(s, i, "www.") && i + 4 < |s| && NotSpace(s[i + 4]))
      then Run(s, i, NotSpace)
      else 0
    case Literal(lit) =>
      if StartsAt(s, i, lit) then |lit| else 0
    case Digits(prefix) =>
      if StartsAt(s, i, prefix) then
        var d := Run(s, i + |prefix|, IsDigit);
        if d == 0 then 0 else |prefix| + d
      else 0
    case SpaceRun =>
      Run(s, i, IsSpace)
  }

  /**
   * A `<prefix>\d+` pattern matches wherever the prefix is followed by a
   * digit, with no word boundary required on either side, and the
   * substitution then replaces the prefix together with the whole digit run.
   */
  lemma DigitsMatchAnywhere(prefix: string, s: string, rep: string, i: nat)
    requires i <= |s|
    ensures MatchLength(Digits(prefix), s, i) > 0 <==>
              StartsAt(s, i, prefix) && i + |prefix| < |s| && IsDigit(s[i + |prefix|])
    ensures MatchLength(Digits(prefix), s, i) > 0 ==>
              i + |prefix| + Run(s, i + |prefix|, IsDigit) <= |s| &&
              SubFrom(Digits(prefix), s, rep, i) ==
                rep + SubFrom(Digits(prefix), s, rep, i + |prefix| + Run(s, i + |prefix|, IsDigit))
  {
  }

  /** `re.sub(p, rep, s)` from position `i` on. */
  function SubFrom(p: Pattern, s: string, rep: string, i: nat): string
    requires i <= |s|
    decreases |s| - i
  {
    if i == |s| then ""
    else
      var n := MatchLength(p, s, i);
      if n > 0 then rep + SubFrom(p, s, rep, i + n)
      else [s[i]] + SubFrom(p, s, rep, i + 1)
  }

  /** `re.sub(p, rep, s)` */
  function Sub(p: Pattern, s: string, rep: string): string
  {
    SubFrom(p, s, rep, 0)
  }

  /** A pattern matching the whole string replaces all of it. */
  lemma SubWhole(p: Pattern, s: string, rep: string)
    requires |s| > 0 && MatchLength(p, s, 0) == |s|
    ensures Sub(p, s, rep) == rep
  {
    assert SubFrom(p, s, rep, |s|) == "";
    assert rep + "" == rep;
  }

  predicate NoMatchFrom(p: Pattern, s: string, i: nat)
    requires i <= |s|
  {
    forall k :: i <= k < |s| ==> MatchLength(p, s, k) == 0
  }

  /** Where the pattern matches nowhere, `re.sub` returns its input. */
  lemma {:induction false} SubWithoutMatch(p: Pattern, s: string, rep: string, i: nat)
    requires i <= |s| && NoMatchFrom(p, s, i)
    ensures SubFrom(p, s, rep, i) == s[i..]
    decreases |s| - i
  {
    if i < |s| {
      SubWithoutMatch(p, s, rep, i + 1);
      assert s[i..] == [s[i]] + s[i + 1..];
    }
  }

  /** In whitespace normal form every whitespace run is one plain space, so `re.sub(r'\s+', ' ', s)` changes nothing. */
  lemma {:induction false} CollapseSingleSpaced(s: string, i: nat)
    requires SingleSpaced(s) && i <= |s|
    ensures SubFrom(SpaceRun, s, " ", i) == s[i..]
    decreases |s| - i
  {
    if i < |s| {
      SpaceRunOfSingleSpaced(s, i);
      CollapseSingleSpaced(s, i + 1);
      assert s[i..] == [s[i]] + s[i + 1..];
    }
  }

  lemma SpaceRunOfSingleSpaced(s: string, i: nat)
    requires SingleSpaced(s) && i < |s|
    ensures MatchLength(SpaceRun, s, i) == if IsSpace(s[i]) then 1 else 0
    ensures IsSpace(s[i]) ==> s[i] == ' '
  {
    if IsSpace(s[i]) {
      assert i + 1 < |s| && !IsSpace(s[i + 1]);
      assert Run(s, i + 1, IsSpace) == 0;
    }
  }

  lemma CollapseSpacesNoop(s: string)
    requires SingleSpaced(s)
    ensures Sub(SpaceRun, s, " ") == s
  {
    CollapseSingleSpaced(s, 0);
  }
}
