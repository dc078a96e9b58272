/**
 * Abbreviation expansion: a glossary is an ordered dictionary from
 * abbreviations to full forms, and each entry in turn replaces every
 * whole-word, case-insensitive occurrence of its abbreviation
 * (`re.sub(r'\b' + re.escape(key) + r'\b', value, text, flags=re.IGNORECASE)`).
 */
module Glossary {
  import opened Wrappers
  import opened Text
  import opened Patterns

  /** Every abbreviation of the glossaries is a non-empty word. */
  type Abbreviation = s: string | |s| > 0 witness "_"

  datatype Term = Term(abbreviation: Abbreviation, fullForm: string)

  /** `\w` in this model: ASCII letters and digits, `_`, Latin-1 letters and the Cyrillic letters. */
  predicate IsWordChar(c: char)
  {
    IsAsciiAlnum(c) || c == '_'
    || ('\U{C0}' <= c <= '\U{FF}' && c != '\U{D7}' && c != '\U{F7}')
    || ('\U{400}' <= c <= '\U{481}') || ('\U{48A}' <= c <= '\U{4FF}')
  }

  predicate AllWordChars(s: string)
  {
    forall k :: 0 <= k < |s| ==> IsWordChar(s[k])
  }

  /** Lower-casing neither creates nor removes word characters. */
  lemma LowerKeepsWordChars(c: char)
    ensures IsWordChar(LowerChar(c)) == IsWordChar(c)
  {
  }

  /** `\b` at position `p`: exactly one of the characters around `p` is a word character. */
  predicate Boundary(s: string, p: nat)
    requires p <= |s|
  {
    (p > 0 && IsWordChar(s[p - 1])) != (p < |s| && IsWordChar(s[p]))
  }

  /** `key` occurs at `i`, ignoring case. */
  predicate SameIgnoringCase(s: string, i: nat, key: string)
  {
    i + |key| <= |s| && forall j :: 0 <= j < |key| ==> LowerChar(s[i + j]) == LowerChar(key[j])
  }

  /** `\bkey\b` matches at `i`. */
  predicate WholeWordAt(s: string, i: nat, key: string)
  {
    SameIgnoringCase(s, i, key) && Boundary(s, i) && Boundary(s, i + |key|)
  }

  predicate NoWholeWord(s: string, key: string)
  {
    forall i :: 0 <= i <= |s| ==> !WholeWordAt(s, i, key)
  }

  /** The replacement scan of `re.sub` from position `i`; boundaries look at the original text. */
  function SubWordFrom(s: string, key: string, rep: string, i: nat): string
    requires |key| > 0 && i <= |s|
    decreases |s| - i
  {
    if i == |s| then ""
    else if WholeWordAt(s, i, key) then rep + SubWordFrom(s, key, rep, i + |key|)
    else [s[i]] + SubWordFrom(s, key, rep, i + 1)
  }

  function SubWord(s: string, key: string, rep: string): string
    requires |key| > 0
  {
    SubWordFrom(s, key, rep, 0)
  }

  lemma {:induction false} SubWordFromWithout(s: string, key: string, rep: string, i: nat)
    requires |key| > 0 && i <= |s| && NoWholeWord(s, key)
    ensures SubWordFrom(s, key, rep, i) == s[i..]
    decreases |s| - i
  {
    if i < |s| {
      SubWordFromWithout(s, key, rep, i + 1);
      assert s[i..] == [s[i]] + s[i + 1..];
    }
  }

  /** A text in which the abbreviation never stands as a whole word is left alone. */
  lemma SubWordWithout(s: string, key: string, rep: string)
    requires |key| > 0 && NoWholeWord(s, key)
    ensures SubWord(s, key, rep) == s
  {
    SubWordFromWithout(s, key, rep, 0);
  }

  /**
   * On a single run of word characters the abbreviation only matches as the
   * whole run: `лк` becomes its full form, `блкй` keeps its letters.
   */
  lemma SubWordOnWord(s: string, key: string, rep: string)
    requires |key| > 0 && AllWordChars(s)
    ensures SubWord(s, key, rep) == if |s| == |key| && SameIgnoringCase(s, 0, key) then rep else s
  {
    if |s| == |key| && SameIgnoringCase(s, 0, key) {
      assert WholeWordAt(s, 0, key);
      assert SubWordFrom(s, key, rep, |s|) == "";
    } else {
      forall i | 0 <= i <= |s|
        ensures !WholeWordAt(s, i, key)
      {
        if 0 < i < |s| {
          assert !Boundary(s, i);
        } else if i == 0 && |key| < |s| {
          assert !Boundary(s, |key|);
        }
      }
      SubWordWithout(s, key, rep);
    }
  }

  /** `лк` standing alone, in either case, becomes `личный кабинет`. */
  lemma ExpandsWholeWord()
    ensures SubWord("лк", "лк", "личный кабинет") == "личный кабинет"
    ensures SubWord("ЛК", "лк", "личный кабинет") == "личный кабинет"
  {
    SubWordOnWord("лк", "лк", "личный кабинет");
    SubWordOnWord("ЛК", "лк", "личный кабинет");
  }

  /** Inside the longer word `блкй` the abbreviation `лк` is not replaced. */
  lemma KeepsInsideWord()
    ensures SubWord("блкй", "лк", "личный кабинет") == "блкй"
  {
    SubWordOnWord("блкй", "лк", "личный кабинет");
  }

  // ---------------------------------------------------------------------------
  // The glossary fold

  /** `for key, value in g.items(): text = re.sub(...)`, entries in dictionary order. */
  function Expand(g: seq<Term>, text: string): string
    decreases |g|
  {
    if g == [] then text
    else Expand(g[1..], SubWord(text, g[0].abbreviation, g[0].fullForm))
  }

  /** Expanding the first `n` entries, then the rest, is expanding them all. */
  lemma {:induction false} ExpandSplit(g: seq<Term>, n: nat, text: string)
    requires n <= |g|
    ensures Expand(g, text) == Expand(g[n..], Expand(g[..n], text))
    decreases n
  {
    if n > 0 {
      var t := SubWord(text, g[0].abbreviation, g[0].fullForm);
      ExpandSplit(g[1..], n - 1, t);
      assert g[1..][n - 1..] == g[n..];
      assert g[..n][1..] == g[1..][..n - 1];
    }
  }

  /** A text containing none of the abbreviations as a whole word comes out unchanged. */
  lemma {:induction false} ExpandWithout(g: seq<Term>, text: string)
    requires forall k :: 0 <= k < |g| ==> NoWholeWord(text, g[k].abbreviation)
    ensures Expand(g, text) == text
    decreases |g|
  {
    if g != [] {
      SubWordWithout(text, g[0].abbreviation, g[0].fullForm);
      ExpandWithout(g[1..], text);
    }
  }

  /**
   * Two glossaries that differ only in the full form at position `j` give the
   * same expansion whenever that abbreviation does not stand as a whole word
   * in the text reached after the first `j` entries.
   */
  lemma {:induction false} ExpandAgree(g1: seq<Term>, g2: seq<Term>, j: nat, text: string)
    requires |g1| == |g2| && j < |g1|
    requires forall k :: 0 <= k < |g1| && k != j ==> g1[k] == g2[k]
    requires g1[j].abbreviation == g2[j].abbreviation
    requires NoWholeWord(Expand(g1[..j], text), g1[j].abbreviation)
    ensures Expand(g1, text) == Expand(g2, text)
  {
    assert g1[..j] == g2[..j];
    ExpandSplit(g1, j, text);
    ExpandSplit(g2, j, text);
    var t := Expand(g1[..j], text);
    assert g1[j..][1..] == g1[j + 1..] && g2[j..][1..] == g2[j + 1..];
    assert g1[j + 1..] == g2[j + 1..];
    SubWordWithout(t, g1[j].abbreviation, g1[j].fullForm);
    SubWordWithout(t, g2[j].abbreviation, g2[j].fullForm);
  }

  // ---------------------------------------------------------------------------
  // Python dictionary literals

  function Keys(g: seq<Term>): (ks: seq<string>)
    ensures |ks| == |g|
    ensures forall k :: 0 <= k < |g| ==> ks[k] == g[k].abbreviation
  {
    if g == [] then [] else Keys(g[..|g| - 1]) + [g[|g| - 1].abbreviation]
  }

  predicate DistinctKeys(g: seq<Term>)
  {
    forall i, j :: 0 <= i < j < |g| ==> g[i].abbreviation != g[j].abbreviation
  }

  /** `d.get(key)` on a dictionary with distinct keys: the full form of the entry for `key`. */
  function Lookup(g: seq<Term>, key: string): Option<string>
  {
    if g == [] then None
    else if g[|g| - 1].abbreviation == key then Some(g[|g| - 1].fullForm)
    else Lookup(g[..|g| - 1], key)
  }

  /** Entries after position `n` that have other abbreviations do not affect a lookup. */
  lemma {:induction false} LookupBefore(g: seq<Term>, key: string, n: nat)
    requires n <= |g|
    requires forall k :: n <= k < |g| ==> g[k].abbreviation != key
    ensures Lookup(g, key) == Lookup(g[..n], key)
    decreases |g|
  {
    if |g| > n {
      LookupBefore(g[..|g| - 1], key, n);
      assert g[..|g| - 1][..n] == g[..n];
    } else {
      assert g[..n] == g;
    }
  }

  /** A lookup in a concatenation finds the later part first. */
  lemma {:induction false} LookupAppend(a: seq<Term>, b: seq<Term>, key: string)
    ensures Lookup(a + b, key) == if Lookup(b, key).Some? then Lookup(b, key) else Lookup(a, key)
    decreases |b|
  {
    if b == [] {
      assert a + b == a;
    } else {
      assert (a + b)[..|a + b| - 1] == a + b[..|b| - 1];
      LookupAppend(a, b[..|b| - 1], key);
    }
  }

  /** `d[key] = value`: overwrite in place when the key is present, otherwise append. */
  function Insert(d: seq<Term>, t: Term): (r: seq<Term>)
  {
    if t.abbreviation in Keys(d) then
      seq(|d|, k requires 0 <= k < |d| => if d[k].abbreviation == t.abbreviation then t else d[k])
    else d + [t]
  }

  /** The dictionary a literal `{k1: v1, k2: v2, ...}` builds: later entries overwrite, first positions stay. */
  function DictFromLiteral(lit: seq<Term>): seq<Term>
  {
    if lit == [] then [] else Insert(DictFromLiteral(lit[..|lit| - 1]), lit[|lit| - 1])
  }

  /** The value the last entry for `key` in the literal gives. */
  function LastValue(lit: seq<Term>, key: string): Option<string>
  {
    Lookup(lit, key)
  }

  lemma {:induction false} KeysLookup(d: seq<Term>, key: string)
    ensures Lookup(d, key).Some? <==> key in Keys(d)
  {
    if d != [] {
      KeysLookup(d[..|d| - 1], key);
      assert Keys(d) == Keys(d[..|d| - 1]) + [d[|d| - 1].abbreviation];
    }
  }

  lemma {:induction false} LookupDistinct(d: seq<Term>, k: nat)
    requires DistinctKeys(d) && k < |d|
    ensures Lookup(d, d[k].abbreviation) == Some(d[k].fullForm)
  {
    if k < |d| - 1 {
      LookupDistinct(d[..|d| - 1], k);
    }
  }

  lemma {:induction false} InsertProperties(d: seq<Term>, t: Term, key: string)
    requires DistinctKeys(d)
    ensures DistinctKeys(Insert(d, t))
    ensures Keys(Insert(d, t)) == if t.abbreviation in Keys(d) then Keys(d) else Keys(d) + [t.abbreviation]
    ensures Lookup(Insert(d, t), key) == if key == t.abbreviation then Some(t.fullForm) else Lookup(d, key)
  {
    var r := Insert(d, t);
    if t.abbreviation in Keys(d) {
      assert forall k :: 0 <= k < |d| ==> r[k].abbreviation == d[k].abbreviation;
      assert Keys(r) == Keys(d);
      LookupAfterUpdate(d, r, t, key);
    } else {
      assert Keys(r) == Keys(d) + [t.abbreviation] by {
        assert r[..|r| - 1] == d;
      }
      assert r[..|r| - 1] == d;
      forall i, j | 0 <= i < j < |r| ensures r[i].abbreviation != r[j].abbreviation {
        if j == |d| {
          assert r[i].abbreviation == Keys(d)[i];
        }
      }
    }
  }

  lemma {:induction false} LookupAfterUpdate(d: seq<Term>, r: seq<Term>, t: Term, key: string)
    requires |r| == |d|
    requires forall k :: 0 <= k < |d| ==> r[k] == if d[k].abbreviation == t.abbreviation then t else d[k]
    requires t.abbreviation in Keys(d)
    ensures Lookup(r, key) == if key == t.abbreviation then Some(t.fullForm) else Lookup(d, key)
  {
    var n := |d| - 1;
    if d[n].abbreviation == t.abbreviation {
      assert r[n] == t;
      if key != t.abbreviation {
        LookupAfterUpdateRest(d[..n], r[..n], t, key);
      }
    } else {
      assert r[n] == d[n];
      assert Keys(d) == Keys(d[..n]) + [d[n].abbreviation];
      if key != d[n].abbreviation {
        LookupAfterUpdate(d[..n], r[..n], t, key);
      }
    }
  }

  lemma {:induction false} LookupAfterUpdateRest(d: seq<Term>, r: seq<Term>, t: Term, key: string)
    requires |r| == |d| && key != t.abbreviation
    requires forall k :: 0 <= k < |d| ==> r[k] == if d[k].abbreviation == t.abbreviation then t else d[k]
    ensures Lookup(r, key) == Lookup(d, key)
  {
    if d != [] {
      LookupAfterUpdateRest(d[..|d| - 1], r[..|r| - 1], t, key);
    }
  }

  /**
   * A dictionary literal has distinct keys, in the order of their first
   * occurrence, and each key maps to the value of its last occurrence.
   */
  lemma {:induction false} DictFromLiteralProperties(lit: seq<Term>, key: string)
    ensures DistinctKeys(DictFromLiteral(lit))
    ensures Keys(DictFromLiteral(lit)) == FirstOccurrences(Keys(lit))
    ensures Lookup(DictFromLiteral(lit), key) == LastValue(lit, key)
  {
    if lit != [] {
      var init := lit[..|lit| - 1];
      var t := lit[|lit| - 1];
      DictFromLiteralProperties(init, key);
      DictFromLiteralProperties(init, t.abbreviation);
      InsertProperties(DictFromLiteral(init), t, key);
      assert Keys(lit) == Keys(init) + [t.abbreviation];
      assert Keys(lit)[..|lit| - 1] == Keys(init);
      FirstOccurrencesMembers(Keys(init));
    }
  }

  /** The elements of `xs` without repetitions, each at its first occurrence. */
  function FirstOccurrences(xs: seq<string>): seq<string>
  {
    if xs == [] then []
    else
      var u := FirstOccurrences(xs[..|xs| - 1]);
      if xs[|xs| - 1] in xs[..|xs| - 1] then u else u + [xs[|xs| - 1]]
  }

  lemma {:induction false} FirstOccurrencesMembers(xs: seq<string>)
    ensures forall x :: x in FirstOccurrences(xs) <==> x in xs
  {
    if xs != [] {
      FirstOccurrencesMembers(xs[..|xs| - 1]);
      assert xs == xs[..|xs| - 1] + [xs[|xs| - 1]];
    }
  }
}
