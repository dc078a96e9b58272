/**
 * The query normaliser shared by the assistant (`preprocess_query_text`) and
 * the data-preparation script (`preprocess`): lower-case and strip, mask
 * e-mails, links and phone numbers, drop personnel numbers, normalise
 * whitespace, expand the glossary, split into tokens at punctuation and
 * whitespace, and drop every token whose lemma is a stop word.
 */
module Normaliser {
  import opened Text
  import opened Seqs
  import opened Patterns
  import opened Glossary

  const GreetingWords: set<string> :=
    {"здравствуйте", "здравствуй", "привет", "приветствую", "добрый", "день", "утро", "вечер", "ночь", "дд"}
  const PoliteWords: set<string> :=
    {"пожалуйста", "пож", "будь", "добрый", "спасибо", "благодарю", "прошу", "спс", "плиз", "плз"}
  const SelfIntroWords: set<string> := {"я", "меня", "зовут", "будучи", "являюсь"}
  const QuestWords: set<string> := {"как", "где", "какой"}
  const RequestVerbs: set<string> :=
    {"хотеть", "просить", "помогать", "надо", "нужно", "требовать", "просьба", "возможность", "необходимо", "подсказать"}
  const Roles: set<string> := {"bp", "менеджер", "руководитель", "работник", "начальник", "администратор", "должность"}
  const Profanity: set<string> :=
    {"блять", "бля", "сука", "пиздец", "хуй", "нахуй", "хрен", "нахрен", "хуйня", "пизда", "ебать", "ебанина", "заебал", "заебало"}

  /** A lemma the normaliser removes: a member of one of the seven word lists. */
  predicate IsStop(normal: string)
  {
    normal in GreetingWords || normal in PoliteWords || normal in SelfIntroWords || normal in QuestWords
    || normal in RequestVerbs || normal in Profanity || normal in Roles
  }

  /** The class `[.,!?;:()\[\]{}/-]` at which the text is cut into sentences. */
  const Delimiters: set<char> := {'.', ',', '!', '?', ';', ':', '(', ')', '[', ']', '{', '}', '/', '-'}

  /** The masked phone number, after lower-casing. */
  const PhoneMask: string := "+7 (xxx) xxx xx xx"

  /** E-mails to `MAIL`, then links to `LINK`, then the literal phone mask to `PHONE`, in that order. */
  function MaskContacts(t: string): string
  {
    Sub(Literal(PhoneMask), Sub(Link, Sub(Email, t, "MAIL"), "LINK"), "PHONE")
  }

  /** Personnel numbers (`табельный номер 123`, `тн 123`) and ticket numbers (`№ 123`) deleted, in that order. */
  function StripIds(t: string): string
  {
    Sub(Digits("№ "), Sub(Digits("тн "), Sub(Digits("табельный номер "), t, ""), ""), "")
  }

  /**
   * Lower-case and strip, replace e-mails, links and the masked phone number
   * by placeholders, delete personnel and ticket numbers, normalise whitespace.
   */
  function Mask(text: string): (r: string)
    ensures SingleSpaced(r)
  {
    NormalizeWhitespace(StripIds(MaskContacts(Strip(Lower(text)))))
  }

  /** Lower-casing runs first, so the upper-case spelling of the phone mask is masked too. */
  lemma UpperPhoneMask()
    ensures Lower("+7 (XXX) XXX XX XX") == PhoneMask
  {
  }

  /** Masking does not depend on letter case: it sees only the lower-cased text. */
  lemma MaskIgnoresCase(text: string)
    ensures Mask(Lower(text)) == Mask(text)
  {
    LowerIsLower(text);
    assert Lower(Lower(text)) == Lower(text);
  }

  /** `tokens.extend(sentence.split())` over the sentences in order. */
  function TokensOf(sentences: seq<string>): seq<string>
  {
    if sentences == [] then []
    else TokensOf(sentences[..|sentences| - 1]) + Words(sentences[|sentences| - 1])
  }

  /** The tokens of a text: the words of each piece of `re.split` on the lower-cased text. */
  function Tokens(text: string): seq<string>
  {
    TokensOf(SplitWhere(Lower(text), Delimiters))
  }

  /** The tokens whose lemma is not a stop word, in order. */
  function Kept(tokens: seq<string>, normalForm: string -> string): seq<string>
  {
    if tokens == [] then []
    else
      var last := tokens[|tokens| - 1];
      Kept(tokens[..|tokens| - 1], normalForm) + (if IsStop(normalForm(last)) then [] else [last])
  }

  /** The tokens the removal loop collects: those whose lemma is a stop word. */
  function Removed(tokens: seq<string>, normalForm: string -> string): seq<string>
  {
    if tokens == [] then []
    else
      var last := tokens[|tokens| - 1];
      Removed(tokens[..|tokens| - 1], normalForm) + (if IsStop(normalForm(last)) then [last] else [])
  }

  /** `[t for t in tokens if t not in removed]` */
  function WithoutAny(tokens: seq<string>, removed: seq<string>): seq<string>
  {
    if tokens == [] then []
    else
      var last := tokens[|tokens| - 1];
      WithoutAny(tokens[..|tokens| - 1], removed) + (if last in removed then [] else [last])
  }

  /** What the normaliser returns: the kept tokens of the expanded, masked text, joined by single spaces. */
  function Normalised(glossary: seq<Term>, normalForm: string -> string, text: string): string
  {
    var tokens := Tokens(Expand(glossary, Mask(text)));
    Strip(Sub(SpaceRun, Join(" ", Kept(tokens, normalForm)), " "))
  }

  /** A character an output token can hold: lower case, not whitespace and not a delimiter. */
  predicate TokenChar(c: char)
  {
    c !in Delimiters && !IsSpace(c) && LowerChar(c) == c
  }

  predicate CleanToken(t: string)
  {
    |t| > 0 && forall c :: c in t ==> TokenChar(c)
  }

  /**
   * The normaliser, step by step: the glossary loop, the sentence loop that
   * collects tokens, the loop that collects the tokens to remove, and the
   * final filter and join.
   */
  method Normalise(glossary: seq<Term>, normalForm: string -> string, text: string) returns (r: string)
    ensures r == Normalised(glossary, normalForm, text)
  {
    var expanded := ExpandAll(glossary, Mask(text));
    var tokens := CollectTokens(expanded);
    var removed := CollectRemoved(tokens, normalForm);
    FilterRemoved(tokens, normalForm);
    var filtered := WithoutAny(tokens, removed);
    r := Strip(Sub(SpaceRun, Join(" ", filtered), " "));
  }

  /** The glossary loop: each entry in turn rewrites the text. */
  method ExpandAll(glossary: seq<Term>, text: string) returns (t: string)
    ensures t == Expand(glossary, text)
  {
    t := text;
    var i := 0;
    while i < |glossary|
      invariant 0 <= i <= |glossary|
      invariant Expand(glossary, text) == Expand(glossary[i..], t)
    {
      assert glossary[i..][1..] == glossary[i + 1..];
      t := SubWord(t, glossary[i].abbreviation, glossary[i].fullForm);
      i := i + 1;
    }
  }

  /** The sentence loop: `tokens.extend(sentence.split())` for each piece of the split. */
  method CollectTokens(text: string) returns (tokens: seq<string>)
    ensures tokens == Tokens(text)
  {
    var sentences := SplitWhere(Lower(text), Delimiters);
    tokens := [];
    for j := 0 to |sentences|
      invariant tokens == TokensOf(sentences[..j])
    {
      assert sentences[..j + 1][..j] == sentences[..j];
      tokens := tokens + Words(sentences[j]);
    }
    assert sentences[..|sentences|] == sentences;
  }

  /** The loop that collects every token whose lemma is a stop word. */
  method CollectRemoved(tokens: seq<string>, normalForm: string -> string) returns (removed: seq<string>)
    ensures removed == Removed(tokens, normalForm)
  {
    removed := [];
    for j := 0 to |tokens|
      invariant removed == Removed(tokens[..j], normalForm)
    {
      assert tokens[..j + 1][..j] == tokens[..j];
      if IsStop(normalForm(tokens[j])) {
        removed := removed + [tokens[j]];
      }
    }
    assert tokens[..|tokens|] == tokens;
  }

  // ---------------------------------------------------------------------------
  // Lemmas

  lemma {:induction false} RemovedMembers(tokens: seq<string>, normalForm: string -> string)
    ensures forall t :: t in Removed(tokens, normalForm) <==> t in tokens && IsStop(normalForm(t))
  {
    if tokens != [] {
      RemovedMembers(tokens[..|tokens| - 1], normalForm);
      assert tokens == tokens[..|tokens| - 1] + [tokens[|tokens| - 1]];
    }
  }

  lemma {:induction false} WithoutAnyKept(tokens: seq<string>, removed: seq<string>, normalForm: string -> string)
    requires forall t :: t in tokens ==> (t in removed <==> IsStop(normalForm(t)))
    ensures WithoutAny(tokens, removed) == Kept(tokens, normalForm)
  {
    if tokens != [] {
      var init := tokens[..|tokens| - 1];
      assert forall t :: t in init ==> t in tokens;
      WithoutAnyKept(init, removed, normalForm);
    }
  }

  /** Filtering out the collected tokens keeps exactly the tokens whose lemma is not a stop word. */
  lemma FilterRemoved(tokens: seq<string>, normalForm: string -> string)
    ensures WithoutAny(tokens, Removed(tokens, normalForm)) == Kept(tokens, normalForm)
  {
    RemovedMembers(tokens, normalForm);
    WithoutAnyKept(tokens, Removed(tokens, normalForm), normalForm);
  }

  /** A token is kept exactly when its lemma is not a stop word. */
  lemma {:induction false} KeptMembers(tokens: seq<string>, normalForm: string -> string)
    ensures forall t :: t in Kept(tokens, normalForm) <==> t in tokens && !IsStop(normalForm(t))
  {
    if tokens != [] {
      var init := tokens[..|tokens| - 1];
      KeptMembers(init, normalForm);
      assert tokens == init + [tokens[|tokens| - 1]];
    }
  }

  /** The kept tokens keep their order. */
  lemma {:induction false} KeptSubseq(tokens: seq<string>, normalForm: string -> string)
    ensures IsSubseq(Kept(tokens, normalForm), tokens)
  {
    if tokens != [] {
      var init := tokens[..|tokens| - 1];
      var last := tokens[|tokens| - 1];
      var k := Kept(init, normalForm);
      KeptSubseq(init, normalForm);
      assert tokens == init + [last];
      SubseqSnoc(k, init, last);
      if IsStop(normalForm(last)) {
        assert Kept(tokens, normalForm) == k;
      } else {
        assert Kept(tokens, normalForm) == k + [last];
      }
    }
  }

  lemma {:induction false} TokensOfClean(sentences: seq<string>)
    requires forall s :: s in sentences ==> forall c :: c in s ==> c !in Delimiters && LowerChar(c) == c
    ensures forall t :: t in TokensOf(sentences) ==> CleanToken(t)
  {
    if sentences != [] {
      var init := sentences[..|sentences| - 1];
      var last := sentences[|sentences| - 1];
      assert forall s :: s in init ==> s in sentences;
      TokensOfClean(init);
      WordsFrom(last);
      assert last in sentences;
      forall w | w in Words(last) ensures CleanToken(w) {
        var k :| 0 <= k < |Words(last)| && Words(last)[k] == w;
        assert IsWord(w);
        forall c | c in w ensures TokenChar(c) {
          var j :| 0 <= j < |w| && w[j] == c;
          assert !IsSpace(w[j]);
          assert c in last;
        }
      }
    }
  }

  /** Every token is non-empty, lower case, and free of whitespace and delimiters. */
  lemma TokensClean(text: string)
    ensures forall t :: t in Tokens(text) ==> CleanToken(t)
  {
    var lower := Lower(text);
    var sentences := SplitWhere(lower, Delimiters);
    LowerIsLower(text);
    SplitWhereFrom(lower, Delimiters);
    forall s | s in sentences ensures forall c :: c in s ==> c !in Delimiters && LowerChar(c) == c {
      var k :| 0 <= k < |sentences| && sentences[k] == s;
      assert Avoids(s, Delimiters);
    }
    TokensOfClean(sentences);
  }

  /**
   * The output is in whitespace normal form, its words are exactly the kept
   * tokens, and every word is a clean token whose lemma is not a stop word.
   */
  lemma NormalisedProperties(glossary: seq<Term>, normalForm: string -> string, text: string)
    ensures SingleSpaced(Normalised(glossary, normalForm, text))
    ensures Words(Normalised(glossary, normalForm, text)) == Kept(Tokens(Expand(glossary, Mask(text))), normalForm)
    ensures forall w :: w in Words(Normalised(glossary, normalForm, text)) ==>
              CleanToken(w) && !IsStop(normalForm(w))
  {
    var tokens := Tokens(Expand(glossary, Mask(text)));
    var kept := Kept(tokens, normalForm);
    TokensClean(Expand(glossary, Mask(text)));
    KeptMembers(tokens, normalForm);
    assert AllWords(kept) by {
      forall k | 0 <= k < |kept| ensures IsWord(kept[k]) {
        assert kept[k] in kept;
        assert CleanToken(kept[k]);
        assert forall j :: 0 <= j < |kept[k]| ==> kept[k][j] in kept[k];
      }
    }
    JoinWords(kept);
    CollapseSpacesNoop(Join(" ", kept));
    StripSingleSpaced(Join(" ", kept));
  }
}
