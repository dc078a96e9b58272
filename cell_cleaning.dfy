/**
 * The per-cell cleaning of the two dataset scripts: lower-case and strip,
 * mask e-mails, links and the phone number, and normalise whitespace
 * (`clear_spaces_inside`). Nothing lower-cases after masking, so the
 * placeholders stay upper-case, and no id stripping, glossary or stop-word
 * step follows.
 */
module CellCleaning {
  import opened Text
  import opened Patterns
  import opened Normaliser

  /** The `content_clear` column computed from one `content` cell. */
  function CleanCell(x: string): (r: string)
    ensures SingleSpaced(r)
    ensures Words(r) == Words(MaskContacts(Strip(Lower(x))))
  {
    NormalizeWhitespace(MaskContacts(Strip(Lower(x))))
  }

  /** `clear_spaces_inside("")` is `""`. */
  lemma ClearSpacesEmpty()
    ensures NormalizeWhitespace("") == ""
  {
  }

  /**
   * Where none of the id patterns matches, the query normaliser's masking
   * stage and the cell cleaning agree: they differ only by the id stripping.
   */
  lemma MaskWithoutIds(x: string)
    requires NoMatchFrom(Digits("табельный номер "), MaskContacts(Strip(Lower(x))), 0)
    requires NoMatchFrom(Digits("тн "), MaskContacts(Strip(Lower(x))), 0)
    requires NoMatchFrom(Digits("№ "), MaskContacts(Strip(Lower(x))), 0)
    ensures Mask(x) == CleanCell(x)
  {
    var t := MaskContacts(Strip(Lower(x)));
    SubWithoutMatch(Digits("табельный номер "), t, "", 0);
    SubWithoutMatch(Digits("тн "), t, "", 0);
    SubWithoutMatch(Digits("№ "), t, "", 0);
    assert t[0..] == t;
  }

  /** A cell that is one e-mail address becomes the upper-case placeholder `MAIL`. */
  lemma EmailCell(x: string)
    requires |Strip(Lower(x))| > 0
    requires MatchLength(Email, Strip(Lower(x)), 0) == |Strip(Lower(x))|
    ensures CleanCell(x) == "MAIL"
  {
    SubWhole(Email, Strip(Lower(x)), "MAIL");
    PlaceholderSurvives();
  }

  /** The link and phone passes leave `MAIL` alone, and it is already in whitespace normal form. */
  lemma PlaceholderSurvives()
    ensures Sub(Link, "MAIL", "LINK") == "MAIL"
    ensures Sub(Literal(PhoneMask), "MAIL", "PHONE") == "MAIL"
    ensures NormalizeWhitespace("MAIL") == "MAIL"
  {
    forall i | 0 <= i < 4 ensures MatchLength(Link, "MAIL", i) == 0 {
    }
    SubWithoutMatch(Link, "MAIL", "LINK", 0);
    forall i | 0 <= i < 4 ensures MatchLength(Literal(PhoneMask), "MAIL", i) == 0 {
    }
    SubWithoutMatch(Literal(PhoneMask), "MAIL", "PHONE", 0);
    assert SingleSpaced("MAIL");
    NormalizeWhitespaceUnique("MAIL", "MAIL");
  }
}
