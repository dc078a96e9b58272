/**
 * The assistant's query normaliser, `preprocess_query_text`, with its own
 * glossary, and the workflow step that applies it to the incoming query.
 */
module Preprocess {
  import opened Text
  import opened Glossary
  import opened Normaliser
  import opened Events

  /** The glossary literal, abbreviations to full forms, in source order. */
  const GlossaryLiteral: seq<Term> :=
    [
      Term("лк", "личный кабинет"),
      Term("бир", "беременность и роды"),
      Term("зп", "заработная плата"),
      Term("ндфл", "налог на доходы физических лиц"),
      Term("стд", "срочный трудовой договор"),
      Term("тк", "трудовой договор"),
      Term("ао", "авансовый отчет"),
      Term("sla", "сроки"),
      Term("эцп", "электронная цифровая подпись"),
      Term("кр", "кадровый резерв"),
      Term("сфр", "социальный фонд россии"),
      Term("мчд", "машиночитаемая доверенность"),
      Term("дк", "директор кластера"),
      Term("тел", "телефон"),
      Term("адм", "административный кадровый резерв"),
      Term("мс", "мастер-система"),
      Term("орг", "организационная структура"),
      Term("дмп", "директор магазина по продажам"),
      Term("комп", "компьютер"),
      Term("атз", "администратор торгового зала"),
      Term("дм", "директор магазина"),
      Term("мп", "мобильное приложение"),
      Term("уз", "учетная запись"),
      Term("чаэс", "чернобыльская атомная электростанция"),
      Term("мкс", "местность, приравненная к районам крайнего севера"),
      Term("ркс", "район крайнего севера"),
      Term("нрд", "ненормированный рабочий день"),
      Term("доп", "дополнительный"),
      Term("гос", "государственный"),
      Term("lk", "личный кабинет"),
      Term("бл", "больничный лист"),
      Term("ду", "дежурный управляющий"),
      Term("лтз", "администратор торгового зала"),
      Term("тех", "технический"),
      Term("сот", "система оценок труда"),
      Term("асуз", "автоматизированная система учёта и записи"),
      Term("скилаз", "система для автоматизации найма и развития талантов"),
      Term("skillz", "система для автоматизации найма и развития талантов"),
      Term("скиллаз", "система для автоматизации найма и развития талантов"),
      Term("skillaz", "система для автоматизации найма и развития талантов"),
      Term("здм", "заместитель директора магазина"),
      Term("эп", "электронная подпись"),
      Term("пк", "персональный консультант"),
      Term("пб", "платежная база"),
      Term("сф", "система финансов"),
      Term("трв", "табель рабочего времени"),
      Term("есп", "единая система приемки"),
      Term("рц", "распределительный центр"),
      Term("бс", "больничный лист"),
      Term("скд", "система корпоративных документов"),
      Term("sap", "корпоративная система для управления ресурсами и бизнес-процессами"),
      Term("сб", "социальная безопасность"),
      Term("атп", "автотранспортное предприятие"),
      Term("ур", "удаленная работа"),
      Term("дс", "дополнительное соглашение"),
      Term("уд", "удаленный"),
      Term("укэп", "усиленная квалифицированная электронная подпись"),
      Term("унэп", "усиленная неквалифицированна электронная подпись"),
      Term("фл", "физическое лицо"),
      Term("юл", "юридическое лицо"),
      Term("sed", "система электронного документооборота"),
      Term("мед", "медицинский"),
      Term("дмс", "добровольное медицинское страхование")
    ]

  /** The dictionary the literal builds. */
  const GlossaryDict: seq<Term> := DictFromLiteral(GlossaryLiteral)

  /** What `preprocess_query_text` returns for `text`, given the lemmatiser. */
  function CleanQuery(text: string, normalForm: string -> string): string
  {
    Normalised(GlossaryDict, normalForm, text)
  }

  /**
   * `preprocess_query_text`: the result is in whitespace normal form and each
   * of its words is a lower-case token without delimiters whose lemma is no
   * stop word.
   */
  method PreprocessQueryText(text: string, normalForm: string -> string) returns (r: string)
    ensures r == CleanQuery(text, normalForm)
    ensures SingleSpaced(r)
    ensures Words(r) == Kept(Tokens(Expand(GlossaryDict, Mask(text))), normalForm)
    ensures forall w :: w in Words(r) ==> CleanToken(w) && !IsStop(normalForm(w))
  {
    r := Normalise(GlossaryDict, normalForm, text);
    NormalisedProperties(GlossaryDict, normalForm, text);
  }

  /** `preprocess_step`: the event carries the normalised query. */
  method PreprocessStep(ev: Event, normalForm: string -> string) returns (out: Event)
    requires ev.StartEvent?
    ensures out == PreprocessEvent(CleanQuery(ev.query, normalForm))
  {
    var queryClean := PreprocessQueryText(ev.query, normalForm);
    out := PreprocessEvent(queryClean);
  }
}
