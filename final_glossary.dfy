/**
 * The glossary literal of the dataset script. It repeats four abbreviations;
 * Python keeps the first position of a repeated key and its last value.
 */
module FinalGlossary {
  import opened Wrappers
  import opened Glossary

  /** The glossary literal, in three consecutive parts (entries 0-21, 22-44 and 45-66). */
  const GlossaryLiteralHead: seq<Term> :=
    [
      Term("лк", "личный кабинет"),
      Term("бир", "беременность и роды"),
      Term("зп", "заработная плата"),
      Term("ндфл", "налог на доходы физических лиц"),
      Term("стд", "срочный трудовой договор"),
      Term("тк", "трудовой договор"),
      Term("ао", "авансовый отчет"),
      Term("sla", "сроки"),
      Term("эцп", "электронная цифровая подпись"),
      Term("кр", "кадровый резерв"),
      Term("сфр", "социальный фонд россии"),
      Term("мчд", "машиночитаемая доверенность"),
      Term("дк", "директор кластера"),
      Term("тел", "телефон"),
      Term("адм", "административный кадровый резерв"),
      Term("мс", "мастер-система"),
      Term("орг", "организационная структура"),
      Term("дмп", "директор магазина по продажам"),
      Term("комп", "компьютер"),
      Term("атз", "администратор торгового зала"),
      Term("дм", "директор магазина"),
      Term("мп", "мобильное приложение")
    ]

  const GlossaryLiteralMiddle: seq<Term> :=
    [
      Term("уз", "учетная запись"),
      Term("кр", "кадровый резерв"),
      Term("чаэс", "чернобыльская атомная электростанция"),
      Term("мкс", "местность, приравненная к районам крайнего севера"),
      Term("ркс", "район крайнего севера"),
      Term("нрд", "ненормированный рабочий день"),
      Term("доп", "дополнительный"),
      Term("гос", "государственный"),
      Term("lk", "личный кабинет"),
      Term("бл", "больничный лист"),
      Term("ду", "дежурный управляющий"),
      Term("лтз", "администратор торгового зала"),
      Term("атз", "администратор торгового зала"),
      Term("тех", "технический"),
      Term("сот", "система оценок труда"),
      Term("асуз", "автоматизированная система учёта и записи"),
      Term("скилаз", "система для автоматизации найма и развития талантов"),
      Term("skillz", "система для автоматизации найма и развития талантов"),
      Term("скиллаз", "система для автоматизации найма и развития талантов"),
      Term("skillaz", "система для автоматизации найма и развития талантов"),
      Term("здм", "заместитель директора магазина"),
      Term("эп", "электронная подпись"),
      Term("пк", "персональный консультант")
    ]

  const GlossaryLiteralTail: seq<Term> :=
    [
      Term("дк", "личный кабинет"),
      Term("пб", "платежная база"),
      Term("сф", "система финансов"),
      Term("трв", "табель рабочего времени"),
      Term("есп", "единая система приемки"),
      Term("рц", "распределительный центр"),
      Term("бс", "больничный лист"),
      Term("скд", "система корпоративных документов"),
      Term("sap", "корпоративная система для управления ресурсами и бизнес-процессами"),
      Term("тк", "трудовой договор"),
      Term("сб", "социальная безопасность"),
      Term("атп", "автотранспортное предприятие"),
      Term("ур", "удаленная работа"),
      Term("дс", "дополнительное соглашение"),
      Term("уд", "удаленный"),
      Term("укэп", "усиленная квалифицированная электронная подпись"),
      Term("унэп", "усиленная неквалифицированна электронная подпись"),
      Term("фл", "физическое лицо"),
      Term("юл", "юридическое лицо"),
      Term("sed", "система электронного документооборота"),
      Term("мед", "медицинский"),
      Term("дмс", "добровольное медицинское страхование")
    ]

  const GlossaryLiteral: seq<Term> := GlossaryLiteralHead + GlossaryLiteralMiddle + GlossaryLiteralTail

  /** The dictionary the literal builds. */
  const GlossaryDict: seq<Term> := DictFromLiteral(GlossaryLiteral)

  /** Within the last part, the entry for `дк` is its first one. */
  lemma TailDk()
    ensures Lookup(GlossaryLiteralTail, "дк") == Some("личный кабинет")
  {
    TailDkOnce();
    LookupBefore(GlossaryLiteralTail, "дк", 1);
    assert GlossaryLiteralTail[..1] == [Term("дк", "личный кабинет")];
  }

  /** No later entry of the last part repeats `дк`. */
  lemma TailDkOnce()
    ensures forall k :: 1 <= k < |GlossaryLiteralTail| ==> GlossaryLiteralTail[k].abbreviation != "дк"
  {
    TailDkOnceA();
    TailDkOnceB();
    TailDkOnceC();
  }

  lemma TailDkOnceA()
    ensures forall k :: 1 <= k < 8 ==> GlossaryLiteralTail[k].abbreviation != "дк"
  {
    assert GlossaryLiteralTail[1].abbreviation != "дк";
    assert GlossaryLiteralTail[2].abbreviation != "дк";
    assert GlossaryLiteralTail[3].abbreviation != "дк";
    assert GlossaryLiteralTail[4].abbreviation != "дк";
    assert GlossaryLiteralTail[5].abbreviation != "дк";
    assert GlossaryLiteralTail[6].abbreviation != "дк";
    assert GlossaryLiteralTail[7].abbreviation != "дк";
  }

  lemma TailDkOnceB()
    ensures forall k :: 8 <= k < 15 ==> GlossaryLiteralTail[k].abbreviation != "дк"
  {
    assert GlossaryLiteralTail[8].abbreviation != "дк";
    assert GlossaryLiteralTail[9].abbreviation != "дк";
    assert GlossaryLiteralTail[10].abbreviation != "дк";
    assert GlossaryLiteralTail[11].abbreviation != "дк";
    assert GlossaryLiteralTail[12].abbreviation != "дк";
    assert GlossaryLiteralTail[13].abbreviation != "дк";
    assert GlossaryLiteralTail[14].abbreviation != "дк";
  }

  lemma TailDkOnceC()
    ensures forall k :: 15 <= k < 22 ==> GlossaryLiteralTail[k].abbreviation != "дк"
  {
    assert GlossaryLiteralTail[15].abbreviation != "дк";
    assert GlossaryLiteralTail[16].abbreviation != "дк";
    assert GlossaryLiteralTail[17].abbreviation != "дк";
    assert GlossaryLiteralTail[18].abbreviation != "дк";
    assert GlossaryLiteralTail[19].abbreviation != "дк";
    assert GlossaryLiteralTail[20].abbreviation != "дк";
    assert GlossaryLiteralTail[21].abbreviation != "дк";
  }

  /** The second entry for `дк` wins: the dictionary expands it to `личный кабинет`. */
  lemma DkMeansPersonalAccount()
    ensures Lookup(GlossaryDict, "дк") == Some("личный кабинет")
  {
    TailDk();
    LookupAppend(GlossaryLiteralHead + GlossaryLiteralMiddle, GlossaryLiteralTail, "дк");
    DictFromLiteralProperties(GlossaryLiteral, "дк");
  }

  /**
   * The other repeated abbreviations, `тк`, `кр` and `атз`, repeat their
   * full forms (entries 5 and 54, 9 and 23, 19 and 34), while the two `дк`
   * entries (12 and 45) disagree.
   */
  lemma RepeatedEntries()
    ensures GlossaryLiteralHead[5] == GlossaryLiteralTail[9] && GlossaryLiteralHead[5].abbreviation == "тк"
    ensures GlossaryLiteralHead[9] == GlossaryLiteralMiddle[1] && GlossaryLiteralHead[9].abbreviation == "кр"
    ensures GlossaryLiteralHead[19] == GlossaryLiteralMiddle[12] && GlossaryLiteralHead[19].abbreviation == "атз"
  {
  }

  lemma DkEntriesDisagree()
    ensures GlossaryLiteralHead[12].abbreviation == GlossaryLiteralTail[0].abbreviation == "дк"
    ensures GlossaryLiteralHead[12].fullForm == "директор кластера"
    ensures GlossaryLiteralTail[0].fullForm == "личный кабинет"
  {
  }
}
