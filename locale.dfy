/** The translation table and the clamp applied to the configured language
    index.  Index 0 is English, 1 French, 2 German, 3 Polish. */
module Locale {

  import opened Text

  const LanguageCount := 4

  type Lang = l: nat | l < LanguageCount

  /** The module-level clamp: an index outside the table falls back to English. */
  function ClampLang(lang: int): (l: Lang)
    ensures 0 <= lang < LanguageCount ==> l == lang
    ensures (lang < 0 || lang >= LanguageCount) ==> l == 0
  {
    if lang < 0 || lang >= LanguageCount then 0 else lang
  }

  datatype Phrase =
    | Years | Months | Days | Hours | Minutes | Seconds
    | FirstTimeHereLabel | TotSessionsLabel | PlayedGamesLabel
    | CumulatedPlaytimeLabel | AvgSessionTimeLabel | TotPunishmentsLabel
    | NoPunish | AveragesHeader
    | CombatWord | OffenseWord | DefenseWord | SupportWord
    | TotalsHeader | KillsWord | TksWord | DeathsWord | RatioWord
    | FavoriteWeaponsHeader | GamesWord | VictimsHeader | NemesisHeader

  /** One row of the translation table: the phrase in each language. */
  function Translations(p: Phrase): (row: seq<string>)
    ensures |row| == LanguageCount
  {
    match p
    case Years => ["years", "années", "Jahre", "Lata"]
    case Months => ["months", "mois", "Monate", "Miesiące"]
    case Days => ["days", "jours", "Tage", "Dni"]
    case Hours => ["hours", "heures", "Dienststunden", "Godziny"]
    case Minutes => ["minutes", "minutes", "Minuten", "Minuty"]
    case Seconds => ["seconds", "secondes", "Sekunden", "Sekundy"]
    case FirstTimeHereLabel => ["▒ First time here", "▒ Arrivé(e) il y a", "▒ Zum ersten Mal hier", "▒ Pierwszy raz tutaj"]
    case TotSessionsLabel => ["▒ Game sessions", "▒ Sessions de jeu", "▒ Spielesitzungen", "▒ Sesji"]
    case PlayedGamesLabel => ["▒ Played games", "▒ Parties jouées", "▒ gespielte Spiele", "▒ Rozegranych gier"]
    case CumulatedPlaytimeLabel => ["▒ Cumulated play time", "▒ Temps de jeu cumulé", "▒ Kumulierte Spielzeit", "▒ Łączny czas gry"]
    case AvgSessionTimeLabel => ["▒ Average session", "▒ Session moyenne", "▒ Durchschnittliche Sitzung", "▒ Średnio na sesje"]
    case TotPunishmentsLabel => ["▒ Punishments ▒", "▒ Punitions ▒", "▒ Strafen ▒", "▒ Kary ▒"]
    case NoPunish => ["None ! Well done !", "Aucune ! Félicitations !", "Keiner! Gut gemacht!", "Brak! Dobra robota!"]
    case AveragesHeader => ["▒ Averages", "▒ Moyennes ▒", "▒ Durchschnittswerte", "▒ Średnie"]
    case CombatWord => ["combat", "combat", "kampf", "walka"]
    case OffenseWord => ["attack", "attaque", "angriff", "ofensywa"]
    case DefenseWord => ["defense", "défense", "verteidigung", "defensywa"]
    case SupportWord => ["support", "soutien", "unterstützung", "wsparcie"]
    case TotalsHeader => ["▒ Totals ▒", "▒ Totaux ▒", "▒ Gesamtsummen ▒", "▒ Łącznie ▒"]
    case KillsWord => ["kills", "kills", "tötet", "zabójstwa"]
    case TksWord => ["TKs", "TKs", "TKs", "TKs"]
    case DeathsWord => ["deaths", "morts", "todesfälle", "śmierci"]
    case RatioWord => ["ratio", "ratio", "verhältnis", "średnia"]
    case FavoriteWeaponsHeader => ["▒ Favorite weapons ▒", "▒ Armes favorites ▒", "▒ Lieblingswaffen ▒", "▒ Ulubione bronie ▒"]
    case GamesWord => ["games", "parties", "Spiele", "Gry"]
    case VictimsHeader => ["▒ Victims ▒", "▒ Victimes ▒", "▒ Opfer ▒", "▒ Ofiary ▒"]
    case NemesisHeader => ["▒ Nemesis ▒", "▒ Nemesis ▒", "▒ Nemesis ▒", "▒ Nemesis ▒"]
  }

  function Tr(p: Phrase, lang: Lang): string {
    Translations(p)[lang]
  }

  /** In every language the three calendar unit words are non-empty, start
      with three different letters and hold no space; a reader of a rendered
      duration can therefore tell its words and clauses apart. */
  lemma UnitWordsDistinct(lang: Lang)
    ensures |Tr(Years, lang)| > 0 && |Tr(Months, lang)| > 0 && |Tr(Days, lang)| > 0
    ensures Tr(Years, lang)[0] != Tr(Months, lang)[0]
    ensures Tr(Years, lang)[0] != Tr(Days, lang)[0]
    ensures Tr(Months, lang)[0] != Tr(Days, lang)[0]
  {
  }

  /** No calendar unit word holds a space. */
  lemma UnitWordsFree(lang: Lang)
    ensures Free(Tr(Years, lang), ' ') && Free(Tr(Months, lang), ' ') && Free(Tr(Days, lang), ' ')
  {
  }

  /** The "no punishment" phrase starts with a letter in every language. */
  lemma NoPunishStartsWithLetter(lang: Lang)
    ensures |Tr(NoPunish, lang)| > 0
    ensures !IsDigit(Tr(NoPunish, lang)[0]) && Tr(NoPunish, lang)[0] != '\n'
  {
  }

  /** The "no punishment" phrase is a single line in every language. */
  lemma NoPunishOneLine(lang: Lang)
    ensures Free(Tr(NoPunish, lang), '\n')
  {
    var row := Translations(NoPunish);
    assert row == ["None ! Well done !", "Aucune ! Félicitations !", "Keiner! Gut gemacht!", "Brak! Dobra robota!"];
    assert Free(row[0], '\n') && Free(row[1], '\n') && Free(row[2], '\n') && Free(row[3], '\n');
  }
}
