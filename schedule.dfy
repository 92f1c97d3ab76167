/** The server's 24-hour region/language rotation (server.py, DAILY_SCHEDULE,
    KEYWORDS, LANG_NAMES and get_current_schedule). The UTC hour is a parameter. */
module Schedule {

  /** An hour of the UTC day, as `datetime.utcnow().hour` produces it. */
  type Hour = h: int | 0 <= h < 24

  /** One row of the daily rotation. */
  datatype Slot = Slot(hour: int, region: string, lang: string, location: string)

  /** What `get_current_schedule` returns. */
  datatype Target = Target(region: string, location: string, langCode: string, language: string, keywords: seq<string>)

  const DailySchedule: seq<Slot> := [
    Slot(0, "Los Angeles", "en", "Los Angeles"),
    Slot(1, "Mexico City", "es", "Mexico City"),
    Slot(2, "Lima", "es", "Lima"),
    Slot(3, "Buenos Aires", "es", "Buenos Aires"),
    Slot(4, "São Paulo", "pt", "São Paulo"),
    Slot(5, "Rio de Janeiro", "pt", "Rio de Janeiro"),
    Slot(6, "Sydney", "en", "Sydney"),
    Slot(7, "Melbourne", "en", "Melbourne"),
    Slot(8, "Tokyo", "ja", "Tokyo"),
    Slot(9, "Seoul", "ko", "Seoul"),
    Slot(10, "Jakarta", "id", "Jakarta"),
    Slot(11, "Singapore", "en", "Singapore"),
    Slot(12, "Paris", "fr", "Paris"),
    Slot(13, "Amsterdam", "nl", "Amsterdam"),
    Slot(14, "Berlin", "de", "Berlin"),
    Slot(15, "Warsaw", "pl", "Warsaw"),
    Slot(16, "Rome", "it", "Rome"),
    Slot(17, "Madrid", "es", "Madrid"),
    Slot(18, "Lisbon", "pt", "Lisbon"),
    Slot(19, "London", "en", "London"),
    Slot(20, "Dublin", "en", "Dublin"),
    Slot(21, "Toronto", "en", "Toronto"),
    Slot(22, "New York", "en", "New York"),
    Slot(23, "Chicago", "en", "Chicago")
  ]

  /** Native-language search keywords per language code. */
  const Keywords: map<string, seq<string>> := map[
    "en" := ["\"where to watch\" free", "\"best free streaming\" site", "\"netflix alternative\" free",
             "\"netflix too expensive\"", "\"streaming site\" no ads"],
    "fr" := ["\"où regarder\" film gratuit", "\"site streaming gratuit\"", "\"alternative netflix gratuit\"",
             "\"netflix trop cher\""],
    "de" := ["\"wo kann ich schauen\" kostenlos", "\"streaming seite kostenlos\"",
             "\"netflix alternative kostenlos\"", "\"netflix zu teuer\""],
    "es" := ["\"dónde ver\" películas gratis", "\"sitio streaming gratis\"", "\"alternativa netflix gratis\"",
             "\"netflix muy caro\""],
    "pt" := ["\"onde assistir\" filme grátis", "\"site streaming grátis\"", "\"alternativa netflix grátis\"",
             "\"netflix muito caro\""],
    "it" := ["\"dove guardare\" film gratis", "\"sito streaming gratuito\"", "\"alternativa netflix gratis\""],
    "nl" := ["\"waar kijken\" gratis", "\"gratis streaming site\"", "\"netflix alternatief gratis\""],
    "pl" := ["\"gdzie oglądać\" za darmo", "\"darmowy streaming\"", "\"alternatywa netflix\""],
    "ja" := ["映画 無料 視聴", "無料 ストリーミング サイト", "Netflix 代替 無料", "どこで見れる 映画", "無料で映画を見る方法"],
    "ko" := ["영화 무료 보기", "무료 스트리밍 사이트", "넷플릭스 대안 무료", "어디서 볼 수 있어", "드라마 무료 시청"],
    "id" := ["nonton film gratis", "situs streaming gratis", "alternatif netflix gratis", "dimana nonton film"]
  ]

  /** Language names handed to the draft generator, per language code. */
  const LangNames: map<string, string> := map[
    "en" := "English", "fr" := "French", "de" := "German", "es" := "Spanish",
    "pt" := "Portuguese", "it" := "Italian", "nl" := "Dutch", "pl" := "Polish",
    "ja" := "Japanese", "ko" := "Korean", "id" := "Indonesian"
  ]

  /** The table has one slot per hour, in hour order, and every slot's language
      has a name and a non-empty keyword list. */
  ghost predicate WellFormedTable() {
    && |DailySchedule| == 24
    && (forall i :: 0 <= i < 24 ==> DailySchedule[i].hour == i)
    && (forall i :: 0 <= i < 24 ==> DailySchedule[i].lang in LangNames)
    && (forall i :: 0 <= i < 24 ==> DailySchedule[i].lang in Keywords && |Keywords[DailySchedule[i].lang]| > 0)
  }

  lemma TableIsWellFormed()
    ensures WellFormedTable()
  {
    forall i | 0 <= i < 24
      ensures DailySchedule[i].hour == i
      ensures DailySchedule[i].lang in LangNames
      ensures DailySchedule[i].lang in Keywords && |Keywords[DailySchedule[i].lang]| > 0
    {
    }
  }

  /** `get_current_schedule`: the slot of the given hour, with the language name
      and keywords looked up, falling back to "English" and the English keywords. */
  function CurrentSchedule(hour: Hour): (t: Target)
    ensures t.region == DailySchedule[hour].region && t.location == DailySchedule[hour].location
    ensures t.langCode == DailySchedule[hour].lang
    // the fallbacks never fire: every slot's language is known
    ensures t.language == LangNames[t.langCode] && t.keywords == Keywords[t.langCode]
    ensures t.keywords != []
  {
    TableIsWellFormed();
    var slot := DailySchedule[hour];
    Target(slot.region, slot.location, slot.lang, LanguageName(slot.lang), KeywordsFor(slot.lang))
  }

  /** `LANG_NAMES.get(code, "English")`. */
  function LanguageName(code: string): string {
    if code in LangNames then LangNames[code] else "English"
  }

  /** `KEYWORDS.get(code, KEYWORDS["en"])`. */
  function KeywordsFor(code: string): seq<string> {
    if code in Keywords then Keywords[code] else EnglishKeywords
  }

  const EnglishKeywords: seq<string> := Keywords["en"]
}
