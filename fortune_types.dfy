/** The shapes shared by the API route and the report view (src/types/fortune.ts),
    plus the two closed choices the wizard offers (language and gender). */
module FortuneTypes {

  datatype Option<+T> = None | Some(value: T)

  /** The two display languages, 'en' and 'zh'. */
  datatype Language = En | Zh

  /** The two buttons of the gender card, which emit 'male' or 'female'. */
  datatype GenderChoice = Male | Female

  /** The string a gender choice puts into the wizard's user data. */
  function GenderName(g: GenderChoice): (s: string)
    ensures s == "male" || s == "female"
    ensures (s == "male") <==> g == Male
  {
    match g
    case Male => "male"
    case Female => "female"
  }

  /** The string a language choice stands for in the request body. */
  function LanguageCode(l: Language): (s: string)
    ensures s == "en" || s == "zh"
    ensures (s == "en") <==> l == En
  {
    match l
    case En => "en"
    case Zh => "zh"
  }

  /** One life-domain prediction: a score and its English and Chinese text. */
  datatype Pillar = Pillar(score: int, text: string, textZh: string)

  datatype Pillars = Pillars(career: Pillar, wealth: Pillar, love: Pillar, health: Pillar)

  /** The lucky lists. The Chinese lists are optional because the report view
      falls back to the English list when one is missing from the model's JSON. */
  datatype Lucky = Lucky(
    colors: seq<string>, colorsZh: Option<seq<string>>,
    numbers: seq<string>, numbersZh: Option<seq<string>>,
    directions: seq<string>, directionsZh: Option<seq<string>>)

  datatype FortuneReport = FortuneReport(
    zodiac: string, zodiacZh: string,
    element: string, elementZh: string,
    kua: int,
    overview: string, overviewZh: string,
    pillars: Pillars,
    lucky: Lucky)
}
