/** The report viewer of src/components/cards/ReportCard.tsx: a cursor over
    the six sections, a display language that can be toggled, and the choice
    of what each section shows. */
module ReportCard {
  import opened FortuneTypes

  datatype Section = Overview | Career | Wealth | Love | Health | LuckySection

  /** `SECTIONS`, in display order (ReportCard.tsx:17-24). */
  const Sections: seq<Section> := [Overview, Career, Wealth, Love, Health, LuckySection]

  const LastIndex: nat := |Sections| - 1

  predicate IsPillar(s: Section) {
    s in {Career, Wealth, Love, Health}
  }

  /** The index after `handleNext`: one further, except on the last section. */
  function NextIndex(i: nat): (j: nat)
    requires i < |Sections|
    ensures j < |Sections|
    ensures i <= j <= i + 1
    ensures j == i <==> i == LastIndex
  {
    if i < |Sections| - 1 then i + 1 else i
  }

  /** The index after `handlePrev`: one back, except on the first section. */
  function PrevIndex(i: nat): (j: nat)
    requires i < |Sections|
    ensures j < |Sections|
    ensures j <= i <= j + 1
    ensures j == i <==> i == 0
  {
    if i > 0 then i - 1 else i
  }

  /** Back undoes next, and next undoes back, wherever they moved. */
  lemma PrevNextInverse(i: nat)
    requires i < |Sections|
    ensures i < LastIndex ==> PrevIndex(NextIndex(i)) == i
    ensures 0 < i ==> NextIndex(PrevIndex(i)) == i
  {
  }

  /** The index after `k` presses of next. */
  function NextTimes(i: nat, k: nat): (j: nat)
    requires i < |Sections|
    ensures j < |Sections|
    decreases k
  {
    if k == 0 then i else NextTimes(NextIndex(i), k - 1)
  }

  /** Pressing next repeatedly walks forward one section at a time and stops
      at the last one. */
  lemma {:induction false} NextTimesSaturates(i: nat, k: nat)
    requires i < |Sections|
    ensures NextTimes(i, k) == if i + k < LastIndex then i + k else LastIndex
    decreases k
  {
    if k > 0 {
      NextTimesSaturates(NextIndex(i), k - 1);
    }
  }

  /** `toggleLanguage`'s update (ReportCard.tsx:94-96). */
  function Toggle(l: Language): (m: Language)
    ensures m != l
  {
    match l
    case En => Zh
    case Zh => En
  }

  /** Toggling twice restores the language. */
  lemma ToggleInvolution(l: Language)
    ensures Toggle(Toggle(l)) == l
  {
  }

  /** `isEn ? en : zh`. */
  function Localized(lang: Language, en: string, zh: string): (s: string)
    ensures lang == En ==> s == en
    ensures lang == Zh ==> s == zh
  {
    if lang == En then en else zh
  }

  /** A lucky list (ReportCard.tsx:165-167): the English list in English; in
      Chinese the Chinese list when the report has one, else the English list. */
  function LuckyList(lang: Language, en: seq<string>, zh: Option<seq<string>>): (r: seq<string>)
    ensures r == en || (zh.Some? && r == zh.value)
    ensures lang == Zh && zh.Some? ==> r == zh.value
    ensures lang == En || zh.None? ==> r == en
  {
    if lang == En then en else if zh.Some? then zh.value else en
  }

  /** `data.pillars[section]`. */
  function PillarOf(p: Pillars, s: Section): (q: Pillar)
    requires IsPillar(s)
    ensures s == Career ==> q == p.career
    ensures s == Wealth ==> q == p.wealth
    ensures s == Love ==> q == p.love
    ensures s == Health ==> q == p.health
  {
    match s
    case Career => p.career
    case Wealth => p.wealth
    case Love => p.love
    case Health => p.health
  }

  /** What `renderContent` shows. The lucky section also holds the button that
      starts over. */
  datatype Content =
    | OverviewContent(zodiac: string, element: string, kua: int, overview: string)
    | PillarContent(section: Section, score: int, text: string)
    | LuckyContent(colors: seq<string>, numbers: seq<string>, directions: seq<string>)

  /** `renderContent` for the section at index `i` (ReportCard.tsx:98-220). */
  function RenderContent(data: FortuneReport, i: nat, lang: Language): (c: Content)
    requires i < |Sections|
    ensures c.OverviewContent? <==> Sections[i] == Overview
    ensures c.LuckyContent? <==> Sections[i] == LuckySection
    ensures c.PillarContent? <==> IsPillar(Sections[i])
    ensures c.OverviewContent? ==>
      c == OverviewContent(Localized(lang, data.zodiac, data.zodiacZh), Localized(lang, data.element, data.elementZh),
                           data.kua, Localized(lang, data.overview, data.overviewZh))
    ensures c.PillarContent? ==>
      && c.section == Sections[i]
      && c.score == PillarOf(data.pillars, Sections[i]).score
      && c.text == Localized(lang, PillarOf(data.pillars, Sections[i]).text, PillarOf(data.pillars, Sections[i]).textZh)
    ensures c.LuckyContent? ==>
      c == LuckyContent(LuckyList(lang, data.lucky.colors, data.lucky.colorsZh),
                        LuckyList(lang, data.lucky.numbers, data.lucky.numbersZh),
                        LuckyList(lang, data.lucky.directions, data.lucky.directionsZh))
  {
    var section := Sections[i];
    match section
    case Overview =>
      OverviewContent(Localized(lang, data.zodiac, data.zodiacZh), Localized(lang, data.element, data.elementZh),
                      data.kua, Localized(lang, data.overview, data.overviewZh))
    case LuckySection =>
      LuckyContent(LuckyList(lang, data.lucky.colors, data.lucky.colorsZh),
                   LuckyList(lang, data.lucky.numbers, data.lucky.numbersZh),
                   LuckyList(lang, data.lucky.directions, data.lucky.directionsZh))
    case _ =>
      var p := PillarOf(data.pillars, section);
      PillarContent(section, p.score, Localized(lang, p.text, p.textZh))
  }

  /** Switching the language changes only words: the same kind of content is
      shown, with the same kua and the same score. */
  lemma LanguageKeepsNumbers(data: FortuneReport, i: nat)
    requires i < |Sections|
    ensures var e, z := RenderContent(data, i, En), RenderContent(data, i, Zh);
      && e.OverviewContent? == z.OverviewContent?
      && e.PillarContent? == z.PillarContent?
      && e.LuckyContent? == z.LuckyContent?
      && (e.OverviewContent? ==> e.kua == z.kua == data.kua)
      && (e.PillarContent? ==> e.section == z.section && e.score == z.score)
  {
  }

  /** The navigation bar under the content: hidden, or shown with the back
      button enabled or disabled. */
  datatype NavBar = Hidden | Shown(backDisabled: bool)

  /** The navigation bar for index `i` (ReportCard.tsx:262-293). */
  function NavBarAt(i: nat): (b: NavBar)
    requires i < |Sections|
    ensures b == Hidden <==> Sections[i] == LuckySection
    ensures b == Hidden <==> i == LastIndex
    ensures b.Shown? ==> (b.backDisabled <==> i == 0)
  {
    if Sections[i] == LuckySection then Hidden else Shown(i == 0)
  }

  /** The report card's state (ReportCard.tsx:77-96). */
  class ReportView {
    const data: FortuneReport
    var currentStep: nat
    var displayLang: Language

    ghost predicate Valid()
      reads this
    {
      currentStep < |Sections|
    }

    /** The card opens on the overview, in the page's language. */
    constructor (data: FortuneReport, language: Language)
      ensures Valid()
      ensures this.data == data && currentStep == 0 && displayLang == language
    {
      this.data := data;
      currentStep := 0;
      displayLang := language;
    }

    method HandleNext()
      requires Valid()
      modifies this
      ensures Valid()
      ensures currentStep == NextIndex(old(currentStep))
      ensures displayLang == old(displayLang)
    {
      if currentStep < |Sections| - 1 {
        currentStep := currentStep + 1;
      }
    }

    method HandlePrev()
      requires Valid()
      modifies this
      ensures Valid()
      ensures currentStep == PrevIndex(old(currentStep))
      ensures displayLang == old(displayLang)
    {
      if currentStep > 0 {
        currentStep := currentStep - 1;
      }
    }

    method ToggleLanguage()
      requires Valid()
      modifies this
      ensures Valid()
      ensures displayLang == Toggle(old(displayLang))
      ensures currentStep == old(currentStep)
    {
      displayLang := if displayLang == En then Zh else En;
    }

    /** What the card shows now: the overview first, the lucky section (with
        the button that starts over) exactly where the navigation bar is hidden. */
    function CurrentContent(): (c: Content)
      reads this
      requires Valid()
      ensures c.OverviewContent? <==> currentStep == 0
      ensures c.LuckyContent? <==> NavBarAt(currentStep) == Hidden
      ensures c.PillarContent? ==> NavBarAt(currentStep) == Shown(false)
    {
      RenderContent(data, currentStep, displayLang)
    }
  }
}
