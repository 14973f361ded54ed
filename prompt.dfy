/** The instruction text the API route sends to the generative model
    (src/app/api/generate-fortune/route.ts:36-90): a fixed template with the
    name, gender and date of birth inserted as they are, without escaping. */
module Prompt {

  /** The template up to the name: the persona, the fixed year 2026 and the
      start of the input block. */
  const Opening: string :=
    "\n" +
    "You are a Grandmaster of Chinese Metaphysics. The current year is 2026, the Year of the Fire Horse (Bing Wu).\n" +
    "\n" +
    "Input Data:\n" +
    "Name: "

  const GenderLabel: string := "\nGender: "

  const DobLabel: string := "\nDOB: "

  /** The template after the date of birth: the task, the JSON shape the model
      must answer with, and the tone; it ends with the indentation before the
      closing backquote of the template literal. */
  const Schema: string :=
    "\n" +
    "\n" +
    "Your Task:\n" +
    "Generate a personalized Fengshui report for 2026.\n" +
    "You must output STRICT VALID JSON. Do not include markdown code blocks.\n" +
    "\n" +
    "JSON Structure:\n" +
    "{\n" +
    "  \"zodiac\": \"String (English Zodiac Sign)\",\n" +
    "  \"zodiac_zh\": \"String (Chinese Zodiac Sign)\",\n" +
    "  \"element\": \"String (Birth Element)\",\n" +
    "  \"element_zh\": \"String (Birth Element in Chinese)\",\n" +
    "  \"kua\": \"Number\",\n" +
    "  \"overview\": \"String (General luck summary in English)\",\n" +
    "  \"overview_zh\": \"String (General luck summary in Chinese)\",\n" +
    "  \"pillars\": {\n" +
    "    \"career\": { \n" +
    "      \"score\": Number (1-10), \n" +
    "      \"text\": \"String (Career prediction in English)\", \n" +
    "      \"text_zh\": \"String (Career prediction in Chinese)\" \n" +
    "    },\n" +
    "    \"wealth\": { \n" +
    "      \"score\": Number (1-10), \n" +
    "      \"text\": \"String (Wealth prediction in English)\", \n" +
    "      \"text_zh\": \"String (Wealth prediction in Chinese)\" \n" +
    "    },\n" +
    "    \"love\": { \n" +
    "      \"score\": Number (1-10), \n" +
    "      \"text\": \"String (Love prediction in English)\", \n" +
    "      \"text_zh\": \"String (Love prediction in Chinese)\" \n" +
    "    },\n" +
    "    \"health\": { \n" +
    "      \"score\": Number (1-10), \n" +
    "      \"text\": \"String (Health prediction in English)\", \n" +
    "      \"text_zh\": \"String (Health prediction in Chinese)\" \n" +
    "    }\n" +
    "  },\n" +
    "  \"lucky\": {\n" +
    "    \"colors\": [\"String (English)\", \"String (English)\"],\n" +
    "    \"colors_zh\": [\"String (Chinese)\", \"String (Chinese)\"],\n" +
    "    \"numbers\": [\"String\", \"String\"],\n" +
    "    \"numbers_zh\": [\"String\", \"String\"],\n" +
    "    \"directions\": [\"String (English)\", \"String (English)\"],\n" +
    "    \"directions_zh\": [\"String (Chinese)\", \"String (Chinese)\"]\n" +
    "  }\n" +
    "}\n" +
    "\n" +
    "Tone: Mystical but practical. Provide specific advice for each pillar.\n" +
    "    "

  /** A template with three holes, for the name, the gender and the date of birth. */
  datatype Template = Template(opening: string, genderLabel: string, dobLabel: string, closing: string)

  /** The template literal of route.ts:36-90. */
  const SystemTemplate: Template := Template(Opening, GenderLabel, DobLabel, Schema)

  /** Fills the three holes with the given text, as a template literal does. */
  function Fill(t: Template, name: string, gender: string, dob: string): string
  {
    t.opening + name + t.genderLabel + gender + t.dobLabel + dob + t.closing
  }

  /** Each value appears verbatim at its place in a filled template, and the
      rest is the template's fixed text. */
  lemma FillLayout(t: Template, name: string, gender: string, dob: string)
    ensures var p := Fill(t, name, gender, dob);
      && |p| == |t.opening| + |name| + |t.genderLabel| + |gender| + |t.dobLabel| + |dob| + |t.closing|
      && p[..|t.opening|] == t.opening
      && p[|t.opening|..|t.opening| + |name|] == name
      && p[|t.opening| + |name|..|t.opening| + |name| + |t.genderLabel|] == t.genderLabel
      && p[|t.opening| + |name| + |t.genderLabel|..|t.opening| + |name| + |t.genderLabel| + |gender|] == gender
      && p[|p| - |t.closing| - |dob| - |t.dobLabel|..|p| - |t.closing| - |dob|] == t.dobLabel
      && p[|p| - |t.closing| - |dob|..|p| - |t.closing|] == dob
      && p[|p| - |t.closing|..] == t.closing
  {
  }

  /** The prompt for one request. Nothing else enters it: the language and the
      birth time of the request are not parameters. */
  function SystemPrompt(name: string, gender: string, dob: string): string
  {
    Fill(SystemTemplate, name, gender, dob)
  }


  /** The route's own prompt carries the name unaltered: with the gender and
      date of birth fixed, two prompts are equal only for the same name. */
  lemma SystemPromptDeterminesName(n1: string, n2: string, gender: string, dob: string)
    requires SystemPrompt(n1, gender, dob) == SystemPrompt(n2, gender, dob)
    ensures n1 == n2
  {
    FillDeterminesName(SystemTemplate, n1, n2, gender, dob);
  }

  /** With the gender and date of birth fixed, two prompts are equal only for
      the same name: the name reaches the model unaltered. */
  lemma FillDeterminesName(t: Template, n1: string, n2: string, gender: string, dob: string)
    requires Fill(t, n1, gender, dob) == Fill(t, n2, gender, dob)
    ensures n1 == n2
  {
    var p := Fill(t, n1, gender, dob);
    FillLayout(t, n1, gender, dob);
    FillLayout(t, n2, gender, dob);
    assert |n1| == |n2|;
    assert n1 == p[|t.opening|..|t.opening| + |n1|];
  }
}
