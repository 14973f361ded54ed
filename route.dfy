/** The API route src/app/api/generate-fortune/route.ts: `logUserToCSV` and the
    `POST` handler. The file system, the clock, the environment and the
    generative model are not simulated: the file is a CsvFile object whose
    write verdicts are parameters, the timestamp and the key are parameters,
    the model is a GenerativeModel object that records the prompts it receives
    and gives a scripted reply, and `JSON.parse` is a function parameter. */
module FortuneRoute {
  import opened FortuneTypes
  import opened CsvLog
  import opened Prompt

  /** A field of the parsed request body as far as the route uses it: a string;
      any other JSON value (or an absent field) that a template literal renders
      as `rendered` ("undefined", "42", "[object Object]", ...); or a value whose
      conversion to a string throws, such as an object whose `toString` is not
      callable, or an array holding one. */
  datatype JsonValue = JStr(str: string) | JOther(rendered: string) | JUnrenderable

  /** Whether `${v}` succeeds. */
  predicate Renderable(v: JsonValue) {
    !v.JUnrenderable?
  }

  /** What `${v}` inserts for the value. */
  function Interpolate(v: JsonValue): (s: string)
    requires Renderable(v)
    ensures v.JStr? ==> s == v.str
  {
    match v
    case JStr(s) => s
    case JOther(r) => r
  }

  /** Whether building the row at route.ts:11 throws: `name.replace` needs a
      string, and the gender and date of birth must convert to strings. The
      row is built before the `try`, so any of these escapes `logUserToCSV`. */
  predicate RowThrows(name: JsonValue, gender: JsonValue, dob: JsonValue): (t: bool)
    ensures !t ==> name.JStr? && Renderable(gender) && Renderable(dob)
    ensures name.JStr? && gender.JStr? && dob.JStr? ==> !t
  {
    !name.JStr? || !Renderable(gender) || !Renderable(dob)
  }

  /** The request body after `await req.json()` and destructuring (route.ts:25).
      `Unreadable` stands for a body that is not JSON, or is JSON `null`: in both
      cases line 25 throws. `birthTime` is sent by the wizard but never read. */
  datatype RequestBody =
    | Unreadable
    | Body(name: JsonValue, dob: JsonValue, gender: JsonValue, language: JsonValue, birthTime: JsonValue)

  /** What the model client hands back: a transport failure, or response text. */
  datatype ModelReply = TransportFailure | ReplyText(text: string)

  /** What `JSON.parse` makes of the reply text: a fortune report, or some other
      JSON value (rendered back as text), which the route passes on just the same. */
  datatype ParsedJson = ReportDoc(report: FortuneReport) | OtherDoc(json: string)

  datatype ResponseBody = JsonBody(doc: ParsedJson) | ErrorJson(error: string)

  datatype Response = Response(status: int, body: ResponseBody)

  const KeyMissingMessage: string := "GEMINI_API_KEY is not configured"
  const GenerationFailedMessage: string := "Failed to generate fortune"

  /** `!process.env.GEMINI_API_KEY` is false only for a set, non-empty key. */
  predicate KeyConfigured(key: Option<string>): (ok: bool)
    ensures key.None? ==> !ok
    ensures key.Some? ==> (ok <==> |key.value| > 0)
  {
    key.Some? && key.value != ""
  }

  /** The answer of `POST` once a prompt has been sent: the parsed reply, or the
      generic failure for a transport error or text that does not parse
      (`parseJson` is `None` exactly where `JSON.parse` throws). */
  function ReplyResponse(reply: ModelReply, parseJson: string -> Option<ParsedJson>): (r: Response)
    ensures r.status == 200 <==> r.body.JsonBody?
    ensures r.status == 200 <==> reply.ReplyText? && parseJson(reply.text).Some?
    ensures r.status == 200 ==> r.body.doc == parseJson(reply.text).value
    ensures r.status != 200 ==> r == Response(500, ErrorJson(GenerationFailedMessage))
  {
    match reply
    case TransportFailure => Response(500, ErrorJson(GenerationFailedMessage))
    case ReplyText(text) =>
      match parseJson(text)
      case None => Response(500, ErrorJson(GenerationFailedMessage))
      case Some(doc) => Response(200, JsonBody(doc))
  }

  /** The generative model, as the route sees it: every prompt sent is recorded,
      and every call gives the same scripted reply. */
  class GenerativeModel {
    var prompts: seq<string>
    const reply: ModelReply

    constructor (reply: ModelReply)
      ensures prompts == [] && this.reply == reply
    {
      prompts := [];
      this.reply := reply;
    }

    /** `model.generateContent(...)` followed by `response.text()`. */
    method GenerateContent(prompt: string) returns (r: ModelReply)
      modifies this
      ensures prompts == old(prompts) + [prompt]
      ensures r == reply
    {
      prompts := prompts + [prompt];
      r := reply;
    }
  }

  /** `logUserToCSV` (route.ts:9-21). The row is built before the `try`, so a
      name that is not a string, or a gender or date of birth that cannot be
      converted to a string, throws out of the function with the file
      untouched; every file system failure inside the `try` is swallowed. */
  method LogUserToCsv(file: CsvFile, name: JsonValue, gender: JsonValue, dob: JsonValue,
                      timestamp: string, writeOk: bool, appendOk: bool) returns (threw: bool)
    requires file.Valid()
    modifies file
    ensures file.Valid()
    ensures threw <==> RowThrows(name, gender, dob)
    ensures threw ==> file.State() == old(file.State())
    ensures !threw ==>
      file.State() == LogStep(old(file.State()), CsvLine(timestamp, name.str, Interpolate(gender), Interpolate(dob)), writeOk, appendOk)
  {
    if RowThrows(name, gender, dob) {
      return true;
    }
    threw := false;
    var line := CsvLine(timestamp, name.str, Interpolate(gender), Interpolate(dob));
    if !file.present {
      var written := file.WriteFile(Header, writeOk);
      if !written {
        return;
      }
    }
    var _ := file.AppendFile(line, appendOk);
  }

  /** `POST` (route.ts:23-106): read the body, log it, check the key, build the
      prompt, call the model and parse its text. Every thrown error ends in the
      generic 500 answer. */
  method Post(body: RequestBody, timestamp: string, apiKey: Option<string>,
              file: CsvFile, writeOk: bool, appendOk: bool,
              model: GenerativeModel, parseJson: string -> Option<ParsedJson>) returns (resp: Response)
    requires file.Valid()
    modifies file, model
    ensures file.Valid()
    ensures resp.status == 200 || resp.status == 500
    ensures resp.status == 200 <==> resp.body.JsonBody?
    // An unreadable body, or a row that cannot be built: nothing is logged, the model is not called.
    ensures (body.Unreadable? || RowThrows(body.name, body.gender, body.dob)) ==>
      && resp == Response(500, ErrorJson(GenerationFailedMessage))
      && file.State() == old(file.State())
      && model.prompts == old(model.prompts)
    // Otherwise the row is logged exactly once, before anything else is decided.
    ensures body.Body? && !RowThrows(body.name, body.gender, body.dob) ==>
      file.State() == LogStep(old(file.State()),
                              CsvLine(timestamp, body.name.str, Interpolate(body.gender), Interpolate(body.dob)),
                              writeOk, appendOk)
    // Without a key, the model is not called.
    ensures body.Body? && !RowThrows(body.name, body.gender, body.dob) && !KeyConfigured(apiKey) ==>
      && resp == Response(500, ErrorJson(KeyMissingMessage))
      && model.prompts == old(model.prompts)
    // With a key, exactly one prompt is sent and its reply decides the answer.
    ensures body.Body? && !RowThrows(body.name, body.gender, body.dob) && KeyConfigured(apiKey) ==>
      && model.prompts == old(model.prompts) + [SystemPrompt(body.name.str, Interpolate(body.gender), Interpolate(body.dob))]
      && resp == ReplyResponse(model.reply, parseJson)
  {
    if body.Unreadable? {
      return Response(500, ErrorJson(GenerationFailedMessage));
    }
    var threw := LogUserToCsv(file, body.name, body.gender, body.dob, timestamp, writeOk, appendOk);
    if threw {
      return Response(500, ErrorJson(GenerationFailedMessage));
    }
    if !KeyConfigured(apiKey) {
      return Response(500, ErrorJson(KeyMissingMessage));
    }
    var prompt := SystemPrompt(body.name.str, Interpolate(body.gender), Interpolate(body.dob));
    var reply := model.GenerateContent(prompt);
    match reply {
      case TransportFailure =>
        resp := Response(500, ErrorJson(GenerationFailedMessage));
      case ReplyText(text) =>
        var parsed := parseJson(text);
        if parsed.None? {
          resp := Response(500, ErrorJson(GenerationFailedMessage));
        } else {
          resp := Response(200, JsonBody(parsed.value));
        }
    }
  }
}
