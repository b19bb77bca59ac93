/** The generation route, `POST /api/produce`: a three-stage pipeline over two
    language-model providers. A planner call (OpenAI Responses API) proposes trend
    queries and angle notes, a trend-scan call (xAI chat completions) answers the
    queries, and a final call (OpenAI again) writes the content pack, which the
    route cuts down to `top_k` items per bucket.

    The providers, the request body parser and the clock are inputs: each call's
    outcome is a `ProviderReply`, `JSON.parse` is the function `parse`, the time
    stamp is `now`. The handler returns the provider calls it made, in order, with
    its answer. */
module Produce {
  import opened Text
  import opened Js

  const SchemaVersion := "vp_pack_v1"
  const DefaultOpenAiModel := "gpt-4.1-mini"
  const DefaultXaiModel := "grok-4-fast-non-reasoning"
  const MaxTopK := 5
  const MaxTrendQueries := 5
  const MaxAngleNotes := 400
  const NoQueries := "- (no queries provided)"
  /** The TypeError V8 raises when the `content` of a Responses API output item
      is neither an array nor null. */
  const MapNotFunction := "data?.output?.[0]?.content?.map is not a function"

  /** The process environment the route reads. */
  datatype Env = Env(openAiKey: Option<string>, xaiKey: Option<string>,
                     openAiModel: Option<string>, xaiModel: Option<string>)

  /** The credentials and model names once the environment has been read. */
  datatype Config = Config(openAiKey: string, xaiKey: string, openAiModel: string, xaiModel: string)

  /** What one provider call did: the request threw (a network failure), or the
      provider answered with an HTTP success flag and a body (`null` when the body
      did not parse). */
  datatype ProviderReply = Threw(message: string) | Replied(ok: bool, body: Json)

  /** The validated request: five trimmed, length-capped fields and `top_k`,
      which is `None` where JavaScript computes NaN. */
  datatype CampaignInput = CampaignInput(brandName: string, product: string, offer: string,
                                         website: string, market: string, topK: Option<int>)

  /** What the planner stage hands on. */
  datatype Plan = Plan(trendQueries: seq<Json>, angleNotes: string)

  /** The data each prompt embeds; the fixed wording around it is not modelled. */
  datatype Prompt =
    | PlannerPrompt(input: CampaignInput)
    | TrendPrompt(input: CampaignInput, queryList: string)
    | FinalPrompt(input: CampaignInput, angleNotes: string, trendText: string)

  /** One outbound provider request. */
  datatype Call =
    | OpenAiCall(apiKey: string, model: string, prompt: Prompt)
    | XaiCall(apiKey: string, model: string, prompt: Prompt)

  /** The four output buckets of a content pack. */
  datatype Buckets = Buckets(hooks: seq<string>, onScreenOverlays: seq<string>,
                             captions: seq<string>, hashtags: seq<string>)

  /** The route's answer. `Failed` is `{ ok: false, error }`; `NoUsableJson` is the
      502 answer carrying the three stage texts for debugging; `Pack` is the
      200 answer with schema version `vp_pack_v1`. */
  datatype Reply =
    | Failed(status: int, error: string)
    | NoUsableJson(plannerText: Json, grokText: Json, finalText: Json)
    | Pack(generatedAt: string, input: CampaignInput, output: Buckets,
           plannerModel: string, grokModel: string)
  {
    function Status(): int {
      match this
      case Failed(status, _) => status
      case NoUsableJson(_, _, _) => 502
      case Pack(_, _, _, _, _) => 200
    }
  }

  /** The calls made, in order, and the answer. */
  datatype Handled = Handled(calls: seq<Call>, reply: Reply)

  // ---------------------------------------------------------------------------
  // Input normalisation

  /** `clampStr(v, max)`: the text of `v` (nothing for a falsy value), trimmed, then
      cut to at most `max` characters. */
  function ClampStr(v: Option<Json>, max: nat): (r: string)
    ensures |r| <= max
    ensures |r| == if |Trim(TextOr(v))| <= max then |Trim(TextOr(v))| else max
    ensures r == Trim(TextOr(v))[..|r|]
    ensures max > 0 ==> (r == "" <==> AllWhite(TextOr(v)))
    ensures !Truthy(v) ==> r == ""
  {
    var s := Trim(TextOr(v));
    if |s| > max then s[..max] else s
  }

  function Clamp(n: int, lo: int, hi: int): int {
    if n < lo then lo else if n > hi then hi else n
  }

  /** `Math.min(Math.max(parseInt(body?.top_k || 5, 10), 1), 5)`, with NaN as `None`. */
  function TopK(v: Option<Json>): (r: Option<int>)
    ensures r.Some? ==> 1 <= r.value <= MaxTopK
    ensures !Truthy(v) ==> r == Some(5)
    ensures r.None? <==> Truthy(v) && ParseInt(ToStr(v.value)).None?
  {
    ParseIntOfIntToString(5);
    var n := ParseInt(if Truthy(v) then ToStr(v.value) else IntToString(5));
    match n
    case None => None
    case Some(k) => Some(Clamp(k, 1, MaxTopK))
  }

  /** A non-zero number is clamped into 1..5. */
  lemma TopKOfNumber(n: int)
    requires n != 0
    ensures TopK(Some(JNum(n))) == Some(Clamp(n, 1, MaxTopK))
  {
    NumberText(n);
  }

  /** The request fields with their length caps: each input field is read from
      the body key of the same name, and `top_k` is clamped into 1..5. */
  function ReadInput(body: Json): (input: CampaignInput)
    ensures input.brandName == ClampStr(Get(Some(body), "brand_name"), 120)
    ensures input.product == ClampStr(Get(Some(body), "product"), 280)
    ensures input.offer == ClampStr(Get(Some(body), "offer"), 280)
    ensures input.website == ClampStr(Get(Some(body), "website"), 200)
    ensures input.market == ClampStr(Get(Some(body), "market"), 280)
    ensures input.topK == TopK(Get(Some(body), "top_k"))
    ensures |input.brandName| <= 120 && |input.product| <= 280 && |input.offer| <= 280
    ensures |input.website| <= 200 && |input.market| <= 280
  {
    var b := Some(body);
    CampaignInput(ClampStr(Get(b, "brand_name"), 120), ClampStr(Get(b, "product"), 280),
                  ClampStr(Get(b, "offer"), 280), ClampStr(Get(b, "website"), 200),
                  ClampStr(Get(b, "market"), 280), TopK(Get(b, "top_k")))
  }

  /** `Object.entries(input)` without `top_k`: the text fields in declaration order. */
  function Entries(input: CampaignInput): seq<(string, string)> {
    [("brand_name", input.brandName), ("product", input.product), ("offer", input.offer),
     ("website", input.website), ("market", input.market)]
  }

  function Names(es: seq<(string, string)>): (r: seq<string>)
    ensures |r| == |es| && forall i :: 0 <= i < |es| ==> r[i] == es[i].0
  {
    seq(|es|, i requires 0 <= i < |es| => es[i].0)
  }

  /** `.filter(([k, v]) => !v).map(([k]) => k)`: the names of the empty entries. */
  function EmptyNames(es: seq<(string, string)>): seq<string> {
    if es == [] then []
    else
      var init := es[..|es| - 1];
      var last := es[|es| - 1];
      EmptyNames(init) + (if last.1 == "" then [last.0] else [])
  }

  /** A name is listed exactly when some entry with that name is empty, and the
      names keep the order of the entries. */
  lemma {:induction false} EmptyNamesSpec(es: seq<(string, string)>)
    ensures forall k :: k in EmptyNames(es) <==> exists e :: e in es && e.0 == k && e.1 == ""
    ensures IsSubseq(EmptyNames(es), Names(es))
  {
    if es != [] {
      var init := es[..|es| - 1];
      var last := es[|es| - 1];
      EmptyNamesSpec(init);
      assert es == init + [last];
      assert Names(es) == Names(init) + [last.0];
      SubseqStep(EmptyNames(init), Names(init), last.0, last.1 == "");
    }
  }

  /** The names of the empty text fields, in declaration order. */
  function Missing(input: CampaignInput): seq<string> {
    EmptyNames(Entries(input))
  }

  /** A field is listed as missing exactly when it is empty. */
  lemma MissingFields(input: CampaignInput)
    ensures "brand_name" in Missing(input) <==> input.brandName == ""
    ensures "product" in Missing(input) <==> input.product == ""
    ensures "offer" in Missing(input) <==> input.offer == ""
    ensures "website" in Missing(input) <==> input.website == ""
    ensures "market" in Missing(input) <==> input.market == ""
  {
    var es := Entries(input);
    EmptyNamesSpec(es);
    assert es[0] in es && es[1] in es && es[2] in es && es[3] in es && es[4] in es;
  }

  /** Nothing is missing exactly when all five fields are filled in, and the
      missing names keep the order of the fields. */
  lemma NothingMissing(input: CampaignInput)
    ensures Missing(input) == [] <==>
              input.brandName != "" && input.product != "" && input.offer != "" &&
              input.website != "" && input.market != ""
    ensures IsSubseq(Missing(input), ["brand_name", "product", "offer", "website", "market"])
  {
    MissingFields(input);
    EmptyNamesSpec(Entries(input));
    assert Names(Entries(input)) == ["brand_name", "product", "offer", "website", "market"];
    if Missing(input) != [] {
      assert Missing(input)[0] in Missing(input);
    }
  }

  // ---------------------------------------------------------------------------
  // Provider adapters

  /** The `text` of each content part that has a truthy one (`c?.text` filtered by
      `Boolean`). */
  function TruthyTexts(parts: seq<Json>): (r: seq<Json>)
    ensures |r| <= |parts|
    ensures forall i :: 0 <= i < |r| ==> Truthy(Some(r[i]))
  {
    if parts == [] then []
    else
      var t := Get(Some(parts[0]), "text");
      (if Truthy(t) then [t.value] else []) + TruthyTexts(parts[1..])
  }

  /** A value is kept exactly when it is truthy and is the `text` of some part. */
  lemma {:induction false} TruthyTextsMember(parts: seq<Json>, x: Json)
    ensures x in TruthyTexts(parts) <==>
              Truthy(Some(x)) && exists i :: 0 <= i < |parts| && Get(Some(parts[i]), "text") == Some(x)
  {
    if parts != [] {
      TruthyTextsMember(parts[1..], x);
      if exists i :: 0 <= i < |parts| && Get(Some(parts[i]), "text") == Some(x) {
        var i :| 0 <= i < |parts| && Get(Some(parts[i]), "text") == Some(x);
        if i > 0 {
          assert parts[1..][i - 1] == parts[i];
        }
      }
      if exists j :: 0 <= j < |parts[1..]| && Get(Some(parts[1..][j]), "text") == Some(x) {
        var j :| 0 <= j < |parts[1..]| && Get(Some(parts[1..][j]), "text") == Some(x);
        assert parts[1 + j] == parts[1..][j];
      }
    }
  }

  /** The filter works part by part: the texts of two runs of parts are the texts
      of the first run followed by those of the second. */
  lemma {:induction false} TruthyTextsAppend(a: seq<Json>, b: seq<Json>)
    ensures TruthyTexts(a + b) == TruthyTexts(a) + TruthyTexts(b)
  {
    if a == [] {
      assert a + b == b;
    } else {
      var t := Get(Some(a[0]), "text");
      var head: seq<Json> := if Truthy(t) then [t.value] else [];
      assert (a + b)[0] == a[0];
      assert (a + b)[1..] == a[1..] + b;
      assert TruthyTexts(a + b) == head + TruthyTexts(a[1..] + b);
      TruthyTextsAppend(a[1..], b);
      assert TruthyTexts(a) == head + TruthyTexts(a[1..]);
    }
  }

  /** A single part gives its `text` when that is truthy, and nothing otherwise. */
  lemma TruthyTextsOne(p: Json)
    ensures TruthyTexts([p]) == if Truthy(Get(Some(p), "text")) then [Get(Some(p), "text").value] else []
  {
    assert [p][1..] == [];
  }

  /** The text of a Responses API body: the joined text parts of the first output
      item when that is not empty, else `output_text` when truthy, else "". A
      `content` that is neither an array nor null makes `.map` throw. */
  function OpenAiText(data: Json): (r: Result<Json>)
    ensures r.Err? <==> (var c := Get(At(Get(Some(data), "output"), 0), "content");
                         c.Some? && !c.value.JNull? && !c.value.JArr?)
    ensures r.Err? ==> r.message == MapNotFunction
    ensures r.Ok? ==> Truthy(Some(r.value)) || r.value == JStr("")
  {
    var content := Get(At(Get(Some(data), "output"), 0), "content");
    if content.Some? && !content.value.JNull? && !content.value.JArr? then Err(MapNotFunction)
    else
      var joined := Join(ToStrs(TruthyTexts(ItemsOf(content))), "\n");
      if joined != "" then Ok(JStr(joined))
      else Ok(Or(Get(Some(data), "output_text"), JStr("")))
  }

  /** Without a content array in the first output item (no `output`, no first
      item, no `content` or a null one) the text is `output_text` when that is
      truthy, else "". */
  lemma OpenAiTextFallback(data: Json)
    requires var c := Get(At(Get(Some(data), "output"), 0), "content"); c.None? || c.value.JNull?
    ensures OpenAiText(data) == Ok(Or(Get(Some(data), "output_text"), JStr("")))
  {
    var content := Get(At(Get(Some(data), "output"), 0), "content");
    assert ItemsOf(content) == [];
    assert ToStrs(TruthyTexts([])) == [];
    assert Join([], "\n") == "";
  }

  /** Content parts each carrying one text. */
  function Parts(texts: seq<string>): (r: seq<Json>)
    ensures |r| == |texts|
    ensures forall i :: 0 <= i < |texts| ==> r[i] == JObj(map["text" := JStr(texts[i])])
  {
    if texts == [] then [] else [JObj(map["text" := JStr(texts[0])])] + Parts(texts[1..])
  }

  /** A Responses API body whose first output item carries these text parts. */
  function ResponsesBody(texts: seq<string>, outputText: Option<Json>): Json {
    var fields := map["output" := JArr([JObj(map["content" := JArr(Parts(texts))])])];
    JObj(if outputText.Some? then fields["output_text" := outputText.value] else fields)
  }

  lemma ResponsesBodyFields(texts: seq<string>, outputText: Option<Json>)
    ensures Get(At(Get(Some(ResponsesBody(texts, outputText)), "output"), 0), "content") == Some(JArr(Parts(texts)))
    ensures Get(Some(ResponsesBody(texts, outputText)), "output_text") == outputText
  {
  }

  /** The texts as JSON strings. */
  function JStrs(texts: seq<string>): (r: seq<Json>)
    ensures |r| == |texts|
  {
    if texts == [] then [] else [JStr(texts[0])] + JStrs(texts[1..])
  }

  /** The non-empty texts, in order. */
  function Filled(texts: seq<string>): (r: seq<string>)
    ensures forall i :: 0 <= i < |r| ==> r[i] != ""
  {
    if texts == [] then [] else (if texts[0] != "" then [texts[0]] else []) + Filled(texts[1..])
  }

  /** Of content parts carrying texts, exactly the non-empty texts pass the
      `Boolean` filter. */
  lemma {:induction false} TruthyTextsOfParts(texts: seq<string>)
    ensures TruthyTexts(Parts(texts)) == JStrs(Filled(texts))
  {
    if texts != [] {
      var rest := texts[1..];
      TruthyTextsOfParts(rest);
      var ps := Parts(texts);
      assert ps[1..] == Parts(rest);
      assert Get(Some(ps[0]), "text") == Some(JStr(texts[0]));
      if texts[0] != "" {
        var f := Filled(texts);
        assert f == [texts[0]] + Filled(rest);
        assert f[1..] == Filled(rest);
        assert JStrs(f) == [JStr(f[0])] + JStrs(f[1..]);
      } else {
        assert Filled(texts) == [] + Filled(rest) == Filled(rest);
      }
    }
  }

  /** `String` gives each JSON string back. */
  lemma {:induction false} ToStrsOfJStrs(texts: seq<string>)
    ensures ToStrs(JStrs(texts)) == texts
  {
    if texts != [] {
      ToStrsOfJStrs(texts[1..]);
      assert JStrs(texts)[1..] == JStrs(texts[1..]);
    }
  }

  /** Extraction reads back the non-empty text parts of a Responses API body,
      joined by line breaks, in preference to `output_text`; empty parts are
      skipped, and with no non-empty part it falls back to a truthy
      `output_text`, else "". */
  lemma OpenAiTextOfResponses(texts: seq<string>, outputText: Option<Json>)
    ensures Filled(texts) != [] ==>
              OpenAiText(ResponsesBody(texts, outputText)) == Ok(JStr(Join(Filled(texts), "\n")))
    ensures Filled(texts) == [] ==> OpenAiText(ResponsesBody(texts, outputText)) == Ok(Or(outputText, JStr("")))
  {
    ResponsesBodyFields(texts, outputText);
    JoinedParts(texts);
    if Filled(texts) != [] {
      OpenAiTextOfContent(ResponsesBody(texts, outputText), Parts(texts));
    }
  }

  /** The joined texts of such parts are the non-empty texts joined, which is
      empty exactly when there is no non-empty text. */
  lemma JoinedParts(texts: seq<string>)
    ensures Join(ToStrs(TruthyTexts(Parts(texts))), "\n") == Join(Filled(texts), "\n")
    ensures Filled(texts) != [] <==> Join(Filled(texts), "\n") != ""
  {
    TruthyTextsOfParts(texts);
    ToStrsOfJStrs(Filled(texts));
    if Filled(texts) != [] {
      JoinHead(Filled(texts), "\n");
    }
  }

  /** Text parts whose join is not empty are the answer, whatever else the body holds. */
  lemma OpenAiTextOfContent(data: Json, ps: seq<Json>)
    requires Get(At(Get(Some(data), "output"), 0), "content") == Some(JArr(ps))
    requires Join(ToStrs(TruthyTexts(ps)), "\n") != ""
    ensures OpenAiText(data) == Ok(JStr(Join(ToStrs(TruthyTexts(ps)), "\n")))
  {
  }

  /** The text of a chat-completions body: `choices[0].message.content` when
      truthy, else "". */
  function XaiText(data: Json): (r: Json)
    ensures Truthy(Some(r)) || r == JStr("")
  {
    Or(Get(Get(At(Get(Some(data), "choices"), 0), "message"), "content"), JStr(""))
  }

  /** A chat-completions body whose first choice carries this message content. */
  function ChatBody(content: string): Json {
    JObj(map["choices" := JArr([JObj(map["message" := JObj(map["content" := JStr(content)])])])])
  }

  /** Extraction reads back the content of the first choice. */
  lemma XaiTextOfChat(content: string)
    ensures XaiText(ChatBody(content)) == JStr(content)
  {
  }

  /** `callOpenAIResponses`: an HTTP failure throws the provider's
      `error.message`, or "OpenAI request failed" when it has none; a success
      gives the text extracted from the body. */
  function CallOpenAi(reply: ProviderReply): (r: Result<Json>)
    ensures reply.Threw? ==> r == Err(reply.message)
    ensures reply.Replied? && !reply.ok ==>
              var m := Get(Get(Some(reply.body), "error"), "message");
              (Truthy(m) ==> r == Err(ToStr(m.value))) &&
              (!Truthy(m) ==> r == Err("OpenAI request failed"))
    ensures reply.Replied? && reply.ok ==> r == OpenAiText(reply.body)
    ensures r.Ok? ==> Truthy(Some(r.value)) || r.value == JStr("")
  {
    match reply
    case Threw(m) => Err(m)
    case Replied(ok, data) =>
      if !ok then
        var msg := Or(Get(Get(Some(data), "error"), "message"), JStr("OpenAI request failed"));
        Err(ToStr(msg))
      else OpenAiText(data)
  }

  /** `callXaiChatCompletions`: an HTTP failure throws `error.message`, else
      `error`, else "xAI request failed"; a success gives the first choice's
      message content. */
  function CallXai(reply: ProviderReply): (r: Result<Json>)
    ensures reply.Threw? ==> r == Err(reply.message)
    ensures reply.Replied? && !reply.ok ==>
              var err := Get(Some(reply.body), "error");
              var m := Get(err, "message");
              (Truthy(m) ==> r == Err(ToStr(m.value))) &&
              (!Truthy(m) && Truthy(err) ==> r == Err(ToStr(err.value))) &&
              (!Truthy(m) && !Truthy(err) ==> r == Err("xAI request failed"))
    ensures reply.Replied? && reply.ok ==> r == Ok(XaiText(reply.body))
  {
    match reply
    case Threw(m) => Err(m)
    case Replied(ok, data) =>
      if !ok then
        var err := Get(Some(data), "error");
        var msg := Or(Get(err, "message"), Or(err, JStr("xAI request failed")));
        Err(ToStr(msg))
      else Ok(XaiText(data))
  }

  /** An error body in the usual `{ error: { message } }` shape. */
  function ErrorBody(message: string): Json {
    JObj(map["error" := JObj(map["message" := JStr(message)])])
  }

  /** Both adapters surface the provider's own error message; a bare `error`
      string reaches the caller from xAI only, OpenAI falling back to its fixed
      text; and a successful body's text is what the adapters return. */
  lemma ProviderMessages(m: string, e: string, texts: seq<string>, content: string)
    requires m != "" && e != ""
    ensures CallOpenAi(Replied(false, ErrorBody(m))) == Err(m)
    ensures CallXai(Replied(false, ErrorBody(m))) == Err(m)
    ensures CallXai(Replied(false, JObj(map["error" := JStr(e)]))) == Err(e)
    ensures CallOpenAi(Replied(false, JObj(map["error" := JStr(e)]))) == Err("OpenAI request failed")
    ensures Filled(texts) != [] ==> CallOpenAi(Replied(true, ResponsesBody(texts, None))) == Ok(JStr(Join(Filled(texts), "\n")))
    ensures CallXai(Replied(true, ChatBody(content))) == Ok(JStr(content))
  {
    OpenAiTextOfResponses(texts, None);
    XaiTextOfChat(content);
  }

  // ---------------------------------------------------------------------------
  // Planner stage

  /** `safeParseJson(planner.text) || { trend_queries: [], angle_notes: "" }`, then
      at most five queries and at most 400 characters of notes. */
  function PlanOf(parsed: Option<Json>): (p: Plan)
    ensures |p.trendQueries| <= MaxTrendQueries && |p.angleNotes| <= MaxAngleNotes
    ensures !Truthy(parsed) ==> p == Plan([], "")
    ensures Truthy(parsed) && IsArray(Get(parsed, "trend_queries")) ==>
              var qs := Get(parsed, "trend_queries").value.items;
              |p.trendQueries| == (if |qs| <= MaxTrendQueries then |qs| else MaxTrendQueries) &&
              p.trendQueries == qs[..|p.trendQueries|]
    ensures Truthy(parsed) && !IsArray(Get(parsed, "trend_queries")) ==> p.trendQueries == []
    ensures Truthy(parsed) ==>
              var notes := TextOr(Get(parsed, "angle_notes"));
              |p.angleNotes| == (if |notes| <= MaxAngleNotes then |notes| else MaxAngleNotes) &&
              p.angleNotes == notes[..|p.angleNotes|]
  {
    var fallback := JObj(map["trend_queries" := JArr([]), "angle_notes" := JStr("")]);
    var planJson := Some(Or(parsed, fallback));
    var tq := Get(planJson, "trend_queries");
    Plan(if IsArray(tq) then Take(tq.value.items, MaxTrendQueries) else [],
         Take(TextOr(Get(planJson, "angle_notes")), MaxAngleNotes))
  }

  /** The trend queries as they appear in the trend-scan prompt: "1. q1", "2. q2",
      … on separate lines, or "- (no queries provided)". */
  function TrendListing(queries: seq<Json>): (r: string)
    ensures queries == [] <==> r == NoQueries
  {
    if |queries| > 0 then
      var r := NumberedList(ToStrs(queries));
      NumberedListHead(ToStrs(queries));
      r
    else NoQueries
  }

  /** Read line by line, the listing numbers the queries from 1 in their order,
      as long as no query spans several lines. */
  lemma TrendListingLines(queries: seq<Json>)
    requires queries != []
    requires forall i :: 0 <= i < |queries| ==> '\n' !in ToStr(queries[i])
    ensures |Split(TrendListing(queries), '\n')| == |queries|
    ensures forall i :: 0 <= i < |queries| ==>
              Split(TrendListing(queries), '\n')[i] == IntToString(i + 1) + ". " + ToStr(queries[i])
  {
    NumberedListLines(ToStrs(queries));
  }

  // ---------------------------------------------------------------------------
  // Final stage

  /** `slice(0, end)` from JavaScript: NaN counts as 0, a negative end counts from
      the back. */
  function SliceTo<T>(xs: seq<T>, end: Option<int>): (r: seq<T>)
    ensures |r| <= |xs| && r == xs[..|r|]
    ensures end.None? ==> r == []
    ensures end.Some? && end.value >= 0 ==> |r| == if |xs| <= end.value then |xs| else end.value
  {
    match end
    case None => []
    case Some(k) =>
      if k >= 0 then Take(xs, k)
      else if |xs| + k <= 0 then []
      else xs[..|xs| + k]
  }

  /** `clampArr(a)`: the first `top_k` elements of an array, each as `String(x)`;
      nothing for any other value. */
  function ClampArr(a: Option<Json>, topK: Option<int>): (r: seq<string>)
    ensures !IsArray(a) || topK.None? ==> r == []
    ensures IsArray(a) && topK.Some? && topK.value >= 0 ==>
              |r| == (if |a.value.items| <= topK.value then |a.value.items| else topK.value) &&
              forall i :: 0 <= i < |r| ==> r[i] == ToStr(a.value.items[i])
  {
    if IsArray(a) then ToStrs(SliceTo(a.value.items, topK)) else []
  }

  /** `bucket` is what the route makes of the value `a` with a `top_k` of `k`: for
      an array, its first `min(k, length)` elements, each as `String(x)`, in order;
      for anything else, nothing. */
  predicate Clamped(bucket: seq<string>, a: Option<Json>, k: nat) {
    if IsArray(a) then
      |bucket| == (if |a.value.items| <= k then |a.value.items| else k) &&
      |bucket| <= |a.value.items| && bucket == ToStrs(a.value.items)[..|bucket|]
    else bucket == []
  }

  lemma ClampArrClamped(a: Option<Json>, k: nat)
    ensures Clamped(ClampArr(a, Some(k)), a, k)
  {
    if IsArray(a) {
      var r := ClampArr(a, Some(k));
      var full := ToStrs(a.value.items);
      assert forall i :: 0 <= i < |r| ==> r[i] == full[i];
    }
  }

  /** The four buckets of the final pack's `output`: each is taken from the
      array of the same name. */
  function Normalize(out: Option<Json>, topK: Option<int>): (b: Buckets)
    ensures topK.Some? && topK.value >= 0 ==>
              Clamped(b.hooks, Get(out, "hooks"), topK.value) &&
              Clamped(b.onScreenOverlays, Get(out, "on_screen_overlays"), topK.value) &&
              Clamped(b.captions, Get(out, "captions"), topK.value) &&
              Clamped(b.hashtags, Get(out, "hashtags"), topK.value)
    ensures topK.Some? && topK.value >= 0 ==>
              |b.hooks| <= topK.value && |b.onScreenOverlays| <= topK.value &&
              |b.captions| <= topK.value && |b.hashtags| <= topK.value
    ensures topK.None? ==> b == Buckets([], [], [], [])
  {
    if topK.Some? && topK.value >= 0 then
      ClampArrClamped(Get(out, "hooks"), topK.value);
      ClampArrClamped(Get(out, "on_screen_overlays"), topK.value);
      ClampArrClamped(Get(out, "captions"), topK.value);
      ClampArrClamped(Get(out, "hashtags"), topK.value);
      Buckets(ClampArr(Get(out, "hooks"), topK), ClampArr(Get(out, "on_screen_overlays"), topK),
              ClampArr(Get(out, "captions"), topK), ClampArr(Get(out, "hashtags"), topK))
    else
      Buckets(ClampArr(Get(out, "hooks"), topK), ClampArr(Get(out, "on_screen_overlays"), topK),
              ClampArr(Get(out, "captions"), topK), ClampArr(Get(out, "hashtags"), topK))
  }

  // ---------------------------------------------------------------------------
  // The handler

  /** `mustEnv(name)`: the variable, or the error "Missing env var: <name>" when it
      is unset or empty. */
  function MustEnv(name: string, v: Option<string>): (r: Result<string>)
    ensures r.Ok? <==> v.Some? && v.value != ""
    ensures r.Ok? ==> r.value == v.value
    ensures r.Err? ==> r.message == "Missing env var: " + name
  {
    if v.None? || v.value == "" then Err("Missing env var: " + name) else Ok(v.value)
  }

  /** The credentials are required; the model names have defaults. */
  function Configure(env: Env): (r: Result<Config>)
    ensures r.Ok? <==> MustEnv("OPENAI_API_KEY", env.openAiKey).Ok? && MustEnv("XAI_API_KEY", env.xaiKey).Ok?
    // The first missing credential is the one reported, OPENAI_API_KEY first.
    ensures MustEnv("OPENAI_API_KEY", env.openAiKey).Err? ==> r == Err("Missing env var: OPENAI_API_KEY")
    ensures MustEnv("OPENAI_API_KEY", env.openAiKey).Ok? && MustEnv("XAI_API_KEY", env.xaiKey).Err? ==>
              r == Err("Missing env var: XAI_API_KEY")
    // Each provider gets its own key, as set.
    ensures r.Ok? ==> r.value.openAiKey == env.openAiKey.value && r.value.xaiKey == env.xaiKey.value
    // A model name set to a non-empty value is used; otherwise the default is.
    ensures r.Ok? ==> r.value.openAiModel != "" && r.value.xaiModel != ""
    ensures r.Ok? && env.openAiModel.Some? && env.openAiModel.value != "" ==> r.value.openAiModel == env.openAiModel.value
    ensures r.Ok? && (env.openAiModel.None? || env.openAiModel.value == "") ==> r.value.openAiModel == DefaultOpenAiModel
    ensures r.Ok? && env.xaiModel.Some? && env.xaiModel.value != "" ==> r.value.xaiModel == env.xaiModel.value
    ensures r.Ok? && (env.xaiModel.None? || env.xaiModel.value == "") ==> r.value.xaiModel == DefaultXaiModel
  {
    assert "Missing env var: " + "OPENAI_API_KEY" == "Missing env var: OPENAI_API_KEY";
    assert "Missing env var: " + "XAI_API_KEY" == "Missing env var: XAI_API_KEY";
    match MustEnv("OPENAI_API_KEY", env.openAiKey)
    case Err(m) => Err(m)
    case Ok(openAiKey) =>
      match MustEnv("XAI_API_KEY", env.xaiKey)
      case Err(m) => Err(m)
      case Ok(xaiKey) =>
        Ok(Config(openAiKey, xaiKey,
                  if env.openAiModel.Some? && env.openAiModel.value != "" then env.openAiModel.value else DefaultOpenAiModel,
                  if env.xaiModel.Some? && env.xaiModel.value != "" then env.xaiModel.value else DefaultXaiModel))
  }

  /** `e?.message || "Server error"` in the handler's `catch`. */
  function ErrorText(message: string): (r: string)
    ensures r != ""
    ensures message != "" ==> r == message
  {
    if message == "" then "Server error" else message
  }

  /** The three provider calls for a validated input. */
  function Pipeline(config: Config, input: CampaignInput, parse: string -> Option<Json>,
                    planner: ProviderReply, grok: ProviderReply, final: ProviderReply, now: string): (h: Handled)
    ensures 1 <= |h.calls| <= 3
    ensures h.calls[0] == OpenAiCall(config.openAiKey, config.openAiModel, PlannerPrompt(input))
    // The trend scan goes to xAI and lists the queries of the planner's answer.
    ensures |h.calls| >= 2 ==>
              CallOpenAi(planner).Ok? &&
              h.calls[1] == XaiCall(config.xaiKey, config.xaiModel,
                                    TrendPrompt(input, TrendListing(PlanOf(parse(ToStr(CallOpenAi(planner).value))).trendQueries)))
    ensures |h.calls| == 3 ==> h.calls[2].OpenAiCall? && h.calls[2].prompt.FinalPrompt?
    ensures h.reply.Failed? <==> h.reply.Status() == 500
    ensures h.reply.Status() in {200, 500, 502}
    ensures h.reply.Pack? || h.reply.NoUsableJson? ==> |h.calls| == 3
    ensures h.reply.Pack? ==> h.reply.input == input && h.reply.generatedAt == now
  {
    var c1 := OpenAiCall(config.openAiKey, config.openAiModel, PlannerPrompt(input));
    match CallOpenAi(planner)
    case Err(m) => Handled([c1], Failed(500, ErrorText(m)))
    case Ok(plannerText) =>
      var plan := PlanOf(parse(ToStr(plannerText)));
      var c2 := XaiCall(config.xaiKey, config.xaiModel, TrendPrompt(input, TrendListing(plan.trendQueries)));
      match CallXai(grok)
      case Err(m) => Handled([c1, c2], Failed(500, ErrorText(m)))
      case Ok(grokText) =>
        var c3 := OpenAiCall(config.openAiKey, config.openAiModel, FinalPrompt(input, plan.angleNotes, ToStr(grokText)));
        match CallOpenAi(final)
        case Err(m) => Handled([c1, c2, c3], Failed(500, ErrorText(m)))
        case Ok(finalText) =>
          var output := Get(parse(ToStr(finalText)), "output");
          if !Truthy(output) then Handled([c1, c2, c3], NoUsableJson(plannerText, grokText, finalText))
          else Handled([c1, c2, c3], Pack(now, input, Normalize(output, input.topK), config.openAiModel, config.xaiModel))
  }

  /** What the handler decides before calling any provider. */
  datatype Admission = Refused(reply: Reply) | Admitted(config: Config, input: CampaignInput)

  /** The checks of `POST(req)` that come before the first provider call: the beta
      cookie, the credentials, the body, the five text fields. */
  function Admit(cookie: Option<string>, env: Env, body: Result<Json>): (a: Admission)
    ensures a.Refused? ==> a.reply.Failed? && a.reply.status in {400, 401, 500}
    ensures !Contains(if cookie.Some? then cookie.value else "", "vp_beta=") ==> a == Refused(Failed(401, "Access denied"))
    ensures Contains(if cookie.Some? then cookie.value else "", "vp_beta=") && Configure(env).Err? ==>
              a == Refused(Failed(500, Configure(env).message))
    // A body that does not parse throws inside the handler: a 500 with its message.
    ensures Contains(if cookie.Some? then cookie.value else "", "vp_beta=") && Configure(env).Ok? && body.Err? ==>
              a == Refused(Failed(500, ErrorText(body.message)))
    ensures a.Admitted? ==> Configure(env).Ok? && a.config == Configure(env).value
    ensures a.Admitted? ==> body.Ok? && a.input == ReadInput(body.value) && Missing(a.input) == []
    ensures a.Refused? && a.reply.status == 400 <==>
              Contains(if cookie.Some? then cookie.value else "", "vp_beta=") && Configure(env).Ok? &&
              body.Ok? && Missing(ReadInput(body.value)) != []
    ensures a.Refused? && a.reply.status == 400 ==>
              a.reply.error == "Missing fields: " + Join(Missing(ReadInput(body.value)), ", ")
  {
    var header := if cookie.Some? then cookie.value else "";
    if !Contains(header, "vp_beta=") then Refused(Failed(401, "Access denied"))
    else
      match Configure(env)
      case Err(m) => Refused(Failed(500, ErrorText(m)))
      case Ok(config) =>
        match body
        case Err(m) => Refused(Failed(500, ErrorText(m)))
        case Ok(b) =>
          var input := ReadInput(b);
          var missing := Missing(input);
          if |missing| > 0 then Refused(Failed(400, "Missing fields: " + Join(missing, ", ")))
          else Admitted(config, input)
  }

  /** `POST(req)`. `cookie` is the Cookie header, `body` the parsed request body
      or the parser's error message. */
  function Handle(cookie: Option<string>, env: Env, body: Result<Json>, parse: string -> Option<Json>,
                  planner: ProviderReply, grok: ProviderReply, final: ProviderReply, now: string): (h: Handled)
    // No beta cookie: refused before anything else is read.
    ensures !Contains(if cookie.Some? then cookie.value else "", "vp_beta=") ==>
              h == Handled([], Failed(401, "Access denied"))
    // Missing credentials: a server error before any provider call.
    ensures Contains(if cookie.Some? then cookie.value else "", "vp_beta=") && Configure(env).Err? ==>
              h == Handled([], Failed(500, Configure(env).message))
    // A refused request gets the admission's answer and calls no provider; an
    // admitted one runs the three-stage pipeline on the admitted configuration
    // and input.
    ensures Admit(cookie, env, body).Refused? ==> h == Handled([], Admit(cookie, env, body).reply)
    ensures Admit(cookie, env, body).Admitted? ==>
              h == Pipeline(Admit(cookie, env, body).config, Admit(cookie, env, body).input,
                            parse, planner, grok, final, now)
    ensures h.calls != [] ==> body.Ok? && Missing(ReadInput(body.value)) == []
    ensures |h.calls| <= 3
    ensures h.reply.Status() in {200, 400, 401, 500, 502}
    ensures h.reply.Pack? ==> body.Ok? && h.reply.input == ReadInput(body.value) && |h.calls| == 3
  {
    match Admit(cookie, env, body)
    case Refused(reply) => Handled([], reply)
    case Admitted(config, input) => Pipeline(config, input, parse, planner, grok, final, now)
  }

  /** A request with an empty field is answered 400, naming the empty fields,
      before any provider is called; a 400 means exactly that. */
  lemma MissingFieldsRejected(cookie: Option<string>, env: Env, body: Result<Json>, parse: string -> Option<Json>,
                              planner: ProviderReply, grok: ProviderReply, final: ProviderReply, now: string)
    ensures var h := Handle(cookie, env, body, parse, planner, grok, final, now);
            h.reply.Status() == 400 <==>
              Contains(if cookie.Some? then cookie.value else "", "vp_beta=") && Configure(env).Ok? &&
              body.Ok? && Missing(ReadInput(body.value)) != []
    ensures var h := Handle(cookie, env, body, parse, planner, grok, final, now);
            h.reply.Status() == 400 ==>
              h == Handled([], Failed(400, "Missing fields: " + Join(Missing(ReadInput(body.value)), ", ")))
  {
    var a := Admit(cookie, env, body);
    if a.Admitted? {
      var p := Pipeline(a.config, a.input, parse, planner, grok, final, now);
      assert p.reply.Status() != 400;
    }
  }

  /** A pack holds at most `top_k` items per bucket, `top_k` being between 1 and 5. */
  lemma PackWithinTopK(cookie: Option<string>, env: Env, body: Result<Json>, parse: string -> Option<Json>,
                       planner: ProviderReply, grok: ProviderReply, final: ProviderReply, now: string)
    ensures var h := Handle(cookie, env, body, parse, planner, grok, final, now);
            h.reply.Pack? && h.reply.input.topK.Some? ==>
              var k := h.reply.input.topK.value;
              1 <= k <= MaxTopK && |h.reply.output.hooks| <= k && |h.reply.output.onScreenOverlays| <= k &&
              |h.reply.output.captions| <= k && |h.reply.output.hashtags| <= k
  {
    var a := Admit(cookie, env, body);
    if a.Admitted? && a.input.topK.Some? {
      PipelinePackWithinTopK(a.config, a.input, parse, planner, grok, final, now);
    }
  }

  lemma PipelinePackWithinTopK(config: Config, input: CampaignInput, parse: string -> Option<Json>,
                               planner: ProviderReply, grok: ProviderReply, final: ProviderReply, now: string)
    requires input.topK.Some? && input.topK.value >= 0
    ensures var h := Pipeline(config, input, parse, planner, grok, final, now);
            h.reply.Pack? ==>
              var k := input.topK.value;
              |h.reply.output.hooks| <= k && |h.reply.output.onScreenOverlays| <= k &&
              |h.reply.output.captions| <= k && |h.reply.output.hashtags| <= k
  {
  }

  // ---------------------------------------------------------------------------
  // Properties of the pipeline

  /** A planner answer that does not parse to a truthy value costs nothing: the
      trend scan is asked with no queries and the final prompt gets empty angle
      notes, and the pipeline goes on. */
  lemma PlannerFallback(config: Config, input: CampaignInput, parse: string -> Option<Json>,
                        planner: ProviderReply, grok: ProviderReply, final: ProviderReply, now: string)
    requires CallOpenAi(planner).Ok? && !Truthy(parse(ToStr(CallOpenAi(planner).value)))
    ensures var h := Pipeline(config, input, parse, planner, grok, final, now);
            |h.calls| >= 2 &&
            h.calls[1] == XaiCall(config.xaiKey, config.xaiModel, TrendPrompt(input, NoQueries)) &&
            (|h.calls| == 3 ==> h.calls[2].prompt.angleNotes == "")
  {
  }

  /** The trend scan's text reaches the final prompt unchanged, and so do the
      planner's angle notes. */
  lemma FinalPromptEmbedsEarlierStages(config: Config, input: CampaignInput, parse: string -> Option<Json>,
                                       planner: ProviderReply, grok: ProviderReply, final: ProviderReply, now: string)
    requires CallOpenAi(planner).Ok? && CallXai(grok).Ok?
    ensures var h := Pipeline(config, input, parse, planner, grok, final, now);
            |h.calls| == 3 &&
            h.calls[2] == OpenAiCall(config.openAiKey, config.openAiModel,
                                     FinalPrompt(input, PlanOf(parse(ToStr(CallOpenAi(planner).value))).angleNotes,
                                                 ToStr(CallXai(grok).value)))
  {
  }

  /** A final answer without a truthy `output` is a 502 carrying all three stage
      texts; it is never replaced by a default. */
  lemma FinalWithoutOutput(config: Config, input: CampaignInput, parse: string -> Option<Json>,
                           planner: ProviderReply, grok: ProviderReply, final: ProviderReply, now: string)
    requires CallOpenAi(planner).Ok? && CallXai(grok).Ok? && CallOpenAi(final).Ok?
    requires !Truthy(Get(parse(ToStr(CallOpenAi(final).value)), "output"))
    ensures Pipeline(config, input, parse, planner, grok, final, now).reply ==
              NoUsableJson(CallOpenAi(planner).value, CallXai(grok).value, CallOpenAi(final).value)
  {
  }

  /** With a usable final answer, each bucket of the pack is the first `top_k`
      elements of the model's array of the same name, each as `String(x)`, or
      empty when that is not an array. */
  lemma FinalPackBuckets(config: Config, input: CampaignInput, parse: string -> Option<Json>,
                         planner: ProviderReply, grok: ProviderReply, final: ProviderReply, now: string)
    requires CallOpenAi(planner).Ok? && CallXai(grok).Ok? && CallOpenAi(final).Ok?
    requires Truthy(Get(parse(ToStr(CallOpenAi(final).value)), "output"))
    requires input.topK.Some? && 1 <= input.topK.value <= MaxTopK
    ensures var h := Pipeline(config, input, parse, planner, grok, final, now);
            var out := Get(parse(ToStr(CallOpenAi(final).value)), "output");
            var k := input.topK.value;
            h.reply.Pack? &&
            Clamped(h.reply.output.hooks, Get(out, "hooks"), k) &&
            Clamped(h.reply.output.onScreenOverlays, Get(out, "on_screen_overlays"), k) &&
            Clamped(h.reply.output.captions, Get(out, "captions"), k) &&
            Clamped(h.reply.output.hashtags, Get(out, "hashtags"), k)
  {
    var out := Get(parse(ToStr(CallOpenAi(final).value)), "output");
    assert Pipeline(config, input, parse, planner, grok, final, now).reply.output == Normalize(out, input.topK);
  }

  /** A provider that fails, by throwing or by an HTTP error, ends the request with
      a 500 carrying the failure's message; later stages are not called. */
  lemma ProviderFailure(config: Config, input: CampaignInput, parse: string -> Option<Json>,
                        planner: ProviderReply, grok: ProviderReply, final: ProviderReply, now: string)
    ensures CallOpenAi(planner).Err? ==>
              Pipeline(config, input, parse, planner, grok, final, now) ==
                Handled([OpenAiCall(config.openAiKey, config.openAiModel, PlannerPrompt(input))],
                        Failed(500, ErrorText(CallOpenAi(planner).message)))
    ensures CallOpenAi(planner).Ok? && CallXai(grok).Err? ==>
              var h := Pipeline(config, input, parse, planner, grok, final, now);
              |h.calls| == 2 && h.reply == Failed(500, ErrorText(CallXai(grok).message))
    ensures CallOpenAi(planner).Ok? && CallXai(grok).Ok? && CallOpenAi(final).Err? ==>
              var h := Pipeline(config, input, parse, planner, grok, final, now);
              |h.calls| == 3 && h.reply == Failed(500, ErrorText(CallOpenAi(final).message))
  {
  }
}
