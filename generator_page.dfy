/** The gated generator page: it verifies a beta key, asks the producer route for
    a pack, shows the first five entries of each output list as a numbered list
    and exports them as text. */
module GeneratorPage {
  import opened Text
  import opened Js
  import LandingPage

  const TopK: nat := 5

  /** The buckets shown: the raw elements of the output lists. */
  datatype Buckets = Buckets(hooks: seq<Json>, overlays: seq<Json>, captions: seq<Json>, hashtags: seq<Json>)

  // ---------------------------------------------------------------------------
  // Buckets

  /** `Array.isArray(v) ? v.slice(0, TOP_K) : []` */
  function FirstFive(v: Option<Json>): (r: seq<Json>)
    ensures |r| <= TopK
    ensures IsArray(v) ==> |r| <= |v.value.items| && r == v.value.items[..|r|]
    ensures IsArray(v) ==> |r| == TopK || r == v.value.items
    ensures !IsArray(v) ==> r == []
  {
    Take(ItemsOf(v), TopK)
  }

  /** `result?.output || {}` */
  function Output(result: Option<Json>): Json {
    Or(Get(result, "output"), JObj(map[]))
  }

  /** The `buckets` memo. `result` is `None` before any generation. */
  function DeriveBuckets(result: Option<Json>): (b: Buckets)
    ensures |b.hooks| <= TopK && |b.overlays| <= TopK && |b.captions| <= TopK && |b.hashtags| <= TopK
    ensures !Truthy(Get(result, "output")) ==> b == Buckets([], [], [], [])
    ensures Truthy(Get(result, "output")) ==>
              var out := Get(result, "output");
              b.hooks == FirstFive(Get(out, "hooks")) &&
              b.overlays == FirstFive(Get(out, "on_screen_overlays")) &&
              b.captions == FirstFive(Get(out, "captions")) &&
              b.hashtags == FirstFive(Get(out, "hashtags"))
  {
    var out := Some(Output(result));
    Buckets(FirstFive(Get(out, "hooks")), FirstFive(Get(out, "on_screen_overlays")),
            FirstFive(Get(out, "captions")), FirstFive(Get(out, "hashtags")))
  }

  /** `hasOutput`: the first non-zero bucket length, truthy exactly when some
      bucket has an entry. */
  function HasOutput(b: Buckets): (r: nat)
    ensures r != 0 <==> b.hooks != [] || b.overlays != [] || b.captions != [] || b.hashtags != []
  {
    if |b.hooks| != 0 then |b.hooks|
    else if |b.overlays| != 0 then |b.overlays|
    else if |b.captions| != 0 then |b.captions|
    else |b.hashtags|
  }

  /** The export buttons stay disabled until a response carries an output list
      that is a non-empty array. */
  lemma {:induction false} OutputEnablesExport(result: Option<Json>)
    ensures HasOutput(DeriveBuckets(result)) != 0 <==>
              var out := Get(result, "output");
              Truthy(out) &&
              (ItemsOf(Get(out, "hooks")) != [] || ItemsOf(Get(out, "on_screen_overlays")) != [] ||
               ItemsOf(Get(out, "captions")) != [] || ItemsOf(Get(out, "hashtags")) != [])
  {
    var out := Get(result, "output");
    var b := DeriveBuckets(result);
    if Truthy(out) {
      FirstFiveEmpty(Get(out, "hooks"));
      FirstFiveEmpty(Get(out, "on_screen_overlays"));
      FirstFiveEmpty(Get(out, "captions"));
      FirstFiveEmpty(Get(out, "hashtags"));
    }
  }

  lemma FirstFiveEmpty(v: Option<Json>)
    ensures FirstFive(v) == [] <==> ItemsOf(v) == []
  {
    if ItemsOf(v) != [] {
      assert |FirstFive(v)| == TopK || FirstFive(v) == v.value.items;
    }
  }

  // ---------------------------------------------------------------------------
  // Numbered bucket list

  const NoneYet := "(none yet)"

  /** The body of a `Bucket` card: "1. x1", "2. x2", ... on separate lines, or
      "(none yet)" when the bucket is empty. */
  function BucketBody(items: seq<Json>): (r: string)
    ensures r == NoneYet <==> items == []
  {
    if items == [] then NoneYet
    else
      NumberedListHead(ToStrs(items));
      NumberedList(ToStrs(items))
  }

  /** A non-empty bucket whose entries are one line each reads back, line by line,
      as its entries numbered from 1. */
  lemma BucketBodyLines(items: seq<Json>)
    requires items != []
    requires forall i :: 0 <= i < |items| ==> '\n' !in ToStr(items[i])
    ensures var lines := Split(BucketBody(items), '\n');
            |lines| == |items| &&
            forall i :: 0 <= i < |items| ==> lines[i] == IntToString(i + 1) + ". " + ToStr(items[i])
  {
    NumberedListLines(ToStrs(items));
    var lines := Split(BucketBody(items), '\n');
    forall i | 0 <= i < |items| ensures lines[i] == IntToString(i + 1) + ". " + ToStr(items[i]) {
      assert lines[i] == IntToString(1 + i) + ". " + ToStrs(items)[i];
    }
  }

  // ---------------------------------------------------------------------------
  // Text export

  /** The header lines: title, time stamp and the five inputs. */
  function HeaderLines(form: LandingPage.Form, now: string): (r: seq<string>)
    ensures |r| == 12
  {
    ["ViralPack.ai, Producer Output", "Generated: " + now, "", "INPUTS",
     "brand_name: " + form.brandName, "product: " + form.product, "offer: " + form.offer,
     "website: " + form.website, "market: " + form.market, "", LandingPage.Rule, ""]
  }

  /** `prefix + String(x)` for each entry, in order. */
  function Rendered(prefix: string, items: seq<Json>): (r: seq<string>)
    ensures |r| == |items|
  {
    if items == [] then [] else Rendered(prefix, items[..|items| - 1]) + [prefix + ToStr(items[|items| - 1])]
  }

  lemma {:induction false} RenderedAt(prefix: string, items: seq<Json>, i: nat)
    requires i < |items|
    ensures Rendered(prefix, items)[i] == prefix + ToStr(items[i])
  {
    if i < |items| - 1 {
      RenderedAt(prefix, items[..|items| - 1], i);
    }
  }

  lemma RenderedStep(prefix: string, items: seq<Json>, i: nat)
    requires i < |items|
    ensures Rendered(prefix, items[..i + 1]) == Rendered(prefix, items[..i]) + [prefix + ToStr(items[i])]
  {
    assert items[..i + 1][..i] == items[..i] && items[..i + 1][i] == items[i];
  }

  /** The four sections: "- " before each hook, overlay and caption, hashtags
      bare, each entry shown with `String(x)`. */
  function BodyLines(b: Buckets): seq<string> {
    LandingPage.Section("TOP HOOKS (5)", Rendered("- ", b.hooks))
      + (LandingPage.Section("ON-SCREEN OVERLAYS (5)", Rendered("- ", b.overlays))
      + (LandingPage.Section("CAPTIONS (5)", Rendered("- ", b.captions))
      + LandingPage.Section("HASHTAGS (5)", Rendered("", b.hashtags))))
  }

  function TxtExportLines(form: LandingPage.Form, now: string, b: Buckets): seq<string> {
    HeaderLines(form, now) + BodyLines(b)
  }

  /** Pushes one section: its title, `prefix + String(x)` for each entry (the
      `forEach`), then a blank line. */
  method PushSection(lines: seq<string>, title: string, prefix: string, items: seq<Json>)
    returns (r: seq<string>)
    ensures r == lines + LandingPage.Section(title, Rendered(prefix, items))
  {
    r := lines + [title];
    var i := 0;
    while i < |items|
      invariant 0 <= i <= |items|
      invariant r == lines + [title] + Rendered(prefix, items[..i])
    {
      RenderedStep(prefix, items, i);
      r := r + [prefix + ToStr(items[i])];
      i := i + 1;
    }
    assert items[..|items|] == items;
    r := r + [""];
  }

  /** `buildTxtExport()`: the lines pushed one by one, joined by line breaks. */
  method BuildTxtExport(form: LandingPage.Form, now: string, b: Buckets) returns (text: string)
    ensures text == Join(TxtExportLines(form, now, b), "\n")
  {
    var hdr := HeaderLines(form, now);
    var lines := PushSection(hdr, "TOP HOOKS (5)", "- ", b.hooks);
    ghost var s1 := LandingPage.Section("TOP HOOKS (5)", Rendered("- ", b.hooks));
    lines := PushSection(lines, "ON-SCREEN OVERLAYS (5)", "- ", b.overlays);
    ghost var s2 := LandingPage.Section("ON-SCREEN OVERLAYS (5)", Rendered("- ", b.overlays));
    lines := PushSection(lines, "CAPTIONS (5)", "- ", b.captions);
    ghost var s3 := LandingPage.Section("CAPTIONS (5)", Rendered("- ", b.captions));
    lines := PushSection(lines, "HASHTAGS (5)", "", b.hashtags);
    ghost var s4 := LandingPage.Section("HASHTAGS (5)", Rendered("", b.hashtags));
    LandingPage.Regroup(hdr, s1, s2, s3, s4, []);
    assert s4 + [] == s4;
    assert hdr + s1 + s2 + s3 + s4 + [] == lines;
    text := Join(lines, "\n");
  }

  /** Where each entry sits among the section lines. */
  lemma BodyLayout(b: Buckets)
    ensures var body := BodyLines(b);
            var h, o, c := |b.hooks|, |b.overlays|, |b.captions|;
            |body| == 8 + h + o + c + |b.hashtags| &&
            body[0] == "TOP HOOKS (5)" &&
            (forall i :: 0 <= i < h ==> body[1 + i] == "- " + ToStr(b.hooks[i])) &&
            body[2 + h] == "ON-SCREEN OVERLAYS (5)" &&
            (forall i :: 0 <= i < o ==> body[3 + h + i] == "- " + ToStr(b.overlays[i])) &&
            body[4 + h + o] == "CAPTIONS (5)" &&
            (forall i :: 0 <= i < c ==> body[5 + h + o + i] == "- " + ToStr(b.captions[i])) &&
            body[6 + h + o + c] == "HASHTAGS (5)" &&
            (forall i :: 0 <= i < |b.hashtags| ==> body[7 + h + o + c + i] == "" + ToStr(b.hashtags[i]))
  {
    BodyHooks(b);
    BodyOverlays(b);
    BodyCaptions(b);
    BodyHashtags(b);
  }

  lemma BodyOverlays(b: Buckets)
    ensures var off := 2 + |b.hooks|;
            off + 1 + |b.overlays| < |BodyLines(b)| &&
            BodyLines(b)[off] == "ON-SCREEN OVERLAYS (5)" &&
            forall i :: 0 <= i < |b.overlays| ==> BodyLines(b)[off + 1 + i] == "- " + ToStr(b.overlays[i])
  {
    var s1 := LandingPage.Section("TOP HOOKS (5)", Rendered("- ", b.hooks));
    var r2 := LandingPage.Section("CAPTIONS (5)", Rendered("- ", b.captions))
                + LandingPage.Section("HASHTAGS (5)", Rendered("", b.hashtags));
    LandingPage.SecondSection(s1, "ON-SCREEN OVERLAYS (5)", Rendered("- ", b.overlays), r2);
    forall i | 0 <= i < |b.overlays| ensures Rendered("- ", b.overlays)[i] == "- " + ToStr(b.overlays[i]) {
      RenderedAt("- ", b.overlays, i);
    }
  }

  lemma BodyCaptions(b: Buckets)
    ensures var off := 4 + |b.hooks| + |b.overlays|;
            off + 1 + |b.captions| < |BodyLines(b)| &&
            BodyLines(b)[off] == "CAPTIONS (5)" &&
            forall i :: 0 <= i < |b.captions| ==> BodyLines(b)[off + 1 + i] == "- " + ToStr(b.captions[i])
  {
    var s1 := LandingPage.Section("TOP HOOKS (5)", Rendered("- ", b.hooks));
    var s2 := LandingPage.Section("ON-SCREEN OVERLAYS (5)", Rendered("- ", b.overlays));
    var s4 := LandingPage.Section("HASHTAGS (5)", Rendered("", b.hashtags));
    LandingPage.ThirdSection(s1, s2, "CAPTIONS (5)", Rendered("- ", b.captions), s4);
    forall i | 0 <= i < |b.captions| ensures Rendered("- ", b.captions)[i] == "- " + ToStr(b.captions[i]) {
      RenderedAt("- ", b.captions, i);
    }
  }

  lemma BodyHooks(b: Buckets)
    ensures |BodyLines(b)| == 8 + |b.hooks| + |b.overlays| + |b.captions| + |b.hashtags|
    ensures BodyLines(b)[0] == "TOP HOOKS (5)"
    ensures forall i :: 0 <= i < |b.hooks| ==> BodyLines(b)[1 + i] == "- " + ToStr(b.hooks[i])
  {
    var s1 := LandingPage.Section("TOP HOOKS (5)", Rendered("- ", b.hooks));
    var body := BodyLines(b);
    forall i | 0 <= i < |b.hooks| ensures body[1 + i] == "- " + ToStr(b.hooks[i]) {
      assert body[1 + i] == s1[1 + i];
      RenderedAt("- ", b.hooks, i);
    }
  }

  lemma BodyHashtags(b: Buckets)
    ensures var off := 6 + |b.hooks| + |b.overlays| + |b.captions|;
            |BodyLines(b)| == off + |b.hashtags| + 2 &&
            BodyLines(b)[off] == "HASHTAGS (5)" &&
            forall i :: 0 <= i < |b.hashtags| ==> BodyLines(b)[off + 1 + i] == "" + ToStr(b.hashtags[i])
  {
    var s1 := LandingPage.Section("TOP HOOKS (5)", Rendered("- ", b.hooks));
    var s2 := LandingPage.Section("ON-SCREEN OVERLAYS (5)", Rendered("- ", b.overlays));
    var s3 := LandingPage.Section("CAPTIONS (5)", Rendered("- ", b.captions));
    var s4 := LandingPage.Section("HASHTAGS (5)", Rendered("", b.hashtags));
    assert BodyLines(b) == s1 + (s2 + (s3 + s4));
    LandingPage.ThirdTail(s1, s2, s3, s4);
    forall i | 0 <= i < |b.hashtags| ensures s4[1 + i] == "" + ToStr(b.hashtags[i]) {
      SectionAt("HASHTAGS (5)", "", b.hashtags, i);
    }
  }

  lemma SectionAt(title: string, prefix: string, items: seq<Json>, i: nat)
    requires i < |items|
    ensures LandingPage.Section(title, Rendered(prefix, items))[1 + i] == prefix + ToStr(items[i])
  {
    RenderedAt(prefix, items, i);
  }

  /** Where the inputs and the entries sit among the exported lines: the five
      inputs in the order brand name, product, offer, website, market, then each
      section title followed by its entries, hashtags bare. */
  lemma TxtExportLayout(form: LandingPage.Form, now: string, b: Buckets)
    ensures var lines := TxtExportLines(form, now, b);
            var h, o, c := |b.hooks|, |b.overlays|, |b.captions|;
            |lines| == 20 + h + o + c + |b.hashtags| &&
            lines[4..9] == ["brand_name: " + form.brandName, "product: " + form.product,
                            "offer: " + form.offer, "website: " + form.website, "market: " + form.market] &&
            lines[12] == "TOP HOOKS (5)" &&
            (forall i :: 0 <= i < h ==> lines[13 + i] == "- " + ToStr(b.hooks[i])) &&
            lines[14 + h] == "ON-SCREEN OVERLAYS (5)" &&
            (forall i :: 0 <= i < o ==> lines[15 + h + i] == "- " + ToStr(b.overlays[i])) &&
            lines[16 + h + o] == "CAPTIONS (5)" &&
            (forall i :: 0 <= i < c ==> lines[17 + h + o + i] == "- " + ToStr(b.captions[i])) &&
            lines[18 + h + o + c] == "HASHTAGS (5)" &&
            (forall i :: 0 <= i < |b.hashtags| ==> lines[19 + h + o + c + i] == ToStr(b.hashtags[i]))
  {
    var hdr := HeaderLines(form, now);
    var body := BodyLines(b);
    BodyLayout(b);
    var lines := hdr + body;
    assert lines[4..9] == hdr[4..9];
    forall k | 0 <= k < |body| ensures lines[12 + k] == body[k] { }
    forall i | 0 <= i < |b.hashtags| ensures "" + ToStr(b.hashtags[i]) == ToStr(b.hashtags[i]) { }
  }

  lemma SectionOneLine(title: string, prefix: string, items: seq<Json>)
    requires '\n' !in title && '\n' !in prefix
    requires forall x :: x in items ==> '\n' !in ToStr(x)
    ensures LandingPage.OneLine(LandingPage.Section(title, Rendered(prefix, items)))
  {
    var s := LandingPage.Section(title, Rendered(prefix, items));
    forall i | 0 <= i < |s| ensures '\n' !in s[i] {
      if 0 < i < |s| - 1 {
        RenderedAt(prefix, items, i - 1);
        assert items[i - 1] in items;
      }
    }
  }

  /** With one-line inputs and entries, the exported text read line by line gives
      back exactly the pushed lines. */
  lemma TxtExportReadsBack(form: LandingPage.Form, now: string, b: Buckets)
    requires '\n' !in now
    requires LandingPage.OneLine([form.brandName, form.product, form.offer, form.website, form.market])
    requires forall x :: x in b.hooks + b.overlays + b.captions + b.hashtags ==> '\n' !in ToStr(x)
    ensures Split(Join(TxtExportLines(form, now, b), "\n"), '\n') == TxtExportLines(form, now, b)
  {
    var fs := [form.brandName, form.product, form.offer, form.website, form.market];
    assert fs[0] == form.brandName && fs[1] == form.product && fs[2] == form.offer;
    assert fs[3] == form.website && fs[4] == form.market;
    assert '\n' !in LandingPage.Rule;
    assert LandingPage.OneLine(HeaderLines(form, now));
    var s1 := LandingPage.Section("TOP HOOKS (5)", Rendered("- ", b.hooks));
    var s2 := LandingPage.Section("ON-SCREEN OVERLAYS (5)", Rendered("- ", b.overlays));
    var s3 := LandingPage.Section("CAPTIONS (5)", Rendered("- ", b.captions));
    var s4 := LandingPage.Section("HASHTAGS (5)", Rendered("", b.hashtags));
    SectionOneLine("TOP HOOKS (5)", "- ", b.hooks);
    SectionOneLine("ON-SCREEN OVERLAYS (5)", "- ", b.overlays);
    SectionOneLine("CAPTIONS (5)", "- ", b.captions);
    SectionOneLine("HASHTAGS (5)", "", b.hashtags);
    LandingPage.OneLineAppend(s3, s4);
    LandingPage.OneLineAppend(s2, s3 + s4);
    LandingPage.OneLineAppend(s1, s2 + (s3 + s4));
    LandingPage.OneLineAppend(HeaderLines(form, now), BodyLines(b));
    SplitJoin(TxtExportLines(form, now, b), '\n');
  }

  // ---------------------------------------------------------------------------
  // Beta key check

  const EnterKey := "Enter your beta key."
  const InvalidKey := "Invalid key"
  const VerifyFailed := "Couldn\U{2019}t verify key."
  const AccessGranted := "Access granted. You can generate now."

  /** How the request to the key check ended: the fetch threw, or it answered
      with an HTTP status flag and a body (`JNull` when the body was not JSON). */
  datatype VerifyAnswer = VerifyThrew(message: string) | VerifyReplied(ok: bool, body: Json)

  /** What `verifyKey` leaves behind: the key it sent (none when it sent no
      request), the error and notice shown, and the key field afterwards. */
  datatype KeyCheck = KeyCheck(sent: Option<string>, gateErr: string, gateMsg: string, gateKey: string)

  /** `e?.message || fallback` */
  function Shown(message: string, fallback: string): (r: string)
    ensures fallback != "" ==> r != ""
    ensures message != "" ==> r == message
  {
    if message != "" then message else fallback
  }

  /** `verifyKey()`. `answer` is the outcome of the request, used only when one
      is sent. */
  function VerifyKey(gateKey: string, answer: VerifyAnswer): (k: KeyCheck)
    ensures k.sent.None? <==> AllWhite(gateKey)
    ensures k.sent.Some? ==> k.sent.value == Trim(gateKey) && k.sent.value != ""
    ensures k.sent.None? ==> k.gateErr == EnterKey && k.gateMsg == "" && k.gateKey == gateKey
    ensures k.sent.Some? ==>
              (k.gateMsg == AccessGranted <==>
                 answer.VerifyReplied? && answer.ok && Truthy(Get(Some(answer.body), "ok")))
    ensures k.gateMsg == AccessGranted ==> k.gateErr == "" && k.gateKey == ""
    ensures k.gateMsg != AccessGranted ==> k.gateErr != "" && k.gateMsg == "" && k.gateKey == gateKey
  {
    var key := Trim(gateKey);
    if key == "" then KeyCheck(None, EnterKey, "", gateKey)
    else
      match answer
      case VerifyThrew(m) => KeyCheck(Some(key), Shown(m, VerifyFailed), "", gateKey)
      case VerifyReplied(ok, j) =>
        if !ok || !Truthy(Get(Some(j), "ok")) then
          KeyCheck(Some(key), Shown(ToStr(Or(Get(Some(j), "error"), JStr(InvalidKey))), VerifyFailed), "", gateKey)
        else KeyCheck(Some(key), "", AccessGranted, "")
  }

  /** A refused key shows the route's own error text when it sent one. */
  lemma RefusedKeyShowsRouteError(gateKey: string, ok: bool, j: Json, e: string)
    requires !AllWhite(gateKey)
    requires Get(Some(j), "error") == Some(JStr(e)) && e != ""
    requires !ok || !Truthy(Get(Some(j), "ok"))
    ensures VerifyKey(gateKey, VerifyReplied(ok, j)).gateErr == e
  {
    var k := VerifyKey(gateKey, VerifyReplied(ok, j));
    assert Trim(gateKey) != "";
    assert ToStr(Or(Get(Some(j), "error"), JStr(InvalidKey))) == e;
  }

  // ---------------------------------------------------------------------------
  // Generation

  const RequestFailed := "Request failed"
  const GenerateFailed := "Couldn\U{2019}t generate. Confirm keys + server logs."
  const Generated := "Generated output."

  /** How the request to the producer route ended: the fetch threw, or it
      answered with an HTTP status flag and a body (`JNull` when not JSON). */
  datatype GenerateAnswer = GenerateThrew(message: string) | GenerateReplied(ok: bool, data: Json)

  /** The page state `generate` touches. */
  datatype GenState = GenState(result: Option<Json>, genErr: string, genMsg: string)

  /** `data?.error || data?.detail || "Request failed"` as the thrown message. */
  function FailureMessage(data: Json): (r: string)
    ensures var e := Get(Some(data), "error");
            var d := Get(Some(data), "detail");
            (e.Some? && e.value.JStr? && e.value.s != "" ==> r == e.value.s) &&
            (!Truthy(e) && d.Some? && d.value.JStr? && d.value.s != "" ==> r == d.value.s) &&
            (!Truthy(e) && !Truthy(d) ==> r == RequestFailed)
  {
    ToStr(Or(Get(Some(data), "error"), Or(Get(Some(data), "detail"), JStr(RequestFailed))))
  }

  /** `generate()`: nothing happens while a generation is running; otherwise the
      result is the answer's body when the route answered OK (still none when
      that body was not JSON), and an error message is shown in every other
      case. `None` is the page's `null` result. */
  function Generate(busy: bool, prior: GenState, answer: GenerateAnswer): (s: GenState)
    ensures busy ==> s == prior
    ensures !busy ==> (s.result.Some? <==> answer.GenerateReplied? && answer.ok && !answer.data.JNull?)
    ensures !busy && s.result.Some? ==> s.result.value == answer.data
    ensures !busy && answer.GenerateReplied? && answer.ok ==> s.genErr == "" && s.genMsg == Generated
    ensures !busy && !(answer.GenerateReplied? && answer.ok) ==>
              s.result.None? && s.genErr != "" && s.genMsg == ""
    ensures !busy && answer.GenerateThrew? ==> s.genErr == Shown(answer.message, GenerateFailed)
    ensures !busy && answer.GenerateReplied? && !answer.ok ==>
              s.genErr == Shown(FailureMessage(answer.data), GenerateFailed)
  {
    if busy then prior
    else
      match answer
      case GenerateThrew(m) => GenState(None, Shown(m, GenerateFailed), "")
      case GenerateReplied(ok, data) =>
        if !ok then GenState(None, Shown(FailureMessage(data), GenerateFailed), "")
        else GenState(if data.JNull? then None else Some(data), "", Generated)
  }
}
