# viralpack-ai, modelled in Dafny

ViralPack.ai is a Next.js application that turns a short description of a brand
(brand name, product, offer, website, market) into a "content pack": up to five
hooks, on-screen overlays, captions and hashtags for short-form video. This project
models its core and proves properties of the model:

- **`Produce`** (`produce.dfy`) is the generation route `POST /api/produce`. It
  checks the beta cookie, the credentials and the five input fields. Then it runs
  three provider calls: a planner (OpenAI Responses API), a trend scan (xAI chat
  completions) and a final call that writes the pack. Last, it cuts every bucket
  down to `top_k` items.
- **`Middleware`** (`middleware.dfy`) is the access gate in front of every route.
- **`BetaVerify`** (`beta_verify.dfy`) is `POST /api/beta/verify`. It checks a
  beta key against the `BETA_KEYS` list and sets the `vp_beta` cookie.
- **`Waitlist`** (`waitlist.dfy`) is `POST /api/waitlist`. It normalises an
  email address and forwards it to a spreadsheet endpoint.
- **`LandingPage`** (`landing_page.dfy`) covers the landing page's output
  handling: line cleaning, the de-duplicating bucket derivation, the text export
  and the versioned JSON export.
- **`GeneratorPage`** (`generator_page.dfy`) covers the generator page: its
  buckets, the bucket cards, the text export, the key check and the generate
  action.
- **`Text`** (`text.dfy`) and **`Js`** (`js.dfy`) are the JavaScript
  semantics these rely on. `Text` holds the string operations (`trim`, the
  white-space collapse, `split`, `join`, `parseInt`, `String(n)`). `Js` holds JSON
  values, truthiness, `||`, optional chaining and `String(v)`.

The world outside the code is passed in as parameters:

- provider and spreadsheet replies (`ProviderReply`, `Upstream`, `VerifyAnswer`,
  `GenerateAnswer`);
- the environment variables (`Env`);
- the request headers and cookie;
- the already-parsed request body;
- `JSON.parse` of model text (the function `parse`);
- the clock (`now`).

Each route handler is a function from these inputs to its answer. The generation
route also returns the provider calls it made, in order. The page loops that build
lists (the bucket collection, `dedupe`, the text exports) are methods with loop
invariants. Each is proved equal to a specification function, and the lemmas are
about those functions.

## Model

| member | source | states |
|---|---|---|
| Text.Trim | app/api/produce/route.js:10 | `trim` leaves no white space at either end, keeps every non-white character, and is empty exactly when the input is blank |
| Text.TrimInfix | app/api/produce/route.js:10 | the trimmed text is an unchanged infix of the input, with only white space cut before and after it |
| Text.TrimIdempotent | app/api/beta/verify/route.js:20 | trimming twice gives the same as trimming once |
| Text.TrimKeepsOnly | app/api/beta/verify/route.js:20 | every character of a trimmed string was in the original |
| Text.TrimOfTrimmed | app/api/beta/verify/route.js:20 | a string with no white space at either end is its own trim |
| Text.CollapseWhite | app/page.jsx:118 | `replace(/\s+/g, " ")` leaves only single spaces, keeps every other character in order, and keeps a non-white first character |
| Text.CollapseWhiteBetween | app/page.jsx:118 | a white run between two non-white characters becomes exactly one space, whatever its length |
| Text.CollapseAppend | app/page.jsx:118 | text that ends in a non-white character collapses independently of what follows it |
| Text.CleanTextWords | app/page.jsx:117-120 | two trimmed words separated by any white run clean to the two words joined by one space |
| Text.CleanTextIsClean | app/page.jsx:118 | collapse-then-trim gives a trimmed, single-spaced line with the same non-white characters, empty exactly when the input is blank |
| Text.CleanTextHasNoNewline | app/page.jsx:118 | a cleaned line holds no line break |
| Text.CleanTextIdempotent | app/page.jsx:117-120 | cleaning a cleaned line changes nothing |
| Text.ToLower | app/api/waitlist/route.js:5 | lower-casing keeps the length, turns each capital 'A'..'Z' into its own lower-case letter and keeps every other character |
| Text.ContainsInfix | app/api/waitlist/route.js:7 | `includes` finds a substring wherever it stands |
| Text.ContainsShorter | app/api/produce/route.js:83 | nothing includes a string longer than itself |
| Text.Split | app/api/beta/verify/route.js:19 | `split(c)` gives at least one piece, no piece holds `c`, and joining the pieces with `c` gives the input back |
| Text.SplitJoin | app/api/beta/verify/route.js:19 | splitting a join on a separator that no piece contains gives the pieces back |
| Text.JoinAvoids | app/page.jsx:186 | a join holds no character that is in neither the pieces nor the separator |
| Text.Take | app/api/produce/route.js:138 | `slice(0, n)` is the prefix of length `min(n, len)` |
| Text.PrefixEach | app/page.jsx:168 | each element gets the prefix, in order, and the count is kept |
| Text.NatToString | app/api/beta/verify/route.js:45 | decimal rendering is non-empty, all digits, with no leading zero |
| Text.ParseIntOfIntToString | app/api/produce/route.js:95 | `parseInt(String(n), 10)` is `n` for every integer |
| Text.ParseIntOfDigits | app/api/produce/route.js:95 | a run of digits parses to its value |
| Text.NumberedFrom | app/api/produce/route.js:152 | item `i` is rendered as `"<start+i>. <item>"` |
| Text.NumberedListHead | app/api/produce/route.js:152 | a non-empty numbered list starts with "1" |
| Text.NumberedListLines | app/generator/page.jsx:339 | a numbered list of one-line items, split at line breaks, gives the numbered items back |
| Js.Or | app/api/produce/route.js:40 | `a \|\| b` is `a` when `a` is truthy and `b` otherwise |
| Js.Get | app/api/produce/route.js:39 | `v?.k` yields a value only for an object that has the property |
| Js.At | app/api/produce/route.js:39 | `v?.[i]` on an array yields a value exactly when `i` is in range |
| Js.ItemsOf | app/page.jsx:31 | a non-array counts as the empty list |
| Js.ToStr | app/api/produce/route.js:228 | `String(v)` gives a string unchanged and `null` as "null" |
| Js.ToStrs | app/api/produce/route.js:228 | `.map(String)` applies `String` to each element, keeping the count |
| Js.TextOr | app/api/produce/route.js:10 | `String(v \|\| "")` is "" for a falsy value and the string itself for a string |
| Js.NumberText | app/api/produce/route.js:95 | a number's text parses back to the number, and the number is truthy exactly when it is not 0 |
| Middleware.Gate | middleware.js:3-42 | Next.js internals, the three public files, the generator page and the key-verification route always pass; a refusal is always 401 "Access denied (missing beta cookie)" |
| Middleware.GateBlocksIff | middleware.js:26-35 | a request is refused exactly when it targets `/api/produce…` without a non-empty `vp_beta` cookie |
| BetaVerify.MustEnv | app/api/beta/verify/route.js:11-15 | succeeds exactly when the variable is set and not blank, giving its trim; otherwise "Missing env var: NAME" |
| BetaVerify.TrimmedNonBlankMember | app/api/beta/verify/route.js:20-21 | a key survives exactly when it is the non-empty trim of some piece |
| BetaVerify.ParseKeysList | app/api/beta/verify/route.js:17-22 | every key is non-empty, trimmed and free of commas |
| BetaVerify.ParseKeysListMember | app/api/beta/verify/route.js:17-22 | `k` is a key exactly when it is the non-empty trim of a comma-separated piece |
| BetaVerify.ParseKeysListJoin | app/api/beta/verify/route.js:17-22 | clean keys written with commas between them read back as the same list |
| BetaVerify.MaxAgeText | app/api/beta/verify/route.js:45 | thirty days is written "2592000" |
| BetaVerify.BetaCookie | app/api/beta/verify/route.js:43-46 | the exact `Set-Cookie` value, with `; Secure` only in production |
| BetaVerify.Verify | app/api/beta/verify/route.js:24-58 | missing secret gives 500; a blank key gives 400 "Missing key"; a key with an empty key list gives 500 "Server misconfigured (BETA_KEYS missing)"; a key outside a non-empty list gives 401 "Invalid key"; the cookie is granted exactly when the secret is set and the trimmed key is in the list |
| BetaVerify.GrantedCookieOpensGate | app/api/beta/verify/route.js:44-46 | the granted cookie passes the access gate on every path and satisfies the generation route's own cookie check |
| Waitlist.NormalizeEmail | app/api/waitlist/route.js:5 | a falsy email becomes ""; a string is trimmed and lower-cased; any other truthy value throws |
| Waitlist.ClientIp | app/api/waitlist/route.js:16-19 | the first trimmed `x-forwarded-for` entry when non-empty, else `x-real-ip`, else "" |
| Waitlist.ClientIpFirstHop | app/api/waitlist/route.js:17 | a proxy chain "client, p1, p2, …" yields the client address |
| Waitlist.Subscribe | app/api/waitlist/route.js:1-40 | a body that does not parse or a non-string email gives 400 "Bad request"; an address that is not well-formed gives 400 "Invalid email"; a valid address without an endpoint gives 500 "Missing SHEETS_WEBAPP_URL"; a row goes upstream exactly for a valid address and a configured endpoint, carrying the normalised address, "viralpack.ai" and the client address; a thrown upstream call gives 400 "Bad request"; an upstream answer without HTTP success and a truthy `ok` gives 502 with its `error` or "Sheets write failed"; otherwise 200 |
| Produce.ClampStr | app/api/produce/route.js:9-12 | the trimmed text cut to at most `max` characters, and empty exactly when the value is blank |
| Produce.TopK | app/api/produce/route.js:95 | `top_k` is 5 when absent or falsy, otherwise between 1 and 5, and NaN exactly when the value's text does not start with a number |
| Produce.TopKOfNumber | app/api/produce/route.js:95 | a non-zero number is clamped into 1..5 |
| Produce.ReadInput | app/api/produce/route.js:97-104 | each field is its own body key (brand_name, product, offer, website, market) cut to its cap (120, 280, 280, 200, 280), and `topK` is `top_k` read as the route reads it |
| Produce.EmptyNamesSpec | app/api/produce/route.js:106-108 | a name is listed exactly when its entry is empty, and the names keep the entries' order |
| Produce.MissingFields | app/api/produce/route.js:106-112 | each field is named as missing exactly when it is empty |
| Produce.NothingMissing | app/api/produce/route.js:106-112 | nothing is missing exactly when all five fields are filled, and the missing names follow the field order |
| Produce.TruthyTexts | app/api/produce/route.js:39 | `.map(c => c?.text).filter(Boolean)` keeps only truthy texts |
| Produce.TruthyTextsMember | app/api/produce/route.js:39 | a value is kept exactly when it is truthy and is the `text` of some part |
| Produce.TruthyTextsAppend | app/api/produce/route.js:39 | the filter works part by part: the texts of two runs of parts are the texts of each, in order |
| Produce.TruthyTextsOne | app/api/produce/route.js:39 | one part gives its `text` when that is truthy, and nothing otherwise |
| Produce.OpenAiText | app/api/produce/route.js:37-41 | fails, with the TypeError of `.map`, exactly when the first output item's `content` is present and neither null nor an array; otherwise the extracted text is truthy or "" |
| Produce.OpenAiTextFallback | app/api/produce/route.js:37-41 | when the first output item has no `content`, or a null one, the text is `output_text`, or "" when that is missing |
| Produce.OpenAiTextOfResponses | app/api/produce/route.js:38-41 | when some text part is non-empty, the non-empty parts joined by line breaks are the answer, whatever `output_text` is; when none is, `output_text` is used if truthy, else "" |
| Produce.XaiText | app/api/produce/route.js:67 | the extracted text is truthy or "" |
| Produce.XaiTextOfChat | app/api/produce/route.js:67 | the first choice's message content is read back |
| Produce.CallOpenAi | app/api/produce/route.js:18-44 | a network failure is an error with its message; an HTTP error gives the truthy `error.message` of the body, else "OpenAI request failed"; a success gives exactly the extracted text |
| Produce.CallXai | app/api/produce/route.js:46-69 | a network failure is an error with its message; an HTTP error gives the truthy `error.message`, else a truthy bare `error`, else "xAI request failed"; a success gives exactly the extracted text |
| Produce.ProviderMessages | app/api/produce/route.js:31-41 | both adapters pass an `{error: {message}}` body's message on; only the xAI adapter passes a bare `error` string on; a Responses body's non-empty parts and a chat completion's content come back as the text |
| Produce.PlanOf | app/api/produce/route.js:137-139 | an unparsable plan falls back to no queries and empty notes; otherwise the first `min(5, n)` queries of an array (none for a non-array) and the first `min(400, n)` characters of the notes as text ("" when falsy) |
| Produce.TrendListing | app/api/produce/route.js:152 | the listing is "- (no queries provided)" exactly when there are no queries |
| Produce.TrendListingLines | app/api/produce/route.js:152 | one-line queries come back line by line as "1. q1", "2. q2", … |
| Produce.SliceTo | app/api/produce/route.js:228 | `slice(0, k)` is a prefix; NaN gives nothing; a non-negative `k` gives `min(k, len)` elements |
| Produce.ClampArr | app/api/produce/route.js:228 | a non-array gives nothing; an array gives its first `top_k` elements, each as `String(x)` |
| Produce.ClampArrClamped | app/api/produce/route.js:228 | for an array, the result has `min(top_k, length)` elements and is that prefix of the elements as strings; for anything else it is empty |
| Produce.Normalize | app/api/produce/route.js:226-239 | `hooks`, `on_screen_overlays`, `captions` and `hashtags` are each the first `top_k` elements, as strings, of the array of the same name, or empty when that is not an array; NaN empties all four |
| Produce.MustEnv | app/api/produce/route.js:3-7 | succeeds exactly when the variable is set and non-empty, unchanged; otherwise "Missing env var: NAME" |
| Produce.Configure | app/api/produce/route.js:87-91 | OPENAI_API_KEY is checked first and the first missing key is the error; each provider gets its own key as set; each model name is the variable when set and non-empty, else its default |
| Produce.ErrorText | app/api/produce/route.js:247-249 | the error message, or "Server error" when it is empty |
| Produce.Pipeline | app/api/produce/route.js:114-246 | the calls go planner, trend scan, final, in that order and with those providers; the trend scan lists the queries of the planner's answer; a failure is exactly a 500; a pack or a 502 needs all three calls; the pack echoes the validated input and the time stamp |
| Produce.Admit | app/api/produce/route.js:80-112 | no cookie gives 401 "Access denied"; missing credentials give 500; a body that does not parse gives 500 with the parser's message; a 400 happens exactly for a cookie, credentials and a body with an empty field, and it names the empty fields; an admitted request carries the configuration read from the environment |
| Produce.Handle | app/api/produce/route.js:79-250 | no provider is called without a cookie, credentials and all five fields; at most three calls; statuses are 200, 400, 401, 500 or 502; a pack carries the request's validated input; a refused request gets exactly the gate's reply with no calls, an admitted one exactly the pipeline run on the gate's config and input |
| Produce.MissingFieldsRejected | app/api/produce/route.js:106-112 | a 400 answer happens exactly when a field is empty, it makes no provider call, and it lists the empty fields |
| Produce.PackWithinTopK | app/api/produce/route.js:226-239 | a pack holds at most `top_k` items per bucket, with `top_k` between 1 and 5 |
| Produce.PlannerFallback | app/api/produce/route.js:137-152 | an unusable plan does not stop the pipeline: the trend scan gets "- (no queries provided)" and the final prompt gets empty notes |
| Produce.FinalPromptEmbedsEarlierStages | app/api/produce/route.js:170-207 | the final prompt carries the planner's angle notes and the trend scan's text unchanged |
| Produce.FinalWithoutOutput | app/api/produce/route.js:209-224 | a final answer with no truthy `output` is the 502 answer carrying all three stage texts |
| Produce.FinalPackBuckets | app/api/produce/route.js:227-238 | each of the four buckets of the pack is the first `top_k` elements of the model's array of the same name, as strings |
| Produce.ProviderFailure | app/api/produce/route.js:31-35 | a failing planner, trend or final call ends the request with a 500 carrying that provider's message, after one, two or three calls |
| LandingPage.SafeText | app/page.jsx:112-115 | `null` and `undefined` give "", a string is kept |
| LandingPage.CleanLineWords | app/page.jsx:117-120 | two trimmed words separated by any white run clean to the two words joined by one space |
| LandingPage.CleanLineIsClean | app/page.jsx:117-120 | a cleaned line is trimmed, single-spaced and one line, keeps the text's non-white characters, and is empty exactly when the text is blank |
| LandingPage.FieldLinesEntries | app/page.jsx:38-46 | every collected hook, overlay and caption is a non-empty single line |
| LandingPage.CleanTagsEntries | app/page.jsx:48-51 | every collected hashtag of one asset is a non-empty single line |
| LandingPage.TagLinesEntries | app/page.jsx:42-51 | every hashtag collected from all assets is a non-empty single line |
| LandingPage.Dedupe | app/page.jsx:55-65 | the one-pass loop with a `seen` set equals the de-duplication function |
| LandingPage.DedupedSubseq | app/page.jsx:55-65 | de-duplication adds nothing and keeps the order |
| LandingPage.DedupedKeys | app/page.jsx:55-65 | de-duplication loses no lower-cased key |
| LandingPage.DedupedDistinct | app/page.jsx:55-65 | no two kept entries have the same lower-cased key |
| LandingPage.DedupedKeepsFirst | app/page.jsx:55-65 | the first entry with a given lower-cased key is kept |
| LandingPage.Cut | app/page.jsx:73 | with top-only, the first at most five entries; otherwise all |
| LandingPage.BucketFromLines | app/page.jsx:67-79 | a bucket's entries are one-line and non-empty, a subsequence of the collected lines, distinct by lower-cased key, and at most five with top-only |
| LandingPage.CollectTags | app/page.jsx:48-51 | the inner loop collects exactly the cleaned, non-empty hashtags in order |
| LandingPage.CollectLines | app/page.jsx:38-52 | the asset loop collects exactly the cleaned, non-empty hooks, overlays, captions and hashtags in order |
| LandingPage.DeriveBuckets | app/page.jsx:30-81 | the memo equals its specification and all four buckets have the properties of `BucketFromLines` |
| LandingPage.HasAnyOutput | app/page.jsx:292-299 | the result is truthy exactly when some bucket has an entry |
| LandingPage.TopKTextIsTopK | app/page.jsx:162 | the `top_k` line shows the number 5 |
| LandingPage.HeaderLines | app/page.jsx:153-165 | thirteen header lines, the tenth being "top_k: 5" or "top_k: none" |
| LandingPage.PushSection | app/page.jsx:167-169 | the loop appends the title, each entry with its prefix, then a blank line |
| LandingPage.BuildBucketText | app/page.jsx:151-187 | the pushed lines, joined with line breaks, are the header, four sections and a closing rule |
| LandingPage.BodyLayout | app/page.jsx:167-184 | "TOP HOOKS", "ON SCREEN OVERLAYS" and "CAPTIONS" are each followed by their entries as "- x", and "HASHTAGS" by each hashtag bare, each section at its position |
| LandingPage.BucketTextReadsBack | app/page.jsx:151-187 | with one-line inputs and entries, the text split at line breaks gives back exactly the pushed lines |
| LandingPage.BuildExportJson | app/page.jsx:208-233 | the export carries the form, `top_k` 5 or null, the raw assets and the four buckets unchanged |
| LandingPage.ExportsAgree | app/page.jsx:224-229 | the JSON export's hooks and hashtags are the text export's hook and hashtag lines |
| GeneratorPage.FirstFive | app/generator/page.jsx:31 | an array gives its first at most five elements; anything else gives none |
| GeneratorPage.DeriveBuckets | app/generator/page.jsx:28-36 | no output gives four empty buckets; otherwise each bucket is the first five of its array; never more than five |
| GeneratorPage.HasOutput | app/generator/page.jsx:202-203 | the result is truthy exactly when some bucket has an entry |
| GeneratorPage.OutputEnablesExport | app/generator/page.jsx:202-203 | the export buttons are enabled exactly when the response's `output` holds a non-empty array for some bucket |
| GeneratorPage.BucketBody | app/generator/page.jsx:339 | the card shows "(none yet)" exactly when the bucket is empty |
| GeneratorPage.BucketBodyLines | app/generator/page.jsx:339 | a non-empty bucket of one-line entries reads back line by line as "1. x1", "2. x2", … |
| GeneratorPage.HeaderLines | app/generator/page.jsx:74-85 | twelve header lines |
| GeneratorPage.PushSection | app/generator/page.jsx:87-89 | the loop appends the title, `prefix + String(x)` for each entry, then a blank line |
| GeneratorPage.BuildTxtExport | app/generator/page.jsx:72-104 | the pushed lines, joined with line breaks, are the header and the four sections |
| GeneratorPage.BodyLayout | app/generator/page.jsx:87-101 | "TOP HOOKS (5)", "ON-SCREEN OVERLAYS (5)" and "CAPTIONS (5)" are each followed by their entries as "- x", and "HASHTAGS (5)" by each hashtag bare, each section at its position |
| GeneratorPage.TxtExportLayout | app/generator/page.jsx:72-104 | the five inputs sit in lines 5 to 9 in field order, and each of the four section titles is followed by its entries, at positions fixed by the bucket sizes |
| GeneratorPage.TxtExportReadsBack | app/generator/page.jsx:72-104 | with one-line inputs and entries, the text split at line breaks gives back exactly the pushed lines |
| GeneratorPage.Shown | app/generator/page.jsx:160 | `e?.message \|\| fallback` keeps a non-empty message and is never empty with a non-empty fallback |
| GeneratorPage.VerifyKey | app/generator/page.jsx:132-162 | a blank key sends nothing and asks for a key; otherwise the trimmed key is sent, access is granted exactly on an OK answer with a truthy `ok` (the key field is then cleared), and every other outcome shows an error |
| GeneratorPage.RefusedKeyShowsRouteError | app/generator/page.jsx:150-160 | a refused key shows the route's own `error` text |
| GeneratorPage.FailureMessage | app/generator/page.jsx:184 | the answer's `error`, else its `detail`, else "Request failed" |
| GeneratorPage.Generate | app/generator/page.jsx:164-196 | nothing happens while a generation runs; the result is set exactly on an OK answer whose body is JSON, to that body; an OK answer shows "Generated output."; every failure clears the result and shows a non-empty error; a request that throws shows the error's message, or "Couldn’t generate. Confirm keys + server logs." when it has none |

## Left out

- The network, the process environment, the clock and request parsing are
  parameters. `JSON.parse` of model text is a function parameter, and
  `JSON.stringify` of answers is not modelled: each answer is a datatype.
- JSON numbers are integers (`Js.JNum(int)`). Fractions, `NaN` and `Infinity` as
  values are left out, except that `parseInt`'s NaN is `None` in `Produce.TopK`.
- Js.NumberText: a `JNum` stands for an integer that JavaScript writes in plain
  decimal. From 10^21 up in size JavaScript writes exponent form (`String(1e21)` is
  "1e+21"), and above 2^53 its numbers are not exact; neither is modelled.
- Js.ToStr: writes every `JNum` in plain decimal, so for the sizes above it differs
  from `String(n)` in the same way.
- Produce.TopKOfNumber: clamps the number itself. For a number of 10^21 or more
  JavaScript's `parseInt` reads the exponent-form text and gives 1, not 5.
- Produce.ClampStr: cuts count Unicode characters. JavaScript counts UTF-16 code
  units, so text outside the Basic Multilingual Plane (emoji) is cut earlier there:
  120 emoji keep 60 under a cap of 120.
- Produce.ReadInput: the five caps count Unicode characters, as in `Produce.ClampStr`.
- Produce.PlanOf: the 400-character cut of the angle notes counts Unicode characters,
  as in `Produce.ClampStr`.
- Waitlist.Subscribe: the 254-character limit counts Unicode characters, where
  JavaScript counts UTF-16 code units, so an address with emoji reaches it sooner there.
- Text.ToLower: lower-cases ASCII letters only. JavaScript also lower-cases
  non-ASCII capitals, so email addresses and bucket keys that differ only in
  non-ASCII case are treated as different here.
- Produce.Pipeline: the prompts are represented by the values they embed (the
  validated input, the query listing, the angle notes, the trend text). Their fixed
  wording, the system message of the trend scan, the temperature and the HTTP
  headers are not modelled.
- Produce.OpenAiText: the TypeError raised for a `content` that is neither an array
  nor null carries V8's wording, which is engine-specific.
- The `debug.planner.model` and `debug.grok.model` fields are in `Produce.Reply.Pack`;
  the fixed `schema_version` strings of the answers are not fields.
- LandingPage.BuildExportJson: the fixed `schema_version` strings
  (`vp_pack_export_v2`, `vp_request_v1`, `vp_response_v1`, `vp_buckets_v1`) are not
  fields of the export document.
- GeneratorPage.VerifyKey: the timer that clears the notice after 1.2 seconds and
  the page reload after a granted key are not modelled.
- GeneratorPage.Generate: only the final state is modelled. The intermediate states
  ("Generating, please wait…", the cleared result, the busy flag) are not.
- The React rendering, the clipboard (`copyText`), the file downloads (`exportTxt`,
  `exportJson`, `downloadFile`) and their file-name stamps are UI and I/O.
- The landing page's `submitWaitlist` and `generateHooks` are not modelled. They are
  client calls to other routes, and `/api/produce/hooks` is not part of this model.
- `app/api/produce/hooks/route.js`, `app/api/produce/health/route.js` and
  `app/layout.jsx` are not part of this model.
- The middleware's `matcher` configuration is not modelled. It only skips paths
  under `/_next/static` and `/_next/image`, which the gate passes anyway.
- The `console.log` lines of the waitlist route are not modelled.
- White space is JavaScript's WhiteSpace and LineTerminator set, written out as a
  fixed list of characters in `Text.IsWhite`.

Details of the generation route:

- The model's text is parsed with plain `JSON.parse`.
- The angle notes are cut to 400 characters.
- The trend queries are passed on as the planner gave them.
- `clampArr` converts each element with `String` and cuts the list to `top_k`.
- The OpenAI text is read from the `text` fields of the first output item's
  content parts, and these are preferred to `output_text`.
- The 200 answer has no `ok` field.
- The final call sends the model name and the prompt text only (`model`, `input`).
- A request body that does not parse is answered 500 by the handler's `catch`.
