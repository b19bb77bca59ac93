/** The waitlist sign-up: `POST /api/waitlist` normalises and checks an email
    address, then appends a row to a spreadsheet through a web-app endpoint. */
module Waitlist {
  import opened Text
  import opened Js

  /** The forwarding headers the route reads. */
  datatype Headers = Headers(forwardedFor: Option<string>, realIp: Option<string>)

  /** What the spreadsheet endpoint did: the request threw, or it answered with
      an HTTP success flag and a body (`null` when the body did not parse). */
  datatype Upstream = UpstreamThrew | UpstreamReplied(ok: bool, body: Json)

  /** The payload sent to the spreadsheet endpoint. */
  datatype SheetsRow = SheetsRow(email: string, source: string, ip: string)

  /** The JSON the route answers with: `{ error }` or `{ ok: true }`. */
  datatype Body = ErrorBody(error: Json) | OkBody

  /** The row the route sent upstream, if it got that far, and its answer. */
  datatype Outcome = Outcome(sent: Option<SheetsRow>, status: int, body: Body)

  const MaxEmailLength := 254
  const Source := "viralpack.ai"

  /** `(body?.email || "").trim().toLowerCase()`: `None` when a truthy email is
      not a string, where `.trim` is not a function and the call throws. */
  function NormalizeEmail(v: Option<Json>): (r: Option<string>)
    ensures !Truthy(v) ==> r == Some("")
    ensures Truthy(v) ==> (r.Some? <==> v.value.JStr?)
    ensures r.Some? && Truthy(v) ==> r.value == ToLower(Trim(v.value.s))
  {
    if !Truthy(v) then Some(ToLower(Trim("")))
    else if v.value.JStr? then Some(ToLower(Trim(v.value.s)))
    else None
  }

  /** The shape check on the normalised address. */
  predicate ValidEmail(email: string) {
    email != "" && Contains(email, "@") && |email| <= MaxEmailLength
  }

  /** The client address: the first entry of `x-forwarded-for`, trimmed, when that
      is not empty; else `x-real-ip`; else "". */
  function ClientIp(h: Headers): (ip: string)
    ensures h.forwardedFor.Some? && Trim(Split(h.forwardedFor.value, ',')[0]) != "" ==>
              ip == Trim(Split(h.forwardedFor.value, ',')[0]) && ',' !in ip && IsTrimmed(ip)
    ensures (h.forwardedFor.None? || Trim(Split(h.forwardedFor.value, ',')[0]) == "") ==>
              ip == (if h.realIp.Some? then h.realIp.value else "")
  {
    var first := if h.forwardedFor.Some? then Trim(Split(h.forwardedFor.value, ',')[0]) else "";
    if first != "" then
      TrimKeepsOnly(Split(h.forwardedFor.value, ',')[0]);
      first
    else if h.realIp.Some? && h.realIp.value != "" then h.realIp.value
    else ""
  }

  /** A proxy chain "client, proxy1, proxy2" yields the client's address. */
  lemma {:induction false} ClientIpFirstHop(client: string, proxies: seq<string>, realIp: Option<string>)
    requires client != "" && IsTrimmed(client) && ',' !in client
    ensures ClientIp(Headers(Some(Join([client] + proxies, ",")), realIp)) == client
  {
    var xs := [client] + proxies;
    if proxies == [] {
      SplitNoSeparator(client, ',');
    } else {
      assert xs[1..] == proxies;
      assert Join(xs, ",") == client + [','] + Join(proxies, ",");
      SplitSeparated(client, ',', Join(proxies, ","));
    }
    TrimOfTrimmed(client);
  }

  /** `POST(request)`. `body` is the parsed request body or the parser's error,
      `endpoint` is `SHEETS_WEBAPP_URL`, `upstream` is what the endpoint did with
      the row. Every exception answers 400 "Bad request". */
  function Subscribe(body: Result<Json>, endpoint: Option<string>, h: Headers, upstream: Upstream): (r: Outcome)
    // A body that does not parse, or a truthy email that is not a string, throws
    // inside the handler and is answered "Bad request".
    ensures body.Err? ==> r == Outcome(None, 400, ErrorBody(JStr("Bad request")))
    ensures body.Ok? && NormalizeEmail(Get(Some(body.value), "email")).None? ==>
              r == Outcome(None, 400, ErrorBody(JStr("Bad request")))
    // An address that is not well-formed is refused before anything else is read.
    ensures body.Ok? && NormalizeEmail(Get(Some(body.value), "email")).Some? ==>
              (r == Outcome(None, 400, ErrorBody(JStr("Invalid email"))) <==>
               !ValidEmail(NormalizeEmail(Get(Some(body.value), "email")).value))
    // A row goes upstream only for a valid address and a configured endpoint, and
    // it carries the normalised address, the fixed source tag and the client address.
    ensures r.sent.Some? <==>
              body.Ok? && NormalizeEmail(Get(Some(body.value), "email")).Some? &&
              ValidEmail(NormalizeEmail(Get(Some(body.value), "email")).value) &&
              endpoint.Some? && endpoint.value != ""
    ensures r.sent.Some? ==>
              r.sent.value == SheetsRow(NormalizeEmail(Get(Some(body.value), "email")).value, Source, ClientIp(h))
    // A valid address with no endpoint configured is a server error.
    ensures body.Ok? && NormalizeEmail(Get(Some(body.value), "email")).Some? &&
            ValidEmail(NormalizeEmail(Get(Some(body.value), "email")).value) &&
            (endpoint.None? || endpoint.value == "") ==>
              r == Outcome(None, 500, ErrorBody(JStr("Missing SHEETS_WEBAPP_URL")))
    // Once the row is sent, a request that throws is "Bad request", and an answer
    // without an HTTP success and a truthy `ok` is a 502 carrying the endpoint's
    // own `error`, or "Sheets write failed" when that is falsy.
    ensures r.sent.Some? && upstream.UpstreamThrew? ==>
              r == Outcome(r.sent, 400, ErrorBody(JStr("Bad request")))
    ensures r.sent.Some? && upstream.UpstreamReplied? &&
            !(upstream.ok && Truthy(Get(Some(upstream.body), "ok"))) ==>
              r == Outcome(r.sent, 502, ErrorBody(Or(Get(Some(upstream.body), "error"), JStr("Sheets write failed"))))
    // Success needs an HTTP success and a truthy `ok` in the endpoint's answer.
    ensures r.status == 200 <==> r.sent.Some? && upstream.UpstreamReplied? && upstream.ok &&
                                  Truthy(Get(Some(upstream.body), "ok"))
    ensures r.status == 200 ==> r.body == OkBody
    ensures r.status in {200, 400, 500, 502}
  {
    match body
    case Err(_) => Outcome(None, 400, ErrorBody(JStr("Bad request")))
    case Ok(b) =>
      match NormalizeEmail(Get(Some(b), "email"))
      case None => Outcome(None, 400, ErrorBody(JStr("Bad request")))
      case Some(email) =>
        if email == "" || !Contains(email, "@") || |email| > MaxEmailLength then
          Outcome(None, 400, ErrorBody(JStr("Invalid email")))
        else if endpoint.None? || endpoint.value == "" then
          Outcome(None, 500, ErrorBody(JStr("Missing SHEETS_WEBAPP_URL")))
        else
          var row := SheetsRow(email, Source, ClientIp(h));
          match upstream
          case UpstreamThrew => Outcome(Some(row), 400, ErrorBody(JStr("Bad request")))
          case UpstreamReplied(ok, data) =>
            if !ok || !Truthy(Get(Some(data), "ok")) then
              Outcome(Some(row), 502, ErrorBody(Or(Get(Some(data), "error"), JStr("Sheets write failed"))))
            else Outcome(Some(row), 200, OkBody)
  }
}
