/** The beta-key exchange: `POST /api/beta/verify` checks a submitted key against
    the comma-separated `BETA_KEYS` list and, on a match, sets the `vp_beta`
    cookie that the access gate looks for. */
module BetaVerify {
  import opened Text
  import opened Js
  import Middleware

  /** The process environment the route reads. */
  datatype Env = Env(cookieSecret: Option<string>, betaKeys: Option<string>, nodeEnv: Option<string>)

  /** The route's answer: `{ ok: false, error }` with a status, or `{ ok: true }`
      with status 200 and a `Set-Cookie` header. */
  datatype Reply =
    | Refused(status: int, error: string)
    | Granted(setCookie: string)
  {
    function Status(): int {
      if Refused? then status else 200
    }
  }

  const MaxAgeSeconds: nat := 60 * 60 * 24 * 30

  /** `mustEnv(name)`: the trimmed variable, or the error "Missing env var: <name>"
      when it is unset, empty or only white space. */
  function MustEnv(name: string, v: Option<string>): (r: Result<string>)
    ensures r.Ok? <==> v.Some? && !AllWhite(v.value)
    ensures r.Ok? ==> r.value == Trim(v.value) && r.value != ""
    ensures r.Err? ==> r.message == "Missing env var: " + name
  {
    if v.None? || v.value == "" || Trim(v.value) == "" then Err("Missing env var: " + name)
    else Ok(Trim(v.value))
  }

  /** `.map((s) => s.trim()).filter(Boolean)` over the pieces of the list. */
  function TrimmedNonBlank(pieces: seq<string>): (r: seq<string>)
    ensures |r| <= |pieces|
  {
    if pieces == [] then []
    else
      var t := Trim(pieces[0]);
      (if t != "" then [t] else []) + TrimmedNonBlank(pieces[1..])
  }

  /** A key survives exactly when it is the non-empty trim of some piece. */
  lemma {:induction false} TrimmedNonBlankMember(pieces: seq<string>, k: string)
    ensures k in TrimmedNonBlank(pieces) <==> k != "" && exists p :: p in pieces && Trim(p) == k
  {
    if pieces != [] {
      TrimmedNonBlankMember(pieces[1..], k);
      assert forall p :: p in pieces <==> p == pieces[0] || p in pieces[1..];
    }
  }

  /** Every surviving key is the trim of a piece: not empty, trimmed, and free of
      commas when the pieces are. */
  lemma TrimmedPiecesKeys(pieces: seq<string>)
    requires forall i :: 0 <= i < |pieces| ==> ',' !in pieces[i]
    ensures forall i :: 0 <= i < |TrimmedNonBlank(pieces)| ==>
              var k := TrimmedNonBlank(pieces)[i]; k != "" && IsTrimmed(k) && ',' !in k
  {
    var r := TrimmedNonBlank(pieces);
    forall i | 0 <= i < |r| ensures r[i] != "" && IsTrimmed(r[i]) && ',' !in r[i] {
      TrimmedNonBlankMember(pieces, r[i]);
      var p :| p in pieces && Trim(p) == r[i];
      TrimKeepsOnly(p);
    }
  }

  /** `parseKeysList(raw)`: the comma-separated keys, each trimmed, blanks dropped. */
  function ParseKeysList(raw: string): (r: seq<string>)
    ensures forall i :: 0 <= i < |r| ==> r[i] != "" && IsTrimmed(r[i]) && ',' !in r[i]
  {
    var pieces := Split(raw, ',');
    TrimmedPiecesKeys(pieces);
    TrimmedNonBlank(pieces)
  }

  /** The keys are exactly the non-blank pieces between commas, trimmed. */
  lemma ParseKeysListMember(raw: string, k: string)
    ensures k in ParseKeysList(raw) <==> k != "" && exists p :: p in Split(raw, ',') && Trim(p) == k
  {
    TrimmedNonBlankMember(Split(raw, ','), k);
  }

  /** A list of trimmed, non-empty keys without commas, written out with commas
      between them, reads back as the same keys in the same order. */
  lemma {:induction false} ParseKeysListJoin(keys: seq<string>)
    requires forall i :: 0 <= i < |keys| ==> keys[i] != "" && IsTrimmed(keys[i]) && ',' !in keys[i]
    ensures ParseKeysList(Join(keys, ",")) == keys
  {
    if keys == [] {
      assert Split("", ',') == [""];
      assert Trim("") == "";
    } else {
      SplitJoin(keys, ',');
      TrimmedNonBlankOfTrimmed(keys);
    }
  }

  lemma {:induction false} TrimmedNonBlankOfTrimmed(keys: seq<string>)
    requires forall i :: 0 <= i < |keys| ==> keys[i] != "" && IsTrimmed(keys[i])
    ensures TrimmedNonBlank(keys) == keys
  {
    if keys != [] {
      TrimOfTrimmed(keys[0]);
      TrimmedNonBlankOfTrimmed(keys[1..]);
    }
  }

  /** Thirty days in seconds, written out. */
  lemma MaxAgeText()
    ensures IntToString(MaxAgeSeconds) == "2592000"
  {
    assert MaxAgeSeconds == 2592000;
    assert NatToString(2) == "2";
    assert NatToString(25) == "25";
    assert NatToString(259) == "259";
    assert NatToString(2592) == "2592";
    assert NatToString(25920) == "25920";
    assert NatToString(259200) == "259200";
    assert NatToString(2592000) == "2592000";
  }

  /** The cookie that marks a browser as admitted: thirty days, HTTP-only, lax
      same-site, and `Secure` in production. */
  function BetaCookie(production: bool): (c: string)
    ensures c == "vp_beta=1; Path=/; HttpOnly; SameSite=Lax; Max-Age=2592000" + (if production then "; Secure" else "")
  {
    MaxAgeText();
    "vp_beta=1; Path=/; HttpOnly; SameSite=Lax; Max-Age=" + IntToString(MaxAgeSeconds) + (if production then "; Secure" else "")
  }

  /** `POST(req)`: the secret must be configured, then the key must be present,
      the key list must be configured, and the key must be one of the list.
      `body` is the parsed request body, `null` when it did not parse. */
  function Verify(env: Env, body: Json): (r: Reply)
    ensures MustEnv("BETA_COOKIE_SECRET", env.cookieSecret).Err? ==>
              r == Refused(500, "Missing env var: BETA_COOKIE_SECRET")
    ensures MustEnv("BETA_COOKIE_SECRET", env.cookieSecret).Ok? && Trim(TextOr(Get(Some(body), "key"))) == "" ==>
              r == Refused(400, "Missing key")
    ensures MustEnv("BETA_COOKIE_SECRET", env.cookieSecret).Ok? && Trim(TextOr(Get(Some(body), "key"))) != "" &&
            ParseKeysList(if env.betaKeys.Some? then env.betaKeys.value else "") == [] ==>
              r == Refused(500, "Server misconfigured (BETA_KEYS missing)")
    ensures MustEnv("BETA_COOKIE_SECRET", env.cookieSecret).Ok? && Trim(TextOr(Get(Some(body), "key"))) != "" &&
            ParseKeysList(if env.betaKeys.Some? then env.betaKeys.value else "") != [] &&
            Trim(TextOr(Get(Some(body), "key"))) !in ParseKeysList(if env.betaKeys.Some? then env.betaKeys.value else "") ==>
              r == Refused(401, "Invalid key")
    ensures r.Granted? <==>
              MustEnv("BETA_COOKIE_SECRET", env.cookieSecret).Ok? &&
              Trim(TextOr(Get(Some(body), "key"))) in ParseKeysList(if env.betaKeys.Some? then env.betaKeys.value else "")
    ensures r.Granted? ==> r.setCookie == BetaCookie(env.nodeEnv == Some("production"))
    ensures r.Refused? ==> r.status in {400, 401, 500}
  {
    assert "Missing env var: " + "BETA_COOKIE_SECRET" == "Missing env var: BETA_COOKIE_SECRET";
    match MustEnv("BETA_COOKIE_SECRET", env.cookieSecret)
    case Err(m) => Refused(500, m)
    case Ok(_) =>
      var key := Trim(TextOr(Get(Some(body), "key")));
      if key == "" then Refused(400, "Missing key")
      else
        var allowed := ParseKeysList(if env.betaKeys.Some? then env.betaKeys.value else "");
        if |allowed| == 0 then Refused(500, "Server misconfigured (BETA_KEYS missing)")
        else if key !in allowed then Refused(401, "Invalid key")
        else Granted(BetaCookie(env.nodeEnv == Some("production")))
  }

  /** A browser that stored the granted cookie sends the value "1", so the access
      gate lets it through to every route, and the generation route's own check
      finds "vp_beta=" in its cookie header. */
  lemma GrantedCookieOpensGate(path: string)
    ensures Middleware.Gate(path, Some("1")) == Middleware.Next
    ensures Contains("vp_beta=1", "vp_beta=")
  {
    assert StartsWith("vp_beta=1", "vp_beta=");
  }
}
