/** The access gate that runs before every route: a decision over the request's
    path and the value of its `vp_beta` cookie. */
module Middleware {
  import opened Text

  /** What the gate does with a request. */
  datatype Decision =
    | Next                                       // hand the request on to its route
    | Deny(status: int, error: string)           // answer with `{ ok: false, error }`

  const DeniedMessage := "Access denied (missing beta cookie)"

  /** The public static files. */
  predicate IsPublicAsset(path: string) {
    path == "/favicon.ico" || path == "/bg.jpg" || path == "/logo.png"
  }

  /** `middleware(req)`: Next.js internals, the public files, the generator page and
      the key-verification route always pass; a request for a generation route
      needs a non-empty beta cookie; everything else is public. */
  function Gate(path: string, cookie: Option<string>): (d: Decision)
    ensures StartsWith(path, "/_next/") ==> d == Next
    ensures IsPublicAsset(path) ==> d == Next
    ensures StartsWith(path, "/generator") ==> d == Next
    ensures StartsWith(path, "/api/beta/verify") ==> d == Next
    ensures d.Deny? ==> d == Deny(401, DeniedMessage)
  {
    if StartsWith(path, "/_next/") then Next
    else if IsPublicAsset(path) then Next
    else if StartsWith(path, "/generator") then Next
    else if StartsWith(path, "/api/") then
      if StartsWith(path, "/api/beta/verify") then Next
      else if StartsWith(path, "/api/produce") && (cookie.None? || cookie.value == "") then
        Deny(401, DeniedMessage)
      else Next
    else Next
  }

  /** A path that starts with one prefix and with another starts with the shorter. */
  lemma PrefixOfPrefix(path: string, p: string, q: string)
    requires StartsWith(path, p) && StartsWith(path, q) && |q| <= |p|
    ensures StartsWith(p, q)
  {
    assert p[..|q|] == path[..|p|][..|q|];
  }

  /** The gate blocks exactly the generation routes requested without a
      non-empty beta cookie; every other request passes. */
  lemma {:induction false} GateBlocksIff(path: string, cookie: Option<string>)
    ensures Gate(path, cookie).Deny? <==>
              StartsWith(path, "/api/produce") && (cookie.None? || cookie.value == "")
  {
    if StartsWith(path, "/api/produce") {
      assert !StartsWith("/api/produce", "/generator") by { assert "/api/produce"[1] != "/generator"[1]; }
      assert !StartsWith("/api/beta/verify", "/api/produce") by { assert "/api/beta/verify"[5] != "/api/produce"[5]; }
      assert StartsWith(path, "/api/") by { PrefixOfPrefix(path, "/api/produce", "/api/"); }
      if StartsWith(path, "/_next/") {
        PrefixOfPrefix(path, "/api/produce", "/_next/");
        assert false;
      }
      if StartsWith(path, "/generator") {
        PrefixOfPrefix(path, "/generator", "/api/produce");
        assert false;
      }
      if StartsWith(path, "/api/beta/verify") {
        PrefixOfPrefix(path, "/api/beta/verify", "/api/produce");
        assert false;
      }
    }
  }
}
