/** The JavaScript string operations the application relies on, over `seq<char>`:
    `trim`, `replace(/\s+/g, " ")`, ASCII `toLowerCase`, `includes`, `startsWith`,
    `split`, `join`, `slice`, number-to-decimal rendering and `parseInt(_, 10)`. */
module Text {

  datatype Option<+T> = None | Some(value: T)

  // ---------------------------------------------------------------------------
  // White space

  /** JavaScript's WhiteSpace and LineTerminator characters: what `trim`, the
      regular-expression class `\s` and `parseInt` treat as white space. */
  predicate IsWhite(c: char) {
    || c == '\t' || c == '\n' || c == '\U{B}' || c == '\U{C}' || c == '\r' || c == ' '
    || c == '\U{A0}' || c == '\U{1680}' || ('\U{2000}' <= c <= '\U{200A}')
    || c == '\U{2028}' || c == '\U{2029}' || c == '\U{202F}' || c == '\U{205F}'
    || c == '\U{3000}' || c == '\U{FEFF}'
  }

  predicate AllWhite(s: string) {
    forall i :: 0 <= i < |s| ==> IsWhite(s[i])
  }

  /** Neither end of `s` is white space. */
  predicate IsTrimmed(s: string) {
    s == [] || (!IsWhite(s[0]) && !IsWhite(s[|s| - 1]))
  }

  /** White space appears only as single spaces between other characters. */
  predicate SingleSpaced(s: string) {
    forall i :: 0 <= i < |s| && IsWhite(s[i]) ==> s[i] == ' ' && (i + 1 < |s| ==> !IsWhite(s[i + 1]))
  }

  /** The characters of `s` that are not white space, in order. */
  function NonWhite(s: string): string {
    if s == [] then [] else (if IsWhite(s[0]) then [] else [s[0]]) + NonWhite(s[1..])
  }

  lemma {:induction false} NonWhiteAppend(a: string, b: string)
    ensures NonWhite(a + b) == NonWhite(a) + NonWhite(b)
  {
    if a != [] {
      assert (a + b)[1..] == a[1..] + b;
      NonWhiteAppend(a[1..], b);
    } else {
      assert a + b == b;
    }
  }

  lemma {:induction false} AllWhiteIffNoNonWhite(s: string)
    ensures AllWhite(s) <==> NonWhite(s) == []
  {
    if s != [] {
      AllWhiteIffNoNonWhite(s[1..]);
      if AllWhite(s[1..]) && IsWhite(s[0]) {
        forall i | 0 <= i < |s| ensures IsWhite(s[i]) {
          if i > 0 { assert s[i] == s[1..][i - 1]; }
        }
      }
      if AllWhite(s) {
        forall i | 0 <= i < |s[1..]| ensures IsWhite(s[1..][i]) {
          assert s[1..][i] == s[i + 1];
        }
      }
    }
  }

  /** `trimStart`: the suffix left after dropping leading white space. */
  function TrimStart(s: string): (r: string)
    ensures |r| <= |s| && r == s[|s| - |r|..]
    ensures AllWhite(s[..|s| - |r|])
    ensures r != [] ==> !IsWhite(r[0])
    ensures NonWhite(r) == NonWhite(s)
  {
    if s != [] && IsWhite(s[0]) then
      var r := TrimStart(s[1..]);
      var k := |s| - |r|;
      assert s[..k] == [s[0]] + s[1..][..k - 1];
      AllWhiteCons(s[0], s[1..][..k - 1]);
      assert s[1..][k - 1..] == s[k..];
      assert NonWhite(s) == NonWhite(s[1..]);
      r
    else s
  }

  lemma AllWhiteCons(c: char, t: string)
    requires IsWhite(c) && AllWhite(t)
    ensures AllWhite([c] + t)
  {
    forall i | 0 <= i < |[c] + t| ensures IsWhite(([c] + t)[i]) {
      if i > 0 { assert ([c] + t)[i] == t[i - 1]; }
    }
  }

  /** `trimEnd`: the prefix left after dropping trailing white space. */
  function TrimEnd(s: string): (r: string)
    ensures |r| <= |s| && r == s[..|r|]
    ensures AllWhite(s[|r|..])
    ensures r != [] ==> !IsWhite(r[|r| - 1])
    ensures NonWhite(r) == NonWhite(s)
  {
    if s != [] && IsWhite(s[|s| - 1]) then
      var init := s[..|s| - 1];
      var r := TrimEnd(init);
      assert s == init + [s[|s| - 1]];
      NonWhiteAppend(init, [s[|s| - 1]]);
      r
    else s
  }

  /** `trim`: no white space is left at either end, no other character is lost,
      and the result is empty exactly when `s` was blank. */
  function Trim(s: string): (r: string)
    ensures |r| <= |s|
    ensures IsTrimmed(r)
    ensures r == [] <==> AllWhite(s)
    ensures NonWhite(r) == NonWhite(s)
  {
    var t := TrimStart(s);
    var r := TrimEnd(t);
    assert r != [] ==> r[0] == t[0];
    assert r == [] ==> AllWhite(t) by {
      if r == [] { assert t[|r|..] == t; }
    }
    assert t == [] ==> AllWhite(s) by {
      if t == [] { assert s[..|s| - |t|] == s; }
    }
    r
  }

  /** What `trim` keeps is an unchanged infix of `s`: only white space is cut,
      and only from the two ends. */
  lemma TrimInfix(s: string)
    ensures exists k :: 0 <= k <= |s| - |Trim(s)| && Trim(s) == s[k..k + |Trim(s)|] &&
                        AllWhite(s[..k]) && AllWhite(s[k + |Trim(s)|..])
  {
    var t := TrimStart(s);
    var r := TrimEnd(t);
    assert r == Trim(s);
    var k := |s| - |t|;
    assert t == s[k..];
    assert r == s[k..k + |r|];
    assert t[|r|..] == s[k + |r|..];
    assert AllWhite(s[..k]) && AllWhite(s[k + |r|..]);
  }

  /** The infix of `s` between `a` and `b` is also single-spaced. */
  lemma SingleSpacedInfix(s: string, a: nat, b: nat)
    requires SingleSpaced(s) && a <= b <= |s|
    ensures SingleSpaced(s[a..b])
  {
    var t := s[a..b];
    forall i | 0 <= i < |t| && IsWhite(t[i])
      ensures t[i] == ' ' && (i + 1 < |t| ==> !IsWhite(t[i + 1]))
    {
      assert t[i] == s[a + i];
      if i + 1 < |t| { assert t[i + 1] == s[a + i + 1]; }
    }
  }

  /** `replace(/\s+/g, " ")`: every maximal run of white space becomes one space. */
  function CollapseWhite(s: string): (r: string)
    ensures SingleSpaced(r)
    ensures NonWhite(r) == NonWhite(s)
    ensures r == [] <==> s == []
    ensures s != [] && !IsWhite(s[0]) ==> r[0] == s[0]
    decreases |s|
  {
    if s == [] then []
    else if IsWhite(s[0]) then
      var rest := CollapseWhite(TrimStart(s[1..]));
      assert NonWhite([' '] + rest) == NonWhite(rest) by { assert ([' '] + rest)[1..] == rest; }
      [' '] + rest
    else
      var rest := CollapseWhite(s[1..]);
      assert ([s[0]] + rest)[1..] == rest;
      [s[0]] + rest
  }

  /** `replace(/\s+/g, " ").trim()`: the text as one tidy line. */
  function CleanText(s: string): string {
    Trim(CollapseWhite(s))
  }

  /** A cleaned line is trimmed and single-spaced, keeps every other character in
      order, and is empty exactly when the input was all white space. */
  lemma CleanTextIsClean(s: string)
    ensures var r := CleanText(s);
            IsTrimmed(r) && SingleSpaced(r) &&
            NonWhite(r) == NonWhite(s) &&
            (r == [] <==> AllWhite(s))
  {
    CleanTextShape(s);
    CleanTextKeeps(s);
  }

  lemma CleanTextShape(s: string)
    ensures IsTrimmed(CleanText(s)) && SingleSpaced(CleanText(s))
  {
    var c := CollapseWhite(s);
    var t := TrimStart(c);
    var r := TrimEnd(t);
    SingleSpacedInfix(c, |c| - |t|, |c|);
    SingleSpacedInfix(t, 0, |r|);
  }

  lemma CleanTextKeeps(s: string)
    ensures NonWhite(CleanText(s)) == NonWhite(s)
    ensures CleanText(s) == [] <==> AllWhite(s)
  {
    AllWhiteIffNoNonWhite(s);
    AllWhiteIffNoNonWhite(CollapseWhite(s));
  }

  /** A single-spaced, trimmed line contains no line break. */
  lemma CleanTextHasNoNewline(s: string)
    ensures '\n' !in CleanText(s)
  {
    CleanTextIsClean(s);
  }

  lemma {:induction false} CollapseSingleSpaced(s: string)
    requires SingleSpaced(s) && (s == [] || !IsWhite(s[0]))
    ensures CollapseWhite(s) == s
    decreases |s|
  {
    if s != [] {
      SingleSpacedInfix(s, 1, |s|);
      var t := s[1..];
      if t != [] && IsWhite(t[0]) {
        assert t[0] == s[1];
        assert TrimStart(t[1..]) == t[1..];
        SingleSpacedInfix(s, 2, |s|);
        assert t[1..] == s[2..];
        CollapseSingleSpaced(t[1..]);
        assert [' '] + t[1..] == t;
      } else {
        CollapseSingleSpaced(t);
      }
      assert [s[0]] + t == s;
    }
  }

  /** Leading white space before a non-white character is all that `trimStart`
      removes. */
  lemma {:induction false} TrimStartRun(w: string, b: string)
    requires AllWhite(w)
    requires b == [] || !IsWhite(b[0])
    ensures TrimStart(w + b) == b
    decreases |w|
  {
    if w == [] {
      assert w + b == b;
    } else {
      assert (w + b)[0] == w[0];
      assert (w + b)[1..] == w[1..] + b;
      assert forall i :: 0 <= i < |w[1..]| ==> w[1..][i] == w[i + 1];
      TrimStartRun(w[1..], b);
    }
  }

  /** Once `a` holds a non-white character, text appended to it is kept whole. */
  lemma {:induction false} TrimStartAppend(a: string, x: string)
    requires !AllWhite(a)
    ensures TrimStart(a + x) == TrimStart(a) + x
    decreases |a|
  {
    assert (a + x)[0] == a[0];
    if IsWhite(a[0]) {
      assert (a + x)[1..] == a[1..] + x;
      TrimStartAppend(a[1..], x);
    }
  }

  /** `trimStart` of text ending in a non-white character ends in it too. */
  lemma TrimStartLast(s: string)
    requires s != [] && !IsWhite(s[|s| - 1])
    ensures TrimStart(s) != [] && TrimStart(s)[|TrimStart(s)| - 1] == s[|s| - 1]
  {
  }

  /** Collapsing keeps a final non-white character at the end. */
  lemma {:induction false} CollapseLast(s: string)
    requires s != [] && !IsWhite(s[|s| - 1])
    ensures CollapseWhite(s) != [] && CollapseWhite(s)[|CollapseWhite(s)| - 1] == s[|s| - 1]
    decreases |s|
  {
    var rest := s[1..];
    if IsWhite(s[0]) {
      assert rest[|rest| - 1] == s[|s| - 1];
      TrimStartLast(rest);
      CollapseLast(TrimStart(rest));
    } else if rest != [] {
      assert rest[|rest| - 1] == s[|s| - 1];
      CollapseLast(rest);
    }
  }

  /** A run of white space at the start becomes one space. */
  lemma CollapseRun(w: string, b: string)
    requires w != [] && AllWhite(w)
    requires b == [] || !IsWhite(b[0])
    ensures CollapseWhite(w + b) == [' '] + CollapseWhite(b)
  {
    assert (w + b)[0] == w[0];
    assert (w + b)[1..] == w[1..] + b;
    assert forall i :: 0 <= i < |w[1..]| ==> w[1..][i] == w[i + 1];
    TrimStartRun(w[1..], b);
  }

  /** One step of `CollapseWhite` on a non-white first character. */
  lemma CollapseCons(c: char, s: string)
    requires !IsWhite(c)
    ensures CollapseWhite([c] + s) == [c] + CollapseWhite(s)
  {
    assert ([c] + s)[1..] == s;
  }

  /** One step of `CollapseWhite` on a white first character. */
  lemma CollapseWhiteCons(c: char, s: string)
    requires IsWhite(c)
    ensures CollapseWhite([c] + s) == [' '] + CollapseWhite(TrimStart(s))
  {
    assert ([c] + s)[1..] == s;
  }

  lemma SeqAssoc(x: string, y: string, z: string)
    ensures x + (y + z) == (x + y) + z
  {
  }

  lemma CollapseConsAppend(c: char, rest: string, tail: string, q: string)
    requires !IsWhite(c)
    requires CollapseWhite(rest + tail) == CollapseWhite(rest) + q
    ensures CollapseWhite([c] + rest + tail) == CollapseWhite([c] + rest) + q
  {
    SeqAssoc([c], rest, tail);
    CollapseCons(c, rest + tail);
    CollapseCons(c, rest);
    SeqAssoc([c], CollapseWhite(rest), q);
  }

  lemma CollapseWhiteConsAppend(c: char, rest: string, tail: string, q: string)
    requires IsWhite(c) && !AllWhite(rest)
    requires CollapseWhite(TrimStart(rest) + tail) == CollapseWhite(TrimStart(rest)) + q
    ensures CollapseWhite([c] + rest + tail) == CollapseWhite([c] + rest) + q
  {
    SeqAssoc([c], rest, tail);
    TrimStartAppend(rest, tail);
    CollapseWhiteCons(c, rest + tail);
    CollapseWhiteCons(c, rest);
    SeqAssoc([' '], CollapseWhite(TrimStart(rest)), q);
  }

  /** Text that ends in a non-white character collapses independently of what
      follows it. */
  lemma {:induction false} CollapseAppend(a: string, tail: string)
    requires a == [] || !IsWhite(a[|a| - 1])
    ensures CollapseWhite(a + tail) == CollapseWhite(a) + CollapseWhite(tail)
    decreases |a|
  {
    if a == [] {
      assert a + tail == tail;
    } else {
      var rest := a[1..];
      assert a == [a[0]] + rest;
      if !IsWhite(a[0]) {
        assert rest != [] ==> rest[|rest| - 1] == a[|a| - 1];
        CollapseAppend(rest, tail);
        CollapseConsAppend(a[0], rest, tail, CollapseWhite(tail));
      } else {
        assert rest[|rest| - 1] == a[|a| - 1];
        assert !AllWhite(rest);
        TrimStartLast(rest);
        CollapseAppend(TrimStart(rest), tail);
        CollapseWhiteConsAppend(a[0], rest, tail, CollapseWhite(tail));
      }
    }
  }

  /** A run of white space between two non-white characters becomes exactly one
      space, and the text on either side collapses on its own. */
  lemma CollapseWhiteBetween(a: string, w: string, b: string)
    requires w != [] && AllWhite(w)
    requires a == [] || !IsWhite(a[|a| - 1])
    requires b == [] || !IsWhite(b[0])
    ensures CollapseWhite(a + w + b) == CollapseWhite(a) + [' '] + CollapseWhite(b)
  {
    CollapseAppend(a, w + b);
    CollapseRun(w, b);
    SeqAssoc(a, w, b);
    SeqAssoc(CollapseWhite(a), [' '], CollapseWhite(b));
  }

  /** Two trimmed, non-empty pieces of text with white space between them clean
      to the two cleaned pieces with one space between them. */
  lemma CleanTextWords(a: string, w: string, b: string)
    requires a != [] && IsTrimmed(a) && b != [] && IsTrimmed(b)
    requires w != [] && AllWhite(w)
    ensures CleanText(a + w + b) == CleanText(a) + " " + CleanText(b)
  {
    CollapseWhiteBetween(a, w, b);
    CollapseLast(a);
    CollapseLast(b);
    var x := CollapseWhite(a);
    var y := CollapseWhite(b);
    TrimOfTrimmed(x);
    TrimOfTrimmed(y);
    var r := x + [' '] + y;
    assert r[0] == x[0] && r[|r| - 1] == y[|y| - 1];
    TrimOfTrimmed(r);
  }

  /** Cleaning a line twice changes nothing more than cleaning it once. */
  lemma CleanTextIdempotent(s: string)
    ensures CleanText(CleanText(s)) == CleanText(s)
  {
    var r := CleanText(s);
    CleanTextIsClean(s);
    CollapseSingleSpaced(r);
    assert TrimStart(r) == r;
    assert TrimEnd(r) == r;
  }

  /** Trimming is idempotent. */
  lemma TrimIdempotent(s: string)
    ensures Trim(Trim(s)) == Trim(s)
  {
    var r := Trim(s);
    assert TrimStart(r) == r;
    assert TrimEnd(r) == r;
  }

  /** Trimming only removes characters: every character left was in `s`. */
  lemma TrimKeepsOnly(s: string)
    ensures forall c :: c in Trim(s) ==> c in s
  {
    var t := TrimStart(s);
    var r := TrimEnd(t);
    var off := |s| - |t|;
    assert r == s[off..off + |r|] by {
      assert t == s[off..];
      assert r == t[..|r|];
    }
    SliceMembers(s, off, off + |r|);
  }

  lemma SliceMembers(s: string, i: nat, j: nat)
    requires i <= j <= |s|
    ensures forall c :: c in s[i..j] ==> c in s
  {
    forall c | c in s[i..j] ensures c in s {
      var k :| 0 <= k < j - i && s[i..j][k] == c;
      assert s[i + k] == c;
    }
  }

  /** A string with no white space at either end is its own trim. */
  lemma TrimOfTrimmed(s: string)
    requires IsTrimmed(s)
    ensures Trim(s) == s
  {
    assert TrimStart(s) == s;
    assert TrimEnd(s) == s;
  }

  // ---------------------------------------------------------------------------
  // Case, search, prefixes

  function LowerChar(c: char): char {
    if 'A' <= c <= 'Z' then (c as int - 'A' as int + 'a' as int) as char else c
  }

  /** `toLowerCase`, on the ASCII letters. */
  function ToLower(s: string): (r: string)
    ensures |r| == |s|
    ensures forall i :: 0 <= i < |r| ==> !('A' <= r[i] <= 'Z')
    ensures forall i :: 0 <= i < |s| && 'A' <= s[i] <= 'Z' ==> r[i] as int - 'a' as int == s[i] as int - 'A' as int
    ensures forall i :: 0 <= i < |s| && !('A' <= s[i] <= 'Z') ==> r[i] == s[i]
  {
    seq(|s|, i requires 0 <= i < |s| => LowerChar(s[i]))
  }

  /** `s.startsWith(p)` */
  predicate StartsWith(s: string, p: string) {
    |p| <= |s| && s[..|p|] == p
  }

  /** `s.includes(sub)` */
  predicate Contains(s: string, sub: string) {
    StartsWith(s, sub) || (s != [] && Contains(s[1..], sub))
  }

  /** `includes` finds `sub` wherever it stands. */
  lemma {:induction false} ContainsInfix(a: string, sub: string, b: string)
    ensures Contains(a + sub + b, sub)
  {
    if a == [] {
      assert a + sub + b == sub + b;
      assert (sub + b)[..|sub|] == sub;
    } else {
      assert (a + sub + b)[1..] == a[1..] + sub + b;
      ContainsInfix(a[1..], sub, b);
    }
  }

  /** Nothing contains a string longer than itself. */
  lemma {:induction false} ContainsShorter(s: string, sub: string)
    requires Contains(s, sub)
    ensures |sub| <= |s|
  {
    if !StartsWith(s, sub) {
      ContainsShorter(s[1..], sub);
    }
  }

  // ---------------------------------------------------------------------------
  // Split, join, slice

  /** `xs.join(sep)` */
  function Join(xs: seq<string>, sep: string): string {
    if xs == [] then "" else if |xs| == 1 then xs[0] else xs[0] + sep + Join(xs[1..], sep)
  }

  /** A join begins with its first piece. */
  lemma JoinHead(xs: seq<string>, sep: string)
    requires xs != []
    ensures |Join(xs, sep)| >= |xs[0]| && Join(xs, sep)[..|xs[0]|] == xs[0]
  {
    if |xs| > 1 {
      assert Join(xs, sep) == xs[0] + (sep + Join(xs[1..], sep));
    }
  }

  /** `s.split(c)` for a one-character separator: at least one piece, no piece
      holds the separator, and joining the pieces back gives `s`. */
  function Split(s: string, c: char): (r: seq<string>)
    ensures |r| >= 1
    ensures forall i :: 0 <= i < |r| ==> c !in r[i]
    ensures Join(r, [c]) == s
  {
    if s == [] then [""]
    else
      var rest := Split(s[1..], c);
      if s[0] == c then
        assert ([""] + rest)[1..] == rest;
        [""] + rest
      else
        var r := [[s[0]] + rest[0]] + rest[1..];
        assert r[1..] == rest[1..];
        assert s == [s[0]] + s[1..];
        assert c !in [s[0]] + rest[0];
        r
  }

  lemma {:induction false} SplitNoSeparator(a: string, c: char)
    requires c !in a
    ensures Split(a, c) == [a]
  {
    if a != [] {
      SplitNoSeparator(a[1..], c);
      assert [a[0]] + a[1..] == a;
    }
  }

  lemma {:induction false} SplitSeparated(a: string, c: char, t: string)
    requires c !in a
    ensures Split(a + [c] + t, c) == [a] + Split(t, c)
  {
    var s := a + [c] + t;
    if a == [] {
      assert s[1..] == t;
    } else {
      assert s[1..] == a[1..] + [c] + t;
      SplitSeparated(a[1..], c, t);
      assert [a[0]] + a[1..] == a;
    }
  }

  /** Splitting a join on a separator no piece contains gives the pieces back. */
  lemma {:induction false} SplitJoin(xs: seq<string>, c: char)
    requires |xs| >= 1
    requires forall i :: 0 <= i < |xs| ==> c !in xs[i]
    ensures Split(Join(xs, [c]), c) == xs
  {
    if |xs| == 1 {
      SplitNoSeparator(xs[0], c);
    } else {
      SplitJoin(xs[1..], c);
      SplitSeparated(xs[0], c, Join(xs[1..], [c]));
      assert [xs[0]] + xs[1..] == xs;
    }
  }

  /** A join contains no character that neither the pieces nor the separator hold. */
  lemma {:induction false} JoinAvoids(xs: seq<string>, sep: string, c: char)
    requires forall i :: 0 <= i < |xs| ==> c !in xs[i]
    requires c !in sep
    ensures c !in Join(xs, sep)
  {
    if |xs| > 1 {
      JoinAvoids(xs[1..], sep, c);
    }
  }

  /** `xs.slice(0, n)` for `n >= 0`: the first at most `n` elements. */
  function Take<T>(xs: seq<T>, n: nat): (r: seq<T>)
    ensures |r| <= n && |r| <= |xs|
    ensures r == xs[..|r|]
    ensures |r| == n || r == xs
  {
    if |xs| <= n then xs else xs[..n]
  }

  /** Each element of `xs` with `p` in front (`"- " + x` in the text exports). */
  function PrefixEach(p: string, xs: seq<string>): (r: seq<string>)
    ensures |r| == |xs|
    ensures forall i :: 0 <= i < |xs| ==> r[i] == p + xs[i]
  {
    if xs == [] then [] else [p + xs[0]] + PrefixEach(p, xs[1..])
  }

  // ---------------------------------------------------------------------------
  // Subsequences

  /** `xs` is `ys` with some elements left out, the rest kept in order. */
  predicate IsSubseq<T(==)>(xs: seq<T>, ys: seq<T>)
    decreases |ys|
  {
    if xs == [] then true
    else if ys == [] then false
    else if xs[|xs| - 1] == ys[|ys| - 1] then IsSubseq(xs[..|xs| - 1], ys[..|ys| - 1])
    else IsSubseq(xs, ys[..|ys| - 1])
  }

  /** Keeping a new last element keeps a subsequence. */
  lemma SubseqKeep<T>(xs: seq<T>, ys: seq<T>, x: T)
    requires IsSubseq(xs, ys)
    ensures IsSubseq(xs + [x], ys + [x])
  {
    assert (xs + [x])[..|xs|] == xs;
    assert (ys + [x])[..|ys|] == ys;
  }

  /** Skipping a new last element keeps a subsequence. */
  lemma {:induction false} SubseqSkip<T>(xs: seq<T>, ys: seq<T>, x: T)
    requires IsSubseq(xs, ys)
    ensures IsSubseq(xs, ys + [x])
    decreases |ys|, 1
  {
    assert (ys + [x])[..|ys|] == ys;
    if xs != [] && xs[|xs| - 1] == x {
      SubseqDropLast(xs, ys);
    }
  }

  /** Dropping the last element of a subsequence keeps a subsequence. */
  lemma {:induction false} SubseqDropLast<T>(xs: seq<T>, ys: seq<T>)
    requires xs != [] && IsSubseq(xs, ys)
    ensures IsSubseq(xs[..|xs| - 1], ys)
    decreases |ys|, 0
  {
    var ys' := ys[..|ys| - 1];
    assert ys == ys' + [ys[|ys| - 1]];
    if xs[|xs| - 1] == ys[|ys| - 1] {
      SubseqSkip(xs[..|xs| - 1], ys', ys[|ys| - 1]);
    } else {
      SubseqDropLast(xs, ys');
      SubseqSkip(xs[..|xs| - 1], ys', ys[|ys| - 1]);
    }
  }

  /** A new last element, kept or skipped, keeps a subsequence. */
  lemma SubseqStep<T>(xs: seq<T>, ys: seq<T>, x: T, keep: bool)
    requires IsSubseq(xs, ys)
    ensures IsSubseq(xs + (if keep then [x] else []), ys + [x])
  {
    if keep { SubseqKeep(xs, ys, x); } else { assert xs + [] == xs; SubseqSkip(xs, ys, x); }
  }

  /** Every element of a subsequence is an element of the whole. */
  lemma {:induction false} SubseqMembers<T>(xs: seq<T>, ys: seq<T>)
    requires IsSubseq(xs, ys)
    ensures forall x :: x in xs ==> x in ys
    decreases |ys|
  {
    if xs != [] {
      var ys' := ys[..|ys| - 1];
      if xs[|xs| - 1] == ys[|ys| - 1] {
        SubseqMembers(xs[..|xs| - 1], ys');
        assert xs == xs[..|xs| - 1] + [xs[|xs| - 1]];
      } else {
        SubseqMembers(xs, ys');
      }
      assert ys == ys' + [ys[|ys| - 1]];
    }
  }

  // ---------------------------------------------------------------------------
  // Decimal numbers

  predicate IsDigit(c: char) {
    '0' <= c <= '9'
  }

  predicate AllDigits(s: string) {
    forall i :: 0 <= i < |s| ==> IsDigit(s[i])
  }

  function DigitChar(d: nat): (c: char)
    requires d < 10
    ensures IsDigit(c)
  {
    ('0' as int + d) as char
  }

  /** Decimal rendering of a natural number, without leading zeros. */
  function NatToString(n: nat): (r: string)
    ensures r != [] && AllDigits(r)
    ensures |r| > 1 ==> r[0] != '0'
  {
    if n < 10 then [DigitChar(n)] else NatToString(n / 10) + [DigitChar(n % 10)]
  }

  /** `String(n)` for an integer. */
  function IntToString(n: int): (r: string)
    ensures r != [] && (IsDigit(r[0]) || r[0] == '-')
  {
    if n < 0 then "-" + NatToString(-n) else NatToString(n)
  }

  /** The value of a string of decimal digits. */
  function DigitsValue(d: string): nat
    requires AllDigits(d)
  {
    if d == [] then 0 else DigitsValue(d[..|d| - 1]) * 10 + (d[|d| - 1] as int - '0' as int)
  }

  /** The longest prefix of `s` made of decimal digits. */
  function DigitPrefix(s: string): (r: string)
    ensures AllDigits(r)
    ensures |r| <= |s| && r == s[..|r|]
    ensures |r| == |s| || !IsDigit(s[|r|])
  {
    if s != [] && IsDigit(s[0]) then [s[0]] + DigitPrefix(s[1..]) else []
  }

  /** `parseInt(s, 10)`: leading white space, an optional sign and the longest run of
      digits after it; `None` (JavaScript's NaN) when there is no digit. */
  function ParseInt(s: string): Option<int> {
    var t := TrimStart(s);
    var signed := t != [] && (t[0] == '-' || t[0] == '+');
    var d := DigitPrefix(if signed then t[1..] else t);
    if d == [] then None
    else if signed && t[0] == '-' then Some(-(DigitsValue(d) as int))
    else Some(DigitsValue(d))
  }

  lemma {:induction false} NatToStringValue(n: nat)
    ensures DigitsValue(NatToString(n)) == n
  {
    if n >= 10 {
      NatToStringValue(n / 10);
      var s := NatToString(n);
      assert s[..|s| - 1] == NatToString(n / 10);
    }
  }

  lemma DigitPrefixOfDigits(d: string)
    requires AllDigits(d)
    ensures DigitPrefix(d) == d
  {
  }

  lemma TrimStartOfNonWhite(s: string)
    requires s != [] && !IsWhite(s[0])
    ensures TrimStart(s) == s
  {
  }

  /** A run of digits parses to its value. */
  lemma ParseIntOfDigits(d: string)
    requires d != [] && AllDigits(d)
    ensures ParseInt(d) == Some(DigitsValue(d) as int)
  {
    assert IsDigit(d[0]);
    TrimStartOfNonWhite(d);
    DigitPrefixOfDigits(d);
  }

  /** A minus sign followed by a run of digits parses to the negated value. */
  lemma ParseIntOfNegative(d: string)
    requires d != [] && AllDigits(d)
    ensures ParseInt("-" + d) == Some(-(DigitsValue(d) as int))
  {
    var m := ['-'] + d;
    assert m[0] == '-' && m[1..] == d;
    TrimStartOfNonWhite(m);
    DigitPrefixOfDigits(d);
    assert DigitPrefix(TrimStart(m)[1..]) == d;
  }

  /** `parseInt` reads back what `String` writes for every integer. */
  lemma ParseIntOfIntToString(n: int)
    ensures ParseInt(IntToString(n)) == Some(n)
  {
    var d := NatToString(if n < 0 then -n else n);
    NatToStringValue(if n < 0 then -n else n);
    if n < 0 {
      ParseIntOfNegative(d);
    } else {
      ParseIntOfDigits(d);
    }
  }

  /** `"1. x1"`, `"2. x2"`, …: the elements of `xs` numbered from `start`. */
  function NumberedFrom(xs: seq<string>, start: int): (r: seq<string>)
    ensures |r| == |xs|
    ensures forall i :: 0 <= i < |xs| ==> r[i] == IntToString(start + i) + ". " + xs[i]
  {
    if xs == [] then [] else [IntToString(start) + ". " + xs[0]] + NumberedFrom(xs[1..], start + 1)
  }

  /** `xs.map((x, i) => `${i + 1}. ${x}`).join("\n")` */
  function NumberedList(xs: seq<string>): string {
    Join(NumberedFrom(xs, 1), "\n")
  }

  /** Numbering one-line items keeps them one line each. */
  lemma NumberedOneLine(xs: seq<string>)
    requires forall i :: 0 <= i < |xs| ==> '\n' !in xs[i]
    ensures forall i :: 0 <= i < |xs| ==> '\n' !in NumberedFrom(xs, 1)[i]
  {
    var ys := NumberedFrom(xs, 1);
    forall i | 0 <= i < |ys| ensures '\n' !in ys[i] {
      NumberHasNoNewline(1 + i);
      assert ys[i] == IntToString(1 + i) + ". " + xs[i];
    }
  }

  /** A number's decimal text holds no line break. */
  lemma NumberHasNoNewline(n: int)
    ensures '\n' !in IntToString(n)
  {
    var d := NatToString(if n < 0 then -n else n);
    assert !IsDigit('\n');
    if n < 0 {
      assert IntToString(n) == "-" + d;
    }
  }

  /** A numbered list begins with "1. ". */
  lemma NumberedListHead(xs: seq<string>)
    requires xs != []
    ensures NumberedList(xs)[0] == '1'
  {
    var ys := NumberedFrom(xs, 1);
    assert IntToString(1) == "1";
    assert ys[0] == "1" + ". " + xs[0];
    JoinHead(ys, "\n");
    assert NumberedList(xs)[..|ys[0]|] == ys[0];
  }

  /** Read line by line, a numbered list of one-line items gives the numbered
      items back. */
  lemma NumberedListLines(xs: seq<string>)
    requires xs != []
    requires forall i :: 0 <= i < |xs| ==> '\n' !in xs[i]
    ensures Split(NumberedList(xs), '\n') == NumberedFrom(xs, 1)
  {
    NumberedOneLine(xs);
    SplitJoin(NumberedFrom(xs, 1), '\n');
  }
}
