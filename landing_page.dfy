/** The landing page's producer tester: it turns the raw assets returned by the
    producer service into four de-duplicated buckets (hooks, on-screen overlays,
    captions, hashtags) and exports them as text or as a JSON document. */
module LandingPage {
  import opened Text
  import opened Js

  const TopK: nat := 5

  /** The editable producer inputs. */
  datatype Form = Form(brandName: string, product: string, offer: string, website: string, market: string)

  /** The derived buckets. */
  datatype Buckets = Buckets(hooks: seq<string>, overlays: seq<string>, captions: seq<string>, hashtags: seq<string>)

  // ---------------------------------------------------------------------------
  // Cleaning

  /** `safeText(v)`: "" for `null` and `undefined`, otherwise `String(v)`. */
  function SafeText(v: Option<Json>): (r: string)
    ensures v.None? || v == Some(JNull) ==> r == ""
    ensures v.Some? && v.value.JStr? ==> r == v.value.s
  {
    if v.None? || v.value.JNull? then "" else ToStr(v.value)
  }

  /** `cleanLine(v)`: the text on one line, every run of white space turned into a
      single space, nothing at either end; "" when the text is blank. */
  function CleanLine(v: Option<Json>): string {
    CleanText(SafeText(v))
  }

  /** A cleaned line is one tidy line: no line break, no white space at either
      end or doubled, every other character of the text kept in order, and empty
      exactly when the text is blank. */
  lemma CleanLineIsClean(v: Option<Json>)
    ensures var r := CleanLine(v);
            IsTrimmed(r) && SingleSpaced(r) && '\n' !in r &&
            NonWhite(r) == NonWhite(SafeText(v)) &&
            (r == "" <==> AllWhite(SafeText(v)))
  {
    CleanTextIsClean(SafeText(v));
    CleanTextHasNoNewline(SafeText(v));
  }

  /** Two words of a line with white space between them come out with exactly
      one space between them. */
  lemma CleanLineWords(a: string, w: string, b: string)
    requires a != [] && IsTrimmed(a) && b != [] && IsTrimmed(b)
    requires w != [] && AllWhite(w)
    ensures CleanLine(Some(JStr(a + w + b))) == CleanLine(Some(JStr(a))) + " " + CleanLine(Some(JStr(b)))
  {
    CleanTextWords(a, w, b);
  }

  /** A line is worth a bucket entry only when it is not empty: what the
      `if (x) list.push(x)` guards push. */
  function NonEmpty(s: string): seq<string> {
    if s == "" then [] else [s]
  }

  /** One-line, non-empty entries. */
  predicate Entries(xs: seq<string>) {
    forall i :: 0 <= i < |xs| ==> xs[i] != "" && '\n' !in xs[i]
  }

  lemma EntriesAppend(xs: seq<string>, ys: seq<string>)
    requires Entries(xs) && Entries(ys)
    ensures Entries(xs + ys)
  {
    forall i | 0 <= i < |xs + ys| ensures (xs + ys)[i] != "" && '\n' !in (xs + ys)[i] {
      if i >= |xs| { assert (xs + ys)[i] == ys[i - |xs|]; }
    }
  }

  // ---------------------------------------------------------------------------
  // Specification of the bucket derivation

  /** The cleaned, non-empty values of property `key` of the assets, in order. */
  function FieldLines(assets: seq<Json>, key: string): seq<string> {
    if assets == [] then []
    else FieldLines(assets[..|assets| - 1], key) + NonEmpty(CleanLine(Get(Some(assets[|assets| - 1]), key)))
  }

  /** The cleaned, non-empty hashtags, in order. */
  function CleanTags(tags: seq<Json>): seq<string> {
    if tags == [] then []
    else CleanTags(tags[..|tags| - 1]) + NonEmpty(CleanLine(Some(tags[|tags| - 1])))
  }

  /** The hashtags of one asset; nothing when `hashtags` is not an array. */
  function AssetTags(asset: Json): seq<string> {
    CleanTags(ItemsOf(Get(Some(asset), "hashtags")))
  }

  /** The hashtags of all assets, flattened in the order met. */
  function TagLines(assets: seq<Json>): seq<string> {
    if assets == [] then []
    else TagLines(assets[..|assets| - 1]) + AssetTags(assets[|assets| - 1])
  }

  /** Every collected value is one non-empty line. */
  lemma {:induction false} FieldLinesEntries(assets: seq<Json>, key: string)
    ensures Entries(FieldLines(assets, key))
  {
    if assets != [] {
      FieldLinesEntries(assets[..|assets| - 1], key);
      CleanLineIsClean(Get(Some(assets[|assets| - 1]), key));
      EntriesAppend(FieldLines(assets[..|assets| - 1], key),
                    NonEmpty(CleanLine(Get(Some(assets[|assets| - 1]), key))));
    }
  }

  lemma {:induction false} CleanTagsEntries(tags: seq<Json>)
    ensures Entries(CleanTags(tags))
  {
    if tags != [] {
      CleanTagsEntries(tags[..|tags| - 1]);
      CleanLineIsClean(Some(tags[|tags| - 1]));
      EntriesAppend(CleanTags(tags[..|tags| - 1]), NonEmpty(CleanLine(Some(tags[|tags| - 1]))));
    }
  }

  lemma {:induction false} TagLinesEntries(assets: seq<Json>)
    ensures Entries(TagLines(assets))
  {
    if assets != [] {
      TagLinesEntries(assets[..|assets| - 1]);
      CleanTagsEntries(ItemsOf(Get(Some(assets[|assets| - 1]), "hashtags")));
      EntriesAppend(TagLines(assets[..|assets| - 1]), AssetTags(assets[|assets| - 1]));
    }
  }

  // ---------------------------------------------------------------------------
  // De-duplication

  /** The lower-cased keys of `xs`. */
  function Keys(xs: seq<string>): set<string> {
    if xs == [] then {} else Keys(xs[..|xs| - 1]) + {ToLower(xs[|xs| - 1])}
  }

  /** A key is in `Keys(xs)` exactly when some element of `xs` lower-cases to it. */
  lemma {:induction false} KeysMember(xs: seq<string>, k: string)
    ensures k in Keys(xs) <==> exists i :: 0 <= i < |xs| && ToLower(xs[i]) == k
  {
    if xs != [] {
      var init := xs[..|xs| - 1];
      KeysMember(init, k);
      assert forall i :: 0 <= i < |init| ==> init[i] == xs[i];
      if ToLower(xs[|xs| - 1]) == k {
        assert ToLower(xs[|xs| - 1]) == k;
      }
    }
  }

  /** `dedupe(arr)`: each element whose lower-cased key has not been seen before. */
  function Deduped(xs: seq<string>): seq<string> {
    if xs == [] then []
    else
      var init := xs[..|xs| - 1];
      var x := xs[|xs| - 1];
      if ToLower(x) in Keys(init) then Deduped(init) else Deduped(init) + [x]
  }

  /** `dedupe` as the page runs it: a `seen` set of keys and an output list
      filled in one pass. */
  method Dedupe(arr: seq<string>) returns (out: seq<string>)
    ensures out == Deduped(arr)
  {
    var seen: set<string> := {};
    out := [];
    var i := 0;
    while i < |arr|
      invariant 0 <= i <= |arr|
      invariant out == Deduped(arr[..i])
      invariant seen == Keys(arr[..i])
    {
      var x := arr[i];
      var key := ToLower(x);
      assert arr[..i + 1][..i] == arr[..i];
      if key !in seen {
        seen := seen + {key};
        out := out + [x];
      }
      i := i + 1;
    }
    assert arr[..|arr|] == arr;
  }

  /** De-duplication keeps a subsequence of its input: nothing added, order kept. */
  lemma {:induction false} DedupedSubseq(xs: seq<string>)
    ensures IsSubseq(Deduped(xs), xs)
  {
    if xs != [] {
      var init := xs[..|xs| - 1];
      var x := xs[|xs| - 1];
      DedupedSubseq(init);
      SubseqStep(Deduped(init), init, x, ToLower(x) !in Keys(init));
      assert xs == init + [x];
      assert Deduped(init) + [] == Deduped(init);
    }
  }

  /** De-duplication loses no key. */
  lemma {:induction false} DedupedKeys(xs: seq<string>)
    ensures Keys(Deduped(xs)) == Keys(xs)
  {
    if xs != [] {
      var init := xs[..|xs| - 1];
      var x := xs[|xs| - 1];
      DedupedKeys(init);
      if ToLower(x) !in Keys(init) {
        var d := Deduped(init);
        assert (d + [x])[..|d|] == d;
      }
    }
  }

  /** No two entries of a de-duplicated list have the same lower-cased key. */
  lemma {:induction false} DedupedDistinct(xs: seq<string>)
    ensures var r := Deduped(xs);
            forall i, j :: 0 <= i < j < |r| ==> ToLower(r[i]) != ToLower(r[j])
  {
    if xs != [] {
      var init := xs[..|xs| - 1];
      var x := xs[|xs| - 1];
      DedupedDistinct(init);
      DedupedKeys(init);
      var d := Deduped(init);
      if ToLower(x) !in Keys(init) {
        var r := d + [x];
        forall i, j | 0 <= i < j < |r| ensures ToLower(r[i]) != ToLower(r[j]) {
          if j == |d| {
            assert r[i] == d[i];
            KeysMember(d, ToLower(d[i]));
          }
        }
      }
    }
  }

  /** The first element with a given lower-cased key is always kept. */
  lemma {:induction false} DedupedKeepsFirst(xs: seq<string>, j: nat)
    requires j < |xs|
    requires forall k :: 0 <= k < j ==> ToLower(xs[k]) != ToLower(xs[j])
    ensures xs[j] in Deduped(xs)
  {
    var init := xs[..|xs| - 1];
    var x := xs[|xs| - 1];
    if j == |xs| - 1 {
      KeysMember(init, ToLower(x));
    } else {
      DedupedKeepsFirst(init, j);
      assert Deduped(init) <= Deduped(xs);
    }
  }

  // ---------------------------------------------------------------------------
  // The bucket derivation

  /** `cut(arr)`: the first five entries when only the top ones are wanted. */
  function Cut(xs: seq<string>, topOnly: bool): (r: seq<string>)
    ensures topOnly ==> |r| <= TopK && |r| <= |xs| && r == xs[..|r|] && (|r| == TopK || r == xs)
    ensures !topOnly ==> r == xs
  {
    if topOnly then Take(xs, TopK) else xs
  }

  /** The buckets for a list of assets, as the specification functions give them. */
  function BucketsOf(assets: Json, topOnly: bool): Buckets {
    var list := ItemsOf(Some(assets));
    Buckets(Cut(Deduped(FieldLines(list, "hook")), topOnly),
            Cut(Deduped(FieldLines(list, "on_screen_overlay")), topOnly),
            Cut(Deduped(FieldLines(list, "caption")), topOnly),
            Cut(Deduped(TagLines(list)), topOnly))
  }

  lemma {:induction false} DedupedEntries(xs: seq<string>)
    requires Entries(xs)
    ensures Entries(Deduped(xs))
  {
    DedupedSubseq(xs);
    SubseqMembers(Deduped(xs), xs);
    forall i | 0 <= i < |Deduped(xs)| ensures Deduped(xs)[i] != "" && '\n' !in Deduped(xs)[i] {
      assert Deduped(xs)[i] in xs;
    }
  }

  /** The properties of one bucket: one-line, non-empty entries, a subsequence of
      the collected lines, distinct lower-cased keys, and at most five entries when
      only the top ones are wanted. */
  predicate GoodBucket(b: seq<string>, lines: seq<string>, topOnly: bool) {
    Entries(b) && (topOnly ==> |b| <= TopK) &&
    (forall i, j :: 0 <= i < j < |b| ==> ToLower(b[i]) != ToLower(b[j])) &&
    IsSubseq(b, lines)
  }

  lemma {:induction false} BucketFromLines(lines: seq<string>, topOnly: bool)
    requires Entries(lines)
    ensures GoodBucket(Cut(Deduped(lines), topOnly), lines, topOnly)
  {
    var d := Deduped(lines);
    var b := Cut(d, topOnly);
    DedupedEntries(lines);
    DedupedDistinct(lines);
    DedupedSubseq(lines);
    assert b == d[..|b|];
    PrefixSubseq(d, |b|, lines);
  }

  /** A prefix of a subsequence is a subsequence. */
  lemma {:induction false} PrefixSubseq(d: seq<string>, n: nat, lines: seq<string>)
    requires n <= |d| && IsSubseq(d, lines)
    ensures IsSubseq(d[..n], lines)
    decreases |d| - n
  {
    if n < |d| {
      PrefixSubseq(d, n + 1, lines);
      var p := d[..n + 1];
      assert |p| - 1 == n && p[..n] == d[..n];
      SubseqDropLast(p, lines);
    } else {
      assert d[..n] == d;
    }
  }

  lemma CleanTagsStep(tags: seq<Json>, m: nat)
    requires m < |tags|
    ensures CleanTags(tags[..m + 1]) == CleanTags(tags[..m]) + NonEmpty(CleanLine(Some(tags[m])))
  {
    assert tags[..m + 1][..m] == tags[..m] && tags[..m + 1][m] == tags[m];
  }

  lemma FieldLinesStep(list: seq<Json>, n: nat, key: string)
    requires n < |list|
    ensures FieldLines(list[..n + 1], key) == FieldLines(list[..n], key) + NonEmpty(CleanLine(Get(Some(list[n]), key)))
  {
    assert list[..n + 1][..n] == list[..n] && list[..n + 1][n] == list[n];
  }

  lemma TagLinesStep(list: seq<Json>, n: nat)
    requires n < |list|
    ensures TagLines(list[..n + 1]) == TagLines(list[..n]) + AssetTags(list[n])
  {
    assert list[..n + 1][..n] == list[..n] && list[..n + 1][n] == list[n];
  }

  /** The cleaned, non-empty hashtags of one asset, collected one by one (the
      inner `forEach` of the `buckets` memo). */
  method CollectTags(tags: seq<Json>) returns (r: seq<string>)
    ensures r == CleanTags(tags)
  {
    r := [];
    var m := 0;
    while m < |tags|
      invariant 0 <= m <= |tags|
      invariant r == CleanTags(tags[..m])
    {
      var tag := CleanLine(Some(tags[m]));
      CleanTagsStep(tags, m);
      r := r + NonEmpty(tag);
      m := m + 1;
    }
    assert tags[..m] == tags;
  }

  /** The first half of the `buckets` memo: one pass over the assets collecting
      the four lists of cleaned, non-empty lines. */
  method CollectLines(list: seq<Json>) returns (hooks: seq<string>, overlays: seq<string>,
                                                 captions: seq<string>, hashtags: seq<string>)
    ensures hooks == FieldLines(list, "hook")
    ensures overlays == FieldLines(list, "on_screen_overlay")
    ensures captions == FieldLines(list, "caption")
    ensures hashtags == TagLines(list)
  {
    hooks, overlays, captions, hashtags := [], [], [], [];
    var n := 0;
    while n < |list|
      invariant 0 <= n <= |list|
      invariant hooks == FieldLines(list[..n], "hook")
      invariant overlays == FieldLines(list[..n], "on_screen_overlay")
      invariant captions == FieldLines(list[..n], "caption")
      invariant hashtags == TagLines(list[..n])
    {
      var a := list[n];
      FieldLinesStep(list, n, "hook");
      FieldLinesStep(list, n, "on_screen_overlay");
      FieldLinesStep(list, n, "caption");
      TagLinesStep(list, n);
      var h := CleanLine(Get(Some(a), "hook"));
      var o := CleanLine(Get(Some(a), "on_screen_overlay"));
      var c := CleanLine(Get(Some(a), "caption"));
      hooks := hooks + NonEmpty(h);
      overlays := overlays + NonEmpty(o);
      captions := captions + NonEmpty(c);
      var tags := CollectTags(ItemsOf(Get(Some(a), "hashtags")));
      hashtags := hashtags + tags;
      n := n + 1;
    }
    assert list[..|list|] == list;
  }

  /** The `buckets` memo: the lines collected from the assets, then `dedupe` and
      `cut` on each list. */
  method DeriveBuckets(assets: Json, topOnly: bool) returns (b: Buckets)
    ensures b == BucketsOf(assets, topOnly)
    ensures var list := ItemsOf(Some(assets));
            GoodBucket(b.hooks, FieldLines(list, "hook"), topOnly) &&
            GoodBucket(b.overlays, FieldLines(list, "on_screen_overlay"), topOnly) &&
            GoodBucket(b.captions, FieldLines(list, "caption"), topOnly) &&
            GoodBucket(b.hashtags, TagLines(list), topOnly)
  {
    var list := ItemsOf(Some(assets));
    var hooks, overlays, captions, hashtags := CollectLines(list);
    FieldLinesEntries(list, "hook");
    FieldLinesEntries(list, "on_screen_overlay");
    FieldLinesEntries(list, "caption");
    TagLinesEntries(list);
    var h2 := Dedupe(hooks);
    var o2 := Dedupe(overlays);
    var c2 := Dedupe(captions);
    var t2 := Dedupe(hashtags);
    b := Buckets(Cut(h2, topOnly), Cut(o2, topOnly), Cut(c2, topOnly), Cut(t2, topOnly));
    BucketFromLines(hooks, topOnly);
    BucketFromLines(overlays, topOnly);
    BucketFromLines(captions, topOnly);
    BucketFromLines(hashtags, topOnly);
  }

  /** `hasAnyOutput()`: the first non-zero bucket length, which is truthy exactly
      when some bucket has an entry. */
  function HasAnyOutput(b: Buckets): (r: nat)
    ensures r != 0 <==> b.hooks != [] || b.overlays != [] || b.captions != [] || b.hashtags != []
  {
    if |b.hooks| != 0 then |b.hooks|
    else if |b.overlays| != 0 then |b.overlays|
    else if |b.captions| != 0 then |b.captions|
    else |b.hashtags|
  }

  // ---------------------------------------------------------------------------
  // Text export

  /** The rules under the inputs and after the last section: 60 '=' and 60 '-'. */
  const Rule: string := Repeat('=', 60)
  const ThinRule: string := Repeat('-', 60)

  /** `n` copies of `c`. */
  function Repeat(c: char, n: nat): (r: string)
    ensures |r| == n && forall i :: 0 <= i < n ==> r[i] == c
  {
    seq(n, i => c)
  }

  /** `${TOP_K}` */
  const TopKText := "5"

  lemma TopKTextIsTopK()
    ensures ParseInt(TopKText) == Some(TopK as int)
  {
    ParseIntOfIntToString(5);
    assert IntToString(5) == "5";
  }

  /** The header lines: title, time stamp, the inputs and the `top_k` line. */
  function HeaderLines(form: Form, now: string, topOnly: bool): (r: seq<string>)
    ensures |r| == 13
    ensures r[9] == "top_k: " + (if topOnly then "5" else "none")
  {
    ["ViralPack.ai, Producer Output", "Generated: " + now, "", "INPUTS",
     "brand_name: " + form.brandName, "product: " + form.product, "offer: " + form.offer,
     "website: " + form.website, "market: " + form.market,
     "top_k: " + (if topOnly then TopKText else "none"), "", Rule, ""]
  }

  /** A titled section: the title, one line per entry, a blank line. */
  function Section(title: string, lines: seq<string>): seq<string> {
    [title] + lines + [""]
  }

  /** The lines of `buildBucketText`: the header, then the four sections in the
      order hooks, overlays, captions, hashtags, the first three with "- " before
      each entry and the hashtags bare, then a closing rule. */
  function BucketTextLines(form: Form, now: string, topOnly: bool, b: Buckets): seq<string> {
    HeaderLines(form, now, topOnly) + BodyLines(b)
  }

  /** The four sections and the closing rule. */
  function BodyLines(b: Buckets): seq<string> {
    Section("TOP HOOKS", PrefixEach("- ", b.hooks))
      + (Section("ON SCREEN OVERLAYS", PrefixEach("- ", b.overlays))
      + (Section("CAPTIONS", PrefixEach("- ", b.captions))
      + (Section("HASHTAGS", b.hashtags)
      + [ThinRule, ""])))
  }

  /** Pushes one section: its title, one line per entry with `prefix` in front
      (the `forEach`), then a blank line. */
  method PushSection(lines: seq<string>, title: string, prefix: string, items: seq<string>)
    returns (r: seq<string>)
    ensures r == lines + Section(title, PrefixEach(prefix, items))
  {
    r := lines + [title];
    var i := 0;
    while i < |items|
      invariant 0 <= i <= |items|
      invariant r == lines + [title] + PrefixEach(prefix, items[..i])
    {
      PrefixEachStep(prefix, items, i);
      r := r + [prefix + items[i]];
      i := i + 1;
    }
    assert items[..|items|] == items;
    r := r + [""];
  }

  lemma PrefixEachStep(prefix: string, items: seq<string>, i: nat)
    requires i < |items|
    ensures PrefixEach(prefix, items[..i + 1]) == PrefixEach(prefix, items[..i]) + [prefix + items[i]]
  {
    var a := PrefixEach(prefix, items[..i + 1]);
    var b := PrefixEach(prefix, items[..i]) + [prefix + items[i]];
    assert |a| == |b|;
    forall k | 0 <= k < |a| ensures a[k] == b[k] {
      if k < i {
        assert items[..i + 1][k] == items[..i][k];
      }
    }
  }

  lemma PrefixNothing(xs: seq<string>)
    ensures PrefixEach("", xs) == xs
  {
    forall i | 0 <= i < |xs| ensures PrefixEach("", xs)[i] == xs[i] {
      assert "" + xs[i] == xs[i];
    }
  }

  lemma Regroup<T>(a: seq<T>, b: seq<T>, c: seq<T>, d: seq<T>, e: seq<T>, f: seq<T>)
    ensures a + b + c + d + e + f == a + (b + (c + (d + (e + f))))
  {
    assert e + f == (e + f);
    assert d + e + f == d + (e + f);
    assert c + d + (e + f) == c + (d + (e + f));
    assert b + c + (d + (e + f)) == b + (c + (d + (e + f)));
  }

  /** `buildBucketText(buckets)`: the lines pushed one by one, joined by line breaks. */
  method BuildBucketText(form: Form, now: string, topOnly: bool, b: Buckets) returns (text: string)
    ensures text == Join(BucketTextLines(form, now, topOnly, b), "\n")
  {
    var hdr := HeaderLines(form, now, topOnly);
    var lines := PushSection(hdr, "TOP HOOKS", "- ", b.hooks);
    ghost var s1 := Section("TOP HOOKS", PrefixEach("- ", b.hooks));
    lines := PushSection(lines, "ON SCREEN OVERLAYS", "- ", b.overlays);
    ghost var s2 := Section("ON SCREEN OVERLAYS", PrefixEach("- ", b.overlays));
    lines := PushSection(lines, "CAPTIONS", "- ", b.captions);
    ghost var s3 := Section("CAPTIONS", PrefixEach("- ", b.captions));
    PrefixNothing(b.hashtags);
    lines := PushSection(lines, "HASHTAGS", "", b.hashtags);
    ghost var s4 := Section("HASHTAGS", b.hashtags);
    lines := lines + [ThinRule, ""];
    Regroup(hdr, s1, s2, s3, s4, [ThinRule, ""]);
    text := Join(lines, "\n");
  }

  predicate OneLine(xs: seq<string>) {
    forall i :: 0 <= i < |xs| ==> '\n' !in xs[i]
  }

  lemma OneLineAppend(xs: seq<string>, ys: seq<string>)
    requires OneLine(xs) && OneLine(ys)
    ensures OneLine(xs + ys)
  {
    forall i | 0 <= i < |xs + ys| ensures '\n' !in (xs + ys)[i] {
      if i >= |xs| { assert (xs + ys)[i] == ys[i - |xs|]; }
    }
  }

  lemma SectionOneLine(title: string, prefix: string, items: seq<string>)
    requires '\n' !in title && '\n' !in prefix && OneLine(items)
    ensures OneLine(Section(title, PrefixEach(prefix, items)))
  {
    var s := Section(title, PrefixEach(prefix, items));
    forall i | 0 <= i < |s| ensures '\n' !in s[i] {
      if 0 < i < |s| - 1 { assert s[i] == prefix + items[i - 1]; }
    }
  }

  lemma HeaderOneLine(form: Form, now: string, topOnly: bool)
    requires '\n' !in now
    requires OneLine([form.brandName, form.product, form.offer, form.website, form.market])
    ensures OneLine(HeaderLines(form, now, topOnly))
  {
    var fs := [form.brandName, form.product, form.offer, form.website, form.market];
    assert fs[0] == form.brandName && fs[1] == form.product && fs[2] == form.offer;
    assert fs[3] == form.website && fs[4] == form.market;
    assert '\n' !in Rule;
  }

  lemma BodyOneLine(b: Buckets)
    requires OneLine(b.hooks) && OneLine(b.overlays) && OneLine(b.captions) && OneLine(b.hashtags)
    ensures OneLine(BodyLines(b))
  {
    SectionOneLine("TOP HOOKS", "- ", b.hooks);
    SectionOneLine("ON SCREEN OVERLAYS", "- ", b.overlays);
    SectionOneLine("CAPTIONS", "- ", b.captions);
    SectionOneLine("HASHTAGS", "", b.hashtags);
    PrefixNothing(b.hashtags);
    assert '\n' !in ThinRule;
    var tail := [ThinRule, ""];
    var s4 := Section("HASHTAGS", b.hashtags) + tail;
    OneLineAppend(Section("HASHTAGS", b.hashtags), tail);
    var s3 := Section("CAPTIONS", PrefixEach("- ", b.captions)) + s4;
    OneLineAppend(Section("CAPTIONS", PrefixEach("- ", b.captions)), s4);
    var s2 := Section("ON SCREEN OVERLAYS", PrefixEach("- ", b.overlays)) + s3;
    OneLineAppend(Section("ON SCREEN OVERLAYS", PrefixEach("- ", b.overlays)), s3);
    OneLineAppend(Section("TOP HOOKS", PrefixEach("- ", b.hooks)), s2);
  }

  /** When no input field and no entry spans several lines, the exported text
      read line by line gives back exactly the pushed lines, so every entry can be
      found on its own line under its section title. */
  lemma BucketTextReadsBack(form: Form, now: string, topOnly: bool, b: Buckets)
    requires '\n' !in now
    requires OneLine([form.brandName, form.product, form.offer, form.website, form.market])
    requires OneLine(b.hooks) && OneLine(b.overlays) && OneLine(b.captions) && OneLine(b.hashtags)
    ensures Split(Join(BucketTextLines(form, now, topOnly, b), "\n"), '\n') == BucketTextLines(form, now, topOnly, b)
  {
    HeaderOneLine(form, now, topOnly);
    BodyOneLine(b);
    OneLineAppend(HeaderLines(form, now, topOnly), BodyLines(b));
    SplitJoin(BucketTextLines(form, now, topOnly, b), '\n');
  }

  // ---------------------------------------------------------------------------
  // JSON export

  datatype ExportRequest = ExportRequest(form: Form, topK: Option<nat>)
  datatype ExportBuckets = ExportBuckets(hooks: seq<string>, onScreenOverlays: seq<string>,
                                         captions: seq<string>, hashtags: seq<string>)
  /** The versioned export document `vp_pack_export_v2`: the request as sent, the
      upstream schema version, the raw assets and the derived buckets. */
  datatype ExportDoc = ExportDoc(generatedAt: string, request: ExportRequest, upstreamSchema: string,
                                 rawAssets: Json, buckets: ExportBuckets)

  /** `buildExportJson()`. */
  function BuildExportJson(now: string, form: Form, topOnly: bool, lastResponse: Json,
                           assets: Json, b: Buckets): (d: ExportDoc)
    ensures d.request.form == form
    ensures d.request.topK.Some? <==> topOnly
    ensures topOnly ==> d.request.topK == Some(TopK)
    ensures d.buckets.onScreenOverlays == b.overlays
    ensures d.buckets.hooks == b.hooks && d.buckets.captions == b.captions && d.buckets.hashtags == b.hashtags
    ensures d.rawAssets == assets
  {
    ExportDoc(now, ExportRequest(form, if topOnly then Some(TopK) else None),
              SafeText(Some(Or(Get(Some(lastResponse), "schema_version"), JStr("")))),
              assets,
              ExportBuckets(b.hooks, b.overlays, b.captions, b.hashtags))
  }

  /** Where each entry of the buckets sits among the body lines. */
  lemma BodyLayout(b: Buckets)
    ensures var body := BodyLines(b);
            var h, o, c := |b.hooks|, |b.overlays|, |b.captions|;
            |body| == 10 + h + o + c + |b.hashtags| &&
            body[0] == "TOP HOOKS" &&
            (forall i :: 0 <= i < h ==> body[1 + i] == "- " + b.hooks[i]) &&
            body[2 + h] == "ON SCREEN OVERLAYS" &&
            (forall i :: 0 <= i < o ==> body[3 + h + i] == "- " + b.overlays[i]) &&
            body[4 + h + o] == "CAPTIONS" &&
            (forall i :: 0 <= i < c ==> body[5 + h + o + i] == "- " + b.captions[i]) &&
            body[6 + h + o + c] == "HASHTAGS" &&
            (forall i :: 0 <= i < |b.hashtags| ==> body[7 + h + o + c + i] == b.hashtags[i])
  {
    BodyHooks(b);
    BodyOverlays(b);
    BodyCaptions(b);
    BodyHashtags(b);
  }

  lemma BodyOverlays(b: Buckets)
    ensures var off := 2 + |b.hooks|;
            off + 1 + |b.overlays| < |BodyLines(b)| &&
            BodyLines(b)[off] == "ON SCREEN OVERLAYS" &&
            forall i :: 0 <= i < |b.overlays| ==> BodyLines(b)[off + 1 + i] == "- " + b.overlays[i]
  {
    var s1 := Section("TOP HOOKS", PrefixEach("- ", b.hooks));
    var r2 := Section("CAPTIONS", PrefixEach("- ", b.captions)) + (Section("HASHTAGS", b.hashtags) + [ThinRule, ""]);
    SecondSection(s1, "ON SCREEN OVERLAYS", PrefixEach("- ", b.overlays), r2);
  }

  lemma BodyCaptions(b: Buckets)
    ensures var off := 4 + |b.hooks| + |b.overlays|;
            off + 1 + |b.captions| < |BodyLines(b)| &&
            BodyLines(b)[off] == "CAPTIONS" &&
            forall i :: 0 <= i < |b.captions| ==> BodyLines(b)[off + 1 + i] == "- " + b.captions[i]
  {
    var s1 := Section("TOP HOOKS", PrefixEach("- ", b.hooks));
    var s2 := Section("ON SCREEN OVERLAYS", PrefixEach("- ", b.overlays));
    var r3 := Section("HASHTAGS", b.hashtags) + [ThinRule, ""];
    ThirdSection(s1, s2, "CAPTIONS", PrefixEach("- ", b.captions), r3);
  }

  /** A section that follows `a` starts at `|a|`, its entries right after it. */
  lemma SecondSection(a: seq<string>, title: string, lines: seq<string>, r: seq<string>)
    ensures var s := a + (Section(title, lines) + r);
            |s| == |a| + |lines| + 2 + |r| && s[|a|] == title &&
            forall i :: 0 <= i < |lines| ==> s[|a| + 1 + i] == lines[i]
  {
  }

  /** A section that follows `a` and `b` starts at `|a| + |b|`. */
  lemma ThirdSection(a: seq<string>, b: seq<string>, title: string, lines: seq<string>, r: seq<string>)
    ensures var s := a + (b + (Section(title, lines) + r));
            |s| == |a| + |b| + |lines| + 2 + |r| && s[|a| + |b|] == title &&
            forall i :: 0 <= i < |lines| ==> s[|a| + |b| + 1 + i] == lines[i]
  {
    assert a + (b + (Section(title, lines) + r)) == (a + b) + (Section(title, lines) + r);
    SecondSection(a + b, title, lines, r);
  }

  lemma BodyHooks(b: Buckets)
    ensures |BodyLines(b)| == 10 + |b.hooks| + |b.overlays| + |b.captions| + |b.hashtags|
    ensures BodyLines(b)[0] == "TOP HOOKS"
    ensures forall i :: 0 <= i < |b.hooks| ==> BodyLines(b)[1 + i] == "- " + b.hooks[i]
  {
    var s1 := Section("TOP HOOKS", PrefixEach("- ", b.hooks));
    var body := BodyLines(b);
    forall i | 0 <= i < |b.hooks| ensures body[1 + i] == "- " + b.hooks[i] {
      assert body[1 + i] == s1[1 + i];
    }
  }

  lemma BodyHashtags(b: Buckets)
    ensures var off := 6 + |b.hooks| + |b.overlays| + |b.captions|;
            |BodyLines(b)| == off + |b.hashtags| + 4 &&
            BodyLines(b)[off] == "HASHTAGS" &&
            forall i :: 0 <= i < |b.hashtags| ==> BodyLines(b)[off + 1 + i] == b.hashtags[i]
  {
    var s1 := Section("TOP HOOKS", PrefixEach("- ", b.hooks));
    var s2 := Section("ON SCREEN OVERLAYS", PrefixEach("- ", b.overlays));
    var s3 := Section("CAPTIONS", PrefixEach("- ", b.captions));
    var r3 := Section("HASHTAGS", b.hashtags) + [ThinRule, ""];
    assert BodyLines(b) == s1 + (s2 + (s3 + r3));
    ThirdTail(s1, s2, s3, r3);
    SectionEntries("HASHTAGS", b.hashtags, [ThinRule, ""]);
  }

  lemma SectionEntries(title: string, lines: seq<string>, tail: seq<string>)
    ensures var s := Section(title, lines) + tail;
            |s| == |lines| + 2 + |tail| && s[0] == title &&
            forall i :: 0 <= i < |lines| ==> s[1 + i] == lines[i]
  {
  }

  /** In `a + (b + (c + d))`, the lines of `d` come after those of `a`, `b` and `c`. */
  lemma ThirdTail(a: seq<string>, b: seq<string>, c: seq<string>, d: seq<string>)
    ensures |a + (b + (c + d))| == |a| + |b| + |c| + |d|
    ensures forall k :: 0 <= k < |d| ==> (a + (b + (c + d)))[|a| + |b| + |c| + k] == d[k]
  {
    assert a + (b + (c + d)) == (a + b + c) + d;
  }

  /** The JSON export and the text export carry the same entries: the text's hook
      lines are the export's hooks with "- " in front, its hashtag lines the
      export's hashtags, each under its section title. */
  lemma ExportsAgree(now: string, form: Form, topOnly: bool, lastResponse: Json, assets: Json, b: Buckets)
    ensures var d := BuildExportJson(now, form, topOnly, lastResponse, assets, b);
            var lines := BucketTextLines(form, now, topOnly, b);
            var h, o, c := |b.hooks|, |b.overlays|, |b.captions|;
            |lines| == 23 + h + o + c + |b.hashtags| &&
            lines[13] == "TOP HOOKS" &&
            (forall i :: 0 <= i < |d.buckets.hooks| ==> lines[14 + i] == "- " + d.buckets.hooks[i]) &&
            lines[19 + h + o + c] == "HASHTAGS" &&
            (forall i :: 0 <= i < |d.buckets.hashtags| ==> lines[20 + h + o + c + i] == d.buckets.hashtags[i])
  {
    var hdr := HeaderLines(form, now, topOnly);
    var body := BodyLines(b);
    BodyLayout(b);
    var lines := hdr + body;
    forall k | 0 <= k < |body| ensures lines[13 + k] == body[k] { }
  }
}
