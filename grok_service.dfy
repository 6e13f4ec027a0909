/**
 * The text side of the bot (bot/services/grok_service.py): scraping a JSON
 * snippet out of an LLM reply, and chaining the three Grok steps
 * (keywords, SEO content, slide prompts) into one product analysis.
 *
 * The HTTP call and `json.loads` are not modelled: a `GrokBackend` supplies
 * the reply text for each request and the parse of each scraped snippet.
 */
module Grok {
  import opened Builtins

  // =====================================================================
  // extract_json_from_text

  const Fence: string := "```"
  const JsonTag: string := "json"

  /** The first index at or after `i` where a fence starts. */
  function FindFence(t: string, i: nat): (r: Option<nat>)
    requires i <= |t|
    ensures r.Some? ==> i <= r.value && OccursAt(t, Fence, r.value)
    ensures forall k :: i <= k && (r.None? || k < r.value) ==> !OccursAt(t, Fence, k)
    decreases |t| - i
  {
    if i + 3 > |t| then None
    else if OccursAt(t, Fence, i) then Some(i)
    else FindFence(t, i + 1)
  }

  /** Where the fence pattern matched: the opening fence, and the group `[body, close)`. */
  datatype FenceHit = FenceHit(open: nat, body: nat, close: nat)

  /**
   * The tail `\s*([\s\S]*?)```` of the fence pattern tried from index `p`:
   * the whitespace run is taken whole, then the group is the shortest
   * stretch that is followed by a fence.
   */
  function LazyBody(t: string, p: nat): (r: Option<(nat, nat)>)
    requires p <= |t|
    ensures r.Some? ==> p <= r.value.0 <= r.value.1 && OccursAt(t, Fence, r.value.1)
    ensures r.Some? ==> !Contains(t[r.value.0..r.value.1], Fence)
    // the group starts after the whole whitespace run and ends at the first fence after it
    ensures r.Some? ==> r.value.0 == SkipSpaces(t, p)
    ensures r.Some? ==> forall k :: r.value.0 <= k < r.value.1 ==> !OccursAt(t, Fence, k)
    // no closing fence after the whitespace run: the tail does not match
    ensures r.None? ==> forall k :: SkipSpaces(t, p) <= k <= |t| ==> !OccursAt(t, Fence, k)
  {
    var g := SkipSpaces(t, p);
    match FindFence(t, g)
    case None => None
    case Some(e) =>
      assert !Contains(t[g..e], Fence) by {
        var w := t[g..e];
        forall k | 0 <= k <= |w| - 3 ensures !OccursAt(w, Fence, k) {
          assert g <= g + k < e;
          assert !OccursAt(t, Fence, g + k);
          assert w[k..k + 3] == t[g + k..g + k + 3];
        }
      }
      Some((g, e))
  }

  /**
   * `\s*` may give characters back, but that never rescues a failed match:
   * from anywhere inside the whitespace run the first fence is the same.
   */
  lemma {:induction false} WhitespaceBacktrackingFindsSameFence(t: string, p: nat, q: nat)
    requires p <= |t| && p <= q <= SkipSpaces(t, p)
    ensures FindFence(t, q) == FindFence(t, SkipSpaces(t, p))
    decreases SkipSpaces(t, p) - q
  {
    if q < SkipSpaces(t, p) {
      assert IsSpace(t[q]);
      if q + 3 <= |t| {
        assert t[q..q + 3][0] == t[q];
        assert !OccursAt(t, Fence, q);
      }
      WhitespaceBacktrackingFindsSameFence(t, p, q + 1);
    }
  }

  /** The fence pattern anchored at `i`; `(?:json)?` tries the tag first. */
  function FenceMatchAt(t: string, i: nat): Option<(nat, nat)>
    requires i <= |t|
  {
    if !OccursAt(t, Fence, i) then None
    else if OccursAt(t, JsonTag, i + 3) && LazyBody(t, i + 7).Some? then LazyBody(t, i + 7)
    else LazyBody(t, i + 3)
  }

  /** When the tagged form finds no closing fence, the untagged one finds none either. */
  lemma UntaggedNeverRescuesTagged(t: string, i: nat)
    requires OccursAt(t, Fence, i) && OccursAt(t, JsonTag, i + 3)
    requires LazyBody(t, i + 7).None?
    ensures LazyBody(t, i + 3).None?
  {
    assert t[i + 3..i + 7] == JsonTag;
    assert t[i + 3] == 'j';
    assert SkipSpaces(t, i + 3) == i + 3;
    forall k | i + 3 <= k < i + 7 ensures !OccursAt(t, Fence, k) {
      assert t[k] == JsonTag[k - i - 3];
      if k + 3 <= |t| { assert t[k..k + 3][0] == t[k]; }
    }
    FindFenceSkips(t, i + 3, i + 7);
    WhitespaceBacktrackingFindsSameFence(t, i + 7, i + 7);
  }

  /** Searching from `i` is searching from `j` when no fence starts in between. */
  lemma {:induction false} FindFenceSkips(t: string, i: nat, j: nat)
    requires i <= j <= |t|
    requires forall k :: i <= k < j ==> !OccursAt(t, Fence, k)
    ensures FindFence(t, i) == FindFence(t, j)
    decreases j - i
  {
    if i < j { FindFenceSkips(t, i + 1, j); }
  }

  /** `re.search` with the fence pattern: the leftmost start at which it matches. */
  function FenceSearch(t: string, i: nat): (r: Option<FenceHit>)
    requires i <= |t|
    ensures r.Some? ==> i <= r.value.open <= |t| && FenceMatchAt(t, r.value.open) == Some((r.value.body, r.value.close))
    ensures r.Some? ==> forall j :: i <= j < r.value.open ==> FenceMatchAt(t, j).None?
    ensures r.None? ==> forall j :: i <= j <= |t| ==> FenceMatchAt(t, j).None?
    decreases |t| - i
  {
    match FenceMatchAt(t, i)
    case Some((g, e)) => Some(FenceHit(i, g, e))
    case None => if i == |t| then None else FenceSearch(t, i + 1)
  }

  /** The block found by `FenceSearch` lies after its opening fence and holds no fence itself. */
  lemma FenceHitShape(t: string, hit: FenceHit)
    requires FenceSearch(t, 0) == Some(hit)
    ensures OccursAt(t, Fence, hit.open) && OccursAt(t, Fence, hit.close)
    ensures hit.open + 3 <= hit.body <= hit.close
    ensures !Contains(t[hit.body..hit.close], Fence)
  {
  }

  predicate IsOpener(c: char) { c == '{' || c == '[' }

  function CloserOf(c: char): char { if c == '{' then '}' else ']' }

  /** Reference reading of `\{[\s\S]*\}|\[[\s\S]*\]` at `j`: an opener with its closer somewhere later. */
  ghost predicate HasSpanAt(t: string, j: int) {
    0 <= j < |t| && IsOpener(t[j]) && exists k :: j < k < |t| && t[k] == CloserOf(t[j])
  }

  /** Some position of `t` starts a span: the JSON pattern matches somewhere in `t`. */
  ghost predicate HasSomeSpan(t: string) {
    exists j :: HasSpanAt(t, j)
  }

  /** The last index `k` with `lo <= k < hi` and `t[k] == c`. */
  function LastIndexIn(t: string, c: char, lo: nat, hi: nat): (r: Option<nat>)
    requires lo <= hi <= |t|
    ensures r.Some? ==> lo <= r.value < hi && t[r.value] == c
    ensures forall k :: lo <= k < hi && (r.None? || r.value < k) ==> t[k] != c
    decreases hi
  {
    if hi == lo then None
    else if t[hi - 1] == c then Some(hi - 1)
    else LastIndexIn(t, c, lo, hi - 1)
  }

  /**
   * The JSON pattern anchored at `i`: the greedy `[\s\S]*` runs to the end
   * and backs up to the last closer. Gives the end of the match.
   */
  function SpanAt(t: string, i: nat): (r: Option<nat>)
    requires i < |t|
    ensures r.Some? <==> HasSpanAt(t, i)
    ensures r.Some? ==> i < r.value <= |t| && t[r.value - 1] == CloserOf(t[i])
    ensures r.Some? ==> forall k :: r.value <= k < |t| ==> t[k] != CloserOf(t[i])
  {
    if !IsOpener(t[i]) then None
    else
      match LastIndexIn(t, CloserOf(t[i]), i + 1, |t|)
      case None => None
      case Some(k) => Some(k + 1)
  }

  /** `re.search` with the JSON pattern from `i`: the leftmost start at which it matches. */
  function SpanSearch(t: string, i: nat): (r: Option<(nat, nat)>)
    requires i <= |t|
    ensures r.Some? ==> i <= r.value.0 < r.value.1 <= |t| && SpanAt(t, r.value.0) == Some(r.value.1)
    ensures r.Some? ==> forall j :: i <= j < r.value.0 ==> !HasSpanAt(t, j)
    ensures r.None? ==> forall j :: i <= j < |t| ==> !HasSpanAt(t, j)
    decreases |t| - i
  {
    if i == |t| then None
    else
      match SpanAt(t, i)
      case Some(e) => Some((i, e))
      case None => SpanSearch(t, i + 1)
  }

  /** The text in which JSON is sought: the stripped reply, narrowed to its first fenced block. */
  function SearchedText(text: string): (t: string)
    ensures Trimmed(t) && IsSlice(t, text)
  {
    var s := Strip(text);
    match FenceSearch(s, 0)
    case Some(hit) =>
      var inner := s[hit.body..hit.close];
      assert IsSlice(inner, s);
      SliceOfSlice(inner, s, text);
      SliceOfSlice(Strip(inner), inner, text);
      assert IsStripOf(Strip(inner), inner);
      Strip(inner)
    case None =>
      assert IsStripOf(s, text);
      s
  }

  /** A span that opens with a bracket and closes with its closer is a trimmed slice of `t`. */
  lemma SpanSliceShape(t: string, a: nat, b: nat)
    requires a < b <= |t| && IsOpener(t[a]) && t[b - 1] == CloserOf(t[a])
    ensures var r := t[a..b];
      && IsSlice(r, t) && Trimmed(r)
      && |r| >= 2 && IsOpener(r[0]) && r[|r| - 1] == CloserOf(r[0])
  {
    var r := t[a..b];
    assert r[0] == t[a] && r[|r| - 1] == t[b - 1];
    assert t[a] != CloserOf(t[a]);
  }

  /** The leftmost greedy `{...}` or `[...]` span of `t`, or `t` itself when there is none. */
  function JsonSpan(t: string): (r: string)
    ensures IsSlice(r, t)
    ensures Trimmed(t) ==> Trimmed(r)
    ensures HasSomeSpan(t) ==> |r| >= 2 && IsOpener(r[0]) && r[|r| - 1] == CloserOf(r[0])
    ensures !HasSomeSpan(t) ==> r == t
  {
    match SpanSearch(t, 0)
    case Some((a, b)) =>
      SpanSliceShape(t, a, b);
      t[a..b]
    case None =>
      assert !HasSomeSpan(t);
      assert t == t[0..|t|];
      t
  }

  /** Python `extract_json_from_text`. */
  function ExtractJson(text: string): (r: string)
    ensures IsSlice(r, text)
    ensures Trimmed(r)
  {
    var t := SearchedText(text);
    var r := JsonSpan(t);
    SliceOfSlice(r, t, text);
    r
  }

  /** `ExtractJson` is `JsonSpan` applied to the searched text. */
  lemma ExtractJsonIsSpanOfSearched(text: string)
    ensures ExtractJson(text) == JsonSpan(SearchedText(text))
  {
  }

  /**
   * The span `JsonSpan` returns starts at the leftmost opener that has a
   * matching closer after it, and runs to the LAST such closer (greedy).
   */
  lemma JsonSpanIsLeftmostGreedy(t: string, a: nat)
    requires HasSpanAt(t, a)
    requires forall j :: 0 <= j < a ==> !HasSpanAt(t, j)
    ensures exists b :: (a < b <= |t| && JsonSpan(t) == t[a..b]
        && t[b - 1] == CloserOf(t[a])
        && forall k :: b <= k < |t| ==> t[k] != CloserOf(t[a]))
  {
    var r := SpanSearch(t, 0);
    assert r.Some?;
    var (a', b) := r.value;
    assert a' == a;
    assert JsonSpan(t) == t[a..b];
  }

  /** The same, stated for `ExtractJson` on the searched text. */
  lemma ExtractJsonIsLeftmostGreedy(text: string, a: nat)
    requires HasSpanAt(SearchedText(text), a)
    requires forall j :: 0 <= j < a ==> !HasSpanAt(SearchedText(text), j)
    ensures var t := SearchedText(text);
      exists b :: a < b <= |t| && ExtractJson(text) == t[a..b]
        && t[b - 1] == CloserOf(t[a])
        && forall k :: b <= k < |t| ==> t[k] != CloserOf(t[a])
  {
    ExtractJsonIsSpanOfSearched(text);
    JsonSpanIsLeftmostGreedy(SearchedText(text), a);
  }

  /** A fenced block in the stripped reply confines the search to that block, stripped. */
  lemma FencedBlockNarrowsSearch(text: string)
    requires FenceSearch(Strip(text), 0).Some?
    ensures var s := Strip(text); var hit := FenceSearch(s, 0).value;
      && SearchedText(text) == Strip(s[hit.body..hit.close])
      && !Contains(s[hit.body..hit.close], Fence)
      && IsSlice(ExtractJson(text), s[hit.body..hit.close])
  {
    var s := Strip(text);
    var hit := FenceSearch(s, 0).value;
    var inner := s[hit.body..hit.close];
    var t := Strip(inner);
    assert SearchedText(text) == t;
    var r := ExtractJson(text);
    assert r == JsonSpan(t);
    SliceOfSlice(r, t, inner);
  }

  // =====================================================================
  // Payloads exchanged with the LLM (shapes of the JSON objects)

  /** The keywords object: tier name to keyword list. */
  type KeywordData = map<string, seq<string>>

  /** One `slides_content` entry of the SEO object; a missing key is `None`. */
  datatype SlideContent = SlideContent(slide: Option<int>, focus: Option<string>, text: Option<string>) {
    /** `s['slide']`, `s['focus']` and `s['text']` all succeed. */
    predicate Complete() { slide.Some? && focus.Some? && text.Some? }
  }

  /**
   * The SEO object; a missing key is `None`, and `otherKeys` records that
   * the object has some key not listed here.
   */
  datatype SeoContent = SeoContent(
    title: Option<string>,
    cardBullets: Option<seq<string>>,
    description: Option<string>,
    optimalSlides: Option<int>,
    slidesContent: Option<seq<SlideContent>>,
    otherKeys: bool)
  {
    /** The parsed object was `{}`, which Python treats as false. */
    predicate IsEmpty() {
      && title.None? && cardBullets.None? && description.None? && optimalSlides.None? && slidesContent.None?
      && !otherKeys
    }
  }

  /** One slide prompt; `isMain` is the truth value of its `is_main` entry. */
  datatype SlidePrompt = SlidePrompt(
    slide: Option<int>,
    isMain: bool,
    prompt: Option<string>,
    textOverlay: Option<string>)

  /** The slide-prompts object; `otherKeys` as for `SeoContent`. */
  datatype PromptsData = PromptsData(styleGuide: Option<string>, prompts: Option<seq<SlidePrompt>>, otherKeys: bool) {
    /** The parsed object was `{}`. */
    predicate IsEmpty() { styleGuide.None? && prompts.None? && !otherKeys }
  }

  /**
   * A full analysis as stored in a session; other producers leave some keys
   * out or add keys of their own (`otherKeys`).
   */
  datatype Analysis = Analysis(
    productName: Option<string>,
    category: Option<string>,
    keywords: Option<KeywordData>,
    seo: Option<SeoContent>,
    numSlides: Option<int>,
    styleGuide: Option<string>,
    slidePrompts: Option<seq<SlidePrompt>>,
    otherKeys: bool)
  {
    /** The stored object is `{}`. */
    predicate IsEmpty() {
      && productName.None? && category.None? && keywords.None? && seo.None?
      && numSlides.None? && styleGuide.None? && slidePrompts.None? && !otherKeys
    }
  }

  // =====================================================================
  // The three Grok steps and generate_full_analysis

  const DefaultSlides: int := 5
  const MinSlides: int := 3
  const MaxSlides: int := 7
  /** How many keywords the SEO request shows the model. */
  const PromptKeywordLimit: nat := 15

  /** What each request carries into its prompt (the prompt wording itself is not modelled). */
  datatype GrokRequest =
    | KeywordsRequest(productName: Option<string>, category: Option<string>)
    | SeoRequest(productName: Option<string>, category: Option<string>, keywords: seq<string>)
    | PromptsRequest(productName: Option<string>, category: Option<string>, title: string,
                     slides: seq<SlideContent>, numSlides: int)

  /**
   * The outside world of the service: `complete` is the HTTP round trip
   * (`None` for any transport or status failure), the `parse*` functions
   * are `json.loads` into each object (`None` when it raises).
   */
  datatype GrokBackend = GrokBackend(
    complete: GrokRequest -> Option<string>,
    parseKeywords: string -> Option<KeywordData>,
    parseSeo: string -> Option<SeoContent>,
    parsePrompts: string -> Option<PromptsData>)

  /** One step: send the request, give up on an empty reply, else scrape and parse its JSON. */
  function Ask<T>(complete: GrokRequest -> Option<string>, parse: string -> Option<T>, q: GrokRequest): (r: Option<T>)
    // a failed request or an empty reply gives up before any parsing
    ensures complete(q).None? || complete(q) == Some("") ==> r.None?
    // a reply with text is decided by the parse of the JSON scraped from it
    ensures complete(q).Some? && complete(q).value != "" ==> r == parse(ExtractJson(complete(q).value))
  {
    match complete(q)
    case None => None
    case Some(reply) => if reply == "" then None else parse(ExtractJson(reply))
  }

  /** `analyze_keywords`: one request naming the product and category. */
  function AnalyzeKeywords(g: GrokBackend, productName: Option<string>, category: Option<string>): (r: Option<KeywordData>)
    ensures var reply := g.complete(KeywordsRequest(productName, category));
      && (reply.None? || reply == Some("") ==> r.None?)
      && (reply.Some? && reply.value != "" ==> r == g.parseKeywords(ExtractJson(reply.value)))
  {
    Ask(g.complete, g.parseKeywords, KeywordsRequest(productName, category))
  }

  /** `generate_seo_content`: only the first 15 keywords reach the prompt. */
  function GenerateSeoContent(g: GrokBackend, productName: Option<string>, category: Option<string>,
                              keywords: seq<string>): (r: Option<SeoContent>)
    ensures var shown := Take(keywords, PromptKeywordLimit);
      var reply := g.complete(SeoRequest(productName, category, shown));
      && |shown| <= PromptKeywordLimit && shown == keywords[..|shown|]
      && (|keywords| <= PromptKeywordLimit ==> shown == keywords)
      && (reply.None? || reply == Some("") ==> r.None?)
      && (reply.Some? && reply.value != "" ==> r == g.parseSeo(ExtractJson(reply.value)))
  {
    Ask(g.complete, g.parseSeo, SeoRequest(productName, category, Take(keywords, PromptKeywordLimit)))
  }

  /**
   * `generate_slide_prompts`: the first `numSlides` slide entries reach the
   * prompt; formatting one that lacks `slide`, `focus` or `text` raises
   * before any request is sent.
   */
  function GenerateSlidePrompts(g: GrokBackend, productName: Option<string>, category: Option<string>,
                                seo: SeoContent, numSlides: int): (r: Outcome<Option<PromptsData>>)
    ensures var shown := SliceTo(seo.slidesContent.GetOr([]), numSlides);
      && (r.Raised? <==> exists k :: 0 <= k < |shown| && !shown[k].Complete())
      && (r.Returned? ==>
            var reply := g.complete(PromptsRequest(productName, category, seo.title.GetOr(""), shown, numSlides));
            && (reply.None? || reply == Some("") ==> r.value.None?)
            && (reply.Some? && reply.value != "" ==> r.value == g.parsePrompts(ExtractJson(reply.value))))
  {
    var shown := SliceTo(seo.slidesContent.GetOr([]), numSlides);
    if exists k :: 0 <= k < |shown| && !shown[k].Complete() then Raised
    else Returned(Ask(g.complete, g.parsePrompts,
                      PromptsRequest(productName, category, seo.title.GetOr(""), shown, numSlides)))
  }

  /** A keyword tier, `[]` when the key is missing. */
  function Tier(kw: KeywordData, key: string): seq<string> {
    if key in kw then kw[key] else []
  }

  /** The keyword list sent to the SEO step: the three tiers in order, else the flat list. */
  function MergeKeywords(kw: KeywordData): seq<string> {
    var tiers := Tier(kw, "high_frequency") + Tier(kw, "mid_frequency") + Tier(kw, "low_frequency");
    if tiers != [] then tiers else Tier(kw, "keywords")
  }

  /** `max(min_slides, min(max_slides, n))`. */
  function ClampSlides(n: int): (r: int)
    ensures MinSlides <= r <= MaxSlides
    ensures MinSlides <= n <= MaxSlides ==> r == n
    ensures n < MinSlides ==> r == MinSlides
    ensures n > MaxSlides ==> r == MaxSlides
  {
    if n > MaxSlides then MaxSlides else if n < MinSlides then MinSlides else n
  }

  /** The requests that were sent, in order, and how the call ended. */
  datatype AnalysisRun = AnalysisRun(calls: seq<GrokRequest>, result: Outcome<Option<Analysis>>)

  /** The slide count handed to the third step: the request, else the SEO suggestion, else 5; clamped. */
  function PlannedSlides(requested: Option<int>, seo: SeoContent): (n: int)
    ensures MinSlides <= n <= MaxSlides
    ensures requested.Some? ==> n == ClampSlides(requested.value)
    ensures requested.None? && seo.optimalSlides.Some? ==> n == ClampSlides(seo.optimalSlides.value)
    ensures requested.None? && seo.optimalSlides.None? ==> n == DefaultSlides
  {
    ClampSlides(if requested.None? then seo.optimalSlides.GetOr(DefaultSlides) else requested.value)
  }

  /** Python `generate_full_analysis`. */
  function GenerateFullAnalysis(g: GrokBackend, productName: Option<string>, category: Option<string>,
                                requested: Option<int>): (run: AnalysisRun)
    // the steps run in order and stop at the first failure
    ensures 1 <= |run.calls| <= 3 && run.calls[0] == KeywordsRequest(productName, category)
    ensures |run.calls| >= 2 ==> run.calls[1].SeoRequest? && |run.calls[1].keywords| <= PromptKeywordLimit
    ensures |run.calls| == 3 ==> run.calls[2].PromptsRequest?
    ensures run.result.Raised? ==> |run.calls| == 2
    // step 1: no keywords, or `{}`, ends the run after one request
    ensures var kw := AnalyzeKeywords(g, productName, category);
      (kw.None? || kw.value == map[]) <==> run.calls == [KeywordsRequest(productName, category)] && run.result == Returned(None)
    ensures var kw := AnalyzeKeywords(g, productName, category);
      kw.Some? && kw.value != map[] ==>
        var keywords := MergeKeywords(kw.value);
        var seo := GenerateSeoContent(g, productName, category, keywords);
        && |run.calls| >= 2
        && run.calls[1] == SeoRequest(productName, category, Take(keywords, PromptKeywordLimit))
        // step 2: no SEO content, or `{}`, ends the run after two requests
        && (seo.None? || seo.value.IsEmpty() ==> |run.calls| == 2 && run.result == Returned(None))
        && (seo.Some? && !seo.value.IsEmpty() ==>
              var n := PlannedSlides(requested, seo.value);
              var prompts := GenerateSlidePrompts(g, productName, category, seo.value, n);
              // step 3 raises while formatting its prompt, or sends the third request
              && (run.result.Raised? <==> prompts.Raised?)
              && (prompts.Returned? ==>
                    && |run.calls| == 3
                    && run.calls[2] == PromptsRequest(productName, category, seo.value.title.GetOr(""),
                                                      SliceTo(seo.value.slidesContent.GetOr([]), n), n)
                    && (prompts.value.None? || prompts.value.value.IsEmpty() ==> run.result == Returned(None))
                    && (prompts.value.Some? && !prompts.value.value.IsEmpty() ==>
                          && run.result.Returned? && run.result.value.Some?
                          && var a := run.result.value.value;
                          && a.keywords == Some(kw.value) && a.seo == seo && a.numSlides == Some(n)
                          && a.styleGuide == Some(prompts.value.value.styleGuide.GetOr(""))
                          && a.slidePrompts == Some(prompts.value.value.prompts.GetOr([])))))
    // a finished plan records the clamped count that the third request used
    ensures run.result.Returned? && run.result.value.Some? ==>
      var a := run.result.value.value;
      && |run.calls| == 3
      && a.productName == productName && a.category == category
      && a.numSlides == Some(run.calls[2].numSlides)
      && MinSlides <= run.calls[2].numSlides <= MaxSlides
      && |run.calls[2].slides| <= run.calls[2].numSlides
      && (requested.Some? ==> run.calls[2].numSlides == ClampSlides(requested.value))
  {
    var q1 := KeywordsRequest(productName, category);
    var kw := AnalyzeKeywords(g, productName, category);
    if kw.None? || kw.value == map[] then AnalysisRun([q1], Returned(None))
    else
      var keywords := MergeKeywords(kw.value);
      var q2 := SeoRequest(productName, category, Take(keywords, PromptKeywordLimit));
      var seo := GenerateSeoContent(g, productName, category, keywords);
      if seo.None? || seo.value.IsEmpty() then AnalysisRun([q1, q2], Returned(None))
      else
        var n := PlannedSlides(requested, seo.value);
        var shown := SliceTo(seo.value.slidesContent.GetOr([]), n);
        match GenerateSlidePrompts(g, productName, category, seo.value, n)
        case Raised => AnalysisRun([q1, q2], Raised)
        case Returned(prompts) =>
          var q3 := PromptsRequest(productName, category, seo.value.title.GetOr(""), shown, n);
          if prompts.None? || prompts.value.IsEmpty() then AnalysisRun([q1, q2, q3], Returned(None))
          else
            AnalysisRun([q1, q2, q3], Returned(Some(Analysis(
              productName := productName,
              category := category,
              keywords := Some(kw.value),
              seo := Some(seo.value),
              numSlides := Some(n),
              styleGuide := Some(prompts.value.styleGuide.GetOr("")),
              slidePrompts := Some(prompts.value.prompts.GetOr([])),
              otherKeys := false))))
  }

  /**
   * The merged list holds the high, mid and low tiers one after another,
   * each in its own order; only when all three are empty is it the flat
   * `keywords` list. It is empty exactly when all four lists are.
   */
  lemma MergeKeywordsLayout(kw: KeywordData)
    ensures var r := MergeKeywords(kw);
      var high, mid, low := Tier(kw, "high_frequency"), Tier(kw, "mid_frequency"), Tier(kw, "low_frequency");
      && (r == [] <==> high == [] && mid == [] && low == [] && Tier(kw, "keywords") == [])
      && (high == [] && mid == [] && low == [] ==> r == Tier(kw, "keywords"))
      && (high != [] || mid != [] || low != [] ==>
            && |r| == |high| + |mid| + |low|
            && (forall i :: 0 <= i < |high| ==> r[i] == high[i])
            && (forall i :: 0 <= i < |mid| ==> r[|high| + i] == mid[i])
            && (forall i :: 0 <= i < |low| ==> r[|high| + |mid| + i] == low[i]))
  {
    var high, mid, low := Tier(kw, "high_frequency"), Tier(kw, "mid_frequency"), Tier(kw, "low_frequency");
    if high != [] || mid != [] || low != [] {
      assert |high + mid + low| > 0;
    }
  }
}
