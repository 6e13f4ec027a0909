/**
 * Per-user sessions (bot/models/session.py): a `UserSession` record that
 * the handlers fill in step by step, and a `SessionManager` mapping each
 * user id to that user's session.
 *
 * Clock readings are parameters (`now`), so `created_at` is whatever the
 * caller passes.
 */
module Session {
  import opened Builtins
  import opened Grok
  import opened NanoBanana

  /** The content fields of a session, as one value. */
  datatype SessionView = SessionView(
    productName: Option<string>,
    category: Option<string>,
    originalImage: Option<Bytes>,
    noBgImage: Option<Bytes>,
    referenceImage: Option<Bytes>,
    slidePrompt: Option<string>,
    productDescription: Option<string>,
    keywords: Option<KeywordData>,
    seoTitle: Option<string>,
    seoCardContent: Option<seq<string>>,
    seoDescription: Option<string>,
    numSlides: Option<int>,
    slidePrompts: Option<seq<SlidePrompt>>,
    styleGuide: Option<string>,
    mainSlideDesign: Option<SlideRecord>,
    slidesDesigns: Option<seq<SlideRecord>>,
    fullAnalysis: Option<Analysis>)

  /** Every content field unset, as a new or reset session has it. */
  function BlankView(): SessionView {
    SessionView(None, None, None, None, None, None, None, None, None, None, None, None, None, None, None, None, None)
  }

  // ---------------------------------------------------------------------
  // Keywords

  const KeywordKeys: seq<string> := ["high_frequency", "mid_frequency", "low_frequency", "keywords"]

  /** The lists under `keys`, concatenated in that order; a missing key adds nothing. */
  function Pool(kw: KeywordData, keys: seq<string>): seq<string>
  {
    if keys == [] then [] else Pool(kw, keys[..|keys| - 1]) + Tier(kw, keys[|keys| - 1])
  }

  /** Every keyword the flattening looks at: the three tiers, then the flat list. */
  function KeywordPool(kw: KeywordData): (r: seq<string>)
    ensures forall w :: w in r <==>
      w in Tier(kw, "high_frequency") || w in Tier(kw, "mid_frequency")
      || w in Tier(kw, "low_frequency") || w in Tier(kw, "keywords")
  {
    assert KeywordKeys[..0] == [];
    assert KeywordKeys[..1][..0] == KeywordKeys[..0];
    assert KeywordKeys[..2][..1] == KeywordKeys[..1];
    assert KeywordKeys[..3][..2] == KeywordKeys[..2];
    assert KeywordKeys[..4][..3] == KeywordKeys[..3] && KeywordKeys[..4] == KeywordKeys;
    assert Pool(kw, KeywordKeys[..1]) == Tier(kw, "high_frequency");
    assert Pool(kw, KeywordKeys[..2]) == Tier(kw, "high_frequency") + Tier(kw, "mid_frequency");
    assert Pool(kw, KeywordKeys[..3]) == Tier(kw, "high_frequency") + Tier(kw, "mid_frequency")
      + Tier(kw, "low_frequency");
    Pool(kw, KeywordKeys)
  }

  predicate NoDuplicates(s: seq<string>) {
    forall i, j :: 0 <= i < j < |s| ==> s[i] != s[j]
  }

  const NoKeywordsText: string := "Ключевые слова не найдены"
  const NoSeoText: string := "SEO контент не сгенерирован"

  /** The lines of the keywords message; a tier's section appears only when the tier is non-empty. */
  function KeywordsLines(kw: KeywordData): seq<string> {
    var high := Tier(kw, "high_frequency");
    var mid := Tier(kw, "mid_frequency");
    var low := Tier(kw, "low_frequency");
    ["<b>Ключевые слова для WB/Ozon:</b>\n"]
    + (if high != [] then ["<b>Высокочастотные:</b>", Join(high, ", "), ""] else [])
    + (if mid != [] then ["<b>Среднечастотные:</b>", Join(mid, ", "), ""] else [])
    + (if low != [] then ["<b>Низкочастотные:</b>", Join(low, ", ")] else [])
  }

  /** The keywords message for a session's `keywords` field. */
  function KeywordsMessage(keywords: Option<KeywordData>): string {
    if keywords.None? || keywords.value == map[] then NoKeywordsText
    else Join(KeywordsLines(keywords.value), "\n")
  }

  /** Every keyword of the three frequency tiers is shown in the keywords message. */
  lemma KeywordsMessageShowsTieredKeywords(kw: KeywordData, key: string, i: nat)
    requires key == "high_frequency" || key == "mid_frequency" || key == "low_frequency"
    requires i < |Tier(kw, key)|
    ensures Contains(KeywordsMessage(Some(kw)), Tier(kw, key)[i])
  {
    assert key in kw;
    var lines := KeywordsLines(kw);
    var high := Tier(kw, "high_frequency");
    var mid := Tier(kw, "mid_frequency");
    var h := if high != [] then 3 else 0;
    var m := if mid != [] then 3 else 0;
    var at := if key == "high_frequency" then 2 else if key == "mid_frequency" then 2 + h else 2 + h + m;
    assert lines[at] == Join(Tier(kw, key), ", ");
    JoinContainsPart(Tier(kw, key), ", ", i);
    JoinContainsPart(lines, "\n", at);
    ContainsTransitive(KeywordsMessage(Some(kw)), lines[at], Tier(kw, key)[i]);
  }

  // ---------------------------------------------------------------------
  // SEO message

  /** An SEO object with no keys, the default of `full_analysis.get("seo", {})`. */
  function NoSeo(): SeoContent {
    SeoContent(None, None, None, None, None, false)
  }

  /** A description as displayed: cut to 500 characters plus an ellipsis when longer. */
  function DescriptionShown(d: string): (r: string)
    ensures |r| <= 503
    ensures |d| <= 500 ==> r == d
    ensures |d| > 500 ==> |r| == 503 && r[..500] == d[..500] && r[500..] == "..."
  {
    if |d| > 500 then d[..500] + "..." else d
  }

  /** One line per card bullet. */
  function BulletLines(bullets: seq<string>): (r: seq<string>)
    ensures |r| == |bullets|
    ensures forall k :: 0 <= k < |bullets| ==> r[k] == "• " + bullets[k]
  {
    seq(|bullets|, k requires 0 <= k < |bullets| => "• " + bullets[k])
  }

  /** The lines of the SEO message; each part appears only when its field is non-empty. */
  function SeoLines(seo: SeoContent): seq<string> {
    var title := seo.title.GetOr("");
    var bullets := seo.cardBullets.GetOr([]);
    var description := seo.description.GetOr("");
    ["<b>SEO-контент для товара:</b>\n"]
    + (if title != "" then ["<b>Заголовок:</b> " + title + "\n"] else [])
    + (if bullets != [] then ["<b>Буллеты для карточки:</b>"] + BulletLines(bullets) + [""] else [])
    + (if description != "" then ["<b>Описание:</b>", DescriptionShown(description)] else [])
  }

  /** The SEO message for a session's `full_analysis` field. */
  function SeoMessage(analysis: Option<Analysis>): string {
    if analysis.None? || analysis.value.IsEmpty() then NoSeoText
    else Join(SeoLines(analysis.value.seo.GetOr(NoSeo())), "\n")
  }

  /** Every card bullet is shown in the SEO message. */
  lemma SeoMessageShowsEveryBullet(a: Analysis, i: nat)
    requires !a.IsEmpty() && a.seo.Some? && a.seo.value.cardBullets.Some?
    requires i < |a.seo.value.cardBullets.value|
    ensures Contains(SeoMessage(Some(a)), a.seo.value.cardBullets.value[i])
  {
    var seo := a.seo.value;
    var bullets := seo.cardBullets.value;
    var lines := SeoLines(seo);
    var t := if seo.title.GetOr("") != "" then 1 else 0;
    var at := 1 + t + 1 + i;
    assert lines[at] == "• " + bullets[i];
    ContainsInside("• ", bullets[i], "");
    assert "• " + bullets[i] + "" == lines[at];
    JoinContainsPart(lines, "\n", at);
    ContainsTransitive(SeoMessage(Some(a)), lines[at], bullets[i]);
  }

  /** A shown description never exceeds 503 characters and keeps the first 500 of the original. */
  lemma SeoDescriptionIsCapped(a: Analysis)
    requires !a.IsEmpty() && a.seo.Some? && a.seo.value.description.Some? && a.seo.value.description.value != ""
    ensures var lines := SeoLines(a.seo.value);
      && |lines[|lines| - 1]| <= 503
      && Take(lines[|lines| - 1], 500) == Take(a.seo.value.description.value, 500)
  {
  }

  /** The `for bullet in ...: lines.append(...)` loop of `format_seo_message`. */
  method AppendBulletLines(lines: seq<string>, bullets: seq<string>) returns (out: seq<string>)
    ensures out == lines + BulletLines(bullets)
  {
    out := lines;
    for k := 0 to |bullets|
      invariant out == lines + BulletLines(bullets[..k])
    {
      assert BulletLines(bullets[..k + 1]) == BulletLines(bullets[..k]) + ["• " + bullets[k]];
      out := out + ["• " + bullets[k]];
    }
    assert bullets[..|bullets|] == bullets;
  }

  // ---------------------------------------------------------------------
  // UserSession

  class UserSession {
    const userId: int
    var createdAt: int

    var productName: Option<string>
    var category: Option<string>
    var originalImage: Option<Bytes>
    var noBgImage: Option<Bytes>
    var referenceImage: Option<Bytes>
    var slidePrompt: Option<string>
    var productDescription: Option<string>
    var keywords: Option<KeywordData>
    var seoTitle: Option<string>
    var seoCardContent: Option<seq<string>>
    var seoDescription: Option<string>
    var numSlides: Option<int>
    var slidePrompts: Option<seq<SlidePrompt>>
    var styleGuide: Option<string>
    var mainSlideDesign: Option<SlideRecord>
    var slidesDesigns: Option<seq<SlideRecord>>
    var fullAnalysis: Option<Analysis>

    /** The content fields as one value. */
    function View(): SessionView
      reads this
    {
      SessionView(productName, category, originalImage, noBgImage, referenceImage, slidePrompt,
                  productDescription, keywords, seoTitle, seoCardContent, seoDescription, numSlides,
                  slidePrompts, styleGuide, mainSlideDesign, slidesDesigns, fullAnalysis)
    }

    /** `UserSession(user_id=...)`: every content field unset. */
    constructor (userId: int, now: int)
      ensures this.userId == userId && createdAt == now
      ensures IsBlank() && View() == BlankView()
    {
      this.userId := userId;
      createdAt := now;
      productName := None;
      category := None;
      originalImage := None;
      noBgImage := None;
      referenceImage := None;
      slidePrompt := None;
      productDescription := None;
      keywords := None;
      seoTitle := None;
      seoCardContent := None;
      seoDescription := None;
      numSlides := None;
      slidePrompts := None;
      styleGuide := None;
      mainSlideDesign := None;
      slidesDesigns := None;
      fullAnalysis := None;
    }

    /** Every content field is unset. */
    predicate IsBlank()
      reads this
    {
      && productName.None? && category.None?
      && originalImage.None? && noBgImage.None? && referenceImage.None?
      && slidePrompt.None? && productDescription.None?
      && keywords.None? && seoTitle.None? && seoCardContent.None? && seoDescription.None?
      && numSlides.None? && slidePrompts.None? && styleGuide.None?
      && mainSlideDesign.None? && slidesDesigns.None?
      && fullAnalysis.None?
    }

    /** A blank session has no image, no product info and no analysis. */
    lemma BlankHasNothing()
      requires IsBlank()
      ensures !HasImage() && !HasProductInfo() && !HasAnalysis()
    {
      assert originalImage == View().originalImage;
    }

    predicate HasImage()
      reads this
    {
      originalImage.Some?
    }

    predicate HasProductInfo()
      reads this
    {
      productName.Some? && category.Some?
    }

    predicate HasAnalysis()
      reads this
    {
      fullAnalysis.Some?
    }

    /** Clears every content field; the user id and creation time stay. */
    method Reset()
      modifies this
      ensures IsBlank()
      ensures createdAt == old(createdAt)
    {
      ClearProductInfo();
      ClearImages();
      ClearFirstSlide();
      ClearSeoData();
      ClearSlideGeneration();
      ClearGeneratedSlides();
      fullAnalysis := None;
    }

    /** Clears the product info fields. */
    method ClearProductInfo()
      modifies this`productName, this`category
      ensures productName.None? && category.None?
    {
      productName := None;
      category := None;
    }

    /** Clears the images fields. */
    method ClearImages()
      modifies this`originalImage, this`noBgImage, this`referenceImage
      ensures originalImage.None? && noBgImage.None? && referenceImage.None?
    {
      originalImage := None;
      noBgImage := None;
      referenceImage := None;
    }

    /** Clears the first-slide generation fields. */
    method ClearFirstSlide()
      modifies this`slidePrompt, this`productDescription
      ensures slidePrompt.None? && productDescription.None?
    {
      slidePrompt := None;
      productDescription := None;
    }

    /** Clears the SEO data fields. */
    method ClearSeoData()
      modifies this`keywords, this`seoTitle, this`seoCardContent, this`seoDescription
      ensures keywords.None? && seoTitle.None? && seoCardContent.None? && seoDescription.None?
    {
      keywords := None;
      seoTitle := None;
      seoCardContent := None;
      seoDescription := None;
    }

    /** Clears the slide generation fields. */
    method ClearSlideGeneration()
      modifies this`numSlides, this`slidePrompts, this`styleGuide
      ensures numSlides.None? && slidePrompts.None? && styleGuide.None?
    {
      numSlides := None;
      slidePrompts := None;
      styleGuide := None;
    }

    /** Clears the generated slides fields. */
    method ClearGeneratedSlides()
      modifies this`mainSlideDesign, this`slidesDesigns
      ensures mainSlideDesign.None? && slidesDesigns.None?
    {
      mainSlideDesign := None;
      slidesDesigns := None;
    }

    /** Stores the product photo; nothing else changes. */
    method SetOriginalImage(image: Bytes)
      modifies this`originalImage
      ensures View() == old(View()).(originalImage := Some(image))
    {
      originalImage := Some(image);
    }

    /** Stores the product name; nothing else changes. */
    method SetProductName(name: string)
      modifies this`productName
      ensures View() == old(View()).(productName := Some(name))
    {
      productName := Some(name);
    }

    /** Stores the category; nothing else changes. */
    method SetCategory(name: string)
      modifies this`category
      ensures View() == old(View()).(category := Some(name))
    {
      category := Some(name);
    }

    /** Stores a finished plan together with the count, style and prompts taken from it. */
    method StorePlan(plan: Analysis, count: int, style: string, prompts: seq<SlidePrompt>)
      modifies this`fullAnalysis, this`numSlides, this`styleGuide, this`slidePrompts
      ensures View() == old(View()).(fullAnalysis := Some(plan), numSlides := Some(count),
                                     styleGuide := Some(style), slidePrompts := Some(prompts))
    {
      fullAnalysis := Some(plan);
      numSlides := Some(count);
      styleGuide := Some(style);
      slidePrompts := Some(prompts);
    }

    /** The distinct keywords of all four lists. */
    method GetKeywordsList() returns (r: seq<string>)
      ensures keywords.None? || keywords.value == map[] ==> r == []
      ensures NoDuplicates(r)
      ensures keywords.Some? ==> forall w :: w in r <==> w in KeywordPool(keywords.value)
    {
      if keywords.None? || keywords.value == map[] {
        return [];
      }
      var kw := keywords.value;
      var all: seq<string> := [];
      for i := 0 to |KeywordKeys|
        invariant all == Pool(kw, KeywordKeys[..i])
      {
        assert KeywordKeys[..i + 1][..i] == KeywordKeys[..i];
        if KeywordKeys[i] in kw {
          all := all + kw[KeywordKeys[i]];
        }
      }
      assert KeywordKeys[..|KeywordKeys|] == KeywordKeys;
      r := [];
      for j := 0 to |all|
        invariant NoDuplicates(r)
        invariant forall w :: w in r <==> w in all[..j]
      {
        assert all[..j + 1] == all[..j] + [all[j]];
        if all[j] !in r {
          r := r + [all[j]];
        }
      }
      assert all[..|all|] == all;
      assert all == KeywordPool(kw);
    }

    /** Python `format_keywords_message`. */
    method FormatKeywordsMessage() returns (text: string)
      ensures text == KeywordsMessage(keywords)
    {
      if keywords.None? || keywords.value == map[] {
        return NoKeywordsText;
      }
      var kw := keywords.value;
      var lines := ["<b>Ключевые слова для WB/Ozon:</b>\n"];
      if Tier(kw, "high_frequency") != [] {
        lines := lines + ["<b>Высокочастотные:</b>"];
        lines := lines + [Join(Tier(kw, "high_frequency"), ", ")];
        lines := lines + [""];
      }
      if Tier(kw, "mid_frequency") != [] {
        lines := lines + ["<b>Среднечастотные:</b>"];
        lines := lines + [Join(Tier(kw, "mid_frequency"), ", ")];
        lines := lines + [""];
      }
      if Tier(kw, "low_frequency") != [] {
        lines := lines + ["<b>Низкочастотные:</b>"];
        lines := lines + [Join(Tier(kw, "low_frequency"), ", ")];
      }
      assert lines == KeywordsLines(kw);
      text := Join(lines, "\n");
    }

    /** Python `format_seo_message`. */
    method FormatSeoMessage() returns (text: string)
      ensures text == SeoMessage(fullAnalysis)
    {
      if fullAnalysis.None? || fullAnalysis.value.IsEmpty() {
        return NoSeoText;
      }
      var seo := fullAnalysis.value.seo.GetOr(NoSeo());
      var lines := ["<b>SEO-контент для товара:</b>\n"];
      if seo.title.GetOr("") != "" {
        lines := lines + ["<b>Заголовок:</b> " + seo.title.value + "\n"];
      }
      var bullets := seo.cardBullets.GetOr([]);
      if bullets != [] {
        lines := lines + ["<b>Буллеты для карточки:</b>"];
        lines := AppendBulletLines(lines, bullets);
        lines := lines + [""];
      }
      ghost var body := lines;
      var description := seo.description.GetOr("");
      if description != "" {
        lines := lines + ["<b>Описание:</b>"];
        lines := lines + [if |description| > 500 then description[..500] + "..." else description];
      }
      assert lines == body + (if description != "" then ["<b>Описание:</b>", DescriptionShown(description)] else []);
      assert lines == SeoLines(seo);
      text := Join(lines, "\n");
    }
  }

  // ---------------------------------------------------------------------
  // SessionManager

  /**
   * `after` keeps every entry of `before` and adds at most one for `u`:
   * together with a frame that excludes other users' session objects, no
   * other user's session changes.
   */
  predicate KeepsEntries(before: map<int, UserSession>, after: map<int, UserSession>, u: int) {
    && before.Keys <= after.Keys <= before.Keys + {u}
    && forall v :: v in before ==> after[v] == before[v]
  }

  class SessionManager {
    var sessions: map<int, UserSession>

    /** Each session is filed under its own user id, so distinct keys hold distinct sessions. */
    predicate Valid()
      reads this
    {
      forall u :: u in sessions ==> sessions[u].userId == u
    }

    /** The objects a reset of `u` may touch. */
    function Slot(u: int): set<object>
      reads this
    {
      if u in sessions then {sessions[u]} else {}
    }

    /** The content of `u`'s session, blank when there is none. */
    function ViewOf(u: int): SessionView
      reads this, sessions.Values
    {
      if u in sessions then sessions[u].View() else BlankView()
    }

    constructor ()
      ensures sessions == map[] && Valid()
    {
      sessions := map[];
    }

    predicate HasSession(u: int)
      reads this
    {
      u in sessions
    }

    /** Get-or-create: an absent user gets a fresh blank session; a present one's is returned as is. */
    method GetSession(u: int, now: int) returns (s: UserSession)
      requires Valid()
      modifies this
      ensures Valid()
      ensures HasSession(u) && s == sessions[u] && s.userId == u
      ensures sessions.Keys == old(sessions.Keys) + {u} && KeepsEntries(old(sessions), sessions, u)
      ensures u in old(sessions) ==> sessions == old(sessions)
      ensures u !in old(sessions) ==>
        fresh(s) && s.IsBlank() && s.createdAt == now && sessions == old(sessions)[u := s]
      ensures forall v :: v in old(sessions) ==> sessions[v].View() == old(sessions[v].View())
      ensures ViewOf(u) == old(ViewOf(u))
    {
      if u !in sessions {
        var created := new UserSession(u, now);
        sessions := sessions[u := created];
      }
      s := sessions[u];
    }

    /** Resets `u`'s session if there is one; never creates one and touches no other session. */
    method ResetSession(u: int)
      requires Valid()
      modifies Slot(u)
      ensures Valid() && sessions == old(sessions)
      ensures u in sessions ==> sessions[u].IsBlank() && sessions[u].createdAt == old(sessions[u].createdAt)
      ensures forall v :: v in sessions && v != u ==> sessions[v].View() == old(sessions[v].View())
    {
      if u in sessions {
        sessions[u].Reset();
      }
    }

    /** Removes exactly the entry of `u`, if present. */
    method DeleteSession(u: int)
      requires Valid()
      modifies this
      ensures Valid() && !HasSession(u)
      ensures sessions == old(sessions) - {u}
      ensures forall v :: v in sessions ==> sessions[v].View() == old(sessions[v].View())
    {
      if u in sessions {
        sessions := sessions - {u};
      }
    }
  }
}
