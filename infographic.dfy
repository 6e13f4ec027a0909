/**
 * The infographic conversation: a per-user finite-state machine whose
 * handlers read and update that user's session. The router picks the first
 * registered handler whose filters accept an update; each handler may ask
 * the text model for a plan, store results in the session and move the
 * machine to its next state.
 */
module Infographic {
  import opened Builtins
  import opened Grok
  import opened NanoBanana
  import opened Session

  /** The machine's states; `Cleared` is the framework's "no state". */
  datatype FlowState =
    | Cleared
    | WaitingForPhoto
    | WaitingForProductName
    | WaitingForCategory
    | WaitingForCustomCategory
    | WaitingForSlidesCount
    | ConfirmingPlan
    | Generating

  /**
   * An update as the router sees it. A photo message carries the bytes
   * downloaded for its largest size, or `None` when the download raised.
   */
  datatype Event =
    | Callback(data: string)
    | TextMessage(text: string)
    | PhotoMessage(download: Option<Bytes>)
    | OtherMessage

  /** The router's handlers, in registration order. */
  datatype Handler =
    | StartInfographic
    | UseExistingImage
    | RequestNewPhoto
    | ReceivePhoto
    | ReceiveProductName
    | ReceiveCategory
    | ReceiveCustomCategory
    | ReceiveSlidesCount
    | StartGeneration
    | EditSlidesCount
    | EditPrompts
    | InvalidPhotoInput
    | InvalidNameInput

  /** The state a handler's filter demands; the three entry callbacks fire in any state. */
  function HandlerState(h: Handler): Option<FlowState> {
    match h
    case StartInfographic | UseExistingImage | RequestNewPhoto => None
    case ReceivePhoto | InvalidPhotoInput => Some(WaitingForPhoto)
    case ReceiveProductName | InvalidNameInput => Some(WaitingForProductName)
    case ReceiveCategory => Some(WaitingForCategory)
    case ReceiveCustomCategory => Some(WaitingForCustomCategory)
    case ReceiveSlidesCount => Some(WaitingForSlidesCount)
    case StartGeneration | EditSlidesCount | EditPrompts => Some(ConfirmingPlan)
  }

  const SlidesPrefix := "slides_"

  /**
   * The first handler, in registration order, whose filters accept `ev` in
   * state `st`; `None` leaves the update to other routers.
   */
  function Route(st: FlowState, ev: Event): (r: Option<Handler>)
    // a handler bound to a state only ever fires in that state
    ensures r.Some? && HandlerState(r.value).Some? ==> st == HandlerState(r.value).value
    // while a photo or a name is awaited, every message is answered
    ensures (st == WaitingForPhoto || st == WaitingForProductName) && !ev.Callback? ==> r.Some?
    // outside the flow only the entry callbacks are handled here
    ensures (st == Cleared || st == Generating) && r.Some? ==> ev.Callback? && HandlerState(r.value).None?
  {
    match ev
    case Callback(d) =>
      if d == "infographic" then Some(StartInfographic)
      else if d == "infographic_use_existing" then Some(UseExistingImage)
      else if d == "infographic_new_photo" then Some(RequestNewPhoto)
      else if st == WaitingForCategory && StartsWith(d, "cat_") then Some(ReceiveCategory)
      else if st == WaitingForSlidesCount && StartsWith(d, SlidesPrefix) then Some(ReceiveSlidesCount)
      else if st == ConfirmingPlan && d == "generate_start" then Some(StartGeneration)
      else if st == ConfirmingPlan && d == "edit_slides_count" then Some(EditSlidesCount)
      else if st == ConfirmingPlan && d == "edit_prompts" then Some(EditPrompts)
      else None
    case PhotoMessage(_) =>
      if st == WaitingForPhoto then Some(ReceivePhoto)
      else if st == WaitingForProductName then Some(InvalidNameInput)
      else None
    case TextMessage(_) =>
      if st == WaitingForPhoto then Some(InvalidPhotoInput)
      else if st == WaitingForProductName then Some(ReceiveProductName)
      else if st == WaitingForCustomCategory then Some(ReceiveCustomCategory)
      else None
    case OtherMessage =>
      if st == WaitingForPhoto then Some(InvalidPhotoInput)
      else if st == WaitingForProductName then Some(InvalidNameInput)
      else None
  }

  // ---------------------------------------------------------------------
  // Categories and the slide-count button

  const CustomCategory := "cat_custom"
  const OtherCategory := "Другое"

  /** Display names of the category buttons. */
  const CategoryNames: map<string, string> := map[
    "cat_clothing" := "Одежда",
    "cat_shoes" := "Обувь",
    "cat_electronics" := "Электроника",
    "cat_home" := "Дом и сад",
    "cat_beauty" := "Красота и здоровье",
    "cat_kids" := "Детские товары",
    "cat_sport" := "Спорт и отдых",
    "cat_tools" := "Инструменты"
  ]

  /** A button's category name; an unknown button gets the catch-all name. */
  function CategoryName(data: string): string {
    if data in CategoryNames then CategoryNames[data] else OtherCategory
  }

  /**
   * What a slide-count button asks for: every "slides_" is removed, "auto"
   * leaves the count to the model, anything else goes through `int()`,
   * whose failure raises.
   */
  function SlidesRequest(data: string): Outcome<Option<int>> {
    var arg := ReplaceAll(data, SlidesPrefix, "");
    if arg == "auto" then Returned(None)
    else
      match ParseInt(arg)
      case None => Raised
      case Some(n) => Returned(Some(n))
  }

  /** The "auto" button requests no particular count. */
  lemma SlidesAutoLeavesCountOpen()
    ensures SlidesRequest(SlidesPrefix + "auto") == Returned(None)
  {
    assert ReplaceAll(SlidesPrefix + "auto", SlidesPrefix, "") == "auto" by {
      ReplacePrefixOnce(SlidesPrefix, "auto");
    }
  }

  /** A numbered button requests exactly its number. */
  lemma SlidesButtonCarriesItsCount(n: int)
    ensures SlidesRequest(SlidesPrefix + IntToString(n)) == Returned(Some(n))
  {
    var digits := IntToString(n);
    assert ReplaceAll(SlidesPrefix + digits, SlidesPrefix, "") == digits by {
      assert 's' !in digits by {
        var body := NatToString(if n < 0 then -n else n);
        assert forall k :: 0 <= k < |body| ==> body[k] != 's';
        assert n < 0 ==> digits == "-" + body;
        assert n >= 0 ==> digits == body;
      }
      ReplacePrefixOnce(SlidesPrefix, digits);
    }
    assert digits != "auto" by {
      assert digits[0] != 'a';
    }
    assert ParseInt(digits) == Some(n) by {
      ParseIntToString(n);
    }
  }

  /**
   * A "slides_" callback whose remainder is a word starting with a letter,
   * other than "auto", makes `int()` raise. The main menu's
   * "slides_from_ref" button is one: when it reaches this handler, the
   * handler raises.
   */
  lemma SlidesWordRaises(word: string)
    requires |word| > 0 && 'a' <= word[0] <= 'z' && Trimmed(word)
    requires 's' !in word && word != "auto"
    ensures SlidesRequest(SlidesPrefix + word) == Raised
  {
    assert ReplaceAll(SlidesPrefix + word, SlidesPrefix, "") == word by {
      ReplacePrefixOnce(SlidesPrefix, word);
    }
    assert ParseInt(word) == None by {
      assert Strip(word) == word by {
        StripOfTrimmed(word);
      }
      assert ParseSigned(word) == None by {
        assert !IsDigit(word[0]);
        assert !DigitGroups(word);
      }
    }
  }

  // ---------------------------------------------------------------------
  // format_plan_preview

  const PreviewSlideLimit := 7
  const OverlayPreviewWidth := 40
  const CrownMark := "👑 "
  const NoCrown := "   "
  const PlanTitleLine := "<b>План создания инфографики</b>\n"
  const SlideCountLabel := "<b>Количество слайдов:</b> "
  const SeoTitleLabel := "<b>SEO-заголовок:</b>\n"
  const SlidesHeading := "<b>Слайды:</b>"
  const PlanFooter := "\n<i>Нажмите 'Генерировать' для создания изображений</i>"

  /** The slide number as shown, "?" when the prompt has none. */
  function SlideNumberText(p: SlidePrompt): string {
    if p.slide.Some? then IntToString(p.slide.value) else "?"
  }

  /** The caption part of a slide line: the start of the overlay text. */
  function OverlayPreview(p: SlidePrompt): (r: string)
    ensures |r| <= OverlayPreviewWidth && |r| <= |p.textOverlay.GetOr("")|
    ensures r == p.textOverlay.GetOr("")[..|r|]
    ensures |p.textOverlay.GetOr("")| <= OverlayPreviewWidth ==> r == p.textOverlay.GetOr("")
  {
    Take(p.textOverlay.GetOr(""), OverlayPreviewWidth)
  }

  /** One previewed slide: a crown for the main slide, its number and the start of its caption. */
  function SlideLine(p: SlidePrompt): string {
    (if p.isMain then CrownMark else NoCrown) + "<b>Слайд " + SlideNumberText(p) + ":</b> "
      + OverlayPreview(p) + "..."
  }

  function SlideLines(ps: seq<SlidePrompt>): (r: seq<string>)
    ensures |r| == |ps|
    ensures forall k :: 0 <= k < |ps| ==> r[k] == SlideLine(ps[k])
  {
    if ps == [] then [] else SlideLines(ps[..|ps| - 1]) + [SlideLine(ps[|ps| - 1])]
  }

  /** The SEO title as tested for truthiness, "" when absent. */
  function SeoTitle(a: Analysis): string {
    a.seo.GetOr(NoSeo()).title.GetOr("")
  }

  /** The lines above the slide list. */
  function PlanHeader(a: Analysis): seq<string> {
    [PlanTitleLine, SlideCountLabel + IntToString(a.numSlides.GetOr(DefaultSlides)), ""]
      + (if SeoTitle(a) != "" then [SeoTitleLabel + SeoTitle(a) + "\n"] else [])
      + [SlidesHeading]
  }

  /** The prompts the preview lists. */
  function PreviewedPrompts(a: Analysis): seq<SlidePrompt> {
    Take(a.slidePrompts.GetOr([]), PreviewSlideLimit)
  }

  function PlanPreviewLines(a: Analysis): seq<string> {
    PlanHeader(a) + SlideLines(PreviewedPrompts(a)) + [PlanFooter]
  }

  function PlanPreview(a: Analysis): string {
    Join(PlanPreviewLines(a), "\n")
  }

  /** Python `format_plan_preview`. */
  method FormatPlanPreview(a: Analysis) returns (text: string)
    ensures text == PlanPreview(a)
  {
    var lines := [PlanTitleLine, SlideCountLabel + IntToString(a.numSlides.GetOr(DefaultSlides)), ""];
    var seo := a.seo.GetOr(NoSeo());
    var title := seo.title.GetOr("");
    if title != "" {
      lines := lines + [SeoTitleLabel + title + "\n"];
    }
    lines := lines + [SlidesHeading];
    ghost var header := lines;
    assert header == PlanHeader(a);
    var ps := Take(a.slidePrompts.GetOr([]), PreviewSlideLimit);
    var i := 0;
    while i < |ps|
      invariant 0 <= i <= |ps|
      invariant lines == header + SlideLines(ps[..i])
    {
      assert ps[..i + 1][..i] == ps[..i];
      lines := lines + [SlideLine(ps[i])];
      i := i + 1;
    }
    assert ps[..i] == ps;
    lines := lines + [PlanFooter];
    text := Join(lines, "\n");
  }

  /**
   * The preview lists the first seven prompts, one line each, between its
   * header and its footer.
   */
  lemma PlanPreviewListsFirstSevenPrompts(a: Analysis)
    ensures var lines := PlanPreviewLines(a);
      var h := |PlanHeader(a)|;
      var all := a.slidePrompts.GetOr([]);
      var n := |PreviewedPrompts(a)|;
      && n == (if |all| < PreviewSlideLimit then |all| else PreviewSlideLimit)
      && |lines| == h + n + 1
      && (forall k :: 0 <= k < n ==> lines[h + k] == SlideLine(all[k]))
      && lines[|lines| - 1] == PlanFooter
  {
  }

  /** A slide line starts with the crown exactly when its prompt is the main slide. */
  lemma SlideLineMarksMainSlide(p: SlidePrompt)
    ensures StartsWith(SlideLine(p), CrownMark) <==> p.isMain
    ensures Contains(SlideLine(p), OverlayPreview(p))
  {
    var mark := if p.isMain then CrownMark else NoCrown;
    var before := mark + "<b>Слайд " + SlideNumberText(p) + ":</b> ";
    assert SlideLine(p) == before + OverlayPreview(p) + "...";
    ContainsInside(before, OverlayPreview(p), "...");
    assert SlideLine(p)[0] == mark[0];
    assert CrownMark[0] != NoCrown[0];
  }

  /** Every previewed prompt's line appears in the preview text. */
  lemma PlanPreviewShowsEverySlide(a: Analysis, k: nat)
    requires k < |PreviewedPrompts(a)|
    ensures Contains(PlanPreview(a), SlideLine(a.slidePrompts.value[k]))
  {
    var lines := PlanPreviewLines(a);
    var h := |PlanHeader(a)|;
    var ps := PreviewedPrompts(a);
    assert h + k < |lines| && lines[h + k] == SlideLine(a.slidePrompts.value[k]) by {
      assert lines == PlanHeader(a) + SlideLines(ps) + [PlanFooter];
      assert ps[k] == a.slidePrompts.value[k];
      assert SlideLines(ps)[k] == SlideLine(ps[k]);
    }
    assert PlanPreview(a) == Join(lines, "\n");
    JoinContainsPart(lines, "\n", h + k);
  }

  /** The preview states the planned count, 5 when the analysis has none. */
  lemma PlanPreviewShowsSlideCount(a: Analysis)
    ensures Contains(PlanPreview(a), SlideCountLabel + IntToString(a.numSlides.GetOr(DefaultSlides)))
  {
    JoinContainsPart(PlanPreviewLines(a), "\n", 1);
  }

  /** A non-empty SEO title gets its own line; an empty or missing one gets none. */
  lemma PlanPreviewShowsSeoTitle(a: Analysis)
    ensures SeoTitle(a) != "" ==> Contains(PlanPreview(a), SeoTitleLabel + SeoTitle(a) + "\n")
    ensures |PlanHeader(a)| == (if SeoTitle(a) != "" then 5 else 4)
  {
    if SeoTitle(a) != "" {
      JoinContainsPart(PlanPreviewLines(a), "\n", 3);
    }
  }

  // ---------------------------------------------------------------------
  // The machine's invariant

  /**
   * What each state presupposes about the session: a category is asked for
   * only once a name is known, a slide count only once both are known, and
   * a plan is confirmed only once an analysis and its prompts are stored.
   */
  predicate StateMatchesSession(st: FlowState, v: SessionView) {
    && ((st == WaitingForCategory || st == WaitingForCustomCategory) ==> v.productName.Some?)
    && (st == WaitingForSlidesCount ==> v.productName.Some? && v.category.Some?)
    && (st == ConfirmingPlan ==>
          v.productName.Some? && v.category.Some? && v.fullAnalysis.Some? && v.slidePrompts.Some?)
  }

  /** `start_generation` proceeds only with a non-empty image and a non-empty analysis. */
  predicate ReadyToGenerate(v: SessionView) {
    && v.originalImage.Some? && v.originalImage.value != []
    && v.fullAnalysis.Some? && !v.fullAnalysis.value.IsEmpty()
  }

  /** How `start_generation` ends. */
  datatype GenerationEnd = SessionDataLost | GenerationFailed

  // ---------------------------------------------------------------------
  // The handlers

  /** One user's conversation: its state and the services its handlers call. */
  class InfographicFlow {
    var state: FlowState
    const user: int
    const sessions: SessionManager
    const grok: GrokBackend
    const imageApi: ImageApi

    ghost predicate Valid()
      reads this, sessions, sessions.sessions.Values
    {
      sessions.Valid() && StateMatchesSession(state, sessions.ViewOf(user))
    }

    constructor (user: int, sessions: SessionManager, grok: GrokBackend, imageApi: ImageApi)
      requires sessions.Valid()
      ensures this.user == user && this.sessions == sessions
      ensures this.grok == grok && this.imageApi == imageApi
      ensures state == Cleared && Valid()
    {
      this.user := user;
      this.sessions := sessions;
      this.grok := grok;
      this.imageApi := imageApi;
      state := Cleared;
    }

    /** Python `start_infographic`: with an image already loaded the state is left as it was. */
    method StartInfographic(now: int)
      requires sessions.Valid()
      modifies this, sessions
      ensures sessions.Valid() && sessions.HasSession(user)
      ensures KeepsEntries(old(sessions.sessions), sessions.sessions, user)
      ensures forall v :: sessions.ViewOf(v) == old(sessions.ViewOf(v))
      ensures state == (if old(sessions.ViewOf(user)).originalImage.Some? then old(state) else WaitingForPhoto)
    {
      var s := sessions.GetSession(user, now);
      if s.HasImage() {
        return;
      }
      state := WaitingForPhoto;
    }

    /** Python `use_existing_image`: skip to the slide count when name and category are known. */
    method UseExistingImage(now: int)
      requires sessions.Valid()
      modifies this, sessions
      ensures sessions.Valid() && sessions.HasSession(user)
      ensures KeepsEntries(old(sessions.sessions), sessions.sessions, user)
      ensures forall v :: sessions.ViewOf(v) == old(sessions.ViewOf(v))
      ensures var v := old(sessions.ViewOf(user));
        state == (if v.productName.Some? && v.category.Some? then WaitingForSlidesCount else WaitingForProductName)
    {
      var s := sessions.GetSession(user, now);
      if s.HasProductInfo() {
        state := WaitingForSlidesCount;
      } else {
        state := WaitingForProductName;
      }
    }

    /** Python `request_new_photo`: the session, if any, is reset and a photo is awaited. */
    method RequestNewPhoto()
      requires sessions.Valid()
      modifies this, sessions.Slot(user)
      ensures sessions.Valid() && sessions.sessions == old(sessions.sessions)
      ensures sessions.ViewOf(user) == BlankView()
      ensures KeepsEntries(old(sessions.sessions), sessions.sessions, user)
      ensures state == WaitingForPhoto
    {
      sessions.ResetSession(user);
      if user in sessions.sessions {
        sessions.sessions[user].BlankHasNothing();
      }
      state := WaitingForPhoto;
    }

    /**
     * Python `receive_photo`: a failed download changes nothing; otherwise
     * the image is stored first, and the state advances unless the image
     * analysis raises.
     */
    method ReceivePhoto(download: Option<Bytes>, now: int)
      requires sessions.Valid()
      modifies this, sessions, sessions.Slot(user)
      ensures sessions.Valid()
      ensures KeepsEntries(old(sessions.sessions), sessions.sessions, user)
      ensures download.None? ==>
        && state == old(state) && sessions.sessions == old(sessions.sessions)
        && sessions.ViewOf(user) == old(sessions.ViewOf(user))
      ensures download.Some? ==>
        && sessions.HasSession(user)
        && sessions.ViewOf(user) == old(sessions.ViewOf(user)).(originalImage := download)
        && state == (if AnalyzeProductImage(imageApi(AnalysisRequest(download.value))).Raised?
                     then old(state) else WaitingForProductName)
    {
      if download.None? {
        return;
      }
      var image := download.value;
      var s := sessions.GetSession(user, now);
      s.SetOriginalImage(image);
      var analysis := AnalyzeProductImage(imageApi(AnalysisRequest(image)));
      if analysis.Raised? {
        return;
      }
      state := WaitingForProductName;
    }

    /** Python `receive_product_name`: a stripped name shorter than 3 characters is refused. */
    method ReceiveProductName(text: string, now: int)
      requires sessions.Valid()
      modifies this, sessions, sessions.Slot(user)
      ensures sessions.Valid()
      ensures KeepsEntries(old(sessions.sessions), sessions.sessions, user)
      ensures |Strip(text)| < 3 ==>
        && state == old(state) && sessions.sessions == old(sessions.sessions)
        && sessions.ViewOf(user) == old(sessions.ViewOf(user))
      ensures |Strip(text)| >= 3 ==>
        && sessions.HasSession(user)
        && sessions.ViewOf(user) == old(sessions.ViewOf(user)).(productName := Some(Strip(text)))
        && state == WaitingForCategory
    {
      var name := Strip(text);
      if |name| < 3 {
        return;
      }
      var s := sessions.GetSession(user, now);
      s.SetProductName(name);
      state := WaitingForCategory;
    }

    /** Python `receive_category`: the custom button asks for text; any other stores a name. */
    method ReceiveCategory(data: string, now: int)
      requires sessions.Valid()
      modifies this, sessions, sessions.Slot(user)
      ensures sessions.Valid()
      ensures KeepsEntries(old(sessions.sessions), sessions.sessions, user)
      ensures data == CustomCategory ==>
        && state == WaitingForCustomCategory && sessions.sessions == old(sessions.sessions)
        && sessions.ViewOf(user) == old(sessions.ViewOf(user))
      ensures data != CustomCategory ==>
        && sessions.HasSession(user)
        && sessions.ViewOf(user) == old(sessions.ViewOf(user)).(category := Some(CategoryName(data)))
        && state == WaitingForSlidesCount
    {
      if data == CustomCategory {
        state := WaitingForCustomCategory;
        return;
      }
      var category := CategoryName(data);
      var s := sessions.GetSession(user, now);
      s.SetCategory(category);
      state := WaitingForSlidesCount;
    }

    /** Python `receive_custom_category`: the stripped text is the category, even when empty. */
    method ReceiveCustomCategory(text: string, now: int)
      requires sessions.Valid()
      modifies this, sessions, sessions.Slot(user)
      ensures sessions.Valid() && sessions.HasSession(user)
      ensures KeepsEntries(old(sessions.sessions), sessions.sessions, user)
      ensures sessions.ViewOf(user) == old(sessions.ViewOf(user)).(category := Some(Strip(text)))
      ensures state == WaitingForSlidesCount
    {
      var s := sessions.GetSession(user, now);
      s.SetCategory(Strip(text));
      state := WaitingForSlidesCount;
    }

    /**
     * Python `receive_slides_count`. The session is fetched before the
     * count is parsed, and a failed parse raises out of the handler with the
     * state unchanged. A finished analysis is stored and previewed; no
     * analysis, or an exception from it, clears the state.
     */
    method ReceiveSlidesCount(data: string, now: int) returns (plan: Option<string>)
      requires sessions.Valid()
      modifies this, sessions, sessions.Slot(user)
      ensures sessions.Valid() && sessions.HasSession(user)
      ensures KeepsEntries(old(sessions.sessions), sessions.sessions, user)
      ensures SlidesRequest(data).Raised? ==>
        state == old(state) && plan.None? && sessions.ViewOf(user) == old(sessions.ViewOf(user))
      ensures SlidesRequest(data).Returned? ==>
        var v := old(sessions.ViewOf(user));
        var run := GenerateFullAnalysis(grok, v.productName, v.category, SlidesRequest(data).value);
        if run.result.Returned? && run.result.value.Some? then
          var a := run.result.value.value;
          && state == ConfirmingPlan
          && plan == Some(PlanPreview(a))
          // a confirmed plan always carries a count inside the offered range
          && MinSlides <= a.numSlides.GetOr(DefaultSlides) <= MaxSlides
          && sessions.ViewOf(user) == v.(fullAnalysis := Some(a),
                                         numSlides := Some(a.numSlides.GetOr(DefaultSlides)),
                                         styleGuide := Some(a.styleGuide.GetOr("")),
                                         slidePrompts := Some(a.slidePrompts.GetOr([])))
        else
          state == Cleared && plan.None? && sessions.ViewOf(user) == v
    {
      var s := sessions.GetSession(user, now);
      var request := SlidesRequest(data);
      if request.Raised? {
        plan := None;
        return;
      }
      var run := GenerateFullAnalysis(grok, s.productName, s.category, request.value);
      if run.result.Returned? && run.result.value.Some? {
        var a := run.result.value.value;
        s.StorePlan(a, a.numSlides.GetOr(DefaultSlides), a.styleGuide.GetOr(""), a.slidePrompts.GetOr([]));
        var text := FormatPlanPreview(a);
        plan := Some(text);
        state := ConfirmingPlan;
      } else {
        plan := None;
        state := Cleared;
      }
    }

    /**
     * Python `start_generation`. Without a non-empty image and analysis the
     * session is reported lost. Otherwise the slide generator is called
     * without its required product-name argument, which raises before any
     * request is made; the handler catches that. Either way no slide is
     * stored and the state is cleared.
     */
    method StartGeneration(now: int) returns (end: GenerationEnd)
      requires sessions.Valid()
      modifies this, sessions
      ensures sessions.Valid() && sessions.HasSession(user)
      ensures KeepsEntries(old(sessions.sessions), sessions.sessions, user)
      ensures forall v :: sessions.ViewOf(v) == old(sessions.ViewOf(v))
      ensures end == SessionDataLost <==> !ReadyToGenerate(old(sessions.ViewOf(user)))
      ensures state == Cleared
    {
      state := Generating;
      var s := sessions.GetSession(user, now);
      if s.originalImage.None? || s.originalImage.value == [] || s.fullAnalysis.None? || s.fullAnalysis.value.IsEmpty() {
        state := Cleared;
        end := SessionDataLost;
        return;
      }
      end := GenerationFailed;
      state := Cleared;
    }

    /** Python `edit_slides_count`. */
    method EditSlidesCount()
      modifies this
      ensures state == WaitingForSlidesCount
    {
      state := WaitingForSlidesCount;
    }

    /** Python `edit_prompts`: shows the stored prompts and changes nothing. */
    method EditPrompts(now: int)
      requires sessions.Valid()
      modifies sessions
      ensures sessions.Valid() && sessions.HasSession(user)
      ensures KeepsEntries(old(sessions.sessions), sessions.sessions, user)
      ensures forall v :: sessions.ViewOf(v) == old(sessions.ViewOf(v))
    {
      var s := sessions.GetSession(user, now);
    }

    /** Runs one of the three entry callbacks, which fire in any state. */
    method RunEntryCallback(h: Handler, now: int)
      requires Valid() && HandlerState(h).None?
      modifies this, sessions, sessions.Slot(user)
      ensures Valid()
      ensures KeepsEntries(old(sessions.sessions), sessions.sessions, user)
      ensures old(state) != Generating ==> state != Generating
    {
      match h {
        case StartInfographic => this.StartInfographic(now);
        case UseExistingImage => this.UseExistingImage(now);
        case RequestNewPhoto => this.RequestNewPhoto();
      }
    }

    /** Runs a callback handler bound to the current state. */
    method RunStateCallback(h: Handler, data: string, now: int) returns (plan: Option<string>)
      requires Valid() && Route(state, Callback(data)) == Some(h) && HandlerState(h).Some?
      modifies this, sessions, sessions.Slot(user)
      ensures Valid()
      ensures KeepsEntries(old(sessions.sessions), sessions.sessions, user)
      ensures state != Generating
      ensures plan.Some? ==> state == ConfirmingPlan
    {
      plan := None;
      match h {
        case ReceiveCategory => this.ReceiveCategory(data, now);
        case ReceiveSlidesCount => plan := this.ReceiveSlidesCount(data, now);
        case StartGeneration => var _ := this.StartGeneration(now);
        case EditSlidesCount => this.EditSlidesCount();
        case EditPrompts => this.EditPrompts(now);
      }
    }

    /** Runs a message handler bound to the current state. */
    method RunMessage(h: Handler, ev: Event, now: int)
      requires Valid() && !ev.Callback? && Route(state, ev) == Some(h)
      modifies this, sessions, sessions.Slot(user)
      ensures Valid()
      ensures KeepsEntries(old(sessions.sessions), sessions.sessions, user)
      ensures state != Generating
    {
      match h {
        case ReceivePhoto => this.ReceivePhoto(ev.download, now);
        case ReceiveProductName => this.ReceiveProductName(ev.text, now);
        case ReceiveCustomCategory => this.ReceiveCustomCategory(ev.text, now);
        case InvalidPhotoInput =>
        case InvalidNameInput =>
      }
    }

    /**
     * Routes one update and runs its handler. The machine's invariant holds
     * after every update, the transient generating state is never left
     * behind, and no other user's session entry changes.
     */
    method Dispatch(ev: Event, now: int) returns (plan: Option<string>)
      requires Valid()
      modifies this, sessions, sessions.Slot(user)
      ensures Valid()
      ensures KeepsEntries(old(sessions.sessions), sessions.sessions, user)
      ensures old(state) != Generating ==> state != Generating
      ensures Route(old(state), ev).None? ==>
        state == old(state) && sessions.sessions == old(sessions.sessions) && sessions.ViewOf(user) == old(sessions.ViewOf(user))
      ensures plan.Some? ==> state == ConfirmingPlan
    {
      plan := None;
      var handler := Route(state, ev);
      if handler.None? {
        return;
      }
      var h := handler.value;
      if HandlerState(h).None? {
        RunEntryCallback(h, now);
      } else if ev.Callback? {
        plan := RunStateCallback(h, ev.data, now);
      } else {
        RunMessage(h, ev, now);
      }
    }
  }
}
