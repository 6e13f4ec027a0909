# Infographic bot core: a verified Dafny model

This project models the parts of the marketplace-infographic chat bot that
carry real logic. The rest of the bot is HTTP and chat-platform glue, and is
not modelled.

- **Session store** (`session.dfy`, module `Session`). A `UserSession` class
  holds one user's product name, category, images, keywords, SEO text, slide
  plan and full analysis. A `SessionManager` class holds a
  `map<int, UserSession>` and supports get-or-create, reset, delete and
  membership. The keyword flattening and the two message formatters are
  modelled too.
- **Text service** (`grok_service.dfy`, module `Grok`). `ExtractJson` models
  `extract_json_from_text`. Python's `re` search is written out as explicit
  leftmost-match functions: a fence pattern with a lazy body, and a greedy
  `{…}`/`[…]` span. `GenerateFullAnalysis` chains the keyword, SEO and
  slide-prompt steps. It stops at the first failure, merges the keyword
  tiers and clamps the slide count to `[3, 7]`.
- **Image service** (`nanobanana_service.dfy`, module `NanoBanana`). It
  models reading a `data:image…;base64,` payload out of list or string
  message content, which is the data-URL scheme of RFC 2397 with the
  alphabet of section 4 of RFC 4648. It also models the result choice of
  `remove_background` and `analyze_product_image`, the request built for one
  slide, and the `generate_all_slides` loop. That loop passes the latest
  successful main slide to later slides as a style reference.
- **Infographic conversation** (`infographic.dfy`, module `Infographic`).
  `Route` reproduces the router's handler selection. An `InfographicFlow`
  class holds the FSM state and has one method per handler. The invariant
  `StateMatchesSession` ties each state to what the session must already
  hold. `format_plan_preview` is modelled as a method proved against the
  `PlanPreview` function.
- **Python built-ins** (`builtins.dfy`, module `Builtins`). This covers
  `str.strip` with Python's whitespace set, `str.join`, `str.replace`,
  `str(int)` and `int(str)`, and the `Option`/`Outcome` wrappers. `Outcome`
  records whether a call returned or raised.

The outside world appears only as parameters:

- The Grok HTTP call is `GrokBackend.complete`, and `json.loads` for each
  step is one of the `parse*` functions.
- The image endpoint is an `ImageApi`, a function from request items to a
  parsed response.
- `base64.b64decode` is a partial `Decoder`.
- The clock reading for `created_at` is a `now` argument.
- A photo download is an `Option<Bytes>` carried by the event.

Three facts about the source shape the model:

- Not every failure clears the conversation state. A failed photo download,
  or an image analysis that raises, leaves the state as it was
  (`infographic.py:156-161`). A slide-count button whose suffix `int()`
  cannot parse also raises out of `receive_slides_count` with the state
  unchanged (`infographic.py:241`).
- `start_generation` calls `generate_all_slides` without its required
  `product_name` argument (`infographic.py:345-349` against
  `nanobanana_service.py:238-244`). In the source that call raises before any
  request is made. The handler catches the error, so no slide is ever stored
  and the state always ends cleared. `InfographicFlow.StartGeneration`
  models exactly that.
- `bot/main.py` never registers the infographic router. The handlers are
  modelled as written all the same.

## Model

| member | source | states |
|---|---|---|
| Builtins.Strip | bot/services/grok_service.py:15 | The result is the input with leading and trailing Python whitespace removed, and no whitespace is left at either end. |
| Builtins.StripIsUnique | bot/handlers/infographic.py:167 | The strip specification allows only one result, so `Strip` is exactly `str.strip`. |
| Builtins.ParseIntToString | bot/handlers/infographic.py:241 | `int()` reads back exactly the number that `str()` printed. |
| Builtins.SliceTo | bot/services/grok_service.py:209 | `s[:n]` is a prefix of `s` of length `min(n, len(s))`; a negative `n` drops `-n` elements from the end. |
| Builtins.JoinContainsPart | bot/models/session.py:108 | Every part appears in the string produced by `sep.join(parts)`. |
| Session.KeywordPool | bot/models/session.py:80-83 | A word is in the pool iff it is in one of the high, mid, low or flat keyword lists. |
| Session.UserSession.constructor | bot/models/session.py:6-41 | A new session has the given user id and creation time, and every content field is None. |
| Session.UserSession.Reset | bot/models/session.py:43-61 | Every content field becomes None. `user_id` and `created_at` are unchanged. |
| Session.UserSession.BlankHasNothing | bot/models/session.py:63-73 | A blank session (new or reset) has no image, no product info and no analysis. |
| Session.UserSession.GetKeywordsList | bot/models/session.py:75-85 | Returns [] when `keywords` is None or empty. Otherwise it has no duplicates, and its elements are exactly those of the four lists. |
| Session.UserSession.FormatKeywordsMessage | bot/models/session.py:87-108 | The built text equals the `KeywordsMessage` specification: the fallback text when there are no keywords, else one section per non-empty tier. |
| Session.KeywordsMessageShowsTieredKeywords | bot/models/session.py:94-106 | Every keyword of the high, mid and low tiers appears in the keywords message. |
| Session.AppendBulletLines | bot/models/session.py:123-124 | The loop appends exactly one "• " line per card bullet, in order. |
| Session.DescriptionShown | bot/models/session.py:129 | A description over 500 characters is cut to its first 500 plus "...". A shorter one is shown whole. |
| Session.UserSession.FormatSeoMessage | bot/models/session.py:110-131 | The built text equals the `SeoMessage` specification: the fallback text without an analysis, else the title, bullet and description parts that are non-empty. |
| Session.SeoMessageShowsEveryBullet | bot/models/session.py:121-125 | Every card bullet appears in the SEO message. |
| Session.SeoDescriptionIsCapped | bot/models/session.py:127-129 | The shown description line is at most 503 characters long and keeps the first 500 characters of the original. |
| Session.UserSession.SetOriginalImage | bot/handlers/infographic.py:131-132 | Stores the photo. No other field changes. |
| Session.UserSession.SetProductName | bot/handlers/infographic.py:176-177 | Stores the product name. No other field changes. |
| Session.UserSession.SetCategory | bot/handlers/infographic.py:201-202 | Stores the category. No other field changes. |
| Session.UserSession.StorePlan | bot/handlers/infographic.py:262-266 | Stores the analysis with its count, style and prompts. No other field changes. |
| Session.SessionManager.constructor | bot/models/session.py:159-160 | The map starts empty. |
| Session.SessionManager.GetSession | bot/models/session.py:162-166 | An absent user gets a fresh blank session with its own id, and then has a session. A present user gets the stored session back, unchanged. No other entry changes. |
| Session.SessionManager.ResetSession | bot/models/session.py:168-171 | A present user's session is reset in place. An absent user gets no session. The map and every other session are unchanged. |
| Session.SessionManager.DeleteSession | bot/models/session.py:173-180 | Removes exactly key `u`, so `HasSession(u)` becomes false. Deleting an absent user changes nothing. Other sessions are untouched. |
| Grok.FindFence | bot/services/grok_service.py:18 | Finds the first fence at or after `i`. No fence starts before it. |
| Grok.LazyBody | bot/services/grok_service.py:18 | The group starts right after the whole `\s*` run and ends at the first fence after it, so it contains no fence. With no fence after the run, the tail does not match. |
| Grok.WhitespaceBacktrackingFindsSameFence | bot/services/grok_service.py:18 | Giving back characters of the `\s*` run cannot change which closing fence is found. |
| Grok.UntaggedNeverRescuesTagged | bot/services/grok_service.py:18 | When the `json`-tagged reading finds no closing fence, the untagged reading finds none either. |
| Grok.FenceSearch | bot/services/grok_service.py:18 | The match found starts at the leftmost position where the fence pattern matches. If there is none, the pattern matches nowhere. |
| Grok.FenceHitShape | bot/services/grok_service.py:18-20 | The block found lies between two fences and contains no fence. |
| Grok.SearchedText | bot/services/grok_service.py:15-20 | The text searched for JSON is a trimmed, contiguous piece of the reply. |
| Grok.FencedBlockNarrowsSearch | bot/services/grok_service.py:17-20 | When the stripped reply has a fenced block, only the stripped contents of the first block are searched, and the result comes from inside that block. |
| Grok.SpanAt | bot/services/grok_service.py:23 | A span starts at `i` iff `i` holds an opener with its closer somewhere later. The span ends at the last such closer. |
| Grok.SpanSearch | bot/services/grok_service.py:23 | The match starts at the leftmost position that starts a span. If there is none, no position does. |
| Grok.JsonSpan | bot/services/grok_service.py:22-27 | The result is a contiguous piece of the input. With a span, it starts with `{`/`[` and ends with the matching closer. Without a span, it is the input unchanged. |
| Grok.JsonSpanIsLeftmostGreedy | bot/services/grok_service.py:23-25 | The span starts at the leftmost opener that has a later closer, and runs to the last such closer. |
| Grok.ExtractJson | bot/services/grok_service.py:12-27 | The result is always a contiguous piece of the input, with no whitespace at either end. |
| Grok.ExtractJsonIsLeftmostGreedy | bot/services/grok_service.py:12-27 | Same as `JsonSpanIsLeftmostGreedy`, stated for the text that `extract_json_from_text` searches. |
| Grok.Ask | bot/services/grok_service.py:107-119 | A failed request or an empty reply gives None without parsing. A reply with text gives the parse of the JSON scraped from it. |
| Grok.AnalyzeKeywords | bot/services/grok_service.py:77-119 | The outcome is decided by the reply to the keywords request for this product and category, as in `Ask`. |
| Grok.GenerateSeoContent | bot/services/grok_service.py:121-180 | The request carries the first 15 keywords (all of them when there are at most 15), and the outcome is decided by its reply, as in `Ask`. |
| Grok.GenerateSlidePrompts | bot/services/grok_service.py:182-256 | Raises iff one of the first `num_slides` slide entries lacks `slide`, `focus` or `text`, before any request. Otherwise the request carries exactly those entries and the SEO title (default ""), and the outcome is decided by its reply. |
| Grok.ClampSlides | bot/services/grok_service.py:290 | The result lies in [3, 7]. An in-range count is kept, and an out-of-range count goes to the nearer bound. |
| Grok.PlannedSlides | bot/services/grok_service.py:287-290 | A requested count is clamped. Without a request, the suggested `optimal_slides` is clamped, and 5 is used when it is missing. The result lies in [3, 7]. |
| Grok.MergeKeywordsLayout | bot/services/grok_service.py:272-279 | The merged list is high, then mid, then low. It is the flat `keywords` list only when all three tiers are empty, and it is empty iff all four lists are. |
| Grok.GenerateFullAnalysis | bot/services/grok_service.py:258-308 | No keywords or `{}` iff the run stops after one request with None. Then the SEO request carries the first 15 merged keywords; no SEO content or `{}` stops after two requests with None. A raise in the prompts step is the run's raise. Otherwise the third request carries the SEO title and the first `n` slide entries, `n` the planned count in [3, 7]; no prompts or `{}` gives None, and a result holds the keyword dict, the SEO dict, `n`, and the style guide and prompts with defaults "" and []. |
| NanoBanana.FirstDataImageItem | bot/services/nanobanana_service.py:123-127 | Finds the first dict item of type `image_url` whose url starts with `data:image`. |
| NanoBanana.SecondCommaField | bot/services/nanobanana_service.py:128 | `url.split(",")[1]` is the comma-free field after the first comma. It is None (an IndexError) iff the url has no comma. |
| NanoBanana.FieldAfterFirstCommaUnique | bot/services/nanobanana_service.py:128 | The field after the first comma is uniquely determined. |
| NanoBanana.DataUrlPayloadRoundTrip | bot/services/nanobanana_service.py:128 | For `header,payload` with no comma in either part, the extracted field is exactly the payload. |
| NanoBanana.DataUrlAtIsTheMatch | bot/services/nanobanana_service.py:134 | The pattern matches at `i` iff `DataUrlAt` finds a group there. That group is the longest run of base64 characters after `;base64,`. |
| NanoBanana.DataUrlSearch | bot/services/nanobanana_service.py:134 | The match found is the leftmost position where the data-URL pattern matches. |
| NanoBanana.ExtractImageFromList | bot/services/nanobanana_service.py:122-129 | For list content the result is the decoder's answer on the field after the first comma of the first data-image item's url. A url without a comma, or no such item, gives None. |
| NanoBanana.DataUrlMatchIsFound | bot/services/nanobanana_service.py:134 | A match at `i` whose group runs as far as the base64 characters do is exactly what `DataUrlAt` finds there. |
| NanoBanana.LeftmostDataUrlIsSearched | bot/services/nanobanana_service.py:134 | The leftmost match, with its longest group, is the one `re.search` reports. |
| NanoBanana.StringContentIsSearched | bot/services/nanobanana_service.py:132-136 | For string content, extraction decodes the group at the position `re.search` reports, and gives None when it reports none. |
| NanoBanana.ExtractImageFromString | bot/services/nanobanana_service.py:132-136 | For string content the result is the decoder's answer on the group of the leftmost data-URL match, the group running as far as the base64 characters do. No match gives None. |
| NanoBanana.ExtractImageNeedsChoices | bot/services/nanobanana_service.py:118-141 | A response with no choices, or an empty list of them, yields no image. |
| NanoBanana.RemoveBackground | bot/services/nanobanana_service.py:99-114 | A missing response or missing `choices` gives None, and empty choices raise. A returned image is either an extracted non-empty image or the original bytes. |
| NanoBanana.RemoveBackgroundFallsBackToOriginal | bot/services/nanobanana_service.py:101-112 | When choices exist, the result is the extracted image if there is one, else the original bytes unchanged. |
| NanoBanana.AnalyzeProductImage | bot/services/nanobanana_service.py:371-385 | String content is returned as is. List content gives None iff no item is a text dict or a bare string. Other content and a missing response give None. |
| NanoBanana.AnalyzeTakesFirstTextItem | bot/services/nanobanana_service.py:377-383 | For list content, the answer is the text of the first text-typed dict or bare-string item. |
| NanoBanana.SlideImage | bot/services/nanobanana_service.py:226-236 | There is a slide image iff a response came back and a non-empty image can be extracted from it, and then it is that image. |
| NanoBanana.SlideRequest | bot/services/nanobanana_service.py:201-224 | The request holds the instruction and the product photo. The caption and the reference photo follow iff the reference bytes are non-empty and the slide is not main. |
| NanoBanana.GenerateInfographicSlide | bot/services/nanobanana_service.py:143-236 | The request built in place is `SlideRequest`, and the result is the image read from the response. |
| NanoBanana.LatestMainImage | bot/services/nanobanana_service.py:278-280 | Returns the image of the last record that is a successful main slide, or None if there is none. |
| NanoBanana.RecordFor | bot/services/nanobanana_service.py:254-291 | `slide_num` is the prompt's `slide`, default 1. The record has `error` iff it has no image bytes. |
| NanoBanana.LatestMainImageExtend | bot/services/nanobanana_service.py:278-280 | A new record replaces the reference only when it is a successful main slide. |
| NanoBanana.GenerateAllSlides | bot/services/nanobanana_service.py:238-293 | Exactly one record per prompt, in prompt order. Each record is generated with the reference chosen from the records before it. |
| NanoBanana.MainSlidesGetNoReference | bot/services/nanobanana_service.py:267 | A main slide is handed no reference, and its request holds only the instruction and the product photo. |
| NanoBanana.NonMainSlideCarriesLatestMain | bot/services/nanobanana_service.py:267 | A non-main slide gets the image of the most recent successful main slide before it. |
| Infographic.Route | bot/handlers/infographic.py:35-462 | A state-bound handler fires only in its state. Every message is answered while a photo or a name is awaited. With no state set, only the entry callbacks fire. |
| Infographic.SlidesAutoLeavesCountOpen | bot/handlers/infographic.py:234-239 | `slides_auto` requests no particular count. |
| Infographic.SlidesButtonCarriesItsCount | bot/handlers/infographic.py:234-241 | `slides_N` requests exactly N. |
| Infographic.SlidesWordRaises | bot/handlers/infographic.py:234-241 | A `slides_` suffix that is a word other than `auto` makes `int()` raise. |
| Infographic.OverlayPreview | bot/handlers/infographic.py:311 | Shows at most the first 40 characters of `text_overlay`, as a prefix of it. |
| Infographic.SlideLines | bot/handlers/infographic.py:308-312 | Produces one line per prompt, in order. |
| Infographic.FormatPlanPreview | bot/handlers/infographic.py:293-316 | The text built by the loop equals the `PlanPreview` specification. |
| Infographic.PlanPreviewListsFirstSevenPrompts | bot/handlers/infographic.py:306-314 | Lists at most 7 slide lines, one for each of the first prompts, between the header and the footer. |
| Infographic.SlideLineMarksMainSlide | bot/handlers/infographic.py:310-312 | A line starts with the crown iff its prompt is the main slide. It contains the overlay preview. |
| Infographic.PlanPreviewShowsEverySlide | bot/handlers/infographic.py:307-312 | Every previewed prompt's line appears in the preview text. |
| Infographic.PlanPreviewShowsSlideCount | bot/handlers/infographic.py:297 | The preview shows `num_slides`, or 5 when it is missing. |
| Infographic.PlanPreviewShowsSeoTitle | bot/handlers/infographic.py:302-304 | The SEO-title line appears iff `seo.title` is non-empty. |
| Infographic.InfographicFlow.constructor | bot/handlers/infographic.py:25-32 | The conversation starts with no state set, and the invariant holds. |
| Infographic.InfographicFlow.StartInfographic | bot/handlers/infographic.py:35-62 | Ensures a session exists. A photo is awaited unless an image is already loaded, in which case the state is kept. |
| Infographic.InfographicFlow.UseExistingImage | bot/handlers/infographic.py:83-104 | Goes to the slide count when name and category are known, else to the product name. |
| Infographic.InfographicFlow.RequestNewPhoto | bot/handlers/infographic.py:107-117 | Resets the user's session if there is one, without creating one, and awaits a photo. |
| Infographic.InfographicFlow.ReceivePhoto | bot/handlers/infographic.py:120-161 | A failed download changes nothing. Otherwise the photo is stored, and the state advances to the product name unless the analysis raises. Telegram sends are taken to succeed. |
| Infographic.InfographicFlow.ReceiveProductName | bot/handlers/infographic.py:164-185 | A stripped name shorter than 3 characters changes nothing. Otherwise the name is stored and a category is awaited. |
| Infographic.InfographicFlow.ReceiveCategory | bot/handlers/infographic.py:188-212 | `cat_custom` awaits text and changes no session field. Any other key stores its name, or "Другое" when the key is unknown, and awaits the slide count. |
| Infographic.InfographicFlow.ReceiveCustomCategory | bot/handlers/infographic.py:215-228 | Stores the stripped text as the category and awaits the slide count. |
| Infographic.InfographicFlow.ReceiveSlidesCount | bot/handlers/infographic.py:231-290 | A count that fails to parse keeps the state. A finished analysis is stored, with its count in [3, 7], and previewed, and the plan awaits confirmation. No analysis, or an exception, clears the state. |
| Infographic.InfographicFlow.StartGeneration | bot/handlers/infographic.py:319-399 | Reports lost data iff the image or the analysis is missing or empty. The state always ends cleared, and no session changes. Telegram edits are taken to succeed. |
| Infographic.InfographicFlow.EditSlidesCount | bot/handlers/infographic.py:402-411 | Returns to choosing the slide count. |
| Infographic.InfographicFlow.EditPrompts | bot/handlers/infographic.py:414-444 | Only ensures a session exists. Nothing else changes. |
| Infographic.InfographicFlow.Dispatch | bot/handlers/infographic.py:25-462 | After every update the state still fits the session, the transient generating state is never left behind, and no other user's entry changes. An unrouted update changes nothing. Telegram sends and edits are taken to succeed. |

## Left out

- HTTP, timeouts and status handling (`_make_request` in both services) are network I/O. They are the `complete` and `ImageApi` parameters.
- `json.loads` and `base64.b64decode` are library parsers. They are the `parse*` and `Decoder` parameters. JSON values of unexpected types (a list where a dict is expected, `null` for `optimal_slides`) are not modelled.
- A JSON dict with only keys the code never reads is truthy in Python. `SeoContent`, `PromptsData` and `Analysis` carry an `otherKeys` flag for such keys, so `IsEmpty` holds only for `{}`. Key values beyond the read ones are not modelled.
- A JSON `null` under a key is read as a missing key everywhere. In the source a `null` `slides_content` raises at `bot/services/grok_service.py:209`, and a `null` `text_overlay` raises at `bot/handlers/infographic.py:311`; the model takes the defaults there instead. The effect also runs the other way: a `null` `slide`, `focus` or `text` in a `slides_content` entry is printed as "None" by the f-string at `bot/services/grok_service.py:211`, while the model's `SlideContent.Complete()` treats it as missing and raises. A `null` `image_url` or `url` in a list item raises an `AttributeError` at `bot/services/nanobanana_service.py:126`, which is caught, so extraction returns None at once; the model skips that item and goes on. A `null` `prompts` raises a `TypeError` at `len(None)` at `bot/services/grok_service.py:252`, which the `JSONDecodeError` handler does not catch; the model returns the parsed dict.
- Infographic.InfographicFlow.Dispatch, Infographic.InfographicFlow.StartGeneration and Infographic.InfographicFlow.ReceivePhoto take every Telegram send, edit and answer to succeed. In `receive_photo` a failed `processing_msg.delete()` or `message.answer` at `bot/handlers/infographic.py:136-150` is caught at line 156, leaving the state as it was with the image already stored, whereas the model advances to the product name. In the source a failed plan edit at `bot/handlers/infographic.py:273` is caught and clears the state, and a failed edit at lines 327 or 337 raises out of `start_generation` with the state still `generating` (set at line 322).
- Builtins.ParseInt accepts ASCII digits only. Python's `int()` also accepts other Unicode decimal digits (category Nd), which the model does not cover; a slide-count suffix holding them parses in Python but raises in the model.
- The prompt texts are opaque string constants. The model records only which items a request holds and what each instruction is built from.
- The Telegram messages, keyboards and chat edits that the handlers send are not modelled. The exception is the plan preview, which is modelled.
- `receive_photo` shows a 500-character excerpt of the analysis text. That excerpt is not modelled, only whether the analysis raised.
- `image_utils.py`: image resizing and compression (third-party image library) and the base64 wrappers are not part of this model.
- `UserSession.format_plan_message` is not called by any handler of the infographic flow, so it is not modelled.
- `generate_seo_with_ctr_prompts` and `edit_image_by_prompt` belong to other conversations and are not modelled.
- The other handler modules and `main.py`'s dispatcher are not modelled.
- Concurrency is not modelled. The session map is shared without a lock, but the source makes no promise about concurrent access.
- Python `list(set(...))` order is unspecified. Session.UserSession.GetKeywordsList returns first-occurrence order, and its contract states only the element set and the absence of duplicates.
- NanoBanana.RemoveBackground: `"data:image" in str(content)` for content that is neither a string nor a list depends on Python's `repr`. The model does not compute that `repr`, because extraction yields nothing for such content either way.
