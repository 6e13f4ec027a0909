/**
 * The image side of the bot (bot/services/nanobanana_service.py): reading
 * an image out of a chat-completion response, choosing what
 * `remove_background` and `analyze_product_image` return, and generating a
 * series of slides in which every non-main slide is styled after the most
 * recent successful main slide.
 *
 * The HTTP call is an `ImageApi` from the request items to the parsed
 * response (`None` when the request failed); base64 decoding is a partial
 * `Decoder` (`None` when `b64decode` raises).
 */
module NanoBanana {
  import opened Builtins

  // =====================================================================
  // Response shapes

  /**
   * One element of list-valued message content. For a dict, `kind` is its
   * `type` entry, `imageUrl` the string under `image_url.url` and `text`
   * its `text` entry; a missing key is `None`.
   */
  datatype Item =
    | DictItem(kind: Option<string>, imageUrl: Option<string>, text: Option<string>)
    | StrItem(s: string)
    | OtherItem

  /** The `content` of a message: a string, a list of items, or any other JSON value. */
  datatype Content = StrContent(s: string) | ListContent(items: seq<Item>) | OtherContent

  /** A choice's `message`; `content` is `None` when the key is missing. */
  datatype Message = Message(content: Option<Content>)

  /** A parsed response; `choices` is `None` when the key is missing. */
  datatype Response = Response(choices: Option<seq<Message>>)

  /** `message.get("content", "")`. */
  function ContentOf(m: Message): Content {
    m.content.GetOr(StrContent(""))
  }

  type Decoder = string -> Option<Bytes>

  // =====================================================================
  // _extract_image_from_response, list content

  /** A dict item of type `image_url` whose url is a `data:image` URL. */
  predicate IsDataImageItem(it: Item) {
    it.DictItem? && it.kind == Some("image_url") && StartsWith(it.imageUrl.GetOr(""), "data:image")
  }

  /** Index of the first data-image item at or after `i`. */
  function FirstDataImageItem(items: seq<Item>, i: nat): (r: Option<nat>)
    requires i <= |items|
    ensures r.Some? ==> i <= r.value < |items| && IsDataImageItem(items[r.value])
    ensures forall k :: i <= k < |items| && (r.None? || k < r.value) ==> !IsDataImageItem(items[k])
    decreases |items| - i
  {
    if i == |items| then None
    else if IsDataImageItem(items[i]) then Some(i)
    else FirstDataImageItem(items, i + 1)
  }

  /** `c` is the first comma of `url` and `f` is the comma-free field right after it. */
  predicate FieldAfterFirstComma(url: string, c: int, f: string) {
    && 0 <= c < |url| && url[c] == ',' && ',' !in url[..c]
    && c + 1 + |f| <= |url| && url[c + 1..c + 1 + |f|] == f && ',' !in f
    && (c + 1 + |f| == |url| || url[c + 1 + |f|] == ',')
  }

  /**
   * `url.split(",")[1]`: the text between the first comma and the next one
   * (or the end); `None` when there is no comma, where Python raises.
   */
  function SecondCommaField(url: string): (r: Option<string>)
    ensures r.None? <==> ',' !in url
    ensures r.Some? ==> exists c :: FieldAfterFirstComma(url, c, r.value)
  {
    match IndexOf(url, ',')
    case None => None
    case Some(c) =>
      var rest := url[c + 1..];
      match IndexOf(rest, ',')
      case None =>
        assert url[c + 1..c + 1 + |rest|] == rest;
        assert FieldAfterFirstComma(url, c, rest);
        Some(rest)
      case Some(d) =>
        assert url[c + 1..c + 1 + d] == rest[..d];
        assert url[c + 1 + d] == rest[d];
        assert FieldAfterFirstComma(url, c, rest[..d]);
        Some(rest[..d])
  }

  /** The field after the first comma is unique. */
  lemma FieldAfterFirstCommaUnique(url: string, c1: int, f1: string, c2: int, f2: string)
    requires FieldAfterFirstComma(url, c1, f1) && FieldAfterFirstComma(url, c2, f2)
    ensures c1 == c2 && f1 == f2
  {
    assert c1 == c2 by {
      assert forall k :: 0 <= k < c1 ==> url[..c1][k] == url[k];
      assert forall k :: 0 <= k < c2 ==> url[..c2][k] == url[k];
    }
    assert |f1| == |f2| by {
      assert forall k :: 0 <= k < |f1| ==> f1[k] == url[c1 + 1 + k];
      assert forall k :: 0 <= k < |f2| ==> f2[k] == url[c2 + 1 + k];
    }
  }

  /** For a well-formed data URL the field after the first comma is exactly the payload. */
  lemma DataUrlPayloadRoundTrip(header: string, payload: string)
    requires ',' !in header && ',' !in payload
    ensures SecondCommaField(header + "," + payload) == Some(payload)
  {
    var url := header + "," + payload;
    assert url[|header|] == ',';
    assert url[..|header|] == header;
    assert IndexOf(url, ',') == Some(|header|);
    assert url[|header| + 1..] == payload;
  }

  // =====================================================================
  // _extract_image_from_response, string content:
  // the pattern data:image/[^;]+;base64,([A-Za-z0-9+/=]+)

  const DataImagePrefix: string := "data:image/"
  const Base64Marker: string := ";base64,"

  /** The base64 alphabet of section 4 of RFC 4648, with the pad character. */
  predicate IsBase64Char(c: char) {
    ('A' <= c <= 'Z') || ('a' <= c <= 'z') || ('0' <= c <= '9') || c == '+' || c == '/' || c == '='
  }

  /** The first index at or after `i` holding `c`. */
  function NextIndexOf(s: string, c: char, i: nat): (r: Option<nat>)
    requires i <= |s|
    ensures r.Some? ==> i <= r.value < |s| && s[r.value] == c
    ensures forall k :: i <= k < |s| && (r.None? || k < r.value) ==> s[k] != c
    decreases |s| - i
  {
    if i == |s| then None
    else if s[i] == c then Some(i)
    else NextIndexOf(s, c, i + 1)
  }

  /** End of the longest run of base64 characters starting at `i`. */
  function Base64RunEnd(s: string, i: nat): (j: nat)
    requires i <= |s|
    ensures i <= j <= |s|
    ensures forall k :: i <= k < j ==> IsBase64Char(s[k])
    ensures j == |s| || !IsBase64Char(s[j])
    decreases |s| - i
  {
    if i == |s| || !IsBase64Char(s[i]) then i else Base64RunEnd(s, i + 1)
  }

  /**
   * Reference reading of the pattern: matched at `i`, the media-type run
   * `[^;]+` ends at `p`, and the group is `s[p + 8..e]`.
   */
  ghost predicate DataUrlMatch(s: string, i: int, p: int, e: int) {
    && 0 <= i && OccursAt(s, DataImagePrefix, i)
    && i + 11 < p && p + 8 < e <= |s|
    && (forall k :: i + 11 <= k < p ==> s[k] != ';')
    && OccursAt(s, Base64Marker, p)
    && (forall k :: p + 8 <= k < e ==> IsBase64Char(s[k]))
  }

  /**
   * The pattern anchored at `i`, giving the group. The `[^;]+` run can only
   * stop right before the first `;`, so there is a single place to try
   * `;base64,`; the group run is greedy and nothing follows it.
   */
  function DataUrlAt(s: string, i: nat): (r: Option<string>)
    requires i <= |s|
  {
    if !OccursAt(s, DataImagePrefix, i) then None
    else
      match NextIndexOf(s, ';', i + 11)
      case None => None
      case Some(p) =>
        if p == i + 11 || !OccursAt(s, Base64Marker, p) then None
        else
          var e := Base64RunEnd(s, p + 8);
          if e == p + 8 then None else Some(s[p + 8..e])
  }

  /** `DataUrlAt` finds a group exactly when the pattern matches at `i`, and then the longest one. */
  lemma DataUrlAtIsTheMatch(s: string, i: nat)
    requires i <= |s|
    ensures DataUrlAt(s, i).Some? ==> exists p, e :: (DataUrlMatch(s, i, p, e) && (e == |s| || !IsBase64Char(s[e]))
      && DataUrlAt(s, i).value == s[p + 8..e])
    ensures DataUrlAt(s, i).None? ==> forall p, e :: !DataUrlMatch(s, i, p, e)
  {
    if OccursAt(s, DataImagePrefix, i) {
      var q := NextIndexOf(s, ';', i + 11);
      forall p, e | DataUrlMatch(s, i, p, e) ensures q == Some(p) && Base64RunEnd(s, p + 8) >= e {
        assert s[p..p + 8][0] == s[p];
        assert s[p] == ';';
      }
      if q.Some? && DataUrlAt(s, i).Some? {
        var p := q.value;
        var e := Base64RunEnd(s, p + 8);
        assert DataUrlMatch(s, i, p, e);
      }
    }
  }

  /** `re.search`: the leftmost index at or after `i` where the pattern matches. */
  function DataUrlSearch(s: string, i: nat): (r: Option<nat>)
    requires i <= |s|
    ensures r.Some? ==> i <= r.value <= |s| && DataUrlAt(s, r.value).Some?
    ensures r.Some? ==> forall k :: i <= k < r.value ==> DataUrlAt(s, k).None?
    ensures r.None? ==> forall k :: i <= k <= |s| ==> DataUrlAt(s, k).None?
    decreases |s| - i
  {
    if DataUrlAt(s, i).Some? then Some(i)
    else if i == |s| then None
    else DataUrlSearch(s, i + 1)
  }

  /** Python `_extract_image_from_response`; every exception it catches becomes `None`. */
  function ExtractImage(resp: Response, decode: Decoder): Option<Bytes>
  {
    match resp.choices
    case None => None
    case Some(cs) =>
      if |cs| == 0 then None
      else
        match ContentOf(cs[0])
        case ListContent(items) =>
          (match FirstDataImageItem(items, 0)
           case None => None
           case Some(k) =>
             match SecondCommaField(items[k].imageUrl.GetOr(""))
             case None => None
             case Some(payload) => decode(payload))
        case StrContent(s) =>
          if !Contains(s, "data:image") then None
          else
            (match DataUrlSearch(s, 0)
             case None => None
             case Some(j) => decode(DataUrlAt(s, j).value))
        case OtherContent => None
  }

  /**
   * List content: the image is the decoded field after the first comma of
   * the first data-image item's url; a url without a comma, or no such item,
   * gives `None`.
   */
  lemma ExtractImageFromList(items: seq<Item>, rest: seq<Message>, decode: Decoder)
    ensures var r := ExtractImage(Response(Some([Message(Some(ListContent(items)))] + rest)), decode);
      && ((forall j :: 0 <= j < |items| ==> !IsDataImageItem(items[j])) ==> r.None?)
      && (forall k :: (0 <= k < |items| && IsDataImageItem(items[k])
                       && (forall j :: 0 <= j < k ==> !IsDataImageItem(items[j]))) ==>
              && (',' !in items[k].imageUrl.value ==> r.None?)
              && (forall c, f :: FieldAfterFirstComma(items[k].imageUrl.value, c, f) ==> r == decode(f)))
  {
    var cs := [Message(Some(ListContent(items)))] + rest;
    assert cs[0] == Message(Some(ListContent(items)));
    forall k | 0 <= k < |items| && IsDataImageItem(items[k]) && (forall j :: 0 <= j < k ==> !IsDataImageItem(items[j]))
      ensures ',' !in items[k].imageUrl.value ==> ExtractImage(Response(Some(cs)), decode).None?
      ensures forall c, f :: FieldAfterFirstComma(items[k].imageUrl.value, c, f) ==>
        ExtractImage(Response(Some(cs)), decode) == decode(f)
    {
      assert FirstDataImageItem(items, 0) == Some(k);
      var url := items[k].imageUrl.value;
      forall c, f | FieldAfterFirstComma(url, c, f) ensures ExtractImage(Response(Some(cs)), decode) == decode(f) {
        var f0 := SecondCommaField(url).value;
        var c0 :| FieldAfterFirstComma(url, c0, f0);
        FieldAfterFirstCommaUnique(url, c, f, c0, f0);
      }
    }
  }

  /** A match of the pattern at `i` with the longest group is what `DataUrlAt` finds there. */
  lemma DataUrlMatchIsFound(s: string, i: nat, p: int, e: int)
    requires DataUrlMatch(s, i, p, e) && (e == |s| || !IsBase64Char(s[e]))
    ensures DataUrlAt(s, i) == Some(s[p + 8..e])
  {
    assert s[p..p + 8][0] == s[p];
    assert NextIndexOf(s, ';', i + 11) == Some(p);
  }

  /** The leftmost match with the longest group is the one `re.search` reports. */
  lemma LeftmostDataUrlIsSearched(s: string, i: nat, p: int, e: int)
    requires DataUrlMatch(s, i, p, e) && (e == |s| || !IsBase64Char(s[e]))
    requires forall k, p', e' :: 0 <= k < i ==> !DataUrlMatch(s, k, p', e')
    ensures DataUrlSearch(s, 0) == Some(i) && DataUrlAt(s, i) == Some(s[p + 8..e])
  {
    DataUrlMatchIsFound(s, i, p, e);
    forall k | 0 <= k < i ensures DataUrlAt(s, k).None? {
      DataUrlAtIsTheMatch(s, k);
    }
  }

  /** On string content, extraction decodes the group `re.search` reports. */
  lemma StringContentIsSearched(s: string, rest: seq<Message>, decode: Decoder)
    ensures ExtractImage(Response(Some([Message(Some(StrContent(s)))] + rest)), decode)
      == match DataUrlSearch(s, 0) case None => None case Some(j) => decode(DataUrlAt(s, j).value)
  {
    var cs := [Message(Some(StrContent(s)))] + rest;
    assert cs[0] == Message(Some(StrContent(s)));
    if DataUrlSearch(s, 0).Some? {
      var j := DataUrlSearch(s, 0).value;
      assert s[j..j + 10] == s[j..j + 11][..10];
      assert OccursAt(s, "data:image", j);
    }
  }

  /**
   * String content: the image is the decoded group of the leftmost data URL,
   * with the group running as far as the base64 characters do; no match
   * gives `None`.
   */
  lemma ExtractImageFromString(s: string, rest: seq<Message>, decode: Decoder)
    ensures var r := ExtractImage(Response(Some([Message(Some(StrContent(s)))] + rest)), decode);
      && (DataUrlSearch(s, 0).None? ==> r.None?)
      && (DataUrlSearch(s, 0).Some? ==> r == decode(DataUrlAt(s, DataUrlSearch(s, 0).value).value))
      && (forall i, p, e :: (DataUrlMatch(s, i, p, e) && (e == |s| || !IsBase64Char(s[e]))
                             && (forall k, p', e' :: 0 <= k < i ==> !DataUrlMatch(s, k, p', e'))) ==>
            r == decode(s[p + 8..e]))
  {
    StringContentIsSearched(s, rest, decode);
    forall i, p, e | DataUrlMatch(s, i, p, e) && (e == |s| || !IsBase64Char(s[e]))
        && (forall k, p', e' :: 0 <= k < i ==> !DataUrlMatch(s, k, p', e'))
      ensures DataUrlSearch(s, 0) == Some(i) && DataUrlAt(s, i) == Some(s[p + 8..e])
    {
      LeftmostDataUrlIsSearched(s, i, p, e);
    }
  }

  /** A response without choices, or with an empty list of them, yields no image. */
  lemma ExtractImageNeedsChoices(decode: Decoder)
    ensures ExtractImage(Response(None), decode).None?
    ensures ExtractImage(Response(Some([])), decode).None?
  {
  }

  // =====================================================================
  // remove_background and analyze_product_image

  /**
   * Python `remove_background`, given the API result. An empty list of
   * choices raises `IndexError`, which the method does not catch.
   */
  function RemoveBackground(original: Bytes, resp: Option<Response>, decode: Decoder): (r: Outcome<Option<Bytes>>)
    ensures resp.None? || resp.value.choices.None? ==> r == Returned(None)
    ensures r.Raised? <==> resp.Some? && resp.value.choices == Some([])
    ensures r.Returned? && r.value.Some? ==>
      r.value.value == original || (ExtractImage(resp.value, decode) == r.value && r.value.value != [])
  {
    match resp
    case None => Returned(None)
    case Some(response) =>
      match response.choices
      case None => Returned(None)
      case Some(cs) =>
        if |cs| == 0 then Raised
        else
          var c := ContentOf(cs[0]);
          // `"data:image" in str(content)`: the repr of any other JSON value
          // is not modelled; extraction yields nothing for it either way
          if (c.StrContent? && Contains(c.s, "data:image")) || c.ListContent? then
            var x := ExtractImage(response, decode);
            if x.Some? && x.value != [] then Returned(x) else Returned(Some(original))
          else Returned(Some(original))
  }

  /** With choices present, the result is the extracted image when there is one, else the original. */
  lemma RemoveBackgroundFallsBackToOriginal(original: Bytes, response: Response, decode: Decoder)
    requires response.choices.Some? && response.choices.value != []
    ensures var x := ExtractImage(response, decode);
      RemoveBackground(original, Some(response), decode)
        == Returned(Some(if x.Some? && x.value != [] then x.value else original))
  {
  }

  /** Index of the first text-bearing item: a `text`-typed dict or a bare string. */
  function FirstTextItem(items: seq<Item>, i: nat): (r: Option<nat>)
    requires i <= |items|
    ensures r.Some? ==> i <= r.value < |items| && IsTextItem(items[r.value])
    ensures forall k :: i <= k < |items| && (r.None? || k < r.value) ==> !IsTextItem(items[k])
    decreases |items| - i
  {
    if i == |items| then None
    else if IsTextItem(items[i]) then Some(i)
    else FirstTextItem(items, i + 1)
  }

  predicate IsTextItem(it: Item) {
    (it.DictItem? && it.kind == Some("text")) || it.StrItem?
  }

  /** The text a text-bearing item contributes (`item.get("text", "")` for a dict). */
  function ItemText(it: Item): string
    requires IsTextItem(it)
  {
    if it.StrItem? then it.s else it.text.GetOr("")
  }

  /** Python `analyze_product_image`, given the API result; empty choices raise `IndexError`. */
  function AnalyzeProductImage(resp: Option<Response>): (r: Outcome<Option<string>>)
    ensures resp.None? || resp.value.choices.None? ==> r == Returned(None)
    ensures r.Raised? <==> resp.Some? && resp.value.choices == Some([])
    ensures resp.Some? && resp.value.choices.Some? && resp.value.choices.value != [] ==>
      var c := ContentOf(resp.value.choices.value[0]);
      && (c.StrContent? ==> r == Returned(Some(c.s)))
      && (c.ListContent? ==>
            (r == Returned(None) <==> forall k :: 0 <= k < |c.items| ==> !IsTextItem(c.items[k])))
      && (c.OtherContent? ==> r == Returned(None))
  {
    match resp
    case None => Returned(None)
    case Some(response) =>
      match response.choices
      case None => Returned(None)
      case Some(cs) =>
        if |cs| == 0 then Raised
        else
          match ContentOf(cs[0])
          case StrContent(s) => Returned(Some(s))
          case ListContent(items) =>
            (match FirstTextItem(items, 0)
             case None => Returned(None)
             case Some(k) => Returned(Some(ItemText(items[k]))))
          case OtherContent => Returned(None)
  }

  /** The request `analyze_product_image` sends: the instruction, then the photo. */
  function AnalysisRequest(image: Bytes): seq<RequestItem> {
    [TextPart(ProductAnalysisInstruction), ImagePart(image)]
  }

  /** For list content the answer is the text of the first text-bearing item. */
  lemma AnalyzeTakesFirstTextItem(items: seq<Item>, rest: seq<Message>, k: nat)
    requires k < |items| && IsTextItem(items[k])
    requires forall j :: 0 <= j < k ==> !IsTextItem(items[j])
    ensures AnalyzeProductImage(Some(Response(Some([Message(Some(ListContent(items)))] + rest))))
      == Returned(Some(ItemText(items[k])))
  {
    var cs := [Message(Some(ListContent(items)))] + rest;
    assert cs[0] == Message(Some(ListContent(items)));
    assert FirstTextItem(items, 0) == Some(k);
  }

  // =====================================================================
  // generate_infographic_slide and generate_all_slides

  /** The instruction texts of the image requests; their wording is not modelled. */
  datatype Instruction =
    | MainSlideInstruction(productName: string, slideText: string)
    | SeriesSlideInstruction(slideNumber: int, productName: string, slideText: string, style: string)
    | StyleReferenceCaption
    | ProductAnalysisInstruction

  /** One element of the request's content list. */
  datatype RequestItem = TextPart(instruction: Instruction) | ImagePart(image: Bytes)

  type ImageApi = seq<RequestItem> -> Option<Response>

  /** A reference is attached only when its bytes are non-empty and the slide is not main. */
  predicate AttachesReference(isMain: bool, reference: Option<Bytes>) {
    reference.Some? && reference.value != [] && !isMain
  }

  /** The image a request yields: what can be extracted from the response, if non-empty. */
  function SlideImage(resp: Option<Response>, decode: Decoder): (r: Option<Bytes>)
    ensures r.Some? <==> resp.Some? && ExtractImage(resp.value, decode).Some? && ExtractImage(resp.value, decode).value != []
    ensures r.Some? ==> r == ExtractImage(resp.value, decode)
  {
    match resp
    case None => None
    case Some(response) =>
      var x := ExtractImage(response, decode);
      if x.Some? && x.value != [] then x else None
  }

  /** The request content for one slide. */
  function SlideRequest(productImage: Bytes, slideNumber: int, slideText: string, productName: string,
                        style: string, isMain: bool, reference: Option<Bytes>): (r: seq<RequestItem>)
    ensures |r| == (if AttachesReference(isMain, reference) then 4 else 2)
    ensures r[0].TextPart? && (r[0].instruction.MainSlideInstruction? || r[0].instruction.SeriesSlideInstruction?)
    ensures r[0].instruction.productName == productName && r[0].instruction.slideText == slideText
    ensures r[0].instruction.MainSlideInstruction? <==> isMain
    ensures r[1] == ImagePart(productImage)
    ensures |r| == 4 ==> r[2] == TextPart(StyleReferenceCaption) && r[3] == ImagePart(reference.value)
  {
    var instruction := if isMain then MainSlideInstruction(productName, slideText)
                       else SeriesSlideInstruction(slideNumber, productName, slideText, style);
    var base := [TextPart(instruction), ImagePart(productImage)];
    if AttachesReference(isMain, reference)
    then base + [TextPart(StyleReferenceCaption), ImagePart(reference.value)]
    else base
  }

  /** Python `generate_infographic_slide`: builds the request, appending the reference in place. */
  method GenerateInfographicSlide(api: ImageApi, decode: Decoder, productImage: Bytes, slideNumber: int,
                                  slideText: string, productName: string, style: string, isMain: bool,
                                  reference: Option<Bytes>)
    returns (image: Option<Bytes>, request: seq<RequestItem>)
    ensures request == SlideRequest(productImage, slideNumber, slideText, productName, style, isMain, reference)
    ensures image == SlideImage(api(request), decode)
    ensures image.Some? ==> image.value != []
  {
    var instruction: Instruction;
    if isMain {
      instruction := MainSlideInstruction(productName, slideText);
    } else {
      instruction := SeriesSlideInstruction(slideNumber, productName, slideText, style);
    }
    request := [TextPart(instruction), ImagePart(productImage)];
    if reference.Some? && reference.value != [] && !isMain {
      request := request + [TextPart(StyleReferenceCaption)];
      request := request + [ImagePart(reference.value)];
    }
    var response := api(request);
    image := None;
    if response.Some? {
      var extracted := ExtractImage(response.value, decode);
      if extracted.Some? && extracted.value != [] {
        image := extracted;
      }
    }
  }

  /** One element of the list `generate_all_slides` returns; `error` is the `error` key being present. */
  datatype SlideRecord = SlideRecord(slideNum: int, isMain: bool, imageBytes: Option<Bytes>,
                                     textOverlay: string, error: bool)

  /** The image of the most recent successful main slide among `done`. */
  function LatestMainImage(done: seq<SlideRecord>): (r: Option<Bytes>)
    ensures r.Some? ==> exists j :: (0 <= j < |done| && done[j].isMain && done[j].imageBytes == r
      && forall k :: j < k < |done| ==> !(done[k].isMain && done[k].imageBytes.Some?))
    ensures r.None? ==> forall k :: 0 <= k < |done| ==> !(done[k].isMain && done[k].imageBytes.Some?)
  {
    if done == [] then None
    else
      var last := done[|done| - 1];
      if last.isMain && last.imageBytes.Some? then last.imageBytes
      else LatestMainImage(done[..|done| - 1])
  }

  /** The reference handed to a slide: none for a main slide, else the latest main image so far. */
  function ReferenceFor(p: SlidePromptInput, done: seq<SlideRecord>): Option<Bytes> {
    if p.isMain then None else LatestMainImage(done)
  }

  /** What `generate_all_slides` reads from one slide prompt. */
  datatype SlidePromptInput = SlidePromptInput(slide: Option<int>, isMain: bool, textOverlay: Option<string>)

  /** The record for one prompt, given its reference image. */
  function RecordFor(api: ImageApi, decode: Decoder, productImage: Bytes, p: SlidePromptInput,
                     style: string, productName: string, reference: Option<Bytes>): (r: SlideRecord)
    ensures r.slideNum == p.slide.GetOr(1) && r.isMain == p.isMain && r.textOverlay == p.textOverlay.GetOr("")
    ensures r.error <==> r.imageBytes.None?
    ensures r.imageBytes.Some? ==> r.imageBytes.value != []
  {
    var slideNum := p.slide.GetOr(1);
    var text := p.textOverlay.GetOr("");
    var image := SlideImage(api(SlideRequest(productImage, slideNum, text, productName, style, p.isMain, reference)), decode);
    SlideRecord(slideNum, p.isMain, image, text, image.None?)
  }

  /** Each record is the one its prompt yields, given the records before it. */
  ghost predicate RecordsFollow(api: ImageApi, decode: Decoder, productImage: Bytes, prompts: seq<SlidePromptInput>,
                                style: string, productName: string, results: seq<SlideRecord>)
    requires |results| <= |prompts|
  {
    forall k :: 0 <= k < |results| ==>
      results[k] == RecordFor(api, decode, productImage, prompts[k], style, productName,
                              ReferenceFor(prompts[k], results[..k]))
  }

  lemma RecordsFollowExtend(api: ImageApi, decode: Decoder, productImage: Bytes, prompts: seq<SlidePromptInput>,
                            style: string, productName: string, results: seq<SlideRecord>, record: SlideRecord)
    requires |results| < |prompts|
    requires RecordsFollow(api, decode, productImage, prompts, style, productName, results)
    requires record == RecordFor(api, decode, productImage, prompts[|results|], style, productName,
                                 ReferenceFor(prompts[|results|], results))
    ensures RecordsFollow(api, decode, productImage, prompts, style, productName, results + [record])
  {
    var next := results + [record];
    assert next[..|results|] == results;
    assert forall k :: 0 <= k < |results| ==> next[..k] == results[..k];
  }

  /** Appending a record updates the latest main image only if it is a successful main slide. */
  lemma LatestMainImageExtend(done: seq<SlideRecord>, record: SlideRecord)
    ensures LatestMainImage(done + [record])
      == if record.isMain && record.imageBytes.Some? then record.imageBytes else LatestMainImage(done)
  {
    assert (done + [record])[..|done|] == done;
  }

  /** Python `generate_all_slides`. */
  method GenerateAllSlides(api: ImageApi, decode: Decoder, productImage: Bytes, prompts: seq<SlidePromptInput>,
                           styleGuide: string, productName: string)
    returns (results: seq<SlideRecord>)
    ensures |results| == |prompts|
    ensures forall k :: 0 <= k < |prompts| ==>
      results[k] == RecordFor(api, decode, productImage, prompts[k], styleGuide, productName,
                              ReferenceFor(prompts[k], results[..k]))
  {
    results := [];
    var mainImage: Option<Bytes> := None;
    for i := 0 to |prompts|
      invariant |results| == i
      invariant mainImage == LatestMainImage(results)
      invariant RecordsFollow(api, decode, productImage, prompts, styleGuide, productName, results)
    {
      var p := prompts[i];
      var slideNum := p.slide.GetOr(1);
      var text := p.textOverlay.GetOr("");
      var image, _ := GenerateInfographicSlide(api, decode, productImage, slideNum, text, productName,
                                               styleGuide, p.isMain, if p.isMain then None else mainImage);
      var record: SlideRecord;
      if image.Some? {
        record := SlideRecord(slideNum, p.isMain, image, text, false);
      } else {
        record := SlideRecord(slideNum, p.isMain, None, text, true);
      }
      RecordsFollowExtend(api, decode, productImage, prompts, styleGuide, productName, results, record);
      LatestMainImageExtend(results, record);
      if image.Some? && p.isMain {
        mainImage := image;
      }
      results := results + [record];
    }
  }

  /** Every main slide is requested without a reference image. */
  lemma MainSlidesGetNoReference(p: SlidePromptInput, done: seq<SlideRecord>, productImage: Bytes,
                                 style: string, productName: string)
    requires p.isMain
    ensures ReferenceFor(p, done) == None
    ensures |SlideRequest(productImage, p.slide.GetOr(1), p.textOverlay.GetOr(""), productName, style, p.isMain,
                          ReferenceFor(p, done))| == 2
  {
  }

  /**
   * A non-main slide after a successful main slide `j`, with no successful
   * main slide in between, carries slide `j`'s image as its reference.
   */
  lemma NonMainSlideCarriesLatestMain(done: seq<SlideRecord>, j: nat, p: SlidePromptInput)
    requires j < |done| && done[j].isMain && done[j].imageBytes.Some?
    requires forall k :: j < k < |done| ==> !(done[k].isMain && done[k].imageBytes.Some?)
    requires !p.isMain
    ensures ReferenceFor(p, done) == done[j].imageBytes
  {
    var r := LatestMainImage(done);
    assert r.Some?;
    var j' :| 0 <= j' < |done| && done[j'].isMain && done[j'].imageBytes == r
      && forall k :: j' < k < |done| ==> !(done[k].isMain && done[k].imageBytes.Some?);
    assert j' == j;
  }
}
