/** The Gemini image service: MIME sniffing, ordinals and position words, the data-URL branch of
    `urlToBase64`, and `generateImageWithPersons` (validation, request parts, image extraction,
    the face-swap loop). Network calls are replaced by their replies, including the exceptions
    they throw. */
module GeminiImage {
  import opened Wrappers
  import opened Text

  /** A placed person; coordinates are the already rounded percentages. */
  datatype PersonMarker = PersonMarker(id: string, xPercent: int, yPercent: int, widthPercent: int, heightPercent: int,
                                       personImageBase64: Option<string>, personImageUrl: Option<string>,
                                       name: string, customPrompt: Option<string>)

  // detectMimeType (lines 222-229)

  /** One of the three data-URL prefixes the sniffing recognises. */
  predicate TypedDataUrl(s: string) {
    StartsWith(s, "data:image/png") || StartsWith(s, "data:image/jpeg")
    || StartsWith(s, "data:image/jpg") || StartsWith(s, "data:image/webp")
  }

  /** The prefixes are tried in order; anything else, including every other data URL such as
      `data:image/gif`, is read by extension, '.png' before '.webp', jpeg otherwise. */
  function DetectMimeType(s: string): (mime: string)
    ensures mime in {"image/png", "image/jpeg", "image/webp"}
    ensures StartsWith(s, "data:image/png") ==> mime == "image/png"
    ensures !StartsWith(s, "data:image/png") && (StartsWith(s, "data:image/jpeg") || StartsWith(s, "data:image/jpg")) ==> mime == "image/jpeg"
    ensures (!StartsWith(s, "data:image/png") && !StartsWith(s, "data:image/jpeg") && !StartsWith(s, "data:image/jpg")
             && StartsWith(s, "data:image/webp")) ==> mime == "image/webp"
    ensures !TypedDataUrl(s) ==>
      mime == (if Contains(s, ".png") then "image/png" else if Contains(s, ".webp") then "image/webp" else "image/jpeg")
  {
    if StartsWith(s, "data:image/png") then "image/png"
    else if StartsWith(s, "data:image/jpeg") || StartsWith(s, "data:image/jpg") then "image/jpeg"
    else if StartsWith(s, "data:image/webp") then "image/webp"
    else if Contains(s, ".png") then "image/png"
    else if Contains(s, ".webp") then "image/webp"
    else "image/jpeg"
  }

  /** Each of the image prefixes starts a data URL, so an ordinary URL is read by extension. */
  lemma DataPrefixes(s: string)
    ensures TypedDataUrl(s) ==> StartsWith(s, "data:")
  {
    var prefixes := ["data:image/png", "data:image/jpeg", "data:image/jpg", "data:image/webp"];
    forall i | 0 <= i < |prefixes| && StartsWith(s, prefixes[i]) ensures StartsWith(s, "data:") {
      assert prefixes[i][..5] == "data:";
      PrefixOfPrefix(s, prefixes[i], "data:");
    }
    assert StartsWith(s, "data:image/png") ==> StartsWith(s, prefixes[0]);
  }

  /** The data-URL prefix wins over an extension that appears later in the string. */
  lemma PrefixBeatsExtension()
    ensures DetectMimeType("data:image/webp;base64,x.png") == "image/webp"
    ensures DetectMimeType("https://cdn/a.webp?f=.png") == "image/png"
  {
    var dataUrl, link := "data:image/webp;base64,x.png", "https://cdn/a.webp?f=.png";
    assert dataUrl[..15] == "data:image/webp";
    DiffersAt(dataUrl, "data:image/png", 11);
    DiffersAt(dataUrl, "data:image/jpeg", 11);
    DiffersAt(dataUrl, "data:image/jpg", 11);
    DiffersAt(link, "data:image/png", 0);
    DiffersAt(link, "data:image/jpeg", 0);
    DiffersAt(link, "data:image/jpg", 0);
    DiffersAt(link, "data:image/webp", 0);
    ContainsAt(link, ".png", 21);
  }

  // urlToBase64 (lines 203-217)

  /** What fetching a URL gives: the body in base64, a response that is not OK, or the
      exception `fetch` throws. */
  datatype Download = Downloaded(base64: string) | NotOkResponse | FetchThrew(message: string)

  /** For a data URL the second comma-separated field, None (undefined) when there is no comma;
      for any other URL the downloaded body; Err is the message of the exception thrown. */
  function UrlToBase64(url: string, download: Download): (r: Result<Option<string>>)
    ensures StartsWith(url, "data:") ==> r.Ok?
    ensures !StartsWith(url, "data:") ==> r == match download
      case Downloaded(body) => Ok(Some(body))
      case NotOkResponse => Err("Failed to fetch image: " + url)
      case FetchThrew(message) => Err(message)
  {
    if StartsWith(url, "data:") then
      var fields := Split(url, ',');
      Ok(if |fields| > 1 then Some(fields[1]) else None)
    else match download
      case Downloaded(body) => Ok(Some(body))
      case NotOkResponse => Err("Failed to fetch image: " + url)
      case FetchThrew(message) => Err(message)
  }

  /** A data URL `header,payload` yields its payload. */
  lemma DataUrlPayload(header: string, payload: string, download: Download)
    requires StartsWith(header, "data:")
    requires ',' !in header && ',' !in payload
    ensures UrlToBase64(header + "," + payload, download) == Ok(Some(payload))
  {
    var url := header + "," + payload;
    assert StartsWith(url, "data:") by { assert url[..5] == header[..5]; }
    SplitNoSeparator(header, ',');
    SplitNoSeparator(payload, ',');
    assert url == header + ("," + payload);
    SplitAppend(header, "," + payload, ',');
    assert ("," + payload)[1..] == payload;
    assert Split("," + payload, ',') == ["", payload];
    assert header + "" == header;
    assert Split(url, ',') == [header, payload];
  }

  /** Without a comma the result is undefined. */
  lemma DataUrlWithoutComma(url: string, download: Download)
    requires StartsWith(url, "data:") && ',' !in url
    ensures UrlToBase64(url, download) == Ok(None)
  {
    SplitNoSeparator(url, ',');
  }

  // getOrdinal (lines 383-387)

  const Suffixes: seq<string> := ["th", "st", "nd", "rd"]

  /** `suffixes[i]`, undefined outside 0..3. */
  function SuffixAt(i: int): Option<string> {
    if 0 <= i < |Suffixes| then Some(Suffixes[i]) else None
  }

  /** `suffixes[(v - 20) % 10] || suffixes[v] || suffixes[0]` with `v = n % 100`. */
  function OrdinalSuffix(n: int): (suffix: string)
    ensures suffix in Suffixes
  {
    var v := JsRem(n, 100);
    match SuffixAt(JsRem(v - 20, 10))
    case Some(s) => s
    case None => SuffixAt(v).GetOr(Suffixes[0])
  }

  function Ordinal(n: int): (word: string)
    ensures var digits := IntToString(n);
      |digits| <= |word| && word[..|digits|] == digits && word[|digits|..] in Suffixes
  {
    var digits := IntToString(n);
    assert (digits + OrdinalSuffix(n))[..|digits|] == digits;
    assert (digits + OrdinalSuffix(n))[|digits|..] == OrdinalSuffix(n);
    digits + OrdinalSuffix(n)
  }

  /** The English rule: 11th-13th, otherwise by the last digit. */
  function EnglishSuffix(n: nat): string {
    if 11 <= n % 100 <= 13 then "th"
    else if n % 10 == 1 then "st"
    else if n % 10 == 2 then "nd"
    else if n % 10 == 3 then "rd"
    else "th"
  }

  lemma LastDigitOfLastTwo(n: nat)
    ensures (n % 100) % 10 == n % 10
  {
    var q, v := n / 100, n % 100;
    assert n == 10 * (10 * q + v / 10) + v % 10;
  }

  /** For every non-negative number the table lookup agrees with the English rule. */
  lemma OrdinalFollowsEnglishRule(n: nat)
    ensures OrdinalSuffix(n) == EnglishSuffix(n)
    ensures Ordinal(n) == NatToString(n) + EnglishSuffix(n)
  {
    LastDigitOfLastTwo(n);
    var v := n % 100;
    if v >= 20 {
      assert JsRem(v - 20, 10) == v % 10;
    } else {
      assert JsRem(v - 20, 10) == -((20 - v) % 10);
    }
  }

  // getPositionDescription (lines 392-407)

  function Horizontal(xPercent: int): (word: string)
    ensures xPercent < 33 <==> word == "left side"
    ensures xPercent > 66 <==> word == "right side"
    ensures 33 <= xPercent <= 66 <==> word == "center"
  {
    if xPercent < 33 then "left side" else if xPercent > 66 then "right side" else "center"
  }

  function Vertical(yPercent: int): (word: string)
    ensures yPercent < 33 <==> word == "top"
    ensures yPercent > 66 <==> word == "bottom"
    ensures 33 <= yPercent <= 66 <==> word == "middle"
  {
    if yPercent < 33 then "top" else if yPercent > 66 then "bottom" else "middle"
  }

  /** The template of line 406: the two band words, then both coordinates and both sizes. */
  function PositionDescription(m: PersonMarker): (d: string)
    ensures d == Vertical(m.yPercent) + " " + Horizontal(m.xPercent) + " (X: " + IntToString(m.xPercent)
      + "%, Y: " + IntToString(m.yPercent) + "%, Size: " + IntToString(m.widthPercent) + "% × "
      + IntToString(m.heightPercent) + "%)"
  {
    Vertical(m.yPercent) + " " + Horizontal(m.xPercent) + " (X: " + IntToString(m.xPercent)
      + "%, Y: " + IntToString(m.yPercent) + "%, Size: " + IntToString(m.widthPercent) + "% × "
      + IntToString(m.heightPercent) + "%)"
  }

  // generateImageWithPersons (lines 412-645)

  /** `marker.personImageBase64 || marker.personImageUrl`: the first non-empty one. */
  function PersonImage(m: PersonMarker): Option<string> {
    if m.personImageBase64.Some? && m.personImageBase64.value != "" then m.personImageBase64
    else if m.personImageUrl.Some? && m.personImageUrl.value != "" then m.personImageUrl
    else None
  }

  /** The checks made before anything is fetched, in their order. */
  function ValidationError(apiKey: string, backgroundImage: string, markers: seq<PersonMarker>): (e: Option<string>)
    ensures apiKey == "" ==> e == Some("API key not configured")
    ensures apiKey != "" && backgroundImage == "" ==> e == Some("Background image is required")
    ensures apiKey != "" && backgroundImage != "" && |markers| == 0 ==> e == Some("At least one person marker is required")
    ensures e.None? <==> apiKey != "" && backgroundImage != "" && |markers| > 0
  {
    if apiKey == "" then Some("API key not configured")
    else if backgroundImage == "" then Some("Background image is required")
    else if |markers| == 0 then Some("At least one person marker is required")
    else None
  }

  /** A request part; an image part carries the MIME type and the base64 data `urlToBase64`
      produced (None where it is undefined). */
  datatype RequestPart = TextPart(text: string) | ImagePart(mimeType: string, data: Option<string>)

  /** The positions of the markers that have an image, in increasing order. */
  function Imaged(markers: seq<PersonMarker>): (idx: seq<nat>)
    ensures forall k :: 0 <= k < |idx| ==> idx[k] < |markers| && PersonImage(markers[idx[k]]).Some?
    ensures forall k, l :: 0 <= k < l < |idx| ==> idx[k] < idx[l]
    ensures forall i :: 0 <= i < |markers| && PersonImage(markers[i]).Some? ==> i in idx
  {
    if |markers| == 0 then []
    else
      var n := |markers| - 1;
      Imaged(markers[..n]) + if PersonImage(markers[n]).Some? then [n] else []
  }

  /** The part sent for a marker with an image: the image's detected type and the base64 data
      its download gave (a download that throws sends no part at all). */
  function PersonPart(m: PersonMarker, d: Download): RequestPart
    requires PersonImage(m).Some?
  {
    var data := UrlToBase64(PersonImage(m).value, d);
    ImagePart(DetectMimeType(PersonImage(m).value), if data.Ok? then data.value else None)
  }

  /** The person parts: one per marker that has an image, once every download has succeeded. */
  function PersonParts(markers: seq<PersonMarker>, downloads: seq<Download>): (parts: seq<RequestPart>)
    requires |downloads| == |markers|
    ensures |parts| == |Imaged(markers)| <= |markers|
  {
    if |markers| == 0 then []
    else
      var n := |markers| - 1;
      var m := markers[n];
      ImagedBound(markers);
      PersonParts(markers[..n], downloads[..n]) + if PersonImage(m).Some? then [PersonPart(m, downloads[n])] else []
  }

  /** The k-th person part is the part of the k-th marker with an image: the parts follow the
      marker order (line 462). */
  lemma {:induction false} PersonPartsInOrder(markers: seq<PersonMarker>, downloads: seq<Download>)
    requires |downloads| == |markers|
    ensures var parts := PersonParts(markers, downloads);
      forall k :: 0 <= k < |parts| ==> parts[k] == PersonPart(markers[Imaged(markers)[k]], downloads[Imaged(markers)[k]])
  {
    if |markers| > 0 {
      var n := |markers| - 1;
      PersonPartsInOrder(markers[..n], downloads[..n]);
      var before := PersonParts(markers[..n], downloads[..n]);
      PersonPartsPrefix(markers, downloads, before);
      var idx := Imaged(markers);
      if PersonImage(markers[n]).Some? {
        assert idx == Imaged(markers[..n]) + [n];
        assert idx[|before|] == n;
      }
    }
  }

  /** The parts of all markers but the last are the first entries of the result. */
  lemma PersonPartsPrefix(markers: seq<PersonMarker>, downloads: seq<Download>, before: seq<RequestPart>)
    requires |downloads| == |markers| > 0
    requires var n := |markers| - 1;
      (|before| == |Imaged(markers[..n])|
       && forall k :: 0 <= k < |before| ==>
         before[k] == PersonPart(markers[..n][Imaged(markers[..n])[k]], downloads[..n][Imaged(markers[..n])[k]]))
    ensures |before| <= |Imaged(markers)|
    ensures forall k :: 0 <= k < |before| ==>
      before[k] == PersonPart(markers[Imaged(markers)[k]], downloads[Imaged(markers)[k]])
  {
    var n := |markers| - 1;
    var idx := Imaged(markers[..n]);
    assert Imaged(markers)[..|idx|] == idx;
    forall k | 0 <= k < |before|
      ensures before[k] == PersonPart(markers[Imaged(markers)[k]], downloads[Imaged(markers)[k]])
    {
      assert Imaged(markers)[k] == idx[k];
      assert markers[..n][idx[k]] == markers[idx[k]] && downloads[..n][idx[k]] == downloads[idx[k]];
    }
  }

  /** One more marker adds its part, if it has an image. */
  lemma PersonPartsStep(markers: seq<PersonMarker>, downloads: seq<Download>, i: nat)
    requires |downloads| == |markers| && i < |markers|
    ensures PersonParts(markers[..i + 1], downloads[..i + 1]) ==
      PersonParts(markers[..i], downloads[..i]) + if PersonImage(markers[i]).Some? then [PersonPart(markers[i], downloads[i])] else []
  {
    assert markers[..i + 1][..i] == markers[..i];
    assert downloads[..i + 1][..i] == downloads[..i];
  }

  lemma {:induction false} ImagedBound(markers: seq<PersonMarker>)
    ensures |Imaged(markers)| <= |markers|
  {
    if |markers| > 0 {
      ImagedBound(markers[..|markers| - 1]);
    }
  }

  /** The download of a marker's image throws. */
  predicate FetchFails(m: PersonMarker, d: Download) {
    PersonImage(m).Some? && UrlToBase64(PersonImage(m).value, d).Err?
  }

  function FetchError(m: PersonMarker, d: Download): string
    requires FetchFails(m, d)
  {
    UrlToBase64(PersonImage(m).value, d).error
  }

  /** The first marker whose image download throws, the one that ends the loop it is in. */
  function FirstFailedFetch(markers: seq<PersonMarker>, downloads: seq<Download>): (r: Option<nat>)
    requires |downloads| == |markers|
    ensures r.Some? ==> (r.value < |markers| && FetchFails(markers[r.value], downloads[r.value])
      && forall j :: 0 <= j < r.value ==> !FetchFails(markers[j], downloads[j]))
    ensures r.None? ==> forall j :: 0 <= j < |markers| ==> !FetchFails(markers[j], downloads[j])
  {
    if |markers| == 0 then None
    else
      var n := |markers| - 1;
      match FirstFailedFetch(markers[..n], downloads[..n])
      case Some(i) => Some(i)
      case None => if FetchFails(markers[n], downloads[n]) then Some(n) else None
  }

  /** A failing download with none failing before it is the first. */
  lemma FirstFailedAt(markers: seq<PersonMarker>, downloads: seq<Download>, i: nat)
    requires |downloads| == |markers| && i < |markers| && FetchFails(markers[i], downloads[i])
    requires forall j :: 0 <= j < i ==> !FetchFails(markers[j], downloads[j])
    ensures FirstFailedFetch(markers, downloads) == Some(i)
  {
    var r := FirstFailedFetch(markers, downloads);
    assert r.Some?;
    assert !(r.value < i);
    assert !(r.value > i);
  }

  /** The exception that ends step one (lines 452 and 466): the background's download first,
      then the persons' in marker order. */
  function PartsFetchError(backgroundImage: string, backgroundDownload: Download, markers: seq<PersonMarker>,
                           personDownloads: seq<Download>): (e: Option<string>)
    requires |personDownloads| == |markers|
    ensures e.None? <==> UrlToBase64(backgroundImage, backgroundDownload).Ok? && FirstFailedFetch(markers, personDownloads).None?
    ensures UrlToBase64(backgroundImage, backgroundDownload).Err? ==> e == Some(UrlToBase64(backgroundImage, backgroundDownload).error)
  {
    var background := UrlToBase64(backgroundImage, backgroundDownload);
    if background.Err? then Some(background.error)
    else match FirstFailedFetch(markers, personDownloads)
      case Some(i) => Some(FetchError(markers[i], personDownloads[i]))
      case None => None
  }

  /** The loop of lines 463-477: each marker with an image adds its part; a download that
      throws ends the loop with its message. */
  method AddPersonParts(markers: seq<PersonMarker>, personDownloads: seq<Download>) returns (r: Result<seq<RequestPart>>)
    requires |personDownloads| == |markers|
    ensures r.Err? <==> FirstFailedFetch(markers, personDownloads).Some?
    ensures r.Err? ==> var i := FirstFailedFetch(markers, personDownloads).value;
      r.error == FetchError(markers[i], personDownloads[i])
    ensures r.Ok? ==> r.value == PersonParts(markers, personDownloads)
  {
    var parts := [];
    var i := 0;
    while i < |markers|
      invariant 0 <= i <= |markers|
      invariant forall j :: 0 <= j < i ==> !FetchFails(markers[j], personDownloads[j])
      invariant parts == PersonParts(markers[..i], personDownloads[..i])
    {
      var personImage := PersonImage(markers[i]);
      if personImage.Some? {
        var personBase64 := UrlToBase64(personImage.value, personDownloads[i]);
        if personBase64.Err? {
          FirstFailedAt(markers, personDownloads, i);
          return Err(personBase64.error);
        }
        PersonPartsStep(markers, personDownloads, i);
        parts := parts + [ImagePart(DetectMimeType(personImage.value), personBase64.value)];
      } else {
        PersonPartsStep(markers, personDownloads, i);
      }
      i := i + 1;
    }
    assert markers[..|markers|] == markers && personDownloads[..|markers|] == personDownloads;
    return Ok(parts);
  }

  /** The parts array (lines 439-477): prompt, background (Image 1), then each person's image;
      a download that throws ends the construction with its message. */
  method BuildParts(prompt: string, backgroundImage: string, backgroundDownload: Download, markers: seq<PersonMarker>,
                    personDownloads: seq<Download>) returns (r: Result<seq<RequestPart>>)
    requires |personDownloads| == |markers|
    ensures r.Err? <==> PartsFetchError(backgroundImage, backgroundDownload, markers, personDownloads).Some?
    ensures r.Err? ==> r.error == PartsFetchError(backgroundImage, backgroundDownload, markers, personDownloads).value
    ensures r.Ok? ==> r.value == [TextPart(prompt), ImagePart(DetectMimeType(backgroundImage),
      UrlToBase64(backgroundImage, backgroundDownload).value)] + PersonParts(markers, personDownloads)
  {
    var parts := [TextPart(prompt)];
    var backgroundBase64 := UrlToBase64(backgroundImage, backgroundDownload);
    if backgroundBase64.Err? {
      return Err(backgroundBase64.error);
    }
    parts := parts + [ImagePart(DetectMimeType(backgroundImage), backgroundBase64.value)];
    var persons := AddPersonParts(markers, personDownloads);
    if persons.Err? {
      return Err(persons.error);
    }
    return Ok(parts + persons.value);
  }

  /** An `inline_data` (snake case, with `mime_type`) or `inlineData` (camel case, with
      `mimeType`) object of a response part. */
  datatype InlineData = InlineData(mimeType: Option<string>, data: Option<string>)

  datatype ResponsePart = ResponsePart(snake: Option<InlineData>, camel: Option<InlineData>, text: Option<string>)

  /** What the generate call gives back: a non-OK status, an error object, or the parts of the
      first candidate (None when there is no candidate). */
  datatype Reply =
    | NotOk(status: int, errorText: string)
    | ErrorObject(message: string)
    | Candidate(parts: Option<seq<ResponsePart>>)
    | RequestThrew(exception: string)  // the fetch or `response.json()` threw

  predicate HasInline(p: ResponsePart) {
    p.snake.Some? || p.camel.Some?
  }

  /** `parts.find(p => p.inline_data || p.inlineData)`. */
  function FindImagePart(parts: seq<ResponsePart>): (r: Option<nat>)
    ensures r.Some? ==> (r.value < |parts| && HasInline(parts[r.value])
      && forall j :: 0 <= j < r.value ==> !HasInline(parts[j]))
    ensures r.None? ==> forall j :: 0 <= j < |parts| ==> !HasInline(parts[j])
  {
    if |parts| == 0 then None
    else if HasInline(parts[0]) then Some(0)
    else match FindImagePart(parts[1..])
      case Some(k) => Some(k + 1)
      case None => None
  }

  /** `x || y` on optional strings. */
  function OrElse(x: Option<string>, y: Option<string>): (r: Option<string>)
    ensures y.Some? && y.value != "" ==> r.Some? && r.value != ""
    ensures x.Some? && x.value != "" ==> r == x
  {
    if x.Some? && x.value != "" then x else y
  }

  /** The data and MIME type of an image part: the snake-case object wins; the MIME type falls
      back to the camel-case `mimeType`, then to image/png. */
  function PartImage(p: ResponsePart): (r: (Option<string>, string))
    requires HasInline(p)
    ensures r.1 != ""
    ensures r.0 == (if p.snake.Some? then p.snake.value.data else p.camel.value.data)
  {
    var imageData := if p.snake.Some? then p.snake.value else p.camel.value;
    var snakeMime := if p.snake.Some? then p.snake.value.mimeType else None;
    var camelMime := if p.camel.Some? then p.camel.value.mimeType else None;
    (imageData.data, OrElse(snakeMime, OrElse(camelMime, Some("image/png"))).value)
  }

  datatype Image = Image(data: string, mimeType: string)

  /** The step-one image of a reply (lines 480-543), or the error returned. */
  function ExtractImage(reply: Reply): (r: Result<Image>)
    ensures reply.NotOk? ==> r == Err("API Error " + IntToString(reply.status) + ": " + reply.errorText)
    ensures reply.ErrorObject? ==> r == Err("Gemini Error: " + reply.message)
    ensures reply.RequestThrew? ==> r == Err(reply.exception)
    ensures r.Ok? ==> r.value.data != "" && r.value.mimeType != ""
    ensures reply.Candidate? && (reply.parts.None? || FindImagePart(reply.parts.value).None?) ==>
      r == Err("No image in response - the model may have returned text only")
    ensures reply.Candidate? && reply.parts.Some? && FindImagePart(reply.parts.value).Some? ==>
      var (data, mime) := PartImage(reply.parts.value[FindImagePart(reply.parts.value).value]);
      r == if data.None? || data.value == "" then Err("Empty image data in response") else Ok(Image(data.value, mime))
  {
    match reply
    case NotOk(status, text) => Err("API Error " + IntToString(status) + ": " + text)
    case ErrorObject(message) => Err("Gemini Error: " + message)
    case RequestThrew(exception) => Err(exception)
    case Candidate(parts) =>
      if parts.None? then Err("No image in response - the model may have returned text only")
      else match FindImagePart(parts.value)
        case None => Err("No image in response - the model may have returned text only")
        case Some(k) =>
          var (data, mime) := PartImage(parts.value[k]);
          if data.None? || data.value == "" then Err("Empty image data in response")
          else Ok(Image(data.value, mime))
  }

  /** What performFaceSwap returned for one marker. */
  datatype SwapOutcome = SwapOutcome(success: bool, imageBase64: Option<string>, mimeType: Option<string>)

  /** A swap that replaces the current image: the marker has a face, and the call succeeded
      with non-empty image data. */
  predicate Applied(m: PersonMarker, o: SwapOutcome) {
    PersonImage(m).Some? && o.success && o.imageBase64.Some? && o.imageBase64.value != ""
  }

  /** One iteration of the face-swap loop (lines 553-586). */
  function SwapStep(m: PersonMarker, o: SwapOutcome, current: Image): (next: Image)
    ensures !Applied(m, o) ==> next == current
    ensures Applied(m, o) ==> next.data == o.imageBase64.value
    ensures Applied(m, o) ==> next.mimeType == if o.mimeType.Some? && o.mimeType.value != "" then o.mimeType.value else current.mimeType
  {
    if Applied(m, o) then Image(o.imageBase64.value, OrElse(o.mimeType, Some(current.mimeType)).value)
    else current
  }

  /** The image after the loop has run over all markers in order. */
  function SwapFold(markers: seq<PersonMarker>, outcomes: seq<SwapOutcome>, start: Image): (final: Image)
    requires |outcomes| == |markers|
    ensures (forall j :: 0 <= j < |markers| ==> !Applied(markers[j], outcomes[j])) ==> final == start
  {
    if |markers| == 0 then start
    else
      var n := |markers| - 1;
      SwapStep(markers[n], outcomes[n], SwapFold(markers[..n], outcomes[..n], start))
  }

  /** The index of the last swap that was applied. */
  function LastApplied(markers: seq<PersonMarker>, outcomes: seq<SwapOutcome>): (r: Option<nat>)
    requires |outcomes| == |markers|
    ensures r.Some? ==> (r.value < |markers| && Applied(markers[r.value], outcomes[r.value])
      && forall j :: r.value < j < |markers| ==> !Applied(markers[j], outcomes[j]))
    ensures r.None? ==> forall j :: 0 <= j < |markers| ==> !Applied(markers[j], outcomes[j])
  {
    if |markers| == 0 then None
    else
      var n := |markers| - 1;
      if Applied(markers[n], outcomes[n]) then Some(n)
      else LastApplied(markers[..n], outcomes[..n])
  }

  /** The result is the image of the last successful swap, or the step-one image if none was. */
  lemma {:induction false} SwapFoldIsLastSuccess(markers: seq<PersonMarker>, outcomes: seq<SwapOutcome>, start: Image)
    requires |outcomes| == |markers|
    ensures SwapFold(markers, outcomes, start).data ==
      match LastApplied(markers, outcomes)
      case Some(k) => outcomes[k].imageBase64.value
      case None => start.data
  {
    if |markers| > 0 {
      var n := |markers| - 1;
      SwapFoldIsLastSuccess(markers[..n], outcomes[..n], start);
    }
  }

  /** The face-swap loop with the second download of each face (line 566): a download that
      throws ends the loop, and the whole generation, with its message. */
  function SwapRun(markers: seq<PersonMarker>, faceDownloads: seq<Download>, outcomes: seq<SwapOutcome>,
                   start: Image): (r: Result<Image>)
    requires |faceDownloads| == |outcomes| == |markers|
    ensures r.Ok? <==> FirstFailedFetch(markers, faceDownloads).None?
    ensures r.Ok? ==> r.value == SwapFold(markers, outcomes, start)
    ensures r.Err? ==> var i := FirstFailedFetch(markers, faceDownloads).value;
      r.error == FetchError(markers[i], faceDownloads[i])
  {
    if |markers| == 0 then Ok(start)
    else
      var n := |markers| - 1;
      match SwapRun(markers[..n], faceDownloads[..n], outcomes[..n], start)
      case Err(e) => Err(e)
      case Ok(current) =>
        if FetchFails(markers[n], faceDownloads[n]) then Err(FetchError(markers[n], faceDownloads[n]))
        else Ok(SwapStep(markers[n], outcomes[n], current))
  }

  /** The face-swap loop, updating `currentImage` and `currentMimeType`. */
  method FaceSwapLoop(markers: seq<PersonMarker>, faceDownloads: seq<Download>, outcomes: seq<SwapOutcome>,
                      start: Image) returns (r: Result<Image>)
    requires |faceDownloads| == |outcomes| == |markers|
    ensures r == SwapRun(markers, faceDownloads, outcomes, start)
  {
    var currentImage, currentMimeType := start.data, start.mimeType;
    var i := 0;
    while i < |markers|
      invariant 0 <= i <= |markers|
      invariant forall j :: 0 <= j < i ==> !FetchFails(markers[j], faceDownloads[j])
      invariant Image(currentImage, currentMimeType) == SwapFold(markers[..i], outcomes[..i], start)
    {
      assert markers[..i + 1][..i] == markers[..i] && outcomes[..i + 1][..i] == outcomes[..i];
      var personFace := PersonImage(markers[i]);
      if personFace.Some? {
        var faceBase64 := UrlToBase64(personFace.value, faceDownloads[i]);
        if faceBase64.Err? {
          FirstFailedAt(markers, faceDownloads, i);
          return Err(faceBase64.error);
        }
        var result := outcomes[i];
        if result.success && result.imageBase64.Some? && result.imageBase64.value != "" {
          currentImage := result.imageBase64.value;
          currentMimeType := if result.mimeType.Some? && result.mimeType.value != "" then result.mimeType.value else currentMimeType;
        }
      }
      i := i + 1;
    }
    assert markers[..|markers|] == markers && outcomes[..|outcomes|] == outcomes;
    r := Ok(Image(currentImage, currentMimeType));
  }

  datatype GenerateResult = Generated(image: Image) | Failed(error: string)

  /** The network inputs of one generation: the two downloads of step one, the Gemini reply,
      then per marker the second download of its face and the face-swap outcome. */
  datatype Service = Service(backgroundDownload: Download, personDownloads: seq<Download>, reply: Reply,
                             faceDownloads: seq<Download>, outcomes: seq<SwapOutcome>)

  predicate Fits(service: Service, markers: seq<PersonMarker>) {
    |service.personDownloads| == |service.faceDownloads| == |service.outcomes| == |markers|
  }

  /** generateImageWithPersons without the final resize: validation, step one, then the swaps;
      an exception anywhere lands in the catch of lines 634-638. */
  function GenerateWithPersons(apiKey: string, backgroundImage: string, markers: seq<PersonMarker>,
                               service: Service): (r: GenerateResult)
    requires Fits(service, markers)
    ensures r.Generated? <==>
      && ValidationError(apiKey, backgroundImage, markers).None?
      && PartsFetchError(backgroundImage, service.backgroundDownload, markers, service.personDownloads).None?
      && ExtractImage(service.reply).Ok?
      && FirstFailedFetch(markers, service.faceDownloads).None?
    ensures r.Generated? ==> r.image == SwapFold(markers, service.outcomes, ExtractImage(service.reply).value)
  {
    match ValidationError(apiKey, backgroundImage, markers)
    case Some(e) => Failed(e)
    case None =>
      match PartsFetchError(backgroundImage, service.backgroundDownload, markers, service.personDownloads)
      case Some(e) => Failed(e)
      case None =>
        match ExtractImage(service.reply)
        case Err(e) => Failed(e)
        case Ok(image) =>
          match SwapRun(markers, service.faceDownloads, service.outcomes, image)
          case Err(e) => Failed(e)
          case Ok(final) => Generated(final)
  }

  /** A refused request fails with its validation message whatever the network would do. */
  lemma ValidationFirst(apiKey: string, backgroundImage: string, markers: seq<PersonMarker>, service: Service,
                        service': Service)
    requires Fits(service, markers) && Fits(service', markers)
    requires ValidationError(apiKey, backgroundImage, markers).Some?
    ensures GenerateWithPersons(apiKey, backgroundImage, markers, service) ==
      GenerateWithPersons(apiKey, backgroundImage, markers, service') ==
      Failed(ValidationError(apiKey, backgroundImage, markers).value)
  {
  }

  /** A face whose second download throws fails the whole generation with that message, even
      when earlier swaps succeeded; a failed swap only keeps the previous image. */
  lemma FaceFetchFailureAborts(apiKey: string, backgroundImage: string, markers: seq<PersonMarker>, service: Service,
                               i: nat)
    requires Fits(service, markers)
    requires ValidationError(apiKey, backgroundImage, markers).None?
    requires PartsFetchError(backgroundImage, service.backgroundDownload, markers, service.personDownloads).None?
    requires ExtractImage(service.reply).Ok?
    requires i < |markers| && FetchFails(markers[i], service.faceDownloads[i])
    requires forall j :: 0 <= j < i ==> !FetchFails(markers[j], service.faceDownloads[j])
    ensures GenerateWithPersons(apiKey, backgroundImage, markers, service) ==
      Failed(FetchError(markers[i], service.faceDownloads[i]))
  {
    FirstFailedAt(markers, service.faceDownloads, i);
  }

  /** An ordinary URL that answers with a non-OK status fails the generation with
      'Failed to fetch image: ' and the URL. */
  lemma BackgroundNotFound(apiKey: string, backgroundImage: string, markers: seq<PersonMarker>, service: Service)
    requires Fits(service, markers)
    requires ValidationError(apiKey, backgroundImage, markers).None?
    requires !StartsWith(backgroundImage, "data:") && service.backgroundDownload == NotOkResponse
    ensures GenerateWithPersons(apiKey, backgroundImage, markers, service) ==
      Failed("Failed to fetch image: " + backgroundImage)
  {
  }

  /** With no applied swap the step-one image is returned unchanged. */
  lemma FailedSwapsKeepStepOne(markers: seq<PersonMarker>, outcomes: seq<SwapOutcome>, start: Image)
    requires |outcomes| == |markers|
    requires forall j :: 0 <= j < |markers| ==> !Applied(markers[j], outcomes[j])
    ensures SwapFold(markers, outcomes, start) == start
  {
    if |markers| > 0 {
      var n := |markers| - 1;
      FailedSwapsKeepStepOne(markers[..n], outcomes[..n], start);
    }
  }
}
