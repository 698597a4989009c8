/** The image editor's marker state and its generate request (components/editor/PersonaEditor.tsx). */
module PersonaEditor {
  import opened Wrappers
  import opened Text
  import opened MarkerTypes

  /** A JavaScript string is truthy when it is present and not empty. */
  predicate Truthy(s: Option<string>) {
    s.Some? && s.value != ""
  }

  /** CanvasMarker (components/editor/types.ts, lines 5-15); `label` is called `name` here. Positions
      and sizes are fractions of the picture. */
  datatype CanvasMarker = CanvasMarker(id: string, x: real, y: real, width: real, height: real,
                                       personImage: Option<string>, name: string, color: string,
                                       customPrompt: Option<string>)

  /** What the canvas hands over for a new marker: everything but id, label and colour. */
  datatype MarkerDraft = MarkerDraft(x: real, y: real, width: real, height: real,
                                     personImage: Option<string>, customPrompt: Option<string>)

  /** `Partial<CanvasMarker>`: None leaves a field as it is; for the optional fields `Some(None)` is a
      key present with the value `undefined`. */
  datatype MarkerPatch = MarkerPatch(id: Option<string>, x: Option<real>, y: Option<real>,
                                     width: Option<real>, height: Option<real>,
                                     personImage: Option<Option<string>>, name: Option<string>,
                                     color: Option<string>, customPrompt: Option<Option<string>>)

  const NoChange := MarkerPatch(None, None, None, None, None, None, None, None, None)

  /** `{ ...m, ...updates }` */
  function Patched(m: CanvasMarker, p: MarkerPatch): (r: CanvasMarker)
    ensures p == NoChange ==> r == m
    ensures p.personImage.Some? ==> r.personImage == p.personImage.value
    ensures p.personImage.None? ==> r.personImage == m.personImage
  {
    CanvasMarker(p.id.GetOr(m.id), p.x.GetOr(m.x), p.y.GetOr(m.y), p.width.GetOr(m.width),
                 p.height.GetOr(m.height), p.personImage.GetOr(m.personImage), p.name.GetOr(m.name),
                 p.color.GetOr(m.color), p.customPrompt.GetOr(m.customPrompt))
  }

  datatype Quality = TwoK | FourK

  datatype GeneratedResult = GeneratedResult(imageBase64: string, mimeType: string)

  /** The editor's state fields (lines 33-40). */
  datatype EditorState = EditorState(backgroundImage: Option<string>, markers: seq<CanvasMarker>,
                                     selectedMarkerId: Option<string>, isGenerating: bool,
                                     result: Option<GeneratedResult>, showResult: bool,
                                     error: Option<string>, imageQuality: Quality)

  const InitialEditor := EditorState(None, [], None, false, None, false, None, TwoK)

  /** A new background (lines 48-51) drops the markers and the result; the selection is left as it was. */
  function BackgroundLoaded(s: EditorState, image: string): (r: EditorState)
    ensures r.backgroundImage == Some(image) && r.markers == [] && r.result.None?
    ensures r.(backgroundImage := s.backgroundImage, markers := s.markers, result := s.result) == s
  {
    s.(backgroundImage := Some(image), markers := [], result := None)
  }

  /** The marker handleAddMarker builds (lines 58-63) when `count` markers exist; `now` stands for
      `Date.now()`. */
  function NewMarker(draft: MarkerDraft, count: nat, now: int): (m: CanvasMarker)
    ensures m.x == draft.x && m.y == draft.y && m.width == draft.width && m.height == draft.height
    ensures m.personImage == draft.personImage && m.customPrompt == draft.customPrompt
    ensures m.color == MarkerColors[count % |MarkerColors|]
  {
    CanvasMarker("marker-" + IntToString(now), draft.x, draft.y, draft.width, draft.height,
                 draft.personImage, "Person " + IntToString(count + 1),
                 GetMarkerColor(count).value, draft.customPrompt)
  }

  /** handleAddMarker (lines 57-66): one more marker at the end, which becomes the selection. */
  function MarkerAdded(s: EditorState, draft: MarkerDraft, now: int): (r: EditorState)
    ensures |r.markers| == |s.markers| + 1 && r.markers[..|s.markers|] == s.markers
    ensures r.selectedMarkerId == Some(r.markers[|s.markers|].id)
    ensures r.(markers := s.markers, selectedMarkerId := s.selectedMarkerId) == s
  {
    var m := NewMarker(draft, |s.markers|, now);
    assert (s.markers + [m])[..|s.markers|] == s.markers;
    s.(markers := s.markers + [m], selectedMarkerId := Some(m.id))
  }

  /** The added marker is labelled 'Person n+1' and coloured with palette entry n mod 8, n being the
      number of markers before it, and it keeps the position and image of the draft. */
  lemma AddedMarkerNamedAndColoured(s: EditorState, draft: MarkerDraft, now: int)
    ensures var n := |s.markers|; var m := MarkerAdded(s, draft, now).markers[n];
      m.name == "Person " + IntToString(n + 1) && m.color == MarkerColors[n % 8]
      && m.id == "marker-" + IntToString(now)
      && (m.x, m.y, m.width, m.height, m.personImage, m.customPrompt)
         == (draft.x, draft.y, draft.width, draft.height, draft.personImage, draft.customPrompt)
  {
  }

  /** `prev.map(m => m.id === id ? { ...m, ...updates } : m)` */
  function UpdateMarkers(markers: seq<CanvasMarker>, id: string, p: MarkerPatch): (r: seq<CanvasMarker>)
    ensures |r| == |markers|
    ensures forall i :: 0 <= i < |r| ==> r[i] == if markers[i].id == id then Patched(markers[i], p) else markers[i]
  {
    seq(|markers|, i requires 0 <= i < |markers| => if markers[i].id == id then Patched(markers[i], p) else markers[i])
  }

  /** handleUpdateMarker (lines 68-70). */
  function MarkerUpdated(s: EditorState, id: string, p: MarkerPatch): (r: EditorState)
    ensures r.(markers := s.markers) == s
  {
    s.(markers := UpdateMarkers(s.markers, id, p))
  }

  /** Updating touches only the markers with that id; all others stay where and as they are. */
  lemma UpdateTouchesOnlyId(s: EditorState, id: string, p: MarkerPatch, i: nat)
    requires i < |s.markers| && s.markers[i].id != id
    ensures |MarkerUpdated(s, id, p).markers| == |s.markers|
    ensures MarkerUpdated(s, id, p).markers[i] == s.markers[i]
  {
  }

  /** An id that names no marker leaves the list as it is. */
  lemma {:induction false} UpdateUnknownId(s: EditorState, id: string, p: MarkerPatch)
    requires forall i :: 0 <= i < |s.markers| ==> s.markers[i].id != id
    ensures MarkerUpdated(s, id, p) == s
  {
    assert UpdateMarkers(s.markers, id, p) == s.markers;
  }

  /** `prev.filter(m => m.id !== id)` */
  function Without(markers: seq<CanvasMarker>, id: string): (r: seq<CanvasMarker>)
    ensures |r| <= |markers|
    ensures forall i :: 0 <= i < |r| ==> r[i].id != id && r[i] in markers
    ensures forall i :: 0 <= i < |markers| && markers[i].id != id ==> markers[i] in r
    ensures (forall i :: 0 <= i < |markers| ==> markers[i].id != id) ==> r == markers
    ensures |markers| == 1 ==> r == if markers[0].id != id then markers else []
  {
    if |markers| == 0 then []
    else (if markers[0].id != id then [markers[0]] else []) + Without(markers[1..], id)
  }

  /** Removal distributes over concatenation, so the kept markers stay in their order. */
  lemma {:induction false} WithoutAppend(a: seq<CanvasMarker>, b: seq<CanvasMarker>, id: string)
    ensures Without(a + b, id) == Without(a, id) + Without(b, id)
    decreases |a|
  {
    if |a| == 0 {
      assert a + b == b;
    } else {
      assert (a + b)[0] == a[0];
      assert (a + b)[1..] == a[1..] + b;
      WithoutAppend(a[1..], b, id);
    }
  }

  /** Every copy of a marker with another id stays, and none with this id. */
  lemma {:induction false} WithoutCounts(markers: seq<CanvasMarker>, id: string, m: CanvasMarker)
    ensures multiset(Without(markers, id))[m] == if m.id != id then multiset(markers)[m] else 0
    decreases |markers|
  {
    if |markers| > 0 {
      var head := markers[0];
      var tail := markers[1..];
      var kept := if head.id != id then [head] else [];
      CountSplit(markers, head, tail, m);
      WithoutStep(markers, id, kept);
      if head.id != id {
        CountSplit(Without(markers, id), head, Without(tail, id), m);
      } else {
        assert Without(markers, id) == Without(tail, id);
      }
      WithoutCounts(tail, id, m);
    }
  }

  /** One marker's step of Without. */
  lemma WithoutStep(markers: seq<CanvasMarker>, id: string, kept: seq<CanvasMarker>)
    requires |markers| > 0 && kept == if markers[0].id != id then [markers[0]] else []
    ensures Without(markers, id) == kept + Without(markers[1..], id)
  {
  }

  /** handleDeleteMarker (lines 72-75). */
  function MarkerDeleted(s: EditorState, id: string): (r: EditorState)
    ensures r.markers == Without(s.markers, id)
    ensures r.selectedMarkerId == if s.selectedMarkerId == Some(id) then None else s.selectedMarkerId
    ensures r.(markers := s.markers, selectedMarkerId := s.selectedMarkerId) == s
  {
    s.(markers := Without(s.markers, id),
       selectedMarkerId := if s.selectedMarkerId == Some(id) then None else s.selectedMarkerId)
  }

  /** After a delete no marker has that id, and deleting it again changes nothing. */
  lemma DeleteIdempotent(s: EditorState, id: string)
    ensures var r := MarkerDeleted(s, id);
      (forall i :: 0 <= i < |r.markers| ==> r.markers[i].id != id) && MarkerDeleted(r, id) == r
  {
  }

  /** handleAssignPerson and handleRemovePersonImage (lines 77-83). */
  function PersonAssigned(s: EditorState, markerId: string, imageData: string): (r: EditorState)
    ensures r.(markers := s.markers) == s && |r.markers| == |s.markers|
    ensures forall i :: 0 <= i < |r.markers| ==>
      r.markers[i] == if s.markers[i].id == markerId then s.markers[i].(personImage := Some(imageData)) else s.markers[i]
  {
    MarkerUpdated(s, markerId, NoChange.(personImage := Some(Some(imageData))))
  }

  function PersonRemoved(s: EditorState, markerId: string): (r: EditorState)
    ensures r.(markers := s.markers) == s && |r.markers| == |s.markers|
    ensures forall i :: 0 <= i < |r.markers| ==>
      r.markers[i] == if s.markers[i].id == markerId then s.markers[i].(personImage := None) else s.markers[i]
  {
    MarkerUpdated(s, markerId, NoChange.(personImage := Some(None)))
  }

  /** Assigning an image to a marker and removing it again only leaves that marker without an image. */
  lemma AssignThenRemove(s: EditorState, markerId: string, imageData: string)
    ensures var r := PersonRemoved(PersonAssigned(s, markerId, imageData), markerId);
      r == PersonRemoved(s, markerId)
      && forall i :: 0 <= i < |r.markers| && r.markers[i].id == markerId ==> r.markers[i].personImage.None?
  {
    var a := PersonAssigned(s, markerId, imageData);
    var r := PersonRemoved(a, markerId);
    assert r.markers == PersonRemoved(s, markerId).markers;
  }

  /** handleClearAll (lines 86-92). */
  function ClearedAll(s: EditorState): (r: EditorState)
    ensures r.backgroundImage.None? && r.markers == [] && r.selectedMarkerId.None? && r.result.None? && r.error.None?
    ensures r.isGenerating == s.isGenerating && r.showResult == s.showResult && r.imageQuality == s.imageQuality
  {
    s.(backgroundImage := None, markers := [], selectedMarkerId := None, result := None, error := None)
  }

  /** `markers.filter(m => !m.personImage).length` */
  function Unassigned(markers: seq<CanvasMarker>): (count: nat)
    ensures count <= |markers|
    ensures count == 0 <==> forall i :: 0 <= i < |markers| ==> Truthy(markers[i].personImage)
  {
    if |markers| == 0 then 0
    else (if Truthy(markers[0].personImage) then 0 else 1) + Unassigned(markers[1..])
  }

  /** canGenerate (line 147). */
  predicate CanGenerate(s: EditorState)
    ensures CanGenerate(s) <==> Truthy(s.backgroundImage) && |s.markers| > 0 && Unassigned(s.markers) == 0
  {
    Truthy(s.backgroundImage) && |s.markers| > 0 && forall i :: 0 <= i < |s.markers| ==> Truthy(s.markers[i].personImage)
  }

  /** One entry of `personMarkers` in the request body (lines 115-123). */
  datatype MarkerRequest = MarkerRequest(id: string, x: real, y: real, width: real, height: real,
                                         personImageBase64: Option<string>, name: string)

  datatype GenerateRequest = GenerateRequest(backgroundImage: string, personMarkers: seq<MarkerRequest>,
                                             imageQuality: Quality)

  /** `markers.map(...)`: each marker in order, without its colour and custom prompt. */
  function RequestMarkers(markers: seq<CanvasMarker>): (r: seq<MarkerRequest>)
    ensures |r| == |markers|
    ensures forall i :: 0 <= i < |r| ==> var m := markers[i];
      r[i] == MarkerRequest(m.id, m.x, m.y, m.width, m.height, m.personImage, m.name)
  {
    seq(|markers|, i requires 0 <= i < |markers| =>
      var m := markers[i]; MarkerRequest(m.id, m.x, m.y, m.width, m.height, m.personImage, m.name))
  }

  datatype Started = Started(state: EditorState, request: Option<GenerateRequest>)

  /** The synchronous part of handleGenerate up to the fetch (lines 96-107, 110-126). */
  function GenerateStarted(s: EditorState): (r: Started)
    ensures r.request.Some? ==> (s.backgroundImage.Some?
                                 && r.request.value == GenerateRequest(s.backgroundImage.value, RequestMarkers(s.markers),
                                                                       s.imageQuality))
  {
    if !Truthy(s.backgroundImage) || |s.markers| == 0 then Started(s, None)
    else
      var missing := Unassigned(s.markers);
      if missing > 0 then
        Started(s.(error := Some("Bitte lade Fotos für alle " + IntToString(missing) + " markierten Positionen hoch.")), None)
      else
        Started(s.(error := None, isGenerating := true, showResult := true),
                Some(GenerateRequest(s.backgroundImage.value, RequestMarkers(s.markers), s.imageQuality)))
  }

  /** A request is sent exactly when canGenerate holds; otherwise nothing changes except, when some
      marker lacks a photo, the error message; a sent request marks the editor as generating. */
  lemma GenerateIffCanGenerate(s: EditorState)
    ensures var r := GenerateStarted(s);
      (r.request.Some? <==> CanGenerate(s))
      && (!Truthy(s.backgroundImage) || |s.markers| == 0 ==> r.state == s)
      && (r.request.None? ==> r.state.(error := s.error) == s)
      && (r.request.None? && Truthy(s.backgroundImage) && |s.markers| > 0 ==> r.state.error.Some?)
      && (r.request.Some? ==> r.state.isGenerating && r.state.showResult && r.state.error.None?)
  {
  }

  /** What the fetch of /api/generate-image came back with: the parsed body, or an exception
      (None when the thrown value is not an Error). */
  datatype GenerateReply =
    | Body(success: bool, errorText: Option<string>, imageBase64: string, mimeType: Option<string>)
    | Thrown(message: Option<string>)

  /** The rest of handleGenerate (lines 128-144). */
  function GenerateFinished(s: EditorState, reply: GenerateReply): (r: EditorState)
    ensures !r.isGenerating
    ensures reply.Body? && reply.success ==> r.error == s.error && r.showResult == s.showResult
    ensures reply.Body? && reply.success ==> r.result.Some? && r.result.value.imageBase64 == reply.imageBase64
    ensures reply.Body? && reply.success && Truthy(reply.mimeType) ==> r.result.value.mimeType == reply.mimeType.value
    ensures reply.Body? && reply.success && !Truthy(reply.mimeType) ==> r.result.value.mimeType == "image/png"
    ensures !(reply.Body? && reply.success) ==> r.result == s.result && !r.showResult && r.error.Some?
    ensures reply.Body? && !reply.success ==>
      r.error == Some("Generierung fehlgeschlagen: " + (if Truthy(reply.errorText) then reply.errorText.value else "Generation failed"))
    ensures r.(isGenerating := s.isGenerating, result := s.result, showResult := s.showResult, error := s.error) == s
  {
    match reply
    case Body(success, errorText, image, mimeType) =>
      if success then
        s.(result := Some(GeneratedResult(image, if Truthy(mimeType) then mimeType.value else "image/png")),
           isGenerating := false)
      else
        var message := if Truthy(errorText) then errorText.value else "Generation failed";
        s.(error := Some("Generierung fehlgeschlagen: " + message), showResult := false, isGenerating := false)
    case Thrown(message) =>
      var text := message.GetOr("Unbekannter Fehler");
      s.(error := Some("Generierung fehlgeschlagen: " + text), showResult := false, isGenerating := false)
  }

  /** A failed generation keeps the previous picture: only the error, the flags and the overlay change. */
  lemma FailureKeepsResult(s: EditorState, message: Option<string>)
    ensures var r := GenerateFinished(s, Thrown(message));
      r.result == s.result && r.markers == s.markers
      && r.error == Some("Generierung fehlgeschlagen: " + message.GetOr("Unbekannter Fehler"))
  {
  }

  /** The editor component: each setter replaces one of these fields. */
  class Editor {
    var backgroundImage: Option<string>
    var markers: seq<CanvasMarker>
    var selectedMarkerId: Option<string>
    var isGenerating: bool
    var result: Option<GeneratedResult>
    var showResult: bool
    var error: Option<string>
    var imageQuality: Quality

    constructor ()
      ensures State() == InitialEditor
    {
      backgroundImage := None;
      markers := [];
      selectedMarkerId := None;
      isGenerating := false;
      result := None;
      showResult := false;
      error := None;
      imageQuality := TwoK;
    }

    function State(): EditorState
      reads this
    {
      EditorState(backgroundImage, markers, selectedMarkerId, isGenerating, result, showResult, error, imageQuality)
    }

    /** The FileReader's onload for a new background (lines 48-51). */
    method OnBackgroundLoaded(image: string)
      modifies this
      ensures State() == BackgroundLoaded(old(State()), image)
    {
      backgroundImage := Some(image);
      markers := [];
      result := None;
    }

    method AddMarker(draft: MarkerDraft, now: int)
      modifies this
      ensures State() == MarkerAdded(old(State()), draft, now)
    {
      var marker := NewMarker(draft, |markers|, now);
      markers := markers + [marker];
      selectedMarkerId := Some(marker.id);
    }

    /** The map over the markers, written as the loop it performs. */
    method UpdateMarker(id: string, p: MarkerPatch)
      modifies this
      ensures State() == MarkerUpdated(old(State()), id, p)
    {
      var updated: seq<CanvasMarker> := [];
      var i := 0;
      while i < |markers|
        invariant 0 <= i <= |markers|
        invariant updated == UpdateMarkers(markers, id, p)[..i]
      {
        var m := markers[i];
        updated := updated + [if m.id == id then Patched(m, p) else m];
        i := i + 1;
      }
      assert UpdateMarkers(markers, id, p)[..i] == UpdateMarkers(markers, id, p);
      markers := updated;
    }

    method DeleteMarker(id: string)
      modifies this
      ensures State() == MarkerDeleted(old(State()), id)
    {
      markers := Without(markers, id);
      if selectedMarkerId == Some(id) {
        selectedMarkerId := None;
      }
    }

    method AssignPerson(markerId: string, imageData: string)
      modifies this
      ensures State() == PersonAssigned(old(State()), markerId, imageData)
    {
      UpdateMarker(markerId, NoChange.(personImage := Some(Some(imageData))));
    }

    method RemovePersonImage(markerId: string)
      modifies this
      ensures State() == PersonRemoved(old(State()), markerId)
    {
      UpdateMarker(markerId, NoChange.(personImage := Some(None)));
    }

    /** onSelectMarker is the bare setter (line 262). */
    method SelectMarker(id: Option<string>)
      modifies this
      ensures State() == old(State()).(selectedMarkerId := id)
    {
      selectedMarkerId := id;
    }

    method ClearAll()
      modifies this
      ensures State() == ClearedAll(old(State()))
    {
      backgroundImage := None;
      markers := [];
      selectedMarkerId := None;
      result := None;
      error := None;
    }

    /** handleGenerate up to the fetch: the request to send, if any. */
    method StartGenerate() returns (request: Option<GenerateRequest>)
      modifies this
      ensures Started(State(), request) == GenerateStarted(old(State()))
    {
      if backgroundImage.None? || backgroundImage.value == "" || |markers| == 0 {
        return None;
      }
      var missing := Unassigned(markers);
      if missing > 0 {
        error := Some("Bitte lade Fotos für alle " + IntToString(missing) + " markierten Positionen hoch.");
        return None;
      }
      error := None;
      isGenerating := true;
      showResult := true;
      request := Some(GenerateRequest(backgroundImage.value, RequestMarkers(markers), imageQuality));
    }

    /** handleGenerate after the fetch has answered or thrown. */
    method FinishGenerate(reply: GenerateReply)
      modifies this
      ensures State() == GenerateFinished(old(State()), reply)
    {
      match reply {
        case Body(success, errorText, image, mimeType) =>
          if success {
            result := Some(GeneratedResult(image, if Truthy(mimeType) then mimeType.value else "image/png"));
          } else {
            var message := if Truthy(errorText) then errorText.value else "Generation failed";
            error := Some("Generierung fehlgeschlagen: " + message);
            showResult := false;
          }
        case Thrown(message) =>
          error := Some("Generierung fehlgeschlagen: " + message.GetOr("Unbekannter Fehler"));
          showResult := false;
      }
      isGenerating := false;
    }
  }
}
