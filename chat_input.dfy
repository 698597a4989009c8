/** The chat composer: message text, attachments and sending (components/chat/ChatInput.tsx). */
module ChatInput {
  import opened Wrappers
  import opened Text

  /** ChatAttachment (lib/services/chat/types.ts, lines 8-14); the composer never produces 'pdf'. */
  datatype AttachmentKind = Image | Pdf | File

  datatype Attachment = Attachment(kind: AttachmentKind, url: string, name: string, base64: Option<string>)

  /** The composer's state (lines 26-27). */
  datatype InputState = InputState(message: string, attachments: seq<Attachment>)

  const Empty := InputState("", [])

  /** What `onSendMessage` receives: the trimmed text, and the attachments or `undefined`. */
  datatype Sent = Sent(content: string, attachments: Option<seq<Attachment>>)

  datatype SendOutcome = SendOutcome(state: InputState, sent: Option<Sent>)

  /** handleSend (lines 31-42). */
  function Send(s: InputState, isGenerating: bool, disabled: bool): (r: SendOutcome)
    ensures r.sent.Some? <==> (Trim(s.message) != "" || |s.attachments| > 0) && !isGenerating && !disabled
    ensures r.sent.None? ==> r.state == s
    ensures r.sent.Some? ==> r.state == Empty && r.sent.value.content == Trim(s.message)
    ensures r.sent.Some? ==> (r.sent.value.attachments.Some? <==> |s.attachments| > 0)
    ensures r.sent.Some? && |s.attachments| > 0 ==> r.sent.value.attachments == Some(s.attachments)
  {
    if Trim(s.message) == "" && |s.attachments| == 0 then SendOutcome(s, None)
    else if isGenerating || disabled then SendOutcome(s, None)
    else
      var attachments := if |s.attachments| > 0 then Some(s.attachments) else None;
      SendOutcome(Empty, Some(Sent(Trim(s.message), attachments)))
  }

  /** A message of blanks only is never sent on its own. */
  lemma BlankMessageNotSent(s: InputState, isGenerating: bool, disabled: bool)
    requires IsBlank(s.message) && |s.attachments| == 0
    ensures Send(s, isGenerating, disabled) == SendOutcome(s, None)
  {
    TrimEmptyIffBlank(s.message);
  }

  /** Sending twice in a row sends once: the second press finds an empty composer. */
  lemma SecondSendDoesNothing(s: InputState, isGenerating: bool, disabled: bool)
    ensures var first := Send(s, isGenerating, disabled);
      first.sent.Some? ==> Send(first.state, isGenerating, disabled) == SendOutcome(Empty, None)
  {
    assert Trim("") == "";
  }

  /** handleKeyDown (lines 44-49): Enter without Shift sends; any other key leaves the state alone
      (the default key action, inserting a newline, is outside the model). */
  function KeyDown(s: InputState, key: string, shiftKey: bool, isGenerating: bool, disabled: bool): (r: SendOutcome)
    ensures key == "Enter" && !shiftKey ==> r == Send(s, isGenerating, disabled)
    ensures !(key == "Enter" && !shiftKey) ==> r == SendOutcome(s, None)
  {
    if key == "Enter" && !shiftKey then Send(s, isGenerating, disabled) else SendOutcome(s, None)
  }

  /** handleTextareaChange (lines 51-59); the height adjustment is presentation. */
  function TextChanged(s: InputState, value: string): (r: InputState)
    ensures r.message == value && r.attachments == s.attachments
  {
    s.(message := value)
  }

  /** The attachment a FileReader's onload adds (lines 67-74), from the file's MIME type and name
      and the data URL it read. */
  function NewAttachment(mimeType: string, name: string, dataUrl: string): (a: Attachment)
    ensures a.kind == Image <==> StartsWith(mimeType, "image/")
    ensures a.kind != Pdf
    ensures a.url == dataUrl && a.base64 == Some(dataUrl) && a.name == name
  {
    Attachment(if StartsWith(mimeType, "image/") then Image else File, dataUrl, name, Some(dataUrl))
  }

  function FileLoaded(s: InputState, mimeType: string, name: string, dataUrl: string): (r: InputState)
    ensures r.message == s.message && r.attachments == s.attachments + [NewAttachment(mimeType, name, dataUrl)]
  {
    s.(attachments := s.attachments + [NewAttachment(mimeType, name, dataUrl)])
  }

  /** `prev.filter((_, i) => i !== index)`, with `index` counted from the start of `s`. */
  function DropIndex<T>(s: seq<T>, index: int): (r: seq<T>)
    ensures |r| == if 0 <= index < |s| then |s| - 1 else |s|
  {
    if |s| == 0 then []
    else (if index == 0 then [] else [s[0]]) + DropIndex(s[1..], index - 1)
  }

  /** Removing index `i` takes out exactly that attachment and keeps the others in order; an index
      outside the list removes nothing. */
  lemma {:induction false} DropIndexSpec<T>(s: seq<T>, index: int)
    ensures 0 <= index < |s| ==> DropIndex(s, index) == s[..index] + s[index + 1..]
    ensures !(0 <= index < |s|) ==> DropIndex(s, index) == s
  {
    if |s| > 0 {
      DropIndexSpec(s[1..], index - 1);
      if index == 0 {
        assert s[..0] + s[1..] == s[1..];
      } else if 0 < index < |s| {
        assert s[1..][..index - 1] + s[1..][index..] == s[1..index] + s[index + 1..];
        assert [s[0]] + s[1..index] == s[..index];
      } else {
        assert [s[0]] + s[1..] == s;
      }
    }
  }

  function AttachmentRemoved(s: InputState, index: int): (r: InputState)
    ensures r.message == s.message
    ensures 0 <= index < |s.attachments| ==> |r.attachments| == |s.attachments| - 1
  {
    s.(attachments := DropIndex(s.attachments, index))
  }

  /** A loaded file followed by removing the last index gives the attachments back. */
  lemma LoadThenRemoveLast(s: InputState, mimeType: string, name: string, dataUrl: string)
    ensures AttachmentRemoved(FileLoaded(s, mimeType, name, dataUrl), |s.attachments|) == s
  {
    var loaded := FileLoaded(s, mimeType, name, dataUrl);
    DropIndexSpec(loaded.attachments, |s.attachments|);
    assert loaded.attachments[..|s.attachments|] == s.attachments;
  }

  /** The composer component. Its props `isGenerating` and `disabled` are passed to each handler. */
  class Composer {
    var message: string
    var attachments: seq<Attachment>

    constructor ()
      ensures State() == Empty
    {
      message := "";
      attachments := [];
    }

    function State(): InputState
      reads this
    {
      InputState(message, attachments)
    }

    method HandleSend(isGenerating: bool, disabled: bool) returns (sent: Option<Sent>)
      modifies this
      ensures SendOutcome(State(), sent) == Send(old(State()), isGenerating, disabled)
    {
      var content := Trim(message);
      if content == "" && |attachments| == 0 {
        return None;
      }
      if isGenerating || disabled {
        return None;
      }
      sent := Some(Sent(content, if |attachments| > 0 then Some(attachments) else None));
      message := "";
      attachments := [];
    }

    method HandleKeyDown(key: string, shiftKey: bool, isGenerating: bool, disabled: bool) returns (sent: Option<Sent>)
      modifies this
      ensures SendOutcome(State(), sent) == KeyDown(old(State()), key, shiftKey, isGenerating, disabled)
    {
      sent := None;
      if key == "Enter" && !shiftKey {
        sent := HandleSend(isGenerating, disabled);
      }
    }

    method HandleTextareaChange(value: string)
      modifies this
      ensures State() == TextChanged(old(State()), value)
    {
      message := value;
    }

    /** One file's onload inside handleFileSelect; files finish loading in any order. */
    method OnFileLoaded(mimeType: string, name: string, dataUrl: string)
      modifies this
      ensures State() == FileLoaded(old(State()), mimeType, name, dataUrl)
    {
      attachments := attachments + [NewAttachment(mimeType, name, dataUrl)];
    }

    method RemoveAttachment(index: int)
      modifies this
      ensures State() == AttachmentRemoved(old(State()), index)
    {
      attachments := DropIndex(attachments, index);
    }
  }
}
