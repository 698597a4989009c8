/** The pure and the field-mapping parts of the chat service: conversation titles, the update
    record sent to the store, and the row a new conversation is inserted with. */
module ChatService {
  import opened Wrappers
  import opened Text

  const DefaultTitleLength := 50
  const DefaultConversationTitle := "Neue Unterhaltung"

  /** `content.replace(/\n/g, ' ').trim()`. */
  function CleanTitle(content: string): (cleaned: string)
    ensures '\n' !in cleaned
    ensures |cleaned| <= |content|
  {
    var flat := ReplaceChar(content, '\n', ' ');
    assert '\n' !in flat by {
      forall i | 0 <= i < |flat| ensures flat[i] != '\n' { }
    }
    var start := TrimStart(flat);
    NoNewlineInSlice(flat, |flat| - |start|, |flat|);
    var cleaned := TrimEnd(start);
    NoNewlineInSlice(start, 0, |cleaned|);
    cleaned
  }

  lemma NoNewlineInSlice(s: string, a: nat, b: nat)
    requires a <= b <= |s| && '\n' !in s
    ensures '\n' !in s[a..b]
  {
    forall i | 0 <= i < b - a ensures s[a..b][i] != '\n' {
      assert s[a..b][i] == s[a + i];
    }
  }

  /** `s.substring(0, n)`: a negative end counts as 0. */
  function Substring(s: string, n: int): (r: string)
    ensures r <= s
    ensures |r| == if n < 0 then 0 else if n > |s| then |s| else n
  {
    if n <= 0 then "" else if n >= |s| then s else s[..n]
  }

  /** generateTitle (lines 250-254). */
  function GenerateTitle(content: string, maxLength: int): (title: string)
    ensures |CleanTitle(content)| <= maxLength ==> title == CleanTitle(content)
    ensures |CleanTitle(content)| > maxLength ==> title == Substring(CleanTitle(content), maxLength - 3) + "..."
    ensures |CleanTitle(content)| > maxLength && maxLength >= 3 ==> |title| == maxLength
    ensures '\n' !in title
  {
    var cleaned := CleanTitle(content);
    if |cleaned| <= maxLength then cleaned
    else
      var head := Substring(cleaned, maxLength - 3);
      NoNewlineInSlice(cleaned, 0, |head|);
      assert head == cleaned[0..|head|];
      head + "..."
  }

  /** A title is never longer than the limit when the limit is at least 3, and a short title is
      kept whole. */
  lemma TitleFits(content: string, maxLength: int)
    requires maxLength >= 3
    ensures |GenerateTitle(content, maxLength)| <= maxLength
    ensures GenerateTitle(content, maxLength) <= CleanTitle(content) || |CleanTitle(content)| > maxLength
  {
  }

  /** The fields a caller may update, each optional. */
  datatype ConversationUpdates = ConversationUpdates(title: Option<string>, isPinned: Option<bool>)

  datatype Column = TitleColumn(title: string) | PinnedColumn(pinned: bool)

  /** The `updateData` object of updateConversation (lines 93-95): only defined fields are sent,
      `isPinned` under the column name `is_pinned`. */
  method UpdateData(updates: ConversationUpdates) returns (data: map<string, Column>)
    ensures data.Keys <= {"title", "is_pinned"}
    ensures "title" in data <==> updates.title.Some?
    ensures "is_pinned" in data <==> updates.isPinned.Some?
    ensures "title" in data ==> data["title"] == TitleColumn(updates.title.value)
    ensures "is_pinned" in data ==> data["is_pinned"] == PinnedColumn(updates.isPinned.value)
  {
    data := map[];
    if updates.title.Some? {
      data := data["title" := TitleColumn(updates.title.value)];
    }
    if updates.isPinned.Some? {
      data := data["is_pinned" := PinnedColumn(updates.isPinned.value)];
    }
  }

  datatype NewConversationRow = NewConversationRow(userId: string, title: string, isPinned: bool)

  /** The row createConversation inserts (lines 46-60). */
  function NewConversation(userId: string, title: Option<string>): (row: NewConversationRow)
    ensures row.userId == userId && !row.isPinned
    ensures row.title == if title.Some? then title.value else DefaultConversationTitle
  {
    NewConversationRow(userId, title.GetOr(DefaultConversationTitle), false)
  }
}
