/**
 * Conversations between a poster and a volunteer: the conversation
 * serializer's last-message summary and unread count, the send-message
 * field rule, and the admin list's content preview. Timestamps are
 * integers; a conversation's messages are listed in the order the database
 * returns them.
 */
module Chat {
  import opened Wrappers
  import opened Text

  const LAST_MESSAGE_PREVIEW_LENGTH: nat := 100
  const MESSAGE_MAX_LENGTH: nat := 2000
  const ADMIN_PREVIEW_LENGTH: nat := 50
  const ELLIPSIS: string := "..."

  datatype Message = Message(senderUsername: string, content: string, createdAt: int)

  /** The `last_message` object: the newest message's sender and time, and the start of its content. */
  datatype MessagePreview = MessagePreview(content: string, senderUsername: string, createdAt: int)

  datatype ConversationSummary = ConversationSummary(lastMessage: Option<MessagePreview>, unreadCount: nat)

  /**
   * The newest message: the first one in listing order whose time no other
   * message's exceeds.
   */
  function Latest(messages: seq<Message>): (r: Option<Message>)
    ensures r.None? <==> messages == []
    ensures r.Some? ==> r.value in messages
    ensures r.Some? ==> forall i :: 0 <= i < |messages| ==> messages[i].createdAt <= r.value.createdAt
    ensures r.Some? ==>
      exists i ::
        && 0 <= i < |messages| && messages[i] == r.value
        && forall j :: 0 <= j < i ==> messages[j].createdAt < r.value.createdAt
  {
    if messages == [] then None
    else
      var rest := Latest(messages[1..]);
      if rest.Some? && rest.value.createdAt > messages[0].createdAt then
        assert forall k :: 0 <= k < |messages| - 1 ==> messages[1..][k] == messages[k + 1];
        rest
      else Some(messages[0])
  }

  /** The conversation serializer's two computed fields. */
  function Summarize(messages: seq<Message>): (s: ConversationSummary)
    ensures s.unreadCount == 0
    ensures s.lastMessage.None? <==> messages == []
    ensures s.lastMessage.Some? ==>
      exists i :: 0 <= i < |messages|
        && s.lastMessage.value.content == PyPrefix(messages[i].content, LAST_MESSAGE_PREVIEW_LENGTH)
        && s.lastMessage.value.senderUsername == messages[i].senderUsername
        && s.lastMessage.value.createdAt == messages[i].createdAt
        && (forall j :: 0 <= j < |messages| ==> messages[j].createdAt <= messages[i].createdAt)
    ensures s.lastMessage.Some? ==> |s.lastMessage.value.content| <= LAST_MESSAGE_PREVIEW_LENGTH
  {
    var latest := Latest(messages);
    var preview :=
      if latest.Some? then
        Some(MessagePreview(PyPrefix(latest.value.content, LAST_MESSAGE_PREVIEW_LENGTH), latest.value.senderUsername, latest.value.createdAt))
      else None;
    ConversationSummary(preview, 0)
  }

  /** The preview is the first min(100, n) characters of the newest message. */
  lemma LastMessagePrefix(messages: seq<Message>)
    requires messages != []
    ensures var p := Summarize(messages).lastMessage.value;
      && Latest(messages).Some?
      && var m := Latest(messages).value;
      && p.content == m.content[..if |m.content| <= LAST_MESSAGE_PREVIEW_LENGTH then |m.content| else LAST_MESSAGE_PREVIEW_LENGTH]
  {
  }

  /** The send-message rule: stripped, non-blank, at most 2000 characters, no NUL character. */
  function ValidateSendMessage(raw: Option<string>): (r: Result<string, Option<FieldError>>)
    ensures raw.None? ==> r == Failure(None)
    ensures r.Success? <==> raw.Some? && !IsBlank(raw.value) && |Strip(raw.value)| <= MESSAGE_MAX_LENGTH && NulFree(Strip(raw.value))
    ensures r.Success? ==> r.value == Strip(raw.value) && r.value != [] && |r.value| <= MESSAGE_MAX_LENGTH
  {
    if raw.None? then Failure(None)
    else match CharField(raw.value, Some(MESSAGE_MAX_LENGTH))
      case Success(v) => Success(v)
      case Failure(e) => Failure(Some(e))
  }

  /** The admin list's content column. */
  function ContentPreview(content: string): (r: string)
    ensures |content| <= ADMIN_PREVIEW_LENGTH ==> r == content
    ensures |content| > ADMIN_PREVIEW_LENGTH ==>
      |r| == ADMIN_PREVIEW_LENGTH + |ELLIPSIS| && r[..ADMIN_PREVIEW_LENGTH] == content[..ADMIN_PREVIEW_LENGTH]
      && r[ADMIN_PREVIEW_LENGTH..] == ELLIPSIS
    ensures |r| <= ADMIN_PREVIEW_LENGTH + |ELLIPSIS|
    ensures var n := if |content| <= ADMIN_PREVIEW_LENGTH then |content| else ADMIN_PREVIEW_LENGTH;
      n <= |r| && r[..n] == content[..n]
  {
    if |content| > ADMIN_PREVIEW_LENGTH then content[..ADMIN_PREVIEW_LENGTH] + ELLIPSIS else content
  }

  /** Previewing a preview changes nothing. */
  lemma ContentPreviewIdempotent(content: string)
    ensures ContentPreview(ContentPreview(content)) == ContentPreview(content)
  {
    var r := ContentPreview(content);
    if |content| > ADMIN_PREVIEW_LENGTH {
      assert r[..ADMIN_PREVIEW_LENGTH] + ELLIPSIS == r;
    }
  }
}
