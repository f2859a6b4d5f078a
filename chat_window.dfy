/**
 * The chat view's message-lifecycle controller: the transcript and the other
 * pieces of view state, the four message handlers (send, edit, delete,
 * regenerate), error dismissal and the input gate, and how each handler
 * persists the transcript through the repository.
 *
 * The remote chat call is an oracle: each asynchronous handler is split into
 * a Begin step, which returns what the handler's closure captured, and a
 * Complete step, which takes that capture and the call's Outcome.
 */
module ChatWindow {
  import opened Wrappers
  import opened Strings
  import opened Messages
  import opened ConversationStorage

  /**
   * How the remote call ended: an answer and the conversation id the service
   * returned (if any), or a thrown failure. A failure carries the thrown
   * Error's message, or None when the thrown value was not an Error.
   */
  datatype Outcome =
    | Answered(answer: string, replyConversationId: Option<string>)
    | Failed(message: Option<string>)

  const FallbackErrorText: string := "申し訳ございません。エラーが発生しました。"
  const ErrorPrefix: string := "エラー: "

  /** `error instanceof Error ? error.message : <fallback>`. */
  function ErrorText(message: Option<string>): (text: string)
    ensures message.Some? ==> text == message.value
    ensures message.None? ==> text == FallbackErrorText
  {
    message.GetOr(FallbackErrorText)
  }

  /**
   * Readings a handler takes from the browser: `Date.now()` for a new id
   * (`idTime`), for a new record's `createdAt` (`created`) and inside
   * saveConversation (`saved`); the random id suffix; and whether
   * localStorage accepts writes.
   */
  datatype Env = Env(idTime: nat, suffix: string, created: nat, saved: nat, writeOk: bool)

  /** The request handed to the remote call: query text, conversation id, image. */
  datatype Request = Request(query: string, conversationId: Option<string>, image: Option<ImageFile>)

  /** What handleSendMessage has captured when it awaits the remote call. */
  datatype SendCall = SendCall(
    updated: seq<Message>,
    conversationId: Option<string>,
    currentConvId: Option<string>,
    request: Request)

  /** What handleRegenerateMessage has captured when it awaits the remote call. */
  datatype RegenCall = RegenCall(
    truncated: seq<Message>,
    conversationId: Option<string>,
    currentConvId: Option<string>,
    request: Request)

  /** Which record a handler writes: the stored one, a new one under the current id, or a fresh one. */
  datatype Target = Existing(record: Conversation) | Recreate(id: string) | Fresh

  function Min(a: nat, b: nat): nat { if a <= b then a else b }

  /**
   * The user turn handleSendMessage appends: the typed text, or the image
   * prompt when the text is empty and an image is attached; the preview URL
   * only when there is an image.
   */
  function UserTurn(content: string, image: Option<ImageFile>, previewUrl: string): (m: Message)
    ensures m.role == User
    ensures content != "" ==> m.content == content
    ensures content == "" ==> m.content == if image.Some? then AnalyzeImagePrompt else ""
    ensures m.imageUrl.Some? <==> image.Some?
  {
    Message(User,
      if content != "" then content else if image.Some? then AnalyzeImagePrompt else "",
      if image.Some? then Some(previewUrl) else None)
  }

  /** `conversationId || undefined`: the id is forwarded only when it is non-empty. */
  function ForwardedId(conversationId: Option<string>): (r: Option<string>)
    ensures r.Some? ==> Truthy(r) && r == conversationId
    ensures Truthy(conversationId) ==> r == conversationId
  {
    if Truthy(conversationId) then conversationId else None
  }

  /**
   * The conversation id a successful call leaves: the reply's id is adopted
   * only when none is held yet; a held id is never replaced.
   */
  function AdoptedId(held: Option<string>, reply: Option<string>): (r: Option<string>)
    ensures Truthy(held) ==> r == held
    ensures r == held || (r == reply && Truthy(reply) && !Truthy(held))
    ensures Truthy(r) <==> Truthy(held) || Truthy(reply)
  {
    if Truthy(reply) && !Truthy(held) then reply else held
  }

  /**
   * The conversation id is set at most once: once a non-empty id is held,
   * no later reply, whatever it carries, replaces it.
   */
  lemma AdoptedOnce(held: Option<string>, first: Option<string>, later: Option<string>)
    requires Truthy(AdoptedId(held, first))
    ensures AdoptedId(AdoptedId(held, first), later) == AdoptedId(held, first)
  {
  }

  /** `getConversation(currentConvId)` behind an `if (currentConvId)` test. */
  function TargetFor(currentConvId: Option<string>, stored: seq<Conversation>): (t: Target)
    ensures t.Fresh? <==> !Truthy(currentConvId)
    ensures t.Existing? <==> Truthy(currentConvId) && Lookup(stored, currentConvId.value).Some?
    ensures t.Existing? ==> Some(t.record) == Lookup(stored, currentConvId.value) && t.record.id == currentConvId.value
    ensures t.Recreate? ==> t.id == currentConvId.value && Lookup(stored, t.id) == None
  {
    if Truthy(currentConvId) then
      match Lookup(stored, currentConvId.value)
      case Some(existing) => Existing(existing)
      case None => Recreate(currentConvId.value)
    else Fresh
  }

  /**
   * The record a successful send saves: the stored record spread (keeping its
   * id and createdAt), or a new one, always with the new transcript, the
   * adopted conversation id and a recomputed title.
   */
  function SuccessRecord(t: Target, ms: seq<Message>, conversationId: Option<string>, env: Env): (c: Conversation)
    ensures c.messages == ms && c.conversationId == conversationId && c.title == GenerateTitle(ms)
    ensures t.Existing? ==> c.id == t.record.id && c.createdAt == t.record.createdAt
    ensures t.Recreate? ==> c.id == t.id && c.createdAt == env.created
    ensures t.Fresh? ==> c.id == NewId(env.idTime, env.suffix) && c.createdAt == env.created
  {
    match t
    case Existing(existing) =>
      existing.(messages := ms, conversationId := conversationId, title := GenerateTitle(ms), updatedAt := env.saved)
    case Recreate(id) =>
      CreateNewConversation(env.idTime, env.suffix, env.created, env.created)
        .(id := id, messages := ms, conversationId := conversationId, title := GenerateTitle(ms))
    case Fresh =>
      CreateNewConversation(env.idTime, env.suffix, env.created, env.created)
        .(messages := ms, conversationId := conversationId, title := GenerateTitle(ms))
  }

  /**
   * The record a failed send saves: the stored record with only its
   * transcript replaced (title and conversation id kept), or a new record
   * with a computed title and no conversation id.
   */
  function FailureRecord(t: Target, ms: seq<Message>, env: Env): (c: Conversation)
    ensures c.messages == ms
    ensures t.Existing? ==> c == t.record.(messages := ms, updatedAt := env.saved)
    ensures !t.Existing? ==> c.title == GenerateTitle(ms) && c.conversationId == None && c.createdAt == env.created
    ensures t.Recreate? ==> c.id == t.id
    ensures t.Fresh? ==> c.id == NewId(env.idTime, env.suffix)
  {
    match t
    case Existing(existing) => existing.(messages := ms, updatedAt := env.saved)
    case Recreate(id) =>
      CreateNewConversation(env.idTime, env.suffix, env.created, env.created)
        .(id := id, messages := ms, title := GenerateTitle(ms))
    case Fresh =>
      CreateNewConversation(env.idTime, env.suffix, env.created, env.created)
        .(messages := ms, title := GenerateTitle(ms))
  }

  /**
   * The transcript after editing message `i`: only its content changes; its
   * role and image stay, and so do length and every other message.
   */
  function WithContent(ms: seq<Message>, i: nat, text: string): (r: seq<Message>)
    requires i < |ms|
    ensures |r| == |ms|
    ensures r[i].role == ms[i].role && r[i].imageUrl == ms[i].imageUrl && r[i].content == text
    ensures forall j :: 0 <= j < |ms| && j != i ==> r[j] == ms[j]
  {
    ms[i := ms[i].(content := text)]
  }

  /**
   * `ms.filter((_, index) => index !== i)`: exactly message `i` is removed
   * and the others keep their order; an index past the end removes nothing.
   */
  function RemoveAt(ms: seq<Message>, i: nat): (r: seq<Message>)
    ensures i < |ms| ==> r == ms[..i] + ms[i + 1..]
    ensures i >= |ms| ==> r == ms
    decreases |ms|
  {
    if |ms| == 0 then []
    else if i == 0 then ms[1..]
    else [ms[0]] + RemoveAt(ms[1..], i - 1)
  }

  /** Removal takes out exactly one element and shifts the later ones down by one. */
  lemma RemoveAtShifts(ms: seq<Message>, i: nat)
    requires i < |ms|
    ensures |RemoveAt(ms, i)| == |ms| - 1
    ensures forall j :: 0 <= j < i ==> RemoveAt(ms, i)[j] == ms[j]
    ensures forall j :: i <= j < |ms| - 1 ==> RemoveAt(ms, i)[j] == ms[j + 1]
  {
  }

  class ChatWindow {
    var messages: seq<Message>
    var isLoading: bool
    var conversationId: Option<string>
    var error: Option<string>
    var currentConvId: Option<string>
    /** The browser's localStorage, shared with the rest of the page. */
    const store: Store

    constructor (store: Store)
      ensures this.store == store
      ensures messages == [] && !isLoading && conversationId == None && error == None && currentConvId == None
    {
      this.store := store;
      messages := [];
      isLoading := false;
      conversationId := None;
      error := None;
      currentConvId := None;
    }

    /** The message input is disabled while a call is in flight or an error is shown. */
    function InputDisabled(): (disabled: bool)
      reads this
      ensures !disabled <==> !isLoading && (error.None? || error == Some(""))
    {
      isLoading || Truthy(error)
    }

    /** The banner's close button: the only way `error` goes back to null. */
    method DismissError()
      modifies this
      ensures error == None
      ensures messages == old(messages) && isLoading == old(isLoading)
      ensures conversationId == old(conversationId) && currentConvId == old(currentConvId)
    {
      error := None;
    }

    /**
     * The effect of a new `currentConversation` prop: the transcript, the
     * conversation id and the current id come from the selected record (or
     * are cleared), and the store's pointer follows.
     */
    method Load(selected: Option<Conversation>, writeOk: bool)
      modifies this, store
      ensures selected.Some? ==>
        && messages == selected.value.messages
        && conversationId == selected.value.conversationId
        && currentConvId == Some(selected.value.id)
        && store.pointer == if selected.value.id == "" then None
                            else if writeOk then Some(selected.value.id) else old(store.pointer)
      ensures selected.None? ==>
        messages == [] && conversationId == None && currentConvId == None && store.pointer == None
      ensures isLoading == old(isLoading) && error == old(error)
      ensures store.list == old(store.list)
    {
      match selected {
        case Some(c) =>
          messages := c.messages;
          conversationId := c.conversationId;
          currentConvId := Some(c.id);
          store.SetCurrentId(Some(c.id), writeOk);
        case None =>
          messages := [];
          conversationId := None;
          currentConvId := None;
          store.SetCurrentId(None, writeOk);
      }
    }

    /**
     * handleSendMessage up to the remote call: the user turn is appended, the
     * error is cleared and loading starts. The request carries the text as
     * given, the held conversation id when non-empty, and the image.
     */
    method BeginSend(content: string, image: Option<ImageFile>, previewUrl: string) returns (call: SendCall)
      modifies this
      ensures messages == old(messages) + [UserTurn(content, image, previewUrl)]
      ensures error == None && isLoading
      ensures conversationId == old(conversationId) && currentConvId == old(currentConvId)
      ensures call == SendCall(messages, old(conversationId), old(currentConvId),
                               Request(content, ForwardedId(old(conversationId)), image))
    {
      var userMessage := UserTurn(content, image, previewUrl);
      var updatedMessages := messages + [userMessage];
      messages := updatedMessages;
      error := None;
      isLoading := true;
      call := SendCall(updatedMessages, conversationId, currentConvId,
                       Request(content, ForwardedId(conversationId), image));
    }

    /**
     * handleSendMessage after the remote call. On an answer: exactly one
     * assistant turn with the answer follows the captured transcript, and the
     * reply's conversation id is adopted only when the captured one was
     * empty. On a failure: one assistant turn with the error text follows, and
     * the error is shown. Either way the record chosen by TargetFor is saved
     * (a fresh record also becomes the current one) and reported as
     * `notified`, and loading ends.
     */
    method CompleteSend(call: SendCall, outcome: Outcome, env: Env) returns (notified: Conversation)
      modifies this, store
      ensures !isLoading
      ensures outcome.Answered? ==>
        && messages == call.updated + [Message(Assistant, outcome.answer, None)]
        && error == old(error)
        && conversationId == (if Truthy(outcome.replyConversationId) && !Truthy(call.conversationId)
                              then outcome.replyConversationId else old(conversationId))
      ensures outcome.Failed? ==>
        && messages == call.updated + [Message(Assistant, ErrorPrefix + ErrorText(outcome.message), None)]
        && error == Some(ErrorText(outcome.message))
        && conversationId == old(conversationId)
      ensures Truthy(old(conversationId)) && old(conversationId) == call.conversationId ==>
        conversationId == old(conversationId)
      ensures var t := TargetFor(call.currentConvId, old(store.All()));
        && notified == (match outcome
                        case Answered(_, reply) => SuccessRecord(t, messages, AdoptedId(call.conversationId, reply), env)
                        case Failed(_) => FailureRecord(t, messages, env)).(updatedAt := env.saved)
        && store.list == (if env.writeOk then Stored(Upsert(old(store.All()), notified)) else old(store.list))
        && (t.Fresh? ==> currentConvId == Some(notified.id)
                         && store.pointer == if env.writeOk then Some(notified.id) else old(store.pointer))
        && (!t.Fresh? ==> currentConvId == old(currentConvId) && store.pointer == old(store.pointer))
      ensures notified.messages == messages
      ensures env.writeOk ==> store.Get(notified.id) == Some(notified)
    {
      var t := TargetFor(call.currentConvId, store.All());
      var conv: Conversation;
      match outcome {
        case Answered(answer, reply) =>
          var finalMessages := call.updated + [Message(Assistant, answer, None)];
          messages := finalMessages;
          var finalConversationId := call.conversationId;
          if Truthy(reply) && !Truthy(call.conversationId) {
            finalConversationId := reply;
            conversationId := reply;
          }
          conv := SuccessRecord(t, finalMessages, finalConversationId, env);
        case Failed(message) =>
          var errorMessage := ErrorText(message);
          error := Some(errorMessage);
          var finalMessages := call.updated + [Message(Assistant, ErrorPrefix + errorMessage, None)];
          messages := finalMessages;
          conv := FailureRecord(t, finalMessages, env);
      }
      if t.Fresh? {
        currentConvId := Some(conv.id);
        store.SetCurrentId(Some(conv.id), env.writeOk);
      }
      notified := store.Save(conv, env.saved, env.writeOk);
      isLoading := false;
    }

    /**
     * handleEditMessage: only the content of message `i` changes. The edit is
     * saved, without recomputing the title, only when the current record is
     * stored.
     */
    method EditMessage(i: nat, newContent: string, env: Env) returns (notified: Option<Conversation>)
      requires i < |messages|
      modifies this, store
      ensures messages == WithContent(old(messages), i, newContent)
      ensures isLoading == old(isLoading) && error == old(error)
      ensures conversationId == old(conversationId) && currentConvId == old(currentConvId)
      ensures store.pointer == old(store.pointer)
      ensures var t := TargetFor(currentConvId, old(store.All()));
        if t.Existing? then
          && notified == Some(t.record.(messages := messages, updatedAt := env.saved))
          && store.list == (if env.writeOk then Stored(Upsert(old(store.All()), notified.value)) else old(store.list))
        else notified == None && store.list == old(store.list)
    {
      var updatedMessages := WithContent(messages, i, newContent);
      messages := updatedMessages;
      notified := None;
      match TargetFor(currentConvId, store.All()) {
        case Existing(existing) =>
          var conv := existing.(messages := updatedMessages, updatedAt := env.saved);
          var saved := store.Save(conv, env.saved, env.writeOk);
          notified := Some(saved);
        case _ =>
      }
    }

    /**
     * handleDeleteMessage: exactly message `i` is removed, nothing after it;
     * when the current record is stored it is saved with a recomputed title.
     */
    method DeleteMessage(i: nat, env: Env) returns (notified: Option<Conversation>)
      modifies this, store
      ensures messages == RemoveAt(old(messages), i)
      ensures isLoading == old(isLoading) && error == old(error)
      ensures conversationId == old(conversationId) && currentConvId == old(currentConvId)
      ensures store.pointer == old(store.pointer)
      ensures var t := TargetFor(currentConvId, old(store.All()));
        if t.Existing? then
          && notified == Some(t.record.(messages := messages, title := GenerateTitle(messages), updatedAt := env.saved))
          && store.list == (if env.writeOk then Stored(Upsert(old(store.All()), notified.value)) else old(store.list))
        else notified == None && store.list == old(store.list)
    {
      var updatedMessages := RemoveAt(messages, i);
      messages := updatedMessages;
      notified := None;
      match TargetFor(currentConvId, store.All()) {
        case Existing(existing) =>
          var conv := existing.(messages := updatedMessages, title := GenerateTitle(updatedMessages), updatedAt := env.saved);
          var saved := store.Save(conv, env.saved, env.writeOk);
          notified := Some(saved);
        case _ =>
      }
    }

    /**
     * handleRegenerateMessage up to the remote call. Without a user message
     * before index `i` nothing happens. Otherwise the transcript is cut to the
     * messages before `i`, the error is cleared, loading starts, and the last
     * user message before `i` is resent as text only.
     */
    method BeginRegenerate(i: nat) returns (call: Option<RegenCall>)
      modifies this
      ensures var before := old(messages)[..Min(i, |old(messages)|)];
        var k := LastUserIndex(before);
        && (k == -1 ==> call == None && messages == old(messages)
                        && isLoading == old(isLoading) && error == old(error))
        && (k >= 0 ==> && call == Some(RegenCall(before, old(conversationId), old(currentConvId),
                                                 Request(before[k].content, ForwardedId(old(conversationId)), None)))
                       && messages == before && isLoading && error == None)
      ensures conversationId == old(conversationId) && currentConvId == old(currentConvId)
    {
      var messagesBefore := messages[..Min(i, |messages|)];
      var reversed := Reverse(messagesBefore);
      var f := FirstUserIndex(reversed);
      FindInReversedIsLastUser(messagesBefore);
      if f < 0 {
        return None;
      }
      var lastUserMessage := reversed[f];
      messages := messagesBefore;
      isLoading := true;
      error := None;
      call := Some(RegenCall(messagesBefore, conversationId, currentConvId,
                             Request(lastUserMessage.content, ForwardedId(conversationId), None)));
    }

    /**
     * handleRegenerateMessage after the remote call. On an answer: one
     * assistant turn follows the captured truncated transcript, the reply's
     * id is adopted as in a send, and the stored record (if any) is saved
     * without a new title. On a failure: only the error is set; the
     * transcript stays as it is and nothing is saved.
     */
    method CompleteRegenerate(call: RegenCall, outcome: Outcome, env: Env) returns (notified: Option<Conversation>)
      modifies this, store
      ensures !isLoading
      ensures currentConvId == old(currentConvId) && store.pointer == old(store.pointer)
      ensures outcome.Failed? ==>
        && error == Some(ErrorText(outcome.message))
        && messages == old(messages) && conversationId == old(conversationId)
        && notified == None && store.list == old(store.list)
      ensures outcome.Answered? ==>
        && messages == call.truncated + [Message(Assistant, outcome.answer, None)]
        && error == old(error)
        && conversationId == (if Truthy(outcome.replyConversationId) && !Truthy(call.conversationId)
                              then outcome.replyConversationId else old(conversationId))
        && var t := TargetFor(call.currentConvId, old(store.All()));
           if t.Existing? then
             && notified == Some(t.record.(messages := messages,
                                          conversationId := AdoptedId(call.conversationId, outcome.replyConversationId),
                                          updatedAt := env.saved))
             && store.list == (if env.writeOk then Stored(Upsert(old(store.All()), notified.value)) else old(store.list))
           else notified == None && store.list == old(store.list)
    {
      notified := None;
      match outcome {
        case Answered(answer, reply) =>
          var finalMessages := call.truncated + [Message(Assistant, answer, None)];
          messages := finalMessages;
          var finalConversationId := call.conversationId;
          if Truthy(reply) && !Truthy(call.conversationId) {
            finalConversationId := reply;
            conversationId := reply;
          }
          match TargetFor(call.currentConvId, store.All()) {
            case Existing(existing) =>
              var conv := existing.(messages := finalMessages, conversationId := finalConversationId, updatedAt := env.saved);
              var saved := store.Save(conv, env.saved, env.writeOk);
              notified := Some(saved);
            case _ =>
          }
        case Failed(message) =>
          error := Some(ErrorText(message));
      }
      isLoading := false;
    }
  }
}
