/**
 * How the chat view wires its parts together: the input box sends through
 * handleSendMessage under the view's disabled flag, and each message's menu
 * calls the edit, delete and regenerate handlers with its own index. Also
 * two end-to-end scenarios of a send.
 */
module ChatView {
  import opened Wrappers
  import opened Strings
  import opened Messages
  import opened ConversationStorage
  import opened ChatWindow
  import opened MessageMenu
  import opened MessageInput

  /** The input box never passes empty text on, so the window's own fallback text is never used. */
  lemma SentTextIsKept(input: string, image: Option<ImageFile>, previewUrl: string)
    ensures UserTurn(OutgoingText(input), image, previewUrl).content == OutgoingText(input)
  {
  }

  /**
   * A send from the input box: nothing at all happens while the view is
   * disabled; otherwise the transcript grows by exactly the user turn with
   * the sent text and one assistant turn (the answer or the error text),
   * and the earlier turns are untouched.
   */
  method Submit(w: ChatWindow, box: MessageInput, previewUrl: string, outcome: Outcome, env: Env)
    returns (sent: Option<Outgoing>)
    modifies w, w.store, box
    ensures old(w.InputDisabled()) ==>
      && sent == None && w.messages == old(w.messages) && w.error == old(w.error)
      && box.input == old(box.input) && box.selectedImage == old(box.selectedImage)
      && w.store.list == old(w.store.list)
    ensures sent.Some? ==>
      && sent.value.text != ""
      && |w.messages| == |old(w.messages)| + 2
      && w.messages[..|old(w.messages)|] == old(w.messages)
      && w.messages[|old(w.messages)|] == UserTurn(sent.value.text, sent.value.image, previewUrl)
      && w.messages[|old(w.messages)|].content == sent.value.text
      && w.messages[|old(w.messages)| + 1].role == Assistant
      && !w.isLoading
    ensures sent.Some? && outcome.Answered? ==>
      w.messages[|old(w.messages)| + 1] == Message(Assistant, outcome.answer, None)
    ensures sent.Some? && outcome.Failed? ==>
      w.error == Some(ErrorText(outcome.message))
  {
    sent := box.HandleSend(w.InputDisabled());
    if sent.Some? {
      var call := w.BeginSend(sent.value.text, sent.value.image, previewUrl);
      var _ := w.CompleteSend(call, outcome, env);
      assert w.messages[..|old(w.messages)|] == old(w.messages);
    }
  }

  /** The menu's save button on message `i`: edits that message's content only when the trimmed text is non-empty. */
  method SaveEditFromMenu(w: ChatWindow, menu: MessageMenu, env: Env) returns (edit: Option<EditRequest>)
    requires menu.props.messageIndex < |w.messages|
    requires menu.props == PropsInList(w.messages, menu.props.messageIndex, true, true)
    modifies w, w.store, menu
    ensures edit == SavedEdit(old(menu.props), old(menu.editContent))
    ensures edit.Some? ==>
      w.messages == WithContent(old(w.messages), edit.value.index, Trim(old(menu.editContent)))
    ensures edit.None? ==> w.messages == old(w.messages)
    ensures |w.messages| == |old(w.messages)| && !menu.isEditing
  {
    edit := menu.HandleSaveEdit();
    if edit.Some? {
      var _ := w.EditMessage(edit.value.index, edit.value.content, env);
    }
  }

  /** The menu's delete button: removes exactly its message when confirmed, nothing otherwise. */
  method DeleteFromMenu(w: ChatWindow, menu: MessageMenu, confirmed: bool, env: Env) returns (deleted: Option<nat>)
    requires menu.props.messageIndex < |w.messages|
    modifies w, w.store, menu
    ensures confirmed ==>
      && |w.messages| == |old(w.messages)| - 1
      && w.messages == old(w.messages)[..old(menu.props.messageIndex)] + old(w.messages)[old(menu.props.messageIndex) + 1..]
    ensures !confirmed ==> w.messages == old(w.messages) && w.store.list == old(w.store.list)
    ensures !menu.isOpen
  {
    deleted := menu.HandleDelete(confirmed);
    if deleted.Some? {
      var _ := w.DeleteMessage(deleted.value, env);
    }
  }

  /**
   * Regeneration at index `i` (clamped to the transcript's length n): without
   * a user message before it nothing changes; otherwise the transcript is cut
   * to its first min(i, n) messages, and an answer makes it one longer.
   */
  method RegenerateAt(w: ChatWindow, i: nat, outcome: Outcome, env: Env) returns (started: bool)
    modifies w, w.store
    ensures var n := Min(i, |old(w.messages)|);
      && (started <==> LastUserIndex(old(w.messages)[..n]) >= 0)
      && (!started ==> w.messages == old(w.messages))
      && (started && outcome.Answered? ==>
            && |w.messages| == n + 1
            && w.messages[..n] == old(w.messages)[..n]
            && w.messages[n] == Message(Assistant, outcome.answer, None))
      && (started && outcome.Failed? ==>
            w.messages == old(w.messages)[..n] && w.error == Some(ErrorText(outcome.message)))
  {
    var call := w.BeginRegenerate(i);
    started := call.Some?;
    if started {
      var _ := w.CompleteRegenerate(call.value, outcome, env);
      assert w.messages[..Min(i, |old(w.messages)|)] == call.value.truncated;
    }
  }

  /**
   * The Regenerate button, which is visible only on the last message when it
   * is an assistant message. When a user message precedes it, the answer
   * takes that message's place: the transcript keeps its length and every
   * earlier turn, and a failure leaves the transcript one shorter.
   */
  method RegenerateFromMenu(w: ChatWindow, menu: MessageMenu, outcome: Outcome, env: Env)
    returns (started: bool)
    requires menu.props.messageIndex < |w.messages|
    requires menu.props == PropsInList(w.messages, menu.props.messageIndex, true, true)
    requires Regenerate in menu.Visible()
    modifies w, w.store, menu
    ensures menu.props.messageIndex == |old(w.messages)| - 1 && old(w.messages)[menu.props.messageIndex].role == Assistant
    ensures started <==> LastUserIndex(old(w.messages)[..menu.props.messageIndex]) >= 0
    ensures !started ==> w.messages == old(w.messages)
    ensures started && outcome.Answered? ==>
      && |w.messages| == |old(w.messages)|
      && w.messages[..menu.props.messageIndex] == old(w.messages)[..menu.props.messageIndex]
      && w.messages[menu.props.messageIndex] == Message(Assistant, outcome.answer, None)
    ensures started && outcome.Failed? ==>
      w.messages == old(w.messages)[..menu.props.messageIndex] && w.error == Some(ErrorText(outcome.message))
  {
    OfferedInList(w.messages, menu.props.messageIndex);
    var index := menu.HandleRegenerate();
    started := RegenerateAt(w, index.value, outcome, env);
  }

  /**
   * A first exchange in a new conversation: "Hello" is answered with "Hi" and
   * the id "abc". The saved record holds both turns, the id and the title
   * "Hello", it is the only stored record, and it becomes the current one.
   */
  method HelloScenario() returns (store: Store, saved: Conversation)
    ensures saved.messages == [Message(User, "Hello", None), Message(Assistant, "Hi", None)]
    ensures saved.conversationId == Some("abc") && saved.title == "Hello"
    ensures store.All() == [saved] && store.CurrentId() == Some(saved.id)
  {
    store := new Store(Missing, None);
    var w := new ChatWindow(store);
    var box := new MessageInput();
    box.ChangeInput("Hello");
    assert Trim("Hello") == "Hello" by {
      assert SkipSpace("Hello", 0) == 0;
      assert BackSpace("Hello", 0, 5) == 5;
    }
    var sent := box.HandleSend(w.InputDisabled());
    var call := w.BeginSend(sent.value.text, sent.value.image, "");
    saved := w.CompleteSend(call, Answered("Hi", Some("abc")), Env(1, "k3j9x0q2a", 2, 3, true));
    assert FirstUserIndex(saved.messages) == 0;
  }

  /**
   * A send that fails with "timeout": the record saved anyway holds the user
   * turn and an assistant turn reading "エラー: timeout", and the error blocks
   * further sends until it is dismissed.
   */
  method TimeoutScenario() returns (store: Store, saved: Conversation, disabled: bool)
    ensures saved.messages == [Message(User, "Hello", None), Message(Assistant, ErrorPrefix + "timeout", None)]
    ensures saved.conversationId == None
    ensures store.All() == [saved]
    ensures disabled
  {
    store := new Store(Missing, None);
    var w := new ChatWindow(store);
    var call := w.BeginSend("Hello", None, "");
    saved := w.CompleteSend(call, Failed(Some("timeout")), Env(1, "k3j9x0q2a", 2, 3, true));
    disabled := w.InputDisabled();
  }
}
