/**
 * The per-message menu: which actions it offers for a message's role and
 * position, and its small open / editing / edit-text state machine.
 */
module MessageMenu {
  import opened Wrappers
  import opened Strings
  import opened Messages

  datatype Action = Copy | Edit | Delete | Regenerate

  /**
   * The menu's props: its message and index, whether the list supplied the
   * optional onEdit and onRegenerate handlers, and the role and position
   * flags the list computes.
   */
  datatype MenuProps = MenuProps(
    message: Message,
    messageIndex: nat,
    hasOnEdit: bool,
    hasOnRegenerate: bool,
    isUserMessage: bool,
    isLastMessage: bool)

  /**
   * The capability table: Copy and Delete always; Edit for a user message
   * when onEdit is supplied; Regenerate for the last message when it is not
   * a user message and onRegenerate is supplied.
   */
  function Offered(p: MenuProps): (acts: set<Action>)
    ensures Copy in acts && Delete in acts
    ensures Edit in acts <==> p.isUserMessage && p.hasOnEdit
    ensures Regenerate in acts <==> !p.isUserMessage && p.isLastMessage && p.hasOnRegenerate
  {
    {Copy, Delete}
      + (if p.isUserMessage && p.hasOnEdit then {Edit} else {})
      + (if !p.isUserMessage && p.isLastMessage && p.hasOnRegenerate then {Regenerate} else {})
  }

  /** The props the message list gives the menu of message `i` of `ms`. */
  function PropsInList(ms: seq<Message>, i: nat, hasOnEdit: bool, hasOnRegenerate: bool): (p: MenuProps)
    requires i < |ms|
    ensures p.message == ms[i] && p.messageIndex == i
    ensures p.isUserMessage <==> ms[i].role == User
    ensures p.isLastMessage <==> i == |ms| - 1
  {
    MenuProps(ms[i], i, hasOnEdit, hasOnRegenerate, ms[i].role == User, i == |ms| - 1)
  }

  /**
   * In a transcript whose list supplies both handlers, Regenerate is offered
   * exactly on the last message when that is an assistant message, so at
   * most one message offers it; Edit is offered exactly on user messages.
   */
  lemma OfferedInList(ms: seq<Message>, i: nat)
    requires i < |ms|
    ensures Regenerate in Offered(PropsInList(ms, i, true, true)) <==> i == |ms| - 1 && ms[i].role == Assistant
    ensures Edit in Offered(PropsInList(ms, i, true, true)) <==> ms[i].role == User
    ensures Edit in Offered(PropsInList(ms, i, true, true)) ==> Regenerate !in Offered(PropsInList(ms, i, true, true))
  {
  }

  /** What handleSaveEdit passes to onEdit. */
  datatype EditRequest = EditRequest(index: nat, content: string)

  /**
   * handleSaveEdit's call: onEdit gets the menu's index and the trimmed text,
   * and only when onEdit is supplied and the text is not all whitespace.
   */
  function SavedEdit(p: MenuProps, editContent: string): (r: Option<EditRequest>)
    ensures r.Some? <==> p.hasOnEdit && !AllWhitespace(editContent)
    ensures r.Some? ==> r.value.index == p.messageIndex && r.value.content == Trim(editContent)
    ensures r.Some? ==> r.value.content != "" && !IsWhitespace(r.value.content[0])
                        && !IsWhitespace(r.value.content[|r.value.content| - 1])
  {
    var trimmed := Trim(editContent);
    if p.hasOnEdit && trimmed != "" then Some(EditRequest(p.messageIndex, trimmed)) else None
  }

  class MessageMenu {
    /** The current props; React keeps the state below when the props change. */
    var props: MenuProps
    var isOpen: bool
    var isEditing: bool
    var editContent: string

    constructor (props: MenuProps)
      ensures this.props == props
      ensures !isOpen && !isEditing && editContent == props.message.content
    {
      this.props := props;
      isOpen := false;
      isEditing := false;
      editContent := props.message.content;
    }

    /** The inline editor replaces the menu only when editing a user message. */
    function EditPanelShown(): (shown: bool)
      reads this
      ensures shown <==> isEditing && props.isUserMessage
    {
      isEditing && props.isUserMessage
    }

    /** The actions on screen: the offered ones while the menu is open and the editor is not shown. */
    function Visible(): (acts: set<Action>)
      reads this
      ensures isOpen && !EditPanelShown() ==> acts == Offered(props)
      ensures !isOpen || EditPanelShown() ==> acts == {}
    {
      if isOpen && !EditPanelShown() then Offered(props) else {}
    }

    /** A re-render with new props keeps the open, editing and edit-text state. */
    method Rerender(p: MenuProps)
      modifies this
      ensures props == p
      ensures isOpen == old(isOpen) && isEditing == old(isEditing) && editContent == old(editContent)
    {
      props := p;
    }

    /** The menu button flips the menu open or closed. */
    method Toggle()
      modifies this
      ensures isOpen == !old(isOpen)
      ensures props == old(props) && isEditing == old(isEditing) && editContent == old(editContent)
    {
      isOpen := !isOpen;
    }

    /** A mouse-down outside the open menu closes it. */
    method ClickOutside()
      modifies this
      ensures !isOpen
      ensures props == old(props) && isEditing == old(isEditing) && editContent == old(editContent)
    {
      isOpen := false;
    }

    /** handleCopy: hands the message to onCopy and closes the menu. */
    method HandleCopy() returns (copied: Message)
      modifies this
      ensures copied == props.message && !isOpen
      ensures props == old(props) && isEditing == old(isEditing) && editContent == old(editContent)
    {
      copied := props.message;
      isOpen := false;
    }

    /** handleEdit: enters editing mode and closes the menu. */
    method HandleEdit()
      modifies this
      ensures isEditing && !isOpen
      ensures props == old(props) && editContent == old(editContent)
    {
      isEditing := true;
      isOpen := false;
    }

    /** Typing in the editor. */
    method ChangeEditContent(text: string)
      modifies this
      ensures editContent == text
      ensures props == old(props) && isOpen == old(isOpen) && isEditing == old(isEditing)
    {
      editContent := text;
    }

    /**
     * handleSaveEdit: reports SavedEdit of the current text (nothing for blank
     * text) and leaves editing mode either way; the text itself is kept.
     */
    method HandleSaveEdit() returns (edit: Option<EditRequest>)
      modifies this
      ensures edit == SavedEdit(props, editContent)
      ensures !isEditing
      ensures props == old(props) && isOpen == old(isOpen) && editContent == old(editContent)
    {
      edit := SavedEdit(props, editContent);
      isEditing := false;
    }

    /** handleCancelEdit: restores the message's content and leaves editing mode. */
    method HandleCancelEdit()
      modifies this
      ensures editContent == props.message.content && !isEditing
      ensures props == old(props) && isOpen == old(isOpen)
    {
      editContent := props.message.content;
      isEditing := false;
    }

    /**
     * handleDelete: reports the index to onDelete only when the user confirms
     * the dialog; the menu closes in both cases.
     */
    method HandleDelete(confirmed: bool) returns (deleted: Option<nat>)
      modifies this
      ensures deleted == if confirmed then Some(props.messageIndex) else None
      ensures !isOpen
      ensures props == old(props) && isEditing == old(isEditing) && editContent == old(editContent)
    {
      deleted := None;
      if confirmed {
        deleted := Some(props.messageIndex);
      }
      isOpen := false;
    }

    /** handleRegenerate: reports the index when onRegenerate is supplied and closes the menu. */
    method HandleRegenerate() returns (regenerate: Option<nat>)
      modifies this
      ensures regenerate == if props.hasOnRegenerate then Some(props.messageIndex) else None
      ensures !isOpen
      ensures props == old(props) && isEditing == old(isEditing) && editContent == old(editContent)
    {
      regenerate := None;
      if props.hasOnRegenerate {
        regenerate := Some(props.messageIndex);
      }
      isOpen := false;
    }
  }
}
