/**
 * The conversation repository over the browser's localStorage: the stored
 * list of conversations (most recently created first), the "current
 * conversation" pointer, title derivation and the creation of an empty
 * conversation.
 */
module ConversationStorage {
  import opened Wrappers
  import opened Strings
  import opened Messages

  /** One stored conversation; `conversationId` is the id the chat service assigned. */
  datatype Conversation = Conversation(
    id: string,
    title: string,
    messages: seq<Message>,
    conversationId: Option<string>,
    createdAt: nat,
    updatedAt: nat)

  const NewConversationTitle: string := "新しい会話"
  const ImageOnlyTitle: string := "画像を添付"
  const TitleLength: nat := 30
  const Ellipsis: string := "..."

  /**
   * What localStorage holds under the conversation-list key: nothing (or ""),
   * text that does not parse, or a parsed list. The JSON text itself is not
   * modelled.
   */
  datatype ListSlot = Missing | Unparsable | Stored(items: seq<Conversation>)

  // ---------------------------------------------------------------------------
  // List lookups and updates (the array operations the repository performs)

  /** `cs.findIndex(c => c.id === id)`: the first index holding `id`, or -1. */
  function IndexOfId(cs: seq<Conversation>, id: string): (k: int)
    ensures -1 <= k < |cs|
    ensures k >= 0 ==> cs[k].id == id && forall j :: 0 <= j < k ==> cs[j].id != id
    ensures k == -1 <==> forall j :: 0 <= j < |cs| ==> cs[j].id != id
    decreases |cs|
  {
    if |cs| == 0 then -1
    else if cs[0].id == id then 0
    else
      var k := IndexOfId(cs[1..], id);
      if k == -1 then -1 else k + 1
  }

  /** `cs.find(c => c.id === id) || null`: the first entry with `id`, if any. */
  function Lookup(cs: seq<Conversation>, id: string): (r: Option<Conversation>)
    ensures r.None? <==> forall j :: 0 <= j < |cs| ==> cs[j].id != id
    ensures r.Some? ==> r.value.id == id && r.value in cs
    ensures r.Some? ==> exists k :: 0 <= k < |cs| && cs[k] == r.value && forall j :: 0 <= j < k ==> cs[j].id != id
  {
    var k := IndexOfId(cs, id);
    if k >= 0 then Some(cs[k]) else None
  }

  /** No two entries share an id. */
  predicate UniqueIds(cs: seq<Conversation>) {
    forall i, j :: 0 <= i < j < |cs| ==> cs[i].id != cs[j].id
  }

  /** Number of entries with `id`. */
  function CountId(cs: seq<Conversation>, id: string): nat
    decreases |cs|
  {
    if |cs| == 0 then 0 else (if cs[0].id == id then 1 else 0) + CountId(cs[1..], id)
  }

  /**
   * The list saveConversation writes back: the entry with `c.id` replaced at
   * its index when there is one, otherwise `c` put in front of all others.
   */
  function Upsert(cs: seq<Conversation>, c: Conversation): (r: seq<Conversation>)
    ensures IndexOfId(cs, c.id) >= 0 ==>
      && |r| == |cs|
      && r[IndexOfId(cs, c.id)] == c
      && forall j :: 0 <= j < |cs| && j != IndexOfId(cs, c.id) ==> r[j] == cs[j]
    ensures IndexOfId(cs, c.id) == -1 ==> |r| == |cs| + 1 && r[0] == c && r[1..] == cs
  {
    var k := IndexOfId(cs, c.id);
    if k >= 0 then cs[k := c] else [c] + cs
  }

  /** `cs.filter(c => c.id !== id)`. */
  function WithoutId(cs: seq<Conversation>, id: string): (r: seq<Conversation>)
    ensures |r| <= |cs|
    ensures forall c :: c in r <==> c in cs && c.id != id
    decreases |cs|
  {
    if |cs| == 0 then []
    else if cs[0].id == id then WithoutId(cs[1..], id)
    else [cs[0]] + WithoutId(cs[1..], id)
  }

  // ---------------------------------------------------------------------------
  // Properties of saving

  /** After a save, looking the id up yields exactly the saved record. */
  lemma UpsertThenLookup(cs: seq<Conversation>, c: Conversation)
    ensures Lookup(Upsert(cs, c), c.id) == Some(c)
  {
    var r := Upsert(cs, c);
    var k := IndexOfId(cs, c.id);
    if k >= 0 {
      assert IndexOfId(r, c.id) == k;
    } else {
      assert IndexOfId(r, c.id) == 0;
    }
  }

  /** A save does not change what any other id looks up to. */
  lemma {:induction false} UpsertKeepsOthers(cs: seq<Conversation>, c: Conversation, id: string)
    requires id != c.id
    ensures Lookup(Upsert(cs, c), id) == Lookup(cs, id)
  {
    var r := Upsert(cs, c);
    var k := IndexOfId(cs, c.id);
    var m := IndexOfId(cs, id);
    if k >= 0 {
      if m >= 0 {
        assert r[m] == cs[m];
        assert IndexOfId(r, id) == m;
      } else {
        assert forall j :: 0 <= j < |r| ==> r[j].id != id by {
          forall j | 0 <= j < |r| ensures r[j].id != id {
            if j != k { assert r[j] == cs[j]; }
          }
        }
      }
    } else {
      assert r == [c] + cs;
      assert r[1..] == cs;
      if m >= 0 {
        assert IndexOfId(r, id) == m + 1;
      } else {
        assert IndexOfId(r, id) == -1;
      }
    }
  }

  /** A save keeps ids unique. */
  lemma UpsertKeepsUnique(cs: seq<Conversation>, c: Conversation)
    requires UniqueIds(cs)
    ensures UniqueIds(Upsert(cs, c))
  {
    var r := Upsert(cs, c);
    var k := IndexOfId(cs, c.id);
    if k == -1 {
      forall i, j | 0 <= i < j < |r| ensures r[i].id != r[j].id {
        if i == 0 { assert r[j] == cs[j - 1]; } else { assert r[i] == cs[i - 1] && r[j] == cs[j - 1]; }
      }
    }
  }

  lemma {:induction false} CountZero(cs: seq<Conversation>, id: string)
    ensures CountId(cs, id) == 0 <==> forall j :: 0 <= j < |cs| ==> cs[j].id != id
    decreases |cs|
  {
    if |cs| > 0 {
      CountZero(cs[1..], id);
      assert forall j :: 1 <= j < |cs| ==> cs[j] == cs[1..][j - 1];
    }
  }

  lemma {:induction false} CountReplace(cs: seq<Conversation>, k: nat, c: Conversation, id: string)
    requires k < |cs| && cs[k].id == c.id
    ensures CountId(cs[k := c], id) == CountId(cs, id)
    decreases |cs|
  {
    if k > 0 {
      assert cs[k := c][1..] == cs[1..][k - 1 := c];
      CountReplace(cs[1..], k - 1, c, id);
    } else {
      assert cs[k := c][1..] == cs[1..];
    }
  }

  /**
   * Saving a record whose id occurs at most once leaves exactly one entry
   * with that id, so repeated saves of one conversation never duplicate it.
   */
  lemma UpsertSingleEntry(cs: seq<Conversation>, c: Conversation)
    requires CountId(cs, c.id) <= 1
    ensures CountId(Upsert(cs, c), c.id) == 1
  {
    var k := IndexOfId(cs, c.id);
    if k >= 0 {
      CountReplace(cs, k, c, c.id);
      CountZero(cs, c.id);
    } else {
      CountZero(cs, c.id);
      assert ([c] + cs)[1..] == cs;
    }
  }

  // ---------------------------------------------------------------------------
  // Properties of deleting

  /** Deleting an id no entry has leaves the list as it was. */
  lemma {:induction false} WithoutAbsentId(cs: seq<Conversation>, id: string)
    requires forall j :: 0 <= j < |cs| ==> cs[j].id != id
    ensures WithoutId(cs, id) == cs
    decreases |cs|
  {
    if |cs| > 0 {
      WithoutAbsentId(cs[1..], id);
      assert [cs[0]] + cs[1..] == cs;
    }
  }

  /** Filtering distributes over concatenation: the kept entries stay in order. */
  lemma {:induction false} WithoutIdAppend(a: seq<Conversation>, b: seq<Conversation>, id: string)
    ensures WithoutId(a + b, id) == WithoutId(a, id) + WithoutId(b, id)
    decreases |a|
  {
    if |a| > 0 {
      assert (a + b)[1..] == a[1..] + b;
      WithoutIdAppend(a[1..], b, id);
    } else {
      assert a + b == b;
    }
  }

  /**
   * When ids are unique and `id` sits at index `k`, deleting it removes that
   * one entry and keeps every other entry in its original order.
   */
  lemma WithoutUniqueId(cs: seq<Conversation>, id: string, k: nat)
    requires UniqueIds(cs) && k < |cs| && cs[k].id == id
    ensures WithoutId(cs, id) == cs[..k] + cs[k + 1..]
    ensures |WithoutId(cs, id)| == |cs| - 1
  {
    assert cs == cs[..k] + ([cs[k]] + cs[k + 1..]);
    WithoutIdAppend(cs[..k], [cs[k]] + cs[k + 1..], id);
    WithoutIdAppend([cs[k]], cs[k + 1..], id);
    WithoutAbsentId(cs[..k], id);
    WithoutAbsentId(cs[k + 1..], id);
    assert WithoutId([cs[k]], id) == [];
  }

  /** After deleting `id` it can no longer be looked up. */
  lemma DeletedIsGone(cs: seq<Conversation>, id: string)
    ensures Lookup(WithoutId(cs, id), id) == None
  {
    var r := WithoutId(cs, id);
    forall j | 0 <= j < |r| ensures r[j].id != id {
      assert r[j] in r;
    }
  }

  /** Looking up in a list with one more entry in front. */
  lemma LookupCons(c: Conversation, rest: seq<Conversation>, id: string)
    ensures Lookup([c] + rest, id) == if c.id == id then Some(c) else Lookup(rest, id)
  {
    assert ([c] + rest)[1..] == rest;
  }

  /** Deleting `id` does not change what any other id looks up to. */
  lemma {:induction false} WithoutIdKeepsOthers(cs: seq<Conversation>, id: string, other: string)
    requires other != id
    ensures Lookup(WithoutId(cs, id), other) == Lookup(cs, other)
    decreases |cs|
  {
    if |cs| > 0 {
      WithoutIdKeepsOthers(cs[1..], id, other);
      assert cs == [cs[0]] + cs[1..];
      LookupCons(cs[0], cs[1..], other);
      if cs[0].id != id {
        LookupCons(cs[0], WithoutId(cs[1..], id), other);
      }
    }
  }

  // ---------------------------------------------------------------------------
  // Titles and new conversations

  /**
   * generateConversationTitle: the placeholder for a transcript without a user
   * message, the attachment placeholder when the first user message trims to
   * nothing, else that message trimmed and cut to 30 characters plus "...".
   */
  function GenerateTitle(ms: seq<Message>): (title: string)
    ensures 0 < |title| <= TitleLength + |Ellipsis|
    ensures FirstUserIndex(ms) == -1 ==> title == NewConversationTitle
    ensures FirstUserIndex(ms) >= 0 && AllWhitespace(ms[FirstUserIndex(ms)].content) ==> title == ImageOnlyTitle
  {
    if |ms| == 0 then NewConversationTitle
    else
      var k := FirstUserIndex(ms);
      if k < 0 then NewConversationTitle
      else
        var t := Trim(ms[k].content);
        if |t| == 0 then ImageOnlyTitle
        else if |t| > TitleLength then t[..TitleLength] + Ellipsis
        else t
  }

  /** Only the first user message decides the title. */
  lemma TitleOnlyFromFirstUser(ms: seq<Message>, ms': seq<Message>)
    requires FirstUserIndex(ms) >= 0 && FirstUserIndex(ms') >= 0
    requires ms[FirstUserIndex(ms)].content == ms'[FirstUserIndex(ms')].content
    ensures GenerateTitle(ms) == GenerateTitle(ms')
  {
  }

  /** Appending turns after a user message never changes the title. */
  lemma TitleStableUnderAppend(ms: seq<Message>, more: seq<Message>)
    requires FirstUserIndex(ms) >= 0
    ensures GenerateTitle(ms + more) == GenerateTitle(ms)
  {
    var k := FirstUserIndex(ms);
    assert (ms + more)[k] == ms[k];
    assert FirstUserIndex(ms + more) == k by {
      forall j | 0 <= j < k ensures (ms + more)[j].role != User {
        assert (ms + more)[j] == ms[j];
      }
    }
  }

  /**
   * A title that is not a placeholder is the trimmed first user message
   * itself, or its first 30 characters followed by "...".
   */
  lemma TitleIsTrimmedPrefix(ms: seq<Message>)
    requires FirstUserIndex(ms) >= 0 && Trim(ms[FirstUserIndex(ms)].content) != ""
    ensures var t := Trim(ms[FirstUserIndex(ms)].content);
      if |t| <= TitleLength then GenerateTitle(ms) == t
      else GenerateTitle(ms)[..TitleLength] == t[..TitleLength] && GenerateTitle(ms)[TitleLength..] == Ellipsis
  {
  }

  /** No messages, or only assistant messages: the new-conversation placeholder. */
  lemma TitleWithoutUserMessage()
    ensures GenerateTitle([]) == NewConversationTitle
    ensures GenerateTitle([Message(Assistant, "Hi", None)]) == NewConversationTitle
  {
    assert FirstUserIndex([Message(Assistant, "Hi", None)]) == -1;
  }

  /** A user message of blanks only (an image-only turn): the attachment placeholder. */
  lemma TitleOfBlankMessage()
    ensures GenerateTitle([Message(User, "  ", None)]) == ImageOnlyTitle
  {
    var ms := [Message(User, "  ", None)];
    assert FirstUserIndex(ms) == 0;
    assert AllWhitespace("  ");
  }

  /** Forty characters are cut to thirty plus the ellipsis. */
  lemma TitleOfLongMessage()
    ensures GenerateTitle([Message(User, seq(40, _ => 'A'), None)]) == seq(30, _ => 'A') + Ellipsis
  {
    var a := seq(40, _ => 'A');
    var ms := [Message(User, a, None)];
    assert FirstUserIndex(ms) == 0;
    assert SkipSpace(a, 0) == 0;
    assert BackSpace(a, 0, 40) == 40;
    assert Trim(a) == a;
    assert a[..30] == seq(30, _ => 'A');
  }

  /** The first user message is used, trimmed, even after an assistant turn. */
  lemma TitleOfShortMessage()
    ensures GenerateTitle([Message(Assistant, "Hi", None), Message(User, " Hello\n", None)]) == "Hello"
  {
    var ms := [Message(Assistant, "Hi", None), Message(User, " Hello\n", None)];
    var t := " Hello\n";
    assert FirstUserIndex(ms[1..]) == 0;
    assert FirstUserIndex(ms) == 1;
    assert SkipSpace(t, 1) == 1;
    assert SkipSpace(t, 0) == 1;
    assert BackSpace(t, 1, 6) == 6;
    assert BackSpace(t, 1, 7) == 6;
    assert t[1..6] == "Hello";
  }

  /** The decimal digits of `n` (`${n}` in a template literal). */
  function DecimalDigits(n: nat): (r: string)
    ensures |r| > 0
    ensures forall k :: 0 <= k < |r| ==> '0' <= r[k] <= '9'
  {
    var d := ['0' + (n % 10) as char];
    if n < 10 then d else DecimalDigits(n / 10) + d
  }

  /**
   * The id createNewConversation builds from a clock reading and the random
   * base-36 suffix it draws: `conv-<time>-<suffix>`.
   */
  function NewId(idTime: nat, suffix: string): (id: string)
    ensures StartsWith(id, "conv-") && |id| > |"conv-"|
  {
    "conv-" + DecimalDigits(idTime) + "-" + suffix
  }

  /**
   * createNewConversation, with its three clock readings (`idTime` for the
   * id, then `created`, then `updated`) and the random suffix as inputs.
   */
  function CreateNewConversation(idTime: nat, suffix: string, created: nat, updated: nat): (c: Conversation)
    ensures c.messages == [] && c.conversationId == None
    ensures c.title == GenerateTitle([])
    ensures c.id == NewId(idTime, suffix) && Truthy(Some(c.id))
    ensures c.createdAt == created && c.updatedAt == updated
  {
    Conversation(NewId(idTime, suffix), NewConversationTitle, [], None, created, updated)
  }

  // ---------------------------------------------------------------------------
  // The store

  /**
   * localStorage as the repository sees it: the conversation-list slot and
   * the current-conversation key (absent, or a string).
   */
  class Store {
    var list: ListSlot
    var pointer: Option<string>

    constructor (list: ListSlot, pointer: Option<string>)
      ensures this.list == list && this.pointer == pointer
    {
      this.list := list;
      this.pointer := pointer;
    }

    /**
     * getAllConversations: the stored list, or the empty list when the key is
     * missing or its text does not parse (the failure is only logged).
     */
    function All(): (cs: seq<Conversation>)
      reads this
      ensures list.Stored? ==> cs == list.items
      ensures list.Missing? || list.Unparsable? ==> cs == []
    {
      match list
      case Stored(items) => items
      case _ => []
    }

    /** getConversation: the first stored record with `id`, or null when none has it. */
    function Get(id: string): (r: Option<Conversation>)
      reads this
      ensures r.None? <==> forall j :: 0 <= j < |All()| ==> All()[j].id != id
      ensures r.Some? ==> r.value.id == id && r.value in All()
    {
      Lookup(All(), id)
    }

    /** getCurrentConversationId: the stored key as it is, null when absent. */
    function CurrentId(): (r: Option<string>)
      reads this
      ensures r == pointer
    {
      pointer
    }

    /**
     * saveConversation: stamps the record with the clock reading `now`
     * (the caller's object sees the stamp too: it is returned as `saved`),
     * upserts it into the list read back from the store and writes the list.
     * A failing write (`writeOk` false) is logged and swallowed.
     */
    method Save(c: Conversation, now: nat, writeOk: bool) returns (saved: Conversation)
      modifies this
      ensures saved == c.(updatedAt := now)
      ensures list == if writeOk then Stored(Upsert(old(All()), saved)) else old(list)
      ensures pointer == old(pointer)
      ensures writeOk ==> Get(saved.id) == Some(saved)
      ensures writeOk ==> forall other :: other != saved.id ==> Get(other) == Lookup(old(All()), other)
    {
      var conversations := All();
      var existingIndex := IndexOfId(conversations, c.id);
      // The source puts the caller's object in the list and stamps it
      // afterwards; with records as values, stamping first is the same.
      saved := c.(updatedAt := now);
      if existingIndex >= 0 {
        conversations := conversations[existingIndex := saved];
      } else {
        conversations := [saved] + conversations;
      }
      if writeOk {
        list := Stored(conversations);
        UpsertThenLookup(old(All()), saved);
        forall other | other != saved.id
          ensures Get(other) == Lookup(old(All()), other)
        {
          UpsertKeepsOthers(old(All()), saved, other);
        }
      }
    }

    /**
     * deleteConversation: writes the list without `id`, then clears the
     * pointer when it names `id`. A failing write skips both.
     */
    method Delete(id: string, writeOk: bool)
      modifies this
      ensures writeOk ==> list == Stored(WithoutId(old(All()), id))
      ensures writeOk ==> pointer == if old(pointer) == Some(id) then None else old(pointer)
      ensures !writeOk ==> list == old(list) && pointer == old(pointer)
      ensures writeOk ==> Get(id) == None
      ensures writeOk ==> forall other :: other != id ==> Get(other) == Lookup(old(All()), other)
    {
      var filtered := WithoutId(All(), id);
      if writeOk {
        list := Stored(filtered);
        DeletedIsGone(old(All()), id);
        forall other | other != id
          ensures Get(other) == Lookup(old(All()), other)
        {
          WithoutIdKeepsOthers(old(All()), id, other);
        }
        var currentId := CurrentId();
        if currentId == Some(id) {
          ClearCurrentId();
        }
      }
    }

    /**
     * setCurrentConversationId: stores a non-empty id and removes the key
     * for null or "". A failing write of the key is swallowed.
     */
    method SetCurrentId(id: Option<string>, writeOk: bool)
      modifies this
      ensures pointer == if Truthy(id) then (if writeOk then id else old(pointer)) else None
      ensures list == old(list)
    {
      if Truthy(id) {
        if writeOk {
          pointer := id;
        }
      } else {
        pointer := None;
      }
    }

    /** clearCurrentConversationId. */
    method ClearCurrentId()
      modifies this
      ensures pointer == None && list == old(list)
    {
      pointer := None;
    }
  }

  /**
   * The sidebar's delete as a client of the store: once the write succeeds,
   * getConversation finds nothing under the id, and the pointer is gone
   * exactly when it named the deleted id or was already gone.
   */
  method DeleteThenGet(store: Store, id: string) returns (found: Option<Conversation>)
    modifies store
    ensures found == None
    ensures store.CurrentId() == None <==> old(store.CurrentId()) == Some(id) || old(store.CurrentId()) == None
  {
    store.Delete(id, true);
    found := store.Get(id);
  }
}
