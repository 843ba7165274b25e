/**
  * The conversation store of the `useConversationHistory` hook: a list of
  * conversations, the id of the current one, and the storage record the list
  * is written through to on every change.
  */
module ConversationHistory {
  import opened Wrappers
  import opened JsString
  import opened Lists

  datatype Role = User | Assistant

  datatype Message = Message(role: Role, content: string)

  datatype Conversation = Conversation(
    id: string,
    title: string,
    messages: seq<Message>,
    createdAt: int,
    updatedAt: int)

  /** The title every new conversation starts with. */
  const PlaceholderTitle: string := "New Chat"

  /** How many characters of the first user message a derived title keeps. */
  const TitleLength: nat := 50

  /** `conv_${Date.now()}`: the id a conversation created at clock reading `now` gets. */
  function ConversationId(now: nat): (id: string)
    ensures |id| > 5 && id[..5] == "conv_"
  {
    "conv_" + NatToDecimal(now)
  }

  /** Ids are determined by the clock reading: two creations get the same id only at the same millisecond. */
  lemma ConversationIdInjective(a: nat, b: nat)
    requires ConversationId(a) == ConversationId(b)
    ensures a == b
  {
    assert NatToDecimal(a) == ConversationId(a)[5..];
    DecimalRoundTrip(a);
    DecimalRoundTrip(b);
  }

  // ---------------------------------------------------------------------------
  // The title rule

  predicate IsUserMessage(m: Message) {
    m.role == User
  }

  /** `messages.find(m => m.role === 'user')`. */
  function FirstUserMessage(msgs: seq<Message>): Option<Message> {
    Find(msgs, IsUserMessage)
  }

  /** `content.slice(0, 50) + (content.length > 50 ? '...' : '')`. */
  function Abbreviate(content: string): (r: string)
    ensures |r| <= TitleLength + 3
    ensures |content| <= TitleLength ==> r == content
    ensures |content| > TitleLength ==> |r| == TitleLength + 3 && r[..TitleLength] == content[..TitleLength] && r[TitleLength..] == "..."
  {
    if |content| > TitleLength then content[..TitleLength] + "..." else content
  }

  /**
    * The title a conversation has after its messages are replaced by `msgs`:
    * only the placeholder title is ever rewritten, only when `msgs` is
    * non-empty and holds a user message, and then to the abbreviated first
    * user message.
    */
  function DeriveTitle(title: string, msgs: seq<Message>): (r: string)
    ensures title != PlaceholderTitle ==> r == title
    ensures (forall i :: 0 <= i < |msgs| ==> !IsUserMessage(msgs[i])) ==> r == title
    ensures title == PlaceholderTitle && FirstUserMessage(msgs).Some? ==> r == Abbreviate(FirstUserMessage(msgs).value.content)
  {
    if |msgs| > 0 && title == PlaceholderTitle then
      match FirstUserMessage(msgs)
      case Some(m) => Abbreviate(m.content)
      case None => title
    else title
  }

  /** A derived title is at most 53 characters long, and begins with (up to) 50 characters of a user message. */
  lemma DerivedTitleShape(title: string, msgs: seq<Message>)
    requires DeriveTitle(title, msgs) != title
    ensures |DeriveTitle(title, msgs)| <= TitleLength + 3
    ensures exists i :: FirstAt(msgs, IsUserMessage, i)
                        && msgs[i].content[..Min(|msgs[i].content|, TitleLength)] <= DeriveTitle(title, msgs)
  {
    var m := FirstUserMessage(msgs).value;
    var i :| 0 <= i < |msgs| && msgs[i] == m && IsUserMessage(msgs[i])
             && forall j :: 0 <= j < i ==> !IsUserMessage(msgs[j]);
    assert FirstAt(msgs, IsUserMessage, i);
    assert DeriveTitle(title, msgs) == Abbreviate(m.content);
  }

  function Min(a: int, b: int): int {
    if a < b then a else b
  }

  // ---------------------------------------------------------------------------
  // Replacing the messages of one conversation

  /** The conversation after its messages were replaced at clock reading `now`. */
  function Touch(c: Conversation, msgs: seq<Message>, now: int): (r: Conversation)
    ensures r.id == c.id && r.createdAt == c.createdAt
    ensures r.messages == msgs && r.updatedAt == now
    ensures r.title == DeriveTitle(c.title, msgs)
  {
    c.(messages := msgs, title := DeriveTitle(c.title, msgs), updatedAt := now)
  }

  /** The `conversations.map(...)` of `updateConversationMessages`, before sorting. */
  function ApplyMessages(convs: seq<Conversation>, id: string, msgs: seq<Message>, now: int): (r: seq<Conversation>)
    ensures |r| == |convs|
    ensures forall i :: 0 <= i < |convs| && convs[i].id != id ==> r[i] == convs[i]
    ensures forall i :: 0 <= i < |convs| && convs[i].id == id ==> r[i] == Touch(convs[i], msgs, now)
    ensures forall i :: 0 <= i < |convs| ==> r[i].id == convs[i].id
  {
    seq(|convs|, i requires 0 <= i < |convs| => if convs[i].id == id then Touch(convs[i], msgs, now) else convs[i])
  }

  // ---------------------------------------------------------------------------
  // Ordering by recency: `updated.sort((a, b) => b.updatedAt - a.updatedAt)`

  ghost predicate SortedByRecency(s: seq<Conversation>) {
    forall i, j :: 0 <= i < j < |s| ==> s[i].updatedAt >= s[j].updatedAt
  }

  /** The conversations of `s` last updated at `t`, in their order in `s`. */
  function UpdatedAt(s: seq<Conversation>, t: int): seq<Conversation> {
    if s == [] then []
    else (if s[0].updatedAt == t then [s[0]] else []) + UpdatedAt(s[1..], t)
  }

  /**
    * Puts `c`, which came before every element of `sorted` in the input, in
    * front of the first element that is not more recent than it.
    */
  function InsertByRecency(c: Conversation, sorted: seq<Conversation>): seq<Conversation> {
    if sorted == [] || sorted[0].updatedAt <= c.updatedAt then [c] + sorted
    else [sorted[0]] + InsertByRecency(c, sorted[1..])
  }

  lemma {:induction false} InsertPermutes(c: Conversation, sorted: seq<Conversation>)
    ensures multiset(InsertByRecency(c, sorted)) == multiset(sorted) + multiset{c}
  {
    if !(sorted == [] || sorted[0].updatedAt <= c.updatedAt) {
      InsertPermutes(c, sorted[1..]);
      assert sorted == [sorted[0]] + sorted[1..];
    }
  }

  lemma {:induction false} InsertKeepsOrder(c: Conversation, sorted: seq<Conversation>)
    requires SortedByRecency(sorted)
    ensures SortedByRecency(InsertByRecency(c, sorted))
  {
    if sorted == [] || sorted[0].updatedAt <= c.updatedAt {
      ConsKeepsOrder(c, sorted);
    } else {
      InsertKeepsOrder(c, sorted[1..]);
      InsertPermutes(c, sorted[1..]);
      var rest := InsertByRecency(c, sorted[1..]);
      forall x | x in rest ensures sorted[0].updatedAt >= x.updatedAt {
        assert x in multiset(rest);
        assert x in multiset(sorted[1..]) || x == c;
        if x != c {
          var k :| 0 <= k < |sorted[1..]| && sorted[1..][k] == x;
          assert sorted[k + 1] == x;
        }
      }
      ConsKeepsOrder(sorted[0], rest);
    }
  }

  lemma UpdatedAtCons(x: Conversation, s: seq<Conversation>, t: int)
    ensures UpdatedAt([x] + s, t) == (if x.updatedAt == t then [x] else []) + UpdatedAt(s, t)
  {
    ConsTail(x, s);
  }

  /** Inserting `c` puts it in front of every conversation that has its timestamp. */
  lemma {:induction false} InsertIsStable(c: Conversation, sorted: seq<Conversation>, t: int)
    ensures UpdatedAt(InsertByRecency(c, sorted), t) == (if c.updatedAt == t then [c] else []) + UpdatedAt(sorted, t)
  {
    if sorted == [] || sorted[0].updatedAt <= c.updatedAt {
      UpdatedAtCons(c, sorted, t);
    } else {
      InsertIsStable(c, sorted[1..], t);
      HeadTail(sorted);
      UpdatedAtCons(sorted[0], InsertByRecency(c, sorted[1..]), t);
      UpdatedAtCons(sorted[0], sorted[1..], t);
      var first := if sorted[0].updatedAt == t then [sorted[0]] else [];
      var inserted := if c.updatedAt == t then [c] else [];
      SwapEmpty(first, inserted, UpdatedAt(sorted[1..], t));
    }
  }

  /**
    * A stable sort by `updatedAt`, most recent first: the result is ordered,
    * is a permutation of the input, and keeps conversations with equal
    * timestamps in their input order.
    */
  function SortByRecency(s: seq<Conversation>): (r: seq<Conversation>)
    ensures SortedByRecency(r)
    ensures multiset(r) == multiset(s)
    ensures forall t :: UpdatedAt(r, t) == UpdatedAt(s, t)
  {
    if s == [] then []
    else
      var sortedTail := SortByRecency(s[1..]);
      InsertKeepsOrder(s[0], sortedTail);
      InsertPermutes(s[0], sortedTail);
      assert s == [s[0]] + s[1..];
      var r := InsertByRecency(s[0], sortedTail);
      assert forall t :: UpdatedAt(r, t) == UpdatedAt(s, t) by {
        forall t ensures UpdatedAt(r, t) == UpdatedAt(s, t) {
          InsertIsStable(s[0], sortedTail, t);
        }
      }
      r
  }

  /**
    * After `updateConversationMessages(id, …)` at a clock reading later than
    * the last update of every other conversation, a conversation with that id
    * comes first.
    */
  lemma UpdatedConversationFirst(convs: seq<Conversation>, id: string, msgs: seq<Message>, now: int)
    requires exists i :: 0 <= i < |convs| && convs[i].id == id
    requires forall i :: 0 <= i < |convs| && convs[i].id != id ==> convs[i].updatedAt < now
    ensures var r := SortByRecency(ApplyMessages(convs, id, msgs, now)); |r| > 0 && r[0].id == id && r[0].updatedAt == now
  {
    var u := ApplyMessages(convs, id, msgs, now);
    var r := SortByRecency(u);
    var i :| 0 <= i < |convs| && convs[i].id == id;
    assert u[i] in multiset(r);
    var p :| 0 <= p < |r| && r[p] == u[i];
    assert r[0] in multiset(u);
    var j :| 0 <= j < |u| && u[j] == r[0];
    assert r[0].updatedAt >= r[p].updatedAt;
  }

  // ---------------------------------------------------------------------------
  // Deleting and finding

  function HasId(id: string): Conversation -> bool {
    (c: Conversation) => c.id == id
  }

  function LacksId(id: string): Conversation -> bool {
    (c: Conversation) => c.id != id
  }

  /** `conversations.filter(c => c.id !== id)`: no entry with the id is left, every other one is. */
  function RemoveId(s: seq<Conversation>, id: string): (r: seq<Conversation>)
    ensures forall c :: c in r <==> c in s && c.id != id
  {
    FilterMembers(s, LacksId(id));
    Filter(s, LacksId(id))
  }

  /**
    * Deleting drops exactly the entries with that id, keeps the others in
    * their relative order, changes nothing for an unknown id, and is
    * idempotent.
    */
  lemma RemoveIdSpec(s: seq<Conversation>, id: string)
    ensures forall c :: c in RemoveId(s, id) <==> c in s && c.id != id
    ensures forall a, b :: s == a + b ==> RemoveId(s, id) == RemoveId(a, id) + RemoveId(b, id)
    ensures (forall i :: 0 <= i < |s| ==> s[i].id != id) ==> RemoveId(s, id) == s
    ensures RemoveId(RemoveId(s, id), id) == RemoveId(s, id)
  {
    FilterMembers(s, LacksId(id));
    forall a, b | s == a + b ensures RemoveId(s, id) == RemoveId(a, id) + RemoveId(b, id) {
      FilterAppend(a, b, LacksId(id));
    }
    if forall i :: 0 <= i < |s| ==> s[i].id != id {
      FilterKeepsAll(s, LacksId(id));
    }
    FilterIdempotent(s, LacksId(id));
  }

  /**
    * Deleting from a list ordered by recency leaves it ordered, so the entry
    * that becomes current after deleting the current conversation is the most
    * recently updated of the rest.
    */
  lemma {:induction false} RemoveIdKeepsOrder(s: seq<Conversation>, id: string)
    requires SortedByRecency(s)
    ensures SortedByRecency(RemoveId(s, id))
    ensures var r := RemoveId(s, id); forall c :: c in r ==> r[0].updatedAt >= c.updatedAt
  {
    if s != [] {
      RemoveIdKeepsOrder(s[1..], id);
      if s[0].id != id {
        FilterMembers(s[1..], LacksId(id));
        forall x | x in RemoveId(s[1..], id) ensures s[0].updatedAt >= x.updatedAt {
          var k :| 0 <= k < |s[1..]| && s[1..][k] == x;
          assert s[k + 1] == x;
        }
        ConsKeepsOrder(s[0], RemoveId(s[1..], id));
      }
    }
    var r := RemoveId(s, id);
    forall c | c in r ensures r[0].updatedAt >= c.updatedAt {
      var k :| 0 <= k < |r| && r[k] == c;
    }
  }

  lemma ConsKeepsOrder(c: Conversation, rest: seq<Conversation>)
    requires SortedByRecency(rest)
    requires forall x :: x in rest ==> c.updatedAt >= x.updatedAt
    ensures SortedByRecency([c] + rest)
  {
    var r := [c] + rest;
    forall i, j | 0 <= i < j < |r| ensures r[i].updatedAt >= r[j].updatedAt {
      if i == 0 { assert r[j] in rest; } else { assert r[i] == rest[i - 1] && r[j] == rest[j - 1]; }
    }
  }

  /** `conversations.find(c => c.id === currentConversationId) || null`. */
  function FindById(s: seq<Conversation>, current: Option<string>): (r: Option<Conversation>)
    ensures r.None? <==> current.None? || forall i :: 0 <= i < |s| ==> s[i].id != current.value
    ensures r.Some? ==> exists i :: FirstAt(s, HasId(current.value), i) && s[i] == r.value
  {
    if current.None? then None
    else
      var r := Find(s, HasId(current.value));
      assert r.Some? ==> exists i :: FirstAt(s, HasId(current.value), i) && s[i] == r.value by {
        if r.Some? {
          var i :| 0 <= i < |s| && s[i] == r.value && HasId(current.value)(s[i])
                   && forall j :: 0 <= j < i ==> !HasId(current.value)(s[j]);
          assert FirstAt(s, HasId(current.value), i);
        }
      }
      r
  }

  /** What the mount-time load puts in the list: the stored list, or nothing when absent or unparseable. */
  function Restore(persisted: Stored<seq<Conversation>>): (r: seq<Conversation>)
    ensures persisted.Saved? ==> r == persisted.value
    ensures !persisted.Saved? ==> r == []
  {
    if persisted.Saved? then persisted.value else []
  }

  // ---------------------------------------------------------------------------
  // The hook's state

  class ConversationStore {
    var conversations: seq<Conversation>
    var currentConversationId: Option<string>
    /** The record under the `jarvis_conversations` storage key. */
    var stored: Stored<seq<Conversation>>

    /** Mounting the hook: load the stored list and make its first entry current. */
    constructor (persisted: Stored<seq<Conversation>>)
      ensures stored == persisted
      ensures conversations == Restore(persisted)
      ensures currentConversationId == if conversations != [] then Some(conversations[0].id) else None
    {
      stored := persisted;
      conversations := [];
      currentConversationId := None;
      new;
      if persisted.Saved? {
        conversations := persisted.value;
        if (currentConversationId.None? || currentConversationId == Some("")) && |conversations| > 0 {
          currentConversationId := Some(conversations[0].id);
        }
      }
    }

    /** `saveConversations`: write the full list to storage, then replace the in-memory list. */
    method Save(convs: seq<Conversation>)
      modifies this
      ensures stored == Saved(convs) && conversations == convs
      ensures currentConversationId == old(currentConversationId)
    {
      stored := Saved(convs);
      conversations := convs;
    }

    /**
      * `createNewConversation`: a fresh placeholder conversation goes in front
      * and becomes current. The three arguments are the three `Date.now()`
      * readings (id, createdAt, updatedAt); ids are not checked for uniqueness.
      */
    method CreateNewConversation(idClock: nat, createdClock: int, updatedClock: int) returns (id: string)
      modifies this
      ensures id == ConversationId(idClock)
      ensures conversations == [Conversation(id, PlaceholderTitle, [], createdClock, updatedClock)] + old(conversations)
      ensures stored == Saved(conversations)
      ensures currentConversationId == Some(id)
      ensures GetCurrentConversation() == Some(conversations[0])
    {
      var conv := Conversation(ConversationId(idClock), PlaceholderTitle, [], createdClock, updatedClock);
      Save([conv] + conversations);
      currentConversationId := Some(conv.id);
      id := conv.id;
    }

    /**
      * `updateConversationMessages`: every conversation with that id gets
      * exactly `msgs`, the clock reading `now` and a possibly derived title;
      * the list is then re-sorted by recency and saved.
      */
    method UpdateConversationMessages(id: string, msgs: seq<Message>, now: int)
      modifies this
      ensures conversations == SortByRecency(ApplyMessages(old(conversations), id, msgs, now))
      ensures SortedByRecency(conversations)
      ensures multiset(conversations) == multiset(ApplyMessages(old(conversations), id, msgs, now))
      ensures stored == Saved(conversations)
      ensures currentConversationId == old(currentConversationId)
    {
      var updated := ApplyMessages(conversations, id, msgs, now);
      updated := SortByRecency(updated);
      Save(updated);
    }

    /** `getCurrentConversation`: the first conversation whose id is the current id, if any. */
    function GetCurrentConversation(): (r: Option<Conversation>)
      reads this
      ensures r.Some? ==> r.value in conversations && Some(r.value.id) == currentConversationId
      ensures r.None? <==> currentConversationId.None?
                           || forall i :: 0 <= i < |conversations| ==> conversations[i].id != currentConversationId.value
    {
      FindById(conversations, currentConversationId)
    }

    /**
      * `deleteConversation`: drop every entry with that id and save; when it
      * was the current one, the new first entry (or none) becomes current.
      */
    method DeleteConversation(id: string)
      modifies this
      ensures conversations == RemoveId(old(conversations), id)
      ensures stored == Saved(conversations)
      ensures old(currentConversationId) == Some(id) ==>
                currentConversationId == if conversations == [] then None else Some(conversations[0].id)
      ensures old(currentConversationId) != Some(id) ==> currentConversationId == old(currentConversationId)
    {
      var updated := RemoveId(conversations, id);
      Save(updated);
      if Some(id) == currentConversationId {
        if |updated| > 0 {
          currentConversationId := Some(updated[0].id);
        } else {
          currentConversationId := None;
        }
      }
    }

    /** `switchConversation`: no existence check and no storage write. */
    method SwitchConversation(id: string)
      modifies this
      ensures currentConversationId == Some(id)
      ensures conversations == old(conversations) && stored == old(stored)
    {
      currentConversationId := Some(id);
    }
  }
}
