/**
 * The conversation and message store (backend/src/db/database.ts). The SQL engine
 * is replaced by its two tables: `conversations`, keyed by id, and `messages`, kept
 * in insertion order. The queries are modelled by what they select and in which order.
 */
module Database {
  import opened Types

  /** What the store throws: the missing-handle guard and a PRIMARY KEY violation. */
  datatype StoreError = NotInitialized | UniqueViolation(column: string) {
    function Message(): string {
      match this
      case NotInitialized => "Database not initialized. Call initializeDatabase() first."
      case UniqueViolation(column) => "UNIQUE constraint failed: " + column
    }
  }

  /** The tables as a previously saved database file holds them. */
  datatype Snapshot = Snapshot(conversations: map<string, Conversation>, messages: seq<Message>)

  /** Strictly increasing timestamps: the order ORDER BY timestamp ASC produces. */
  predicate Ascending(ms: seq<Message>) {
    forall i, j :: 0 <= i < j < |ms| ==> ms[i].timestamp < ms[j].timestamp
  }

  predicate DistinctIds(ms: seq<Message>) {
    forall i, j :: 0 <= i < j < |ms| ==> ms[i].id != ms[j].id
  }

  /** Some stored message already has this primary key. */
  predicate IdTaken(ms: seq<Message>, id: string) {
    exists i :: 0 <= i < |ms| && ms[i].id == id
  }

  /**
   * The tables a store can hold when its clock reads `now`: every conversation is
   * filed under its own id and was touched no earlier than it was created, message
   * ids are unique, and messages were inserted in timestamp order, none in the future.
   */
  ghost predicate WellFormed(conversations: map<string, Conversation>, messages: seq<Message>, now: Timestamp) {
    && (forall id :: id in conversations ==>
          conversations[id].id == id && conversations[id].createdAt <= conversations[id].updatedAt <= now)
    && Ascending(messages)
    && DistinctIds(messages)
    && (forall i :: 0 <= i < |messages| ==> messages[i].timestamp <= now)
  }

  /** A row with a fresh id, stamped after everything stored, keeps the tables well formed. */
  lemma WellFormedAppend(conversations: map<string, Conversation>, ms: seq<Message>, earlier: Timestamp, m: Message)
    requires WellFormed(conversations, ms, earlier)
    requires earlier < m.timestamp && !IdTaken(ms, m.id)
    ensures WellFormed(conversations, ms + [m], m.timestamp)
  {
    var ms' := ms + [m];
    forall i, j | 0 <= i < j < |ms'| ensures ms'[i].timestamp < ms'[j].timestamp && ms'[i].id != ms'[j].id {
      if j == |ms| {
        assert ms'[i] == ms[i];
        assert ms[i] in ms;
      }
    }
  }

  /** SELECT * FROM messages WHERE conversationId = c, in table order. */
  function ConversationMessages(ms: seq<Message>, c: string): (r: seq<Message>)
    ensures |r| <= |ms|
    ensures forall m :: m in r <==> m in ms && m.conversationId == c
  {
    if ms == [] then []
    else
      var init, last := ms[..|ms| - 1], ms[|ms| - 1];
      assert ms == init + [last];
      ConversationMessages(init, c) + (if last.conversationId == c then [last] else [])
  }

  /** Appending a row extends exactly the selection of its own conversation. */
  lemma ConversationMessagesAppend(ms: seq<Message>, m: Message, c: string)
    ensures ConversationMessages(ms + [m], c) ==
      ConversationMessages(ms, c) + (if m.conversationId == c then [m] else [])
  {
    assert (ms + [m])[..|ms|] == ms;
  }

  /** Appending two rows extends each conversation's selection by its own rows among them. */
  lemma ConversationMessagesAppendPair(ms: seq<Message>, m1: Message, m2: Message, c: string)
    ensures ConversationMessages(ms + [m1, m2], c) == ConversationMessages(ms, c)
      + (if m1.conversationId == c then [m1] else []) + (if m2.conversationId == c then [m2] else [])
  {
    assert ms + [m1, m2] == (ms + [m1]) + [m2];
    ConversationMessagesAppend(ms, m1, c);
    ConversationMessagesAppend(ms + [m1], m2, c);
  }

  /** One message appended: its conversation gains it, the others nothing. */
  lemma ConversationMessagesAppendOne(ms: seq<Message>, m: Message)
    ensures ConversationMessages(ms + [m], m.conversationId) == ConversationMessages(ms, m.conversationId) + [m]
    ensures forall c :: c != m.conversationId ==> ConversationMessages(ms + [m], c) == ConversationMessages(ms, c)
  {
    forall c {
      ConversationMessagesAppend(ms, m, c);
    }
  }

  /**
   * Two turns of one conversation appended: the table keeps its old rows, and that
   * conversation gains both turns while the others gain nothing.
   */
  lemma ConversationMessagesAppendExchange(before: seq<Message>, after: seq<Message>, m1: Message, m2: Message)
    requires m1.conversationId == m2.conversationId
    requires after == before + [m1, m2]
    ensures |after| == |before| + 2 && after[..|before|] == before
    ensures after[|before|] == m1 && after[|before| + 1] == m2 && after[|before|..] == [m1, m2]
    ensures ConversationMessages(after, m1.conversationId) == ConversationMessages(before, m1.conversationId) + after[|before|..]
    ensures forall c :: c != m1.conversationId ==> ConversationMessages(after, c) == ConversationMessages(before, c)
  {
    assert after[|before|..] == [m1, m2];
    forall c {
      ConversationMessagesAppendPair(before, m1, m2, c);
    }
  }

  /** Selecting from a table in timestamp order yields rows in timestamp order. */
  lemma {:induction false} ConversationMessagesAscending(ms: seq<Message>, c: string)
    requires Ascending(ms)
    ensures Ascending(ConversationMessages(ms, c))
  {
    if ms != [] {
      var init, last := ms[..|ms| - 1], ms[|ms| - 1];
      ConversationMessagesAscending(init, c);
      var prefix := ConversationMessages(init, c);
      forall k | 0 <= k < |prefix| ensures prefix[k].timestamp < last.timestamp {
        assert prefix[k] in init;
        var j :| 0 <= j < |init| && init[j] == prefix[k];
        assert ms[j] == init[j];
      }
    }
  }

  /** In an ascending sequence the last row is the newest, and the others are exactly the rest. */
  lemma AscendingDropLast(a: seq<Message>)
    requires Ascending(a) && a != []
    ensures forall m :: m in a[..|a| - 1] ==> m.timestamp < a[|a| - 1].timestamp
    ensures forall m :: m in a[..|a| - 1] <==> m in a && m != a[|a| - 1]
  {
    var init, last := a[..|a| - 1], a[|a| - 1];
    forall m | m in init ensures m.timestamp < last.timestamp {
      var k :| 0 <= k < |init| && init[k] == m;
      assert a[k] == m;
    }
    assert a == init + [last];
  }

  /**
   * ORDER BY has a single answer when timestamps are distinct: two ascending
   * sequences holding the same rows are the same sequence.
   */
  lemma {:induction false} AscendingUnique(a: seq<Message>, b: seq<Message>)
    requires Ascending(a) && Ascending(b)
    requires forall m :: m in a <==> m in b
    ensures a == b
    decreases |a|
  {
    assert a != [] ==> a[0] in b;
    assert b != [] ==> b[0] in a;
    if a != [] && b != [] {
      SameRowsDropLast(a, b);
      AscendingUnique(a[..|a| - 1], b[..|b| - 1]);
      assert a == a[..|a| - 1] + [a[|a| - 1]] && b == b[..|b| - 1] + [b[|b| - 1]];
    }
  }

  /** The two sequences hold the same rows. */
  ghost predicate SameRows(a: seq<Message>, b: seq<Message>) {
    forall m :: m in a <==> m in b
  }

  /** Two ascending sequences with the same rows end with the same row, and agree on the rest. */
  lemma SameRowsDropLast(a: seq<Message>, b: seq<Message>)
    requires Ascending(a) && Ascending(b) && a != [] && b != []
    requires forall m :: m in a <==> m in b
    ensures a[|a| - 1] == b[|b| - 1]
    ensures Ascending(a[..|a| - 1]) && Ascending(b[..|b| - 1])
    ensures SameRows(a[..|a| - 1], b[..|b| - 1])
  {
    var x, y := a[|a| - 1], b[|b| - 1];
    AscendingDropLast(a);
    AscendingDropLast(b);
    assert x in b && y in a;
    assert x == y;
    var a', b' := a[..|a| - 1], b[..|b| - 1];
    forall m ensures m in a' <==> m in b' {
      assert m in a' <==> m in a && m != x;
      assert m in b' <==> m in b && m != y;
    }
  }

  function Reverse<T>(s: seq<T>): (r: seq<T>)
    ensures |r| == |s|
    ensures forall i :: 0 <= i < |s| ==> r[i] == s[|s| - 1 - i]
  {
    if s == [] then [] else [s[|s| - 1]] + Reverse(s[..|s| - 1])
  }

  /** Taking the first k of the reversed sequence and reversing back gives the last k. */
  lemma ReverseTakeReverse<T>(s: seq<T>, k: nat)
    requires k <= |s|
    ensures Reverse(Reverse(s)[..k]) == s[|s| - k..]
  {
  }

  function Min(a: nat, b: nat): nat {
    if a <= b then a else b
  }

  /**
   * getRecentMessages: ORDER BY timestamp DESC LIMIT limit, then reversed; that is,
   * the last min(limit, n) messages of the conversation, oldest first.
   */
  function RecentMessages(ms: seq<Message>, c: string, limit: nat): (r: seq<Message>)
    ensures var all := ConversationMessages(ms, c);
      |r| == Min(limit, |all|) && r == all[|all| - |r|..]
  {
    var all := ConversationMessages(ms, c);
    var newestFirst := Reverse(all);
    var k := Min(limit, |newestFirst|);
    ReverseTakeReverse(all, k);
    Reverse(newestFirst[..k])
  }

  /** UPDATE conversations SET updatedAt = now WHERE id = id: no row, no change. */
  function Touch(cs: map<string, Conversation>, id: string, now: Timestamp): (r: map<string, Conversation>)
    ensures r.Keys == cs.Keys
    ensures id in cs ==> r[id] == cs[id].(updatedAt := now)
    ensures forall k :: k in cs && k != id ==> r[k] == cs[k]
  {
    if id in cs then cs[id := cs[id].(updatedAt := now)] else cs
  }

  /** A later touch supersedes an earlier one. */
  lemma TouchTwice(cs: map<string, Conversation>, id: string, earlier: Timestamp, later: Timestamp)
    ensures Touch(Touch(cs, id, earlier), id, later) == Touch(cs, id, later)
  {
  }

  /**
   * The module-level database handle with its two tables. `initialized` is false
   * while the handle is null. `clock` is the latest reading of the wall clock; each
   * `new Date()` in the source is a fresh reading, later than every earlier one.
   */
  class Store {
    var initialized: bool
    var conversations: map<string, Conversation>
    var messages: seq<Message>
    var clock: Timestamp

    ghost predicate Valid()
      reads this
    {
      && (!initialized ==> conversations == map[] && messages == [])
      && WellFormed(conversations, messages, clock)
    }

    /** The process starts with no database handle. */
    constructor (now: Timestamp)
      ensures Valid()
      ensures !initialized && conversations == map[] && messages == [] && clock == now
    {
      initialized := false;
      conversations := map[];
      messages := [];
      clock := now;
    }

    /**
     * initializeDatabase: open the saved tables, or empty ones when there is no
     * readable file (`prior` is None). Creating the schema changes no rows.
     */
    method InitializeDatabase(prior: Option<Snapshot>)
      requires Valid()
      requires prior.Some? ==> WellFormed(prior.value.conversations, prior.value.messages, clock)
      modifies this
      ensures Valid() && initialized && clock == old(clock)
      ensures prior.None? ==> conversations == map[] && messages == []
      ensures prior.Some? ==> conversations == prior.value.conversations && messages == prior.value.messages
    {
      initialized := true;
      match prior
      case None =>
        conversations, messages := map[], [];
      case Some(snapshot) =>
        conversations, messages := snapshot.conversations, snapshot.messages;
    }

    /** closeDatabase: drop the handle; every later operation fails until it is reopened. */
    method CloseDatabase()
      requires Valid()
      modifies this
      ensures Valid()
      ensures !initialized && conversations == map[] && messages == [] && clock == old(clock)
    {
      if initialized {
        initialized := false;
        conversations, messages := map[], [];
      }
    }

    /** new Date(): a reading later than every earlier one. */
    method ReadClock() returns (now: Timestamp)
      requires Valid()
      modifies this`clock
      ensures Valid()
      ensures clock == old(clock) + 1 && now == clock
    {
      clock := clock + 1;
      now := clock;
    }

    /** INSERT INTO conversations (id, createdAt, updatedAt) with both times set to now. */
    method CreateConversation(id: string) returns (r: Result<Conversation, StoreError>)
      requires Valid()
      modifies this
      ensures Valid()
      ensures initialized == old(initialized) && messages == old(messages)
      ensures !old(initialized) ==> r == Failure(NotInitialized) && unchanged(this)
      ensures old(initialized) ==> clock == old(clock) + 1
      ensures old(initialized) && id in old(conversations) ==>
        r == Failure(UniqueViolation("conversations.id")) && conversations == old(conversations)
      ensures old(initialized) && id !in old(conversations) ==>
        && r == Success(Conversation(id, clock, clock, None))
        && conversations == old(conversations)[id := r.value]
    {
      if !initialized {
        return Failure(NotInitialized);
      }
      var now := ReadClock();
      if id in conversations {
        return Failure(UniqueViolation("conversations.id"));
      }
      var c := Conversation(id, now, now, None);
      conversations := conversations[id := c];
      r := Success(c);
    }

    /** getConversation: the row under `id`, or null when there is none. */
    function GetConversation(id: string): (r: Result<Option<Conversation>, StoreError>)
      reads this
      requires Valid()
      ensures r.Failure? <==> !initialized
      ensures r.Failure? ==> r.error == NotInitialized
      ensures r.Success? ==> (r.value.Some? <==> id in conversations)
      ensures r.Success? && r.value.Some? ==>
        r.value.value == conversations[id] && r.value.value.id == id
        && r.value.value.createdAt <= r.value.value.updatedAt <= clock
    {
      if !initialized then Failure(NotInitialized)
      else if id in conversations then Success(Some(conversations[id]))
      else Success(None)
    }

    /** updateConversationTimestamp: set updatedAt of row `id`, if there is one, to now. */
    method UpdateConversationTimestamp(id: string) returns (r: Result<(), StoreError>)
      requires Valid()
      modifies this
      ensures Valid()
      ensures initialized == old(initialized) && messages == old(messages)
      ensures !old(initialized) ==> r == Failure(NotInitialized) && unchanged(this)
      ensures old(initialized) ==>
        && r == Success(())
        && clock == old(clock) + 1
        && conversations == Touch(old(conversations), id, clock)
    {
      if !initialized {
        return Failure(NotInitialized);
      }
      var now := ReadClock();
      conversations := Touch(conversations, id, now);
      r := Success(());
    }

    /**
     * createMessage: insert the row stamped now, then touch the parent conversation.
     * The parent is not checked: for an unknown conversation the row is stored and
     * the touch updates nothing.
     */
    method CreateMessage(id: string, conversationId: string, sender: Sender, text: string)
      returns (r: Result<Message, StoreError>)
      requires Valid()
      modifies this
      ensures Valid()
      ensures initialized == old(initialized)
      ensures !old(initialized) ==> r == Failure(NotInitialized) && unchanged(this)
      ensures old(initialized) && IdTaken(old(messages), id) ==>
        && r == Failure(UniqueViolation("messages.id"))
        && clock == old(clock) + 1
        && conversations == old(conversations) && messages == old(messages)
      ensures old(initialized) && !IdTaken(old(messages), id) ==>
        && r == Success(Message(id, conversationId, sender, text, old(clock) + 1))
        && messages == old(messages) + [r.value]
        && clock == old(clock) + 2
        && conversations == Touch(old(conversations), conversationId, clock)
        && r.value.timestamp < clock
    {
      if !initialized {
        return Failure(NotInitialized);
      }
      ghost var earlier := clock;
      var timestamp := ReadClock();
      if IdTaken(messages, id) {
        return Failure(UniqueViolation("messages.id"));
      }
      var m := Message(id, conversationId, sender, text, timestamp);
      ghost var before := messages;
      WellFormedAppend(conversations, before, earlier, m);
      messages := messages + [m];
      var touched := UpdateConversationTimestamp(conversationId);
      r := Success(m);
    }

    /** getMessagesByConversation: the conversation's messages, oldest first. */
    function GetMessagesByConversation(c: string): (r: Result<seq<Message>, StoreError>)
      reads this
      requires Valid()
      ensures r.Failure? <==> !initialized
      ensures r.Failure? ==> r.error == NotInitialized
      ensures r.Success? ==> Ascending(r.value)
      ensures r.Success? ==> forall m :: m in r.value <==> m in messages && m.conversationId == c
    {
      if !initialized then Failure(NotInitialized)
      else
        ConversationMessagesAscending(messages, c);
        Success(ConversationMessages(messages, c))
    }

    /** getRecentMessages: at most `limit` of the newest messages, oldest first. */
    function GetRecentMessages(c: string, limit: nat): (r: Result<seq<Message>, StoreError>)
      reads this
      requires Valid()
      ensures r.Failure? <==> !initialized
      ensures r.Failure? ==> r.error == NotInitialized
      ensures r.Success? ==>
        var all := ConversationMessages(messages, c);
        && |r.value| == Min(limit, |all|)
        && r.value == all[|all| - |r.value|..]
        && Ascending(r.value)
    {
      if !initialized then Failure(NotInitialized)
      else
        var recent := RecentMessages(messages, c, limit);
        ConversationMessagesAscending(messages, c);
        Success(recent)
    }
  }
}
