/**
 * `LongTermMemory` (app/memory/long_term.py): four SQLite tables, each
 * modelled as its rows in rowid (insertion) order. The clock
 * `datetime.utcnow()` is a `nat` parameter (ISO timestamps of one format
 * compare as text in the order of the instants they name), and an SQLite
 * error is a fault parameter.
 */
module LongTerm {
  import opened Common
  import opened Text
  import opened RagState

  // ---------------------------------------------------------------------------
  // rows

  datatype Conversation = Conversation(sessionId: string, createdAt: nat, updatedAt: nat, metadata: map<string, Json>)
  datatype MessageRow = MessageRow(sessionId: string, role: string, content: string, timestamp: nat, metadata: map<string, Json>)
  datatype Interaction = Interaction(
    userId: string, sessionId: string, query: string, answer: string, createdAt: nat, metadata: map<string, Json>)
  datatype Fact = Fact(sessionId: string, key: string, value: string, createdAt: nat)

  // ---------------------------------------------------------------------------
  // WHERE and ORDER BY

  /** The rows a WHERE clause keeps, in table order. */
  function Filter<T(!new)>(rows: seq<T>, keep: T -> bool): (r: seq<T>)
    ensures |r| <= |rows|
    ensures forall i :: 0 <= i < |r| ==> keep(r[i])
    ensures forall x :: x in r <==> x in rows && keep(x)
  {
    if |rows| == 0 then []
    else if keep(rows[0]) then [rows[0]] + Filter(rows[1..], keep)
    else Filter(rows[1..], keep)
  }

  lemma {:induction false} FilterNone<T(!new)>(rows: seq<T>, keep: T -> bool)
    requires forall i :: 0 <= i < |rows| ==> !keep(rows[i])
    ensures Filter(rows, keep) == []
  {
    if |rows| > 0 {
      FilterNone(rows[1..], keep);
    }
  }

  lemma FilterAppend<T(!new)>(rows: seq<T>, x: T, keep: T -> bool)
    ensures Filter(rows + [x], keep) == Filter(rows, keep) + (if keep(x) then [x] else [])
  {
    if |rows| > 0 {
      assert (rows + [x])[1..] == rows[1..] + [x];
    }
  }

  ghost predicate SortedBy<T>(s: seq<T>, key: T -> int) {
    forall i, j :: 0 <= i < j < |s| ==> key(s[i]) <= key(s[j])
  }

  /** Puts `x` before the first element whose key is not smaller. */
  function Insert<T>(x: T, s: seq<T>, key: T -> int): seq<T> {
    if |s| == 0 then [x]
    else if key(x) <= key(s[0]) then [x] + s
    else [s[0]] + Insert(x, s[1..], key)
  }

  /** ORDER BY key ASC, ties kept in table order. */
  function SortBy<T>(s: seq<T>, key: T -> int): seq<T> {
    if |s| == 0 then [] else Insert(s[0], SortBy(s[1..], key), key)
  }

  lemma {:induction false} InsertMultiset<T>(x: T, s: seq<T>, key: T -> int)
    ensures multiset(Insert(x, s, key)) == multiset(s) + multiset{x}
  {
    if |s| > 0 && key(x) > key(s[0]) {
      InsertMultiset(x, s[1..], key);
      assert s == [s[0]] + s[1..];
    }
  }

  /** A lower bound on `x` and on every key of `s` bounds every key after the insertion. */
  lemma {:induction false} InsertLowerBound<T>(x: T, s: seq<T>, key: T -> int, b: int)
    requires b <= key(x)
    requires forall i :: 0 <= i < |s| ==> b <= key(s[i])
    ensures forall i :: 0 <= i < |Insert(x, s, key)| ==> b <= key(Insert(x, s, key)[i])
  {
    if |s| > 0 && key(x) > key(s[0]) {
      InsertLowerBound(x, s[1..], key, b);
      var rest := Insert(x, s[1..], key);
      assert Insert(x, s, key) == [s[0]] + rest;
    }
  }

  lemma {:induction false} InsertSorted<T>(x: T, s: seq<T>, key: T -> int)
    requires SortedBy(s, key)
    ensures SortedBy(Insert(x, s, key), key)
  {
    if |s| > 0 && key(x) > key(s[0]) {
      var rest := Insert(x, s[1..], key);
      InsertSorted(x, s[1..], key);
      InsertLowerBound(x, s[1..], key, key(s[0]));
      var r := [s[0]] + rest;
      assert r == Insert(x, s, key);
      forall i, j | 0 <= i < j < |r| ensures key(r[i]) <= key(r[j]) {
        assert r[j] == rest[j - 1];
        if i > 0 {
          assert r[i] == rest[i - 1];
        }
      }
    }
  }

  /** The sort orders by the key and only reorders. */
  lemma {:induction false} SortByCorrect<T>(s: seq<T>, key: T -> int)
    ensures SortedBy(SortBy(s, key), key)
    ensures multiset(SortBy(s, key)) == multiset(s)
  {
    if |s| > 0 {
      SortByCorrect(s[1..], key);
      InsertSorted(s[0], SortBy(s[1..], key), key);
      InsertMultiset(s[0], SortBy(s[1..], key), key);
      assert s == [s[0]] + s[1..];
    }
  }

  // ---------------------------------------------------------------------------
  // the query results

  /** `WHERE session_id = ?` on messages. */
  function InSession(sessionId: string): MessageRow -> bool {
    (m: MessageRow) => m.sessionId == sessionId
  }

  /** `ORDER BY timestamp ASC`. */
  const ByTimestamp: MessageRow -> int := (m: MessageRow) => m.timestamp as int

  /** `get_session_messages`' rows: that session's messages by ascending timestamp. */
  function SessionMessages(rows: seq<MessageRow>, sessionId: string): seq<MessageRow> {
    SortBy(Filter(rows, InSession(sessionId)), ByTimestamp)
  }

  /** The dicts `get_session_messages` builds from its rows. */
  function ToMessages(rows: seq<MessageRow>): (r: seq<Message>)
    ensures |r| == |rows|
    ensures forall i :: 0 <= i < |rows| ==>
      r[i] == Message(rows[i].role, rows[i].content, rows[i].timestamp, rows[i].metadata)
  {
    seq(|rows|, i requires 0 <= i < |rows| => Message(rows[i].role, rows[i].content, rows[i].timestamp, rows[i].metadata))
  }

  /** Only the session's messages, all of them, in ascending timestamp order. */
  lemma SessionMessagesCorrect(rows: seq<MessageRow>, sessionId: string)
    ensures var r := SessionMessages(rows, sessionId);
      (forall i :: 0 <= i < |r| ==> r[i].sessionId == sessionId)
      && (forall i, j :: 0 <= i < j < |r| ==> r[i].timestamp <= r[j].timestamp)
      && multiset(r) == multiset(Filter(rows, InSession(sessionId)))
  {
    var f := Filter(rows, InSession(sessionId));
    SortByCorrect(f, ByTimestamp);
    var r := SessionMessages(rows, sessionId);
    forall i | 0 <= i < |r| ensures r[i].sessionId == sessionId {
      assert r[i] in multiset(f);
    }
  }

  /** `WHERE user_id = ?` on interactions. */
  function ByUser(userId: string): Interaction -> bool {
    (x: Interaction) => x.userId == userId
  }

  /** `ORDER BY created_at DESC`. */
  const Newest: Interaction -> int := (x: Interaction) => -(x.createdAt as int)

  /** The interaction rows `get_user_interactions` returns: that user's, newest first, at most `limit` (a negative LIMIT means no limit: all rows). */
  function UserInteractions(rows: seq<Interaction>, userId: string, limit: int): seq<Interaction> {
    var sorted := SortBy(Filter(rows, ByUser(userId)), Newest);
    if limit < 0 || limit >= |sorted| then sorted else sorted[..limit]
  }

  /** Every returned row is the user's, and they come newest first. */
  lemma UserInteractionsSound(rows: seq<Interaction>, userId: string, limit: int)
    ensures var r := UserInteractions(rows, userId, limit);
      (forall i :: 0 <= i < |r| ==> r[i].userId == userId && r[i] in rows)
      && (forall i, j :: 0 <= i < j < |r| ==> r[i].createdAt >= r[j].createdAt)
  {
    var f := Filter(rows, ByUser(userId));
    SortByCorrect(f, Newest);
    var sorted := SortBy(f, Newest);
    var r := UserInteractions(rows, userId, limit);
    forall i | 0 <= i < |r| ensures r[i].userId == userId && r[i] in rows {
      assert r[i] == sorted[i];
      assert sorted[i] in multiset(f);
    }
    forall i, j | 0 <= i < j < |r| ensures r[i].createdAt >= r[j].createdAt {
      assert r[i] == sorted[i] && r[j] == sorted[j];
      assert Newest(sorted[i]) <= Newest(sorted[j]);
    }
  }

  /** As many of the user's rows as the limit allows, and none left out is newer than one returned. */
  lemma UserInteractionsComplete(rows: seq<Interaction>, userId: string, limit: int)
    ensures var f := Filter(rows, ByUser(userId));
      var r := UserInteractions(rows, userId, limit);
      |r| == (if limit < 0 || limit >= |f| then |f| else limit)
      && multiset(r) <= multiset(f)
      && (forall x: Interaction, i :: x in multiset(f) - multiset(r) && 0 <= i < |r| ==> x.createdAt <= r[i].createdAt)
  {
    var f := Filter(rows, ByUser(userId));
    SortByCorrect(f, Newest);
    var sorted := SortBy(f, Newest);
    var r := UserInteractions(rows, userId, limit);
    NewestFirstPrefix(f, sorted, |r|);
    assert r == sorted[..|r|];
  }

  /** The first `n` rows of a newest-first ordering of `f` are rows of `f`, and no row of `f` left out is newer. */
  lemma NewestFirstPrefix(f: seq<Interaction>, sorted: seq<Interaction>, n: nat)
    requires multiset(sorted) == multiset(f) && SortedBy(sorted, Newest) && n <= |sorted|
    ensures |sorted| == |f|
    ensures multiset(sorted[..n]) <= multiset(f)
    ensures forall x: Interaction, i :: x in multiset(f) - multiset(sorted[..n]) && 0 <= i < n ==> x.createdAt <= sorted[i].createdAt
  {
    assert |multiset(sorted)| == |multiset(f)|;
    var rest := sorted[n..];
    assert sorted == sorted[..n] + rest;
    assert multiset(f) == multiset(sorted[..n]) + multiset(rest);
    forall x: Interaction, i | x in multiset(f) - multiset(sorted[..n]) && 0 <= i < n ensures x.createdAt <= sorted[i].createdAt {
      assert x in multiset(rest);
      var k :| 0 <= k < |rest| && rest[k] == x;
      assert Newest(sorted[i]) <= Newest(sorted[n + k]);
    }
  }

  /**
   * Only the user's rows, newest first, as many as the limit allows, and
   * none of the user's rows left out is newer than a returned one.
   */
  lemma UserInteractionsCorrect(rows: seq<Interaction>, userId: string, limit: int)
    ensures var r := UserInteractions(rows, userId, limit);
      (forall i :: 0 <= i < |r| ==> r[i].userId == userId && r[i] in rows)
      && (forall i, j :: 0 <= i < j < |r| ==> r[i].createdAt >= r[j].createdAt)
    ensures var f := Filter(rows, ByUser(userId));
      var r := UserInteractions(rows, userId, limit);
      |r| == (if limit < 0 || limit >= |f| then |f| else limit)
      && multiset(r) <= multiset(f)
      && (forall x: Interaction, i :: x in multiset(f) - multiset(r) && 0 <= i < |r| ==> x.createdAt <= r[i].createdAt)
  {
    UserInteractionsSound(rows, userId, limit);
    UserInteractionsComplete(rows, userId, limit);
  }

  /** `{key: value for key, value in rows}` over the session's facts: a later row overwrites an earlier one. */
  function FactsOf(rows: seq<Fact>, sessionId: string): map<string, string> {
    if |rows| == 0 then map[]
    else
      var earlier := FactsOf(rows[..|rows| - 1], sessionId);
      var last := rows[|rows| - 1];
      if last.sessionId == sessionId then earlier[last.key := last.value] else earlier
  }

  /** A key is present exactly when the session has a fact row with that key. */
  lemma {:induction false} FactsOfKeys(rows: seq<Fact>, sessionId: string, key: string)
    ensures key in FactsOf(rows, sessionId) <==> (exists i :: 0 <= i < |rows| && rows[i].sessionId == sessionId && rows[i].key == key)
  {
    if |rows| > 0 {
      var init := rows[..|rows| - 1];
      FactsOfKeys(init, sessionId, key);
      if exists i :: 0 <= i < |init| && init[i].sessionId == sessionId && init[i].key == key {
        var i :| 0 <= i < |init| && init[i].sessionId == sessionId && init[i].key == key;
        assert rows[i] == init[i];
      }
      if exists i :: 0 <= i < |rows| && rows[i].sessionId == sessionId && rows[i].key == key {
        var i :| 0 <= i < |rows| && rows[i].sessionId == sessionId && rows[i].key == key;
        if i < |init| {
          assert init[i] == rows[i];
        }
      }
    }
  }

  /** After `store_fact(s, k, v)`, `get_facts(s)` maps k to v and leaves the other keys as they were. */
  lemma StoreFactThenGetFacts(rows: seq<Fact>, sessionId: string, key: string, value: string, now: nat)
    ensures var facts := FactsOf(rows + [Fact(sessionId, key, value, now)], sessionId);
      key in facts && facts[key] == value
      && (forall k :: k != key ==> (k in facts <==> k in FactsOf(rows, sessionId)))
      && (forall k :: k != key && k in facts ==> facts[k] == FactsOf(rows, sessionId)[k])
  {
    assert (rows + [Fact(sessionId, key, value, now)])[..|rows|] == rows;
  }

  /** Another session's facts are unaffected by `store_fact`. */
  lemma StoreFactOtherSession(rows: seq<Fact>, sessionId: string, other: string, key: string, value: string, now: nat)
    requires other != sessionId
    ensures FactsOf(rows + [Fact(sessionId, key, value, now)], other) == FactsOf(rows, other)
  {
    assert (rows + [Fact(sessionId, key, value, now)])[..|rows|] == rows;
  }

  // ---------------------------------------------------------------------------
  // conversations

  ghost predicate UniqueSessions(convs: seq<Conversation>) {
    forall i, j :: 0 <= i < j < |convs| ==> convs[i].sessionId != convs[j].sessionId
  }

  predicate HasSession(convs: seq<Conversation>, sessionId: string) {
    exists i :: 0 <= i < |convs| && convs[i].sessionId == sessionId
  }

  /** INSERT OR IGNORE: a new row only when no row has that session id. */
  function EnsureSession(convs: seq<Conversation>, sessionId: string, now: nat, metadata: map<string, Json>): seq<Conversation> {
    if HasSession(convs, sessionId) then convs else convs + [Conversation(sessionId, now, now, metadata)]
  }

  /** `UPDATE conversations SET updated_at = ? WHERE session_id = ?`. */
  function SetUpdatedAt(convs: seq<Conversation>, sessionId: string, now: nat): (r: seq<Conversation>)
    ensures |r| == |convs|
    ensures forall i :: 0 <= i < |convs| ==>
      r[i] == (if convs[i].sessionId == sessionId then convs[i].(updatedAt := now) else convs[i])
  {
    seq(|convs|, i requires 0 <= i < |convs| =>
      if convs[i].sessionId == sessionId then convs[i].(updatedAt := now) else convs[i])
  }

  /** `create_session` keeps at most one row per session, the session exists afterwards, and repeating it changes nothing. */
  lemma EnsureSessionCorrect(convs: seq<Conversation>, sessionId: string, t1: nat, t2: nat, m1: map<string, Json>, m2: map<string, Json>)
    requires UniqueSessions(convs)
    ensures UniqueSessions(EnsureSession(convs, sessionId, t1, m1))
    ensures HasSession(EnsureSession(convs, sessionId, t1, m1), sessionId)
    ensures EnsureSession(EnsureSession(convs, sessionId, t1, m1), sessionId, t2, m2) == EnsureSession(convs, sessionId, t1, m1)
  {
    var c := EnsureSession(convs, sessionId, t1, m1);
    if !HasSession(convs, sessionId) {
      assert c[|c| - 1].sessionId == sessionId;
    }
  }

  lemma SetUpdatedAtKeepsSessions(convs: seq<Conversation>, sessionId: string, now: nat)
    requires UniqueSessions(convs)
    ensures UniqueSessions(SetUpdatedAt(convs, sessionId, now))
    ensures forall s :: HasSession(SetUpdatedAt(convs, sessionId, now), s) <==> HasSession(convs, s)
  {
    var r := SetUpdatedAt(convs, sessionId, now);
    forall s ensures HasSession(r, s) <==> HasSession(convs, s) {
      if HasSession(convs, s) {
        var i :| 0 <= i < |convs| && convs[i].sessionId == s;
        assert r[i].sessionId == s;
      }
      if HasSession(r, s) {
        var i :| 0 <= i < |r| && r[i].sessionId == s;
        assert convs[i].sessionId == s;
      }
    }
  }

  /** A message added to a session with no messages is then its only message (tests/test_memory.py). */
  lemma AddMessageThenRead(rows: seq<MessageRow>, m: MessageRow)
    requires forall i :: 0 <= i < |rows| ==> rows[i].sessionId != m.sessionId
    ensures SessionMessages(rows + [m], m.sessionId) == [m]
  {
    FilterAppend(rows, m, InSession(m.sessionId));
    FilterNone(rows, InSession(m.sessionId));
    assert InSession(m.sessionId)(m);
    assert Filter(rows + [m], InSession(m.sessionId)) == [m];
    assert [m][1..] == [];
    assert SortBy([m], ByTimestamp) == Insert(m, SortBy([], ByTimestamp), ByTimestamp) == [m];
  }

  // ---------------------------------------------------------------------------
  // the store

  class LongTermMemory {
    var conversations: seq<Conversation>
    var messages: seq<MessageRow>
    var interactions: seq<Interaction>
    var facts: seq<Fact>

    ghost predicate Valid()
      reads this
    {
      UniqueSessions(conversations)
    }

    /** A database whose schema is in place, holding the given tables. */
    constructor (conversations: seq<Conversation>, messages: seq<MessageRow>, interactions: seq<Interaction>, facts: seq<Fact>)
      requires UniqueSessions(conversations)
      ensures Valid()
      ensures this.conversations == conversations && this.messages == messages
      ensures this.interactions == interactions && this.facts == facts
    {
      this.conversations := conversations;
      this.messages := messages;
      this.interactions := interactions;
      this.facts := facts;
    }

    /** `__init__`: CREATE TABLE IF NOT EXISTS on a new database; a schema error is re-raised (None). */
    static method Open(schemaFault: bool) returns (r: Option<LongTermMemory>)
      ensures r.None? <==> schemaFault
      ensures r.Some? ==> fresh(r.value) && r.value.Valid()
      ensures r.Some? ==> r.value.conversations == [] && r.value.messages == []
      ensures r.Some? ==> r.value.interactions == [] && r.value.facts == []
    {
      if schemaFault {
        return None;
      }
      var m := new LongTermMemory([], [], [], []);
      return Some(m);
    }

    /** `create_session`: INSERT OR IGNORE; an error changes nothing. */
    method CreateSession(sessionId: string, metadata: map<string, Json>, now: nat, fault: bool)
      requires Valid()
      modifies this`conversations
      ensures Valid()
      ensures conversations == if fault then old(conversations) else EnsureSession(old(conversations), sessionId, now, metadata)
    {
      if !fault {
        EnsureSessionCorrect(conversations, sessionId, now, now, metadata, metadata);
        conversations := EnsureSession(conversations, sessionId, now, metadata);
      }
    }

    /**
     * `add_message`: `create_session` (its own error is swallowed there), then
     * one message row and the session's `updated_at`, committed together.
     */
    method AddMessage(sessionId: string, role: string, content: string, metadata: map<string, Json>, now: nat,
                      sessionFault: bool, writeFault: bool)
      requires Valid()
      modifies this`conversations, this`messages
      ensures Valid()
      ensures var afterCreate := if sessionFault then old(conversations) else EnsureSession(old(conversations), sessionId, now, map[]);
        if writeFault then conversations == afterCreate && messages == old(messages)
        else (conversations == SetUpdatedAt(afterCreate, sessionId, now)
              && messages == old(messages) + [MessageRow(sessionId, role, content, now, metadata)])
    {
      CreateSession(sessionId, map[], now, sessionFault);
      if writeFault {
        return;
      }
      messages := messages + [MessageRow(sessionId, role, content, now, metadata)];
      SetUpdatedAtKeepsSessions(conversations, sessionId, now);
      conversations := SetUpdatedAt(conversations, sessionId, now);
    }

    /** `store_interaction`: appends one row; an error changes nothing. */
    method StoreInteraction(userId: string, sessionId: string, query: string, answer: string,
                            metadata: map<string, Json>, now: nat, fault: bool)
      modifies this`interactions
      ensures interactions ==
        (if fault then old(interactions) else old(interactions) + [Interaction(userId, sessionId, query, answer, now, metadata)])
    {
      if !fault {
        interactions := interactions + [Interaction(userId, sessionId, query, answer, now, metadata)];
      }
    }

    /** `store_fact`: appends one row; an error changes nothing. */
    method StoreFact(sessionId: string, key: string, value: string, now: nat, fault: bool)
      modifies this`facts
      ensures facts == if fault then old(facts) else old(facts) + [Fact(sessionId, key, value, now)]
    {
      if !fault {
        facts := facts + [Fact(sessionId, key, value, now)];
      }
    }

    /** `get_session_messages`: [] on error. */
    method GetSessionMessages(sessionId: string, fault: bool) returns (r: seq<Message>)
      ensures r == if fault then [] else ToMessages(SessionMessages(messages, sessionId))
    {
      if fault {
        return [];
      }
      r := ToMessages(SessionMessages(messages, sessionId));
    }

    /** `get_facts`: {} on error. */
    method GetFacts(sessionId: string, fault: bool) returns (r: map<string, string>)
      ensures r == if fault then map[] else FactsOf(facts, sessionId)
    {
      if fault {
        return map[];
      }
      r := FactsOf(facts, sessionId);
    }

    /** `get_user_interactions`: [] on error. */
    method GetUserInteractions(userId: string, limit: int, fault: bool) returns (r: seq<Interaction>)
      ensures r == if fault then [] else UserInteractions(interactions, userId, limit)
    {
      if fault {
        return [];
      }
      r := UserInteractions(interactions, userId, limit);
    }
  }
}
