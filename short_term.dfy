/**
 * `ShortTermMemory` (app/memory/short_term.py): a global message buffer
 * bounded like `deque(maxlen=max_messages)` and one such buffer per session.
 * The clock reading `datetime.utcnow()` is a parameter.
 */
module ShortTerm {
  import opened Common
  import opened Text
  import opened RagState

  /**
   * `deque(maxlen=max).append(m)`: the message goes to the end, and when the
   * buffer was full the oldest message is dropped.
   */
  function BoundedAppend(buf: seq<Message>, m: Message, max: nat): (r: seq<Message>)
    ensures |r| <= max
    ensures |r| == if |buf| + 1 <= max then |buf| + 1 else max
    ensures max > 0 ==> r[|r| - 1] == m
  {
    Last(buf + [m], max)
  }

  /** What survives an append is the newest part of the buffer followed by the message. */
  lemma BoundedAppendKeepsNewest(buf: seq<Message>, m: Message, max: nat)
    ensures var r := BoundedAppend(buf, m, max);
      r == (buf + [m])[|buf| + 1 - |r|..]
  {
  }

  /** Appending to a buffer that is not full keeps everything; appending to a full one drops exactly the oldest. */
  lemma BoundedAppendCases(buf: seq<Message>, m: Message, max: nat)
    requires |buf| <= max
    ensures |buf| < max ==> BoundedAppend(buf, m, max) == buf + [m]
    ensures 0 < |buf| == max ==> BoundedAppend(buf, m, max) == buf[1..] + [m]
    ensures max == 0 ==> BoundedAppend(buf, m, max) == []
  {
    if 0 < |buf| == max {
      assert (buf + [m])[1..] == buf[1..] + [m];
    }
  }

  /** Two appends leave the two messages, in order, at the end of a buffer that holds at least two. */
  lemma {:induction false} BoundedAppendTwice(buf: seq<Message>, a: Message, b: Message, max: nat)
    requires |buf| <= max && max >= 2
    ensures var r := BoundedAppend(BoundedAppend(buf, a, max), b, max);
      |r| >= 2 && r[|r| - 2] == a && r[|r| - 1] == b
  {
    var r1 := BoundedAppend(buf, a, max);
    var r := BoundedAppend(r1, b, max);
    assert r == (r1 + [b])[|r1| + 1 - |r|..];
    assert |r1| >= 1 && r1[|r1| - 1] == a;
    assert r[|r| - 2] == (r1 + [b])[|r1| - 1];
  }

  /** `get_messages(limit)`: every message, or for a truthy limit `messages[-limit:]`. */
  function Limited(msgs: seq<Message>, limit: Option<int>): (r: seq<Message>)
    ensures limit.None? || limit == Some(0) ==> r == msgs
    ensures limit.Some? && limit.value > 0 ==> r == Last(msgs, limit.value)
    ensures limit.Some? && limit.value < 0 ==>
      r == (if -limit.value >= |msgs| then [] else msgs[-limit.value..])
  {
    if limit.None? || limit == Some(0) then msgs else SliceFrom(msgs, -limit.value)
  }

  /** The "ROLE: content" line of a message. */
  function ContextLine(m: Message): string {
    Upper(m.role) + ": " + m.content
  }

  function ContextLines(msgs: seq<Message>): (lines: seq<string>)
    ensures |lines| == |msgs|
    ensures forall i :: 0 <= i < |msgs| ==> lines[i] == ContextLine(msgs[i])
  {
    seq(|msgs|, i requires 0 <= i < |msgs| => ContextLine(msgs[i]))
  }

  datatype Stats = Stats(totalMessages: nat, totalSessions: nat, maxCapacity: nat, utilization: real)

  /** `get_stats` divides by `max_messages`, so a zero capacity raises. */
  datatype StatsError = ZeroDivision

  class ShortTermMemory {
    const maxMessages: nat
    var messages: seq<Message>
    var sessions: map<string, seq<Message>>

    ghost predicate Valid()
      reads this
    {
      |messages| <= maxMessages
      && forall sid :: sid in sessions ==> |sessions[sid]| <= maxMessages
    }

    constructor (maxMessages: nat)
      ensures Valid()
      ensures this.maxMessages == maxMessages && messages == [] && sessions == map[]
    {
      this.maxMessages := maxMessages;
      messages := [];
      sessions := map[];
    }

    /** `add_message`: only the global buffer changes. */
    method AddMessage(role: string, content: string, metadata: map<string, Json>, now: nat)
      requires Valid()
      modifies this`messages
      ensures Valid()
      ensures messages == BoundedAppend(old(messages), Message(role, content, now, metadata), maxMessages)
    {
      messages := BoundedAppend(messages, Message(role, content, now, metadata), maxMessages);
    }

    /** `add_message_for_session`: creates the session's buffer on first use; only that buffer changes. */
    method AddMessageForSession(sessionId: string, role: string, content: string, metadata: map<string, Json>, now: nat)
      requires Valid()
      modifies this`sessions
      ensures Valid()
      ensures sessionId in sessions && sessions.Keys == old(sessions).Keys + {sessionId}
      ensures sessions[sessionId] ==
        BoundedAppend(if sessionId in old(sessions) then old(sessions)[sessionId] else [],
                      Message(role, content, now, metadata), maxMessages)
      ensures forall sid :: sid in old(sessions) && sid != sessionId ==> sessions[sid] == old(sessions)[sid]
      ensures sessions == old(sessions)[sessionId := sessions[sessionId]]
    {
      var buf := if sessionId in sessions then sessions[sessionId] else [];
      sessions := sessions[sessionId := BoundedAppend(buf, Message(role, content, now, metadata), maxMessages)];
    }

    /** `get_messages`: insertion order; a truthy limit keeps the last `limit` (or drops the first `-limit`). */
    method GetMessages(limit: Option<int>) returns (r: seq<Message>)
      ensures limit.None? || limit == Some(0) ==> r == messages
      ensures limit.Some? && limit.value > 0 ==>
        |r| == (if limit.value < |messages| then limit.value else |messages|)
        && r == messages[|messages| - |r|..]
      ensures limit.Some? && limit.value < 0 ==>
        r == (if -limit.value >= |messages| then [] else messages[-limit.value..])
    {
      r := Limited(messages, limit);
    }

    /** `get_history`: an unknown session yields [] and is not created. */
    method GetHistory(sessionId: string) returns (r: seq<Message>)
      ensures sessionId !in sessions ==> r == []
      ensures sessionId in sessions ==> r == sessions[sessionId]
    {
      if sessionId !in sessions {
        return [];
      }
      r := sessions[sessionId];
    }

    /** `get_context_string`: the "ROLE: content" line of every global message, joined by newlines. */
    method GetContextString() returns (s: string)
      ensures s == Join("\n", ContextLines(messages))
    {
      var parts: seq<string> := [];
      var i := 0;
      while i < |messages|
        invariant 0 <= i <= |messages|
        invariant |parts| == i
        invariant forall k :: 0 <= k < i ==> parts[k] == ContextLine(messages[k])
      {
        parts := parts + [ContextLine(messages[i])];
        i := i + 1;
      }
      assert parts == ContextLines(messages);
      s := Join("\n", parts);
    }

    /** `clear`: empties the global buffer and forgets every session. */
    method Clear()
      requires Valid()
      modifies this`messages, this`sessions
      ensures Valid()
      ensures messages == [] && sessions == map[]
    {
      messages := [];
      sessions := map[];
    }

    /** `get_stats`: counts, capacity and utilisation; a zero capacity raises. */
    method GetStats() returns (r: Result<Stats, StatsError>)
      ensures maxMessages == 0 <==> r.Failure?
      ensures r.Success? ==>
        r.value.totalMessages == |messages| && r.value.totalSessions == |sessions.Keys|
        && r.value.maxCapacity == maxMessages
        && r.value.utilization * (maxMessages as real) == |messages| as real
    {
      if maxMessages == 0 {
        return Failure(ZeroDivision);
      }
      r := Success(Stats(|messages|, |sessions.Keys|, maxMessages, (|messages| as real) / (maxMessages as real)));
    }
  }
}
