/** `ConversationManager`: per-session message history kept in a `MemoryStore`
    under the key "conversation:<session id>", trimmed to the last
    `max_history` messages (oldest first out, whatever their role). */
module Conversation {

  import opened Wrappers
  import opened PyText
  import opened Messages
  import opened Memory

  type History = seq<Message>

  function HistoryKey(sessionId: string): (k: string)
    ensures StartsWith(k, "conversation:") && k[13..] == sessionId
  {
    "conversation:" + sessionId
  }

  /** `history[-max_history:]`: the last `max_history` messages, all of them
      when `max_history` is 0 (Python's `-0` slice), and for a negative value
      the history without its first `-max_history` messages. */
  function Recent(h: History, maxHistory: int): (r: History)
    ensures maxHistory >= 1 ==> |r| == (if |h| < maxHistory then |h| else maxHistory)
    ensures maxHistory == 0 ==> r == h
    ensures |r| <= |h| && r == h[|h| - |r|..]
  {
    SliceFrom(h, -maxHistory)
  }

  /** The trimming step of `add_message`. */
  function Trimmed(h: History, maxHistory: int): (r: History)
    ensures maxHistory >= 0 && |h| <= maxHistory ==> r == h
    ensures maxHistory >= 0 ==> r == Recent(h, maxHistory)
  {
    if |h| > maxHistory then Recent(h, maxHistory) else h
  }

  /** `memory.get(key, [])` for a session: the stored history (or `None`,
      if Python `None` was stored there) and the store afterwards. */
  function Load(s: Store<History>, sessionId: string, now: int): (r: (Option<History>, Store<History>))
    requires StoreValid(s)
    ensures StoreValid(r.1)
  {
    Lookup(s, HistoryKey(sessionId), Some([]), now)
  }

  /** `get_messages`: slicing a stored `None` raises TypeError. */
  function MessagesOf(s: Store<History>, sessionId: string, maxHistory: int, now: int): (r: (Outcome<History>, Store<History>))
    requires StoreValid(s)
    ensures StoreValid(r.1)
  {
    var (h, s') := Load(s, sessionId, now);
    if h.None? then (Raised(Exception(TypeError, "'NoneType' object is not subscriptable")), s')
    else (Ok(Recent(h.value, maxHistory)), s')
  }

  /** The message `add_message` records. */
  function NewMessage(role: string, content: string, metadata: Option<map<string, string>>, now: int): Message {
    Message(role, content, Recorded(now, if metadata.Some? then metadata.value else map[]))
  }

  /** `add_message`: append, trim, write back (without a TTL, so an earlier
      deadline on the key would still apply). Appending to a stored `None`
      raises AttributeError. */
  function AfterAdd(s: Store<History>, sessionId: string, m: Message, maxHistory: int, now: int): (r: (Outcome<()>, Store<History>))
    requires StoreValid(s)
    ensures StoreValid(r.1)
    ensures Load(s, sessionId, now).0.None? ==> r.0.Raised?
    ensures Load(s, sessionId, now).0.Some? ==>
      && r.0 == Ok(())
      && HistoryKey(sessionId) in r.1.cache.items
      && r.1.cache.items[HistoryKey(sessionId)] == Some(Trimmed(Load(s, sessionId, now).0.value + [m], maxHistory))
      && !Expired(r.1, HistoryKey(sessionId), now)
      && (HistoryKey(sessionId) !in s.ttl ==> HistoryKey(sessionId) !in r.1.ttl)
  {
    var (h, s') := Load(s, sessionId, now);
    if h.None? then (Raised(Exception(AttributeError, "'NoneType' object has no attribute 'append'")), s')
    else (Ok(()), Assigned(s', HistoryKey(sessionId), Some(Trimmed(h.value + [m], maxHistory)), None, now))
  }

  /** `clear_session`. */
  function Cleared(s: Store<History>, sessionId: string): (r: Store<History>)
    requires StoreValid(s)
    ensures StoreValid(r)
    ensures HistoryKey(sessionId) !in r.cache.items
  {
    Deleted(s, HistoryKey(sessionId))
  }

  /** One line of `get_context`: "Role: " and the first 200 characters. */
  function ContextLine(m: Message): string {
    Capitalize(m.role) + ": " + Prefix(m.content, 200)
  }

  function ContextLines(ms: History): (lines: seq<string>)
    ensures |lines| == |ms|
    ensures forall i :: 0 <= i < |ms| ==> lines[i] == ContextLine(ms[i])
  {
    seq(|ms|, i requires 0 <= i < |ms| => ContextLine(ms[i]))
  }

  /** `get_context`: the last `window` retained messages, one line each. */
  function ContextOf(s: Store<History>, sessionId: string, window: int, maxHistory: int, now: int): (r: (Outcome<string>, Store<History>))
    requires StoreValid(s)
    ensures StoreValid(r.1)
  {
    var (ms, s') := MessagesOf(s, sessionId, maxHistory, now);
    if ms.Raised? then (Raised(ms.exc), s')
    else (Ok(Join(ContextLines(SliceFrom(ms.value, -window)), "\n")), s')
  }

  /** Messages of one role. */
  function CountRole(ms: History, role: string): (n: nat)
    ensures n <= |ms|
  {
    if ms == [] then 0
    else (if ms[0].role == role then 1 else 0) + CountRole(ms[1..], role)
  }

  function TimestampOf(m: Message): Option<int> {
    if m.extra.Recorded? then Some(m.extra.timestamp) else None
  }

  /** The result of `get_summary` (without its duration). */
  datatype Summary =
    | NoMessages
    | Stats(messageCount: nat, userMessages: nat, assistantMessages: nat,
            firstMessageAt: Option<int>, lastMessageAt: Option<int>)

  function SummaryOf(ms: History): (r: Summary)
    ensures ms == [] <==> r == NoMessages
    ensures r.Stats? ==> r.messageCount == |ms| && r.userMessages + r.assistantMessages <= r.messageCount
  {
    if ms == [] then NoMessages
    else
      RolesDisjoint(ms, "user", "assistant");
      Stats(|ms|, CountRole(ms, "user"), CountRole(ms, "assistant"), TimestampOf(ms[0]), TimestampOf(ms[|ms| - 1]))
  }

  /** Two different roles never count the same message twice. */
  lemma {:induction false} RolesDisjoint(ms: History, a: string, b: string)
    requires a != b
    ensures CountRole(ms, a) + CountRole(ms, b) <= |ms|
  {
    if ms != [] {
      RolesDisjoint(ms[1..], a, b);
    }
  }

  class ConversationManager {
    const memory: MemoryStore<History>
    const maxHistory: int

    constructor (memory: MemoryStore<History>, maxHistory: int)
      ensures this.memory == memory && this.maxHistory == maxHistory
    {
      this.memory := memory;
      this.maxHistory := maxHistory;
    }

    method GetMessages(sessionId: string, now: int) returns (r: Outcome<History>)
      requires memory.Valid()
      modifies memory
      ensures memory.Valid()
      ensures (r, memory.State()) == MessagesOf(old(memory.State()), sessionId, maxHistory, now)
    {
      var h := memory.Get(HistoryKey(sessionId), Some([]), now);
      if h.None? {
        return Raised(Exception(TypeError, "'NoneType' object is not subscriptable"));
      }
      r := Ok(SliceFrom(h.value, -maxHistory));
    }

    method AddMessage(sessionId: string, role: string, content: string, metadata: Option<map<string, string>>, now: int)
      returns (r: Outcome<()>)
      requires memory.Valid()
      modifies memory
      ensures memory.Valid()
      ensures (r, memory.State()) == AfterAdd(old(memory.State()), sessionId, NewMessage(role, content, metadata, now), maxHistory, now)
    {
      var message := NewMessage(role, content, metadata, now);
      var h := memory.Get(HistoryKey(sessionId), Some([]), now);
      if h.None? {
        return Raised(Exception(AttributeError, "'NoneType' object has no attribute 'append'"));
      }
      var history := h.value + [message];
      if |history| > maxHistory {
        history := SliceFrom(history, -maxHistory);
      }
      memory.Set(HistoryKey(sessionId), Some(history), None, now);
      r := Ok(());
    }

    method GetContext(sessionId: string, window: int, now: int) returns (r: Outcome<string>)
      requires memory.Valid()
      modifies memory
      ensures memory.Valid()
      ensures (r, memory.State()) == ContextOf(old(memory.State()), sessionId, window, maxHistory, now)
    {
      var messages := GetMessages(sessionId, now);
      if messages.Raised? {
        return Raised(messages.exc);
      }
      var parts := FormatLines(SliceFrom(messages.value, -window));
      r := Ok(Join(parts, "\n"));
    }

    /** The list comprehension of `get_context`, one line per message. */
    method FormatLines(recent: History) returns (parts: seq<string>)
      ensures parts == ContextLines(recent)
    {
      parts := [];
      for j := 0 to |recent|
        invariant |parts| == j
        invariant forall k :: 0 <= k < j ==> parts[k] == ContextLine(recent[k])
      {
        parts := parts + [Capitalize(recent[j].role) + ": " + Prefix(recent[j].content, 200)];
      }
    }

    method ClearSession(sessionId: string)
      requires memory.Valid()
      modifies memory
      ensures memory.Valid()
      ensures memory.State() == Cleared(old(memory.State()), sessionId)
    {
      memory.Delete(HistoryKey(sessionId));
    }

    method GetSummary(sessionId: string, now: int) returns (r: Outcome<Summary>)
      requires memory.Valid()
      modifies memory
      ensures memory.Valid()
      ensures var (ms, s) := MessagesOf(old(memory.State()), sessionId, maxHistory, now);
        memory.State() == s && r == (if ms.Ok? then Ok(SummaryOf(ms.value)) else Raised(ms.exc))
    {
      var messages := GetMessages(sessionId, now);
      if messages.Raised? {
        return Raised(messages.exc);
      }
      r := Ok(SummaryOf(messages.value));
    }
  }

  /** The trimming step keeps the new message last, preceded by the newest
      part of the old history: `max_history` messages once the cap is
      reached, and all of them when the cap is 0. */
  lemma TrimmedAppend(h: History, m: Message, maxHistory: int)
    requires maxHistory >= 0
    ensures var stored := Trimmed(h + [m], maxHistory);
      && |stored| == (if maxHistory == 0 || |h| + 1 <= maxHistory then |h| + 1 else maxHistory)
      && stored == (h + [m])[|h| + 1 - |stored|..]
      && stored[|stored| - 1] == m
  {
    var stored := Trimmed(h + [m], maxHistory);
    assert |stored| >= 1;
    assert stored[|stored| - 1] == (h + [m])[|h|];
  }

  /** `add_message` on a readable history succeeds and stores exactly the
      trimmed history with the new message (role, content) appended. */
  lemma AddMessageAppends(s: Store<History>, sessionId: string, role: string, content: string,
                          metadata: Option<map<string, string>>, maxHistory: int, now: int)
    requires StoreValid(s) && maxHistory >= 0
    requires Load(s, sessionId, now).0.Some?
    ensures var h := Load(s, sessionId, now).0.value;
      var m := NewMessage(role, content, metadata, now);
      var (r, s') := AfterAdd(s, sessionId, m, maxHistory, now);
      && r == Ok(())
      && m.role == role && m.content == content
      && HistoryKey(sessionId) in s'.cache.items
      && s'.cache.items[HistoryKey(sessionId)] == Some(Trimmed(h + [m], maxHistory))
  {
  }

  /** `get_messages` returns the last `max_history` stored messages in order,
      or all of them when `max_history` is 0; an absent history reads as []. */
  lemma GetMessagesRecent(s: Store<History>, sessionId: string, maxHistory: int, now: int)
    requires StoreValid(s) && maxHistory >= 0
    requires Load(s, sessionId, now).0.Some?
    ensures var h := Load(s, sessionId, now).0.value;
      var r := MessagesOf(s, sessionId, maxHistory, now).0;
      && r.Ok?
      && (maxHistory == 0 ==> r.value == h)
      && (maxHistory >= 1 ==> |r.value| == (if |h| < maxHistory then |h| else maxHistory))
      && r.value == h[|h| - |r.value|..]
      && (HistoryKey(sessionId) !in s.cache.items ==> r.value == [])
  {
  }

  /** `clear_session` followed by `get_messages` gives the empty history. */
  lemma ClearThenGet(s: Store<History>, sessionId: string, maxHistory: int, now: int)
    requires StoreValid(s)
    ensures MessagesOf(Cleared(s, sessionId), sessionId, maxHistory, now).0 == Ok([])
  {
  }

  /** The cap evicts by age only: a system message at the front is dropped
      like any other (here with `max_history` = 1). */
  lemma SystemMessageEvicted(s: Store<History>, sessionId: string, sys: Message, now: int)
    requires StoreValid(s) && sys.role == "system"
    requires HistoryKey(sessionId) !in s.ttl
    requires s.cache.items == map[HistoryKey(sessionId) := Some([sys])]
    ensures var m := NewMessage("user", "hi", None, now);
      var s' := AfterAdd(s, sessionId, m, 1, now).1;
      s'.cache.items[HistoryKey(sessionId)] == Some([m])
  {
  }

  /** Repeated `add_message` under a cap `n >= 1`, starting from at most `n`
      messages, retains exactly the `n` most recent messages in order. */
  function AppendAll(h: History, ms: seq<Message>, maxHistory: int): History
    decreases |ms|
  {
    if ms == [] then h else AppendAll(Trimmed(h + [ms[0]], maxHistory), ms[1..], maxHistory)
  }

  lemma {:induction false} AppendAllKeepsMostRecent(h: History, ms: seq<Message>, n: int)
    requires n >= 1 && |h| <= n
    ensures AppendAll(h, ms, n) == Recent(h + ms, n)
    decreases |ms|
  {
    if ms == [] {
      assert h + ms == h;
    } else {
      var g := h + [ms[0]];
      var h1 := Trimmed(g, n);
      assert AppendAll(h, ms, n) == AppendAll(h1, ms[1..], n);
      AppendAllKeepsMostRecent(h1, ms[1..], n);
      var full := h + ms;
      assert g + ms[1..] == full;
      if |g| > n {
        assert |g| == n + 1 && h1 == g[1..];
        assert h1 + ms[1..] == full[1..];
        RecentOfSuffix(full, 1, n);
      } else {
        assert h1 == g;
      }
    }
  }

  /** Dropping a prefix that leaves at least `n` elements does not change
      the last `n`. */
  lemma RecentOfSuffix(x: History, d: nat, n: int)
    requires n >= 1 && d <= |x| && |x| - d >= n
    ensures Recent(x[d..], n) == Recent(x, n)
  {
    assert x[d..][|x| - d - n..] == x[|x| - n..];
  }

  /** Operations on one session read and write only that session's key. */
  lemma OtherSessionsUntouched(s: Store<History>, sessionId: string, m: Message, maxHistory: int, window: int, now: int, key: string)
    requires StoreValid(s) && key != HistoryKey(sessionId)
    ensures var s1 := AfterAdd(s, sessionId, m, maxHistory, now).1;
      (key in s1.cache.items <==> key in s.cache.items) && (key in s.cache.items ==> s1.cache.items[key] == s.cache.items[key])
      && (key in s1.ttl <==> key in s.ttl) && (key in s.ttl ==> s1.ttl[key] == s.ttl[key])
    ensures var s2 := MessagesOf(s, sessionId, maxHistory, now).1;
      (key in s2.cache.items <==> key in s.cache.items) && (key in s.cache.items ==> s2.cache.items[key] == s.cache.items[key])
      && (key in s2.ttl <==> key in s.ttl) && (key in s.ttl ==> s2.ttl[key] == s.ttl[key])
    ensures var s3 := Cleared(s, sessionId);
      (key in s3.cache.items <==> key in s.cache.items) && (key in s.cache.items ==> s3.cache.items[key] == s.cache.items[key])
      && (key in s3.ttl <==> key in s.ttl) && (key in s.ttl ==> s3.ttl[key] == s.ttl[key])
  {
  }

  /** `get_context` renders one line for each of the last `window` messages
      (all of them if fewer), oldest first. */
  lemma ContextOfLastMessages(ms: History, window: int)
    requires window >= 1
    ensures var n := if |ms| < window then |ms| else window;
      ContextLines(SliceFrom(ms, -window)) == ContextLines(ms[|ms| - n..])
  {
    var n := if |ms| < window then |ms| else window;
    assert SliceFrom(ms, -window) == ms[|ms| - n..];
  }

  /** Reading a history twice at the same instant reads the same thing and
      changes nothing more (an expired key is already gone). */
  lemma LoadTwice(s: Store<History>, sessionId: string, now: int)
    requires StoreValid(s)
    ensures Load(Load(s, sessionId, now).1, sessionId, now) == Load(s, sessionId, now)
  {
  }

  /** What `add_message` wrote is what the next read at the same instant
      (or at any instant, when the key has no deadline) returns; a key
      without a deadline never gains one. */
  lemma AddThenLoad(s: Store<History>, sessionId: string, m: Message, maxHistory: int, now: int, later: int)
    requires StoreValid(s) && Load(s, sessionId, now).0.Some?
    requires later == now || HistoryKey(sessionId) !in s.ttl
    ensures AfterAdd(s, sessionId, m, maxHistory, now).0 == Ok(())
    ensures var s' := AfterAdd(s, sessionId, m, maxHistory, now).1;
      && HistoryKey(sessionId) in s'.cache.items
      && s'.cache.items[HistoryKey(sessionId)] == Some(Trimmed(Load(s, sessionId, now).0.value + [m], maxHistory))
      && Load(s', sessionId, later).0 == Some(Trimmed(Load(s, sessionId, now).0.value + [m], maxHistory))
      && (HistoryKey(sessionId) !in s.ttl ==> HistoryKey(sessionId) !in s'.ttl)
  {
    var s1 := Load(s, sessionId, now).1;
    assert !Expired(s1, HistoryKey(sessionId), now);
  }

  /** A non-empty history under a key without a deadline reads back, at any
      time, as a non-empty list. */
  lemma StoredHistoryReadsBack(s: Store<History>, sessionId: string, maxHistory: int, now: int, stored: History)
    requires StoreValid(s) && maxHistory >= 1 && stored != []
    requires HistoryKey(sessionId) in s.cache.items && s.cache.items[HistoryKey(sessionId)] == Some(stored)
    requires HistoryKey(sessionId) !in s.ttl
    ensures MessagesOf(s, sessionId, maxHistory, now).0 == Ok(Recent(stored, maxHistory))
    ensures Recent(stored, maxHistory) != []
  {
  }
}
