/**
 * The client's request path (chat_app_mcp.py): the UI's history becomes the
 * agent's message list (`convert_history_to_messages`), `chat` guards on the
 * agent and appends the new message, and `respond` grows the history in place.
 */
module Conversation {
  import opened Wrappers
  import opened Text
  import opened ToolCatalog

  /** One `{"role": ..., "content": ...}` entry of the chat history. */
  datatype HistoryEntry = HistoryEntry(role: string, content: string)

  /** The message kinds of the agent's conversation. */
  datatype Message = HumanMessage(content: string) | AIMessage(content: string) | ToolMessage(content: string)

  predicate IsChatRole(role: string) {
    role == "user" || role == "assistant"
  }

  /** The message an entry converts to, if its role is kept. */
  function MessageOf(e: HistoryEntry): seq<Message> {
    if e.role == "user" then [HumanMessage(e.content)]
    else if e.role == "assistant" then [AIMessage(e.content)]
    else []
  }

  /** The list `convert_history_to_messages` builds. */
  function Converted(history: seq<HistoryEntry>): seq<Message> {
    if history == [] then []
    else Converted(history[..|history| - 1]) + MessageOf(history[|history| - 1])
  }

  /** The loop of `convert_history_to_messages`. */
  method ConvertHistoryToMessages(history: seq<HistoryEntry>) returns (messages: seq<Message>)
    ensures messages == Converted(history)
  {
    messages := [];
    var i := 0;
    while i < |history|
      invariant 0 <= i <= |history|
      invariant messages == Converted(history[..i])
    {
      var entry := history[i];
      assert history[..i + 1][..i] == history[..i];
      if entry.role == "user" {
        messages := messages + [HumanMessage(entry.content)];
      } else if entry.role == "assistant" {
        messages := messages + [AIMessage(entry.content)];
      }
      i := i + 1;
    }
    assert history[..i] == history;
  }

  /** Conversion distributes over concatenation: the kept entries stay in order. */
  lemma {:induction false} ConvertedAppend(a: seq<HistoryEntry>, b: seq<HistoryEntry>)
    ensures Converted(a + b) == Converted(a) + Converted(b)
    decreases |b|
  {
    if b == [] {
      assert a + b == a;
    } else {
      var b' := b[..|b| - 1];
      assert (a + b)[..|a + b| - 1] == a + b';
      ConvertedAppend(a, b');
    }
  }

  /** The history entries with a chat role, in order. */
  function ChatEntries(history: seq<HistoryEntry>): seq<HistoryEntry> {
    if history == [] then []
    else
      var e := history[|history| - 1];
      ChatEntries(history[..|history| - 1]) + (if IsChatRole(e.role) then [e] else [])
  }

  /** The history entry a human or AI message is displayed as. */
  function EntryOf(m: Message): HistoryEntry {
    match m
    case HumanMessage(c) => HistoryEntry("user", c)
    case AIMessage(c) => HistoryEntry("assistant", c)
    case ToolMessage(c) => HistoryEntry("tool", c)
  }

  function ToHistory(messages: seq<Message>): seq<HistoryEntry> {
    if messages == [] then []
    else ToHistory(messages[..|messages| - 1]) + [EntryOf(messages[|messages| - 1])]
  }

  /**
   * Conversion keeps exactly the user and assistant entries: reading the
   * messages back as history gives those entries, unchanged and in order.
   */
  lemma {:induction false} ConvertedKeepsChatEntries(history: seq<HistoryEntry>)
    ensures ToHistory(Converted(history)) == ChatEntries(history)
  {
    if history != [] {
      var init := history[..|history| - 1];
      var e := history[|history| - 1];
      ConvertedKeepsChatEntries(init);
      var m := MessageOf(e);
      var c := Converted(init);
      if m != [] {
        assert (c + m)[..|c + m| - 1] == c;
      } else {
        assert c + m == c;
      }
    }
  }

  /** Conversation messages survive the trip through the UI history unchanged. */
  lemma {:induction false} HistoryRoundTrip(messages: seq<Message>)
    requires forall i :: 0 <= i < |messages| ==> !messages[i].ToolMessage?
    ensures Converted(ToHistory(messages)) == messages
  {
    if messages != [] {
      var init := messages[..|messages| - 1];
      var last := messages[|messages| - 1];
      HistoryRoundTrip(init);
      var h := ToHistory(messages);
      assert h == ToHistory(init) + [EntryOf(last)];
      assert h[..|h| - 1] == ToHistory(init);
      assert MessageOf(EntryOf(last)) == [last];
      assert Converted(h) == init + [last];
      assert init + [last] == messages;
    }
  }

  /** Entries with other roles are dropped, so conversion never lengthens the history. */
  lemma {:induction false} ConvertedLength(history: seq<HistoryEntry>)
    ensures |Converted(history)| <= |history|
    ensures |Converted(history)| == |history| <==> forall i :: 0 <= i < |history| ==> IsChatRole(history[i].role)
  {
    if history != [] {
      var init := history[..|history| - 1];
      ConvertedLength(init);
      if |Converted(history)| == |history| {
        forall i | 0 <= i < |history| ensures IsChatRole(history[i].role) {
          if i < |init| { assert history[i] == init[i]; }
        }
      }
    }
  }

  const AgentNotInitialized := "Error: Agent not initialized. Please wait for MCP connection."

  /** What `agent.invoke` did: the final message list, or the exception's text. */
  datatype AgentReply = Replied(messages: seq<Message>) | Raised(error: string)

  /** Python's message for indexing `[-1]` of an empty list. */
  const EmptyListIndexError := "list index out of range"

  /** The text `chat` returns for an agent reply; exceptions become "Error: ..." strings. */
  function ReplyText(reply: AgentReply): string {
    match reply
    case Raised(e) => "Error: " + e
    case Replied(ms) => if ms == [] then "Error: " + EmptyListIndexError else ms[|ms| - 1].content
  }

  /** The answer `chat` gives: the guard's error, or the agent's reply to the history plus the message. */
  function ChatAnswer(agent: Option<Agent>, message: string, history: seq<HistoryEntry>,
                      invoke: seq<Message> -> AgentReply): string {
    if agent.None? then AgentNotInitialized
    else ReplyText(invoke(Converted(history) + [HumanMessage(message)]))
  }

  /**
   * `chat`: without an agent, the fixed error and nothing sent; otherwise the
   * agent is sent the converted history with the new message as its last
   * element, and the last message of its reply is returned.
   */
  method Chat(agent: Option<Agent>, message: string, history: seq<HistoryEntry>,
              invoke: seq<Message> -> AgentReply)
    returns (sent: Option<seq<Message>>, answer: string)
    ensures agent.None? ==> sent.None? && answer == AgentNotInitialized
    ensures agent.Some? ==> sent.Some? && |sent.value| == |Converted(history)| + 1
    ensures agent.Some? ==> sent.value[..|sent.value| - 1] == Converted(history)
    ensures agent.Some? ==> sent.value[|sent.value| - 1] == HumanMessage(message)
    ensures agent.Some? ==> answer == ReplyText(invoke(sent.value))
    ensures answer == ChatAnswer(agent, message, history, invoke)
  {
    if agent.None? {
      return None, AgentNotInitialized;
    }
    var messages := ConvertHistoryToMessages(history);
    messages := messages + [HumanMessage(message)];
    assert messages[..|messages| - 1] == Converted(history);
    sent := Some(messages);
    answer := ReplyText(invoke(messages));
  }

  /** The history list the UI owns, updated in place by `respond`. */
  class ChatHistory {
    var entries: seq<HistoryEntry>

    constructor (initial: seq<HistoryEntry>)
      ensures entries == initial
    {
      entries := initial;
    }

    /**
     * `respond`: a blank message leaves the history as it is; any other message
     * appends exactly two entries, the user's message and then the answer.
     * The returned string clears the input box.
     */
    method Respond(message: string, agent: Option<Agent>, invoke: seq<Message> -> AgentReply)
      returns (cleared: string)
      modifies this
      ensures cleared == ""
      ensures Strip(message) == [] ==> entries == old(entries)
      ensures Strip(message) != [] ==>
        entries == old(entries) + [HistoryEntry("user", message),
                                   HistoryEntry("assistant", ChatAnswer(agent, message, old(entries), invoke))]
    {
      if Strip(message) == [] {
        return "";
      }
      var _, answer := Chat(agent, message, entries, invoke);
      entries := entries + [HistoryEntry("user", message)];
      entries := entries + [HistoryEntry("assistant", answer)];
      cleared := "";
    }
  }
}
