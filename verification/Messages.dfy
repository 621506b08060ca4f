/** Conversation messages, as the provider layer stores them. */
module Messages {

  datatype Role = System | User | Assistant | Tool | Other(name: string)

  /** `calls` holds the ids of the tool calls a message makes; `callId` names the
      call a tool result answers. */
  datatype Message = Message(
    role: Role, content: string, media: seq<string>, calls: seq<string>, callId: string)

  /** An assistant message that asks for tools. */
  predicate IsCaller(m: Message) {
    m.role == Assistant && m.calls != []
  }

  /** A message that sanitizing keeps wherever it stands. */
  predicate IsPlain(m: Message) {
    m.role != System && m.role != Tool && !IsCaller(m)
  }

  /** Length of the run of tool results that starts `h`. */
  function ToolRun(h: seq<Message>): (n: nat)
    ensures n <= |h|
    ensures forall k :: 0 <= k < n ==> h[k].role == Tool
    ensures n < |h| ==> h[n].role != Tool
  {
    if h == [] || h[0].role != Tool then 0 else 1 + ToolRun(h[1..])
  }

  function Ids(calls: seq<string>): set<string> {
    set c | c in calls
  }

  function CallIds(results: seq<Message>): seq<string> {
    if results == [] then [] else [results[0].callId] + CallIds(results[1..])
  }
}
