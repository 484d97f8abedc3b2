/**
 * The agent: a named conversation that keeps its message history and the
 * tools it offers. The provider call `completion(messages)` is outside the
 * model: `Chat` receives it as a function from the history to the reply.
 */
module Agents {
  import opened Wrappers
  import opened Requests
  import opened ToolSchema

  /** `get_current_in_local_time.__name__`. */
  const ClockName := "get_current_in_local_time"

  /** `get_current_in_local_time.__doc__` as Python 3.12 and earlier keep it: the raw docstring with its indentation (3.13 strips the common indentation). */
  const ClockDoc := "\n    Get the current date and time in the local timezone.\n    Returns the current time as a formatted string with timezone information.\n    "

  /** The clock tool as reflection reports it: its name, its docstring and no parameters. */
  const Clock := Function(ClockName, Some(ClockDoc), [])

  /**
   * `built_in_tools = build_tools([get_current_in_local_time])`: one tool
   * named after the clock function, described by its docstring, taking an
   * object with no properties and nothing required.
   */
  function BuiltInTools(): (r: seq<Tool>)
    ensures ToolsOf([Clock]) == Success(r)
    ensures |r| == 1
    ensures r[0].typ == "function" && r[0].spec.name == ClockName && r[0].spec.description == ClockDoc
    ensures r[0].spec.parameters == Parameters("object", map[], [])
  {
    assert ParamsFold(Clock, Clock.params) == Success((map[], []));
    assert ToolsOf([Clock]).Success? by { assert [Clock][..0] == []; }
    ToolsOf([Clock]).value
  }

  /** The history `completion` sees: the old history, plus the user's prompt when it is non-empty. */
  function Asked(log: seq<Message>, prompt: string): (r: seq<Message>)
    ensures |log| <= |r| && r[..|log|] == log
    ensures prompt == "" <==> r == log
    ensures prompt != "" ==> |r| == |log| + 1 && r[|log|] == Message("user", prompt)
  {
    if prompt != "" then log + [Message("user", prompt)] else log
  }

  /** The history after one exchange: what `completion` saw, then the assistant's reply. */
  function AfterChat(log: seq<Message>, prompt: string, reply: string): (r: seq<Message>)
    ensures |log| < |r| && r[..|log|] == log
    ensures |r| == |log| + (if prompt != "" then 2 else 1)
    ensures r[|r| - 1] == Message("assistant", reply)
    ensures prompt != "" ==> r[|log|] == Message("user", prompt)
    ensures r[..|r| - 1] == Asked(log, prompt)
  {
    Asked(log, prompt) + [Message("assistant", reply)]
  }

  /** One exchange: the prompt the user typed and the reply the provider returned for it. */
  datatype Turn = Turn(prompt: string, reply: string)

  /** The history after a series of exchanges, starting from `log`. */
  function Converse(log: seq<Message>, turns: seq<Turn>): seq<Message> {
    if turns == [] then log
    else
      var last := turns[|turns| - 1];
      AfterChat(Converse(log, turns[..|turns| - 1]), last.prompt, last.reply)
  }

  /** The contents of the messages with role `role`, in history order. */
  function ContentsOf(log: seq<Message>, role: string): seq<string> {
    if log == [] then []
    else ContentsOf(log[..|log| - 1], role) + (if log[|log| - 1].role == role then [log[|log| - 1].content] else [])
  }

  /** The replies of a series of exchanges. */
  function Replies(turns: seq<Turn>): seq<string> {
    if turns == [] then [] else Replies(turns[..|turns| - 1]) + [turns[|turns| - 1].reply]
  }

  /** The non-empty prompts of a series of exchanges: the ones that were recorded. */
  function Prompts(turns: seq<Turn>): seq<string> {
    if turns == [] then []
    else Prompts(turns[..|turns| - 1]) + (if turns[|turns| - 1].prompt != "" then [turns[|turns| - 1].prompt] else [])
  }

  /** Filtering by role distributes over concatenation. */
  lemma {:induction false} ContentsOfAppend(a: seq<Message>, b: seq<Message>, role: string)
    ensures ContentsOf(a + b, role) == ContentsOf(a, role) + ContentsOf(b, role)
  {
    if b != [] {
      assert (a + b)[..|a + b| - 1] == a + b[..|b| - 1];
      ContentsOfAppend(a, b[..|b| - 1], role);
    } else {
      assert a + b == a;
    }
  }

  /** One exchange adds the prompt, when non-empty, to the user messages and the reply to the assistant messages. */
  lemma ChatContents(log: seq<Message>, prompt: string, reply: string)
    ensures ContentsOf(AfterChat(log, prompt, reply), "user") == ContentsOf(log, "user") + (if prompt != "" then [prompt] else [])
    ensures ContentsOf(AfterChat(log, prompt, reply), "assistant") == ContentsOf(log, "assistant") + [reply]
  {
    var added := if prompt != "" then [Message("user", prompt), Message("assistant", reply)] else [Message("assistant", reply)];
    assert AfterChat(log, prompt, reply) == log + added;
    ContentsOfAppend(log, added, "user");
    ContentsOfAppend(log, added, "assistant");
    if prompt != "" {
      assert added[..1] == [Message("user", prompt)];
      assert [Message("user", prompt)][..0] == [];
    }
    assert [Message("assistant", reply)][..0] == [];
  }

  /**
   * Over any series of exchanges every reply becomes an assistant message,
   * in order, and exactly the non-empty prompts become user messages, in
   * order.
   */
  lemma {:induction false} ConverseContents(log: seq<Message>, turns: seq<Turn>)
    ensures ContentsOf(Converse(log, turns), "assistant") == ContentsOf(log, "assistant") + Replies(turns)
    ensures ContentsOf(Converse(log, turns), "user") == ContentsOf(log, "user") + Prompts(turns)
  {
    if turns != [] {
      var init, last := turns[..|turns| - 1], turns[|turns| - 1];
      var before := Converse(log, init);
      ConverseContents(log, init);
      ChatContents(before, last.prompt, last.reply);
      assert Converse(log, turns) == AfterChat(before, last.prompt, last.reply);
      assert ContentsOf(log, "assistant") + Replies(turns) == ContentsOf(log, "assistant") + Replies(init) + [last.reply];
      assert ContentsOf(log, "user") + Prompts(turns)
             == ContentsOf(log, "user") + Prompts(init) + (if last.prompt != "" then [last.prompt] else []);
    }
  }

  /** Over any series of exchanges the old history stays a prefix, and each exchange adds one message per reply and per recorded prompt. */
  lemma {:induction false} ConverseLength(log: seq<Message>, turns: seq<Turn>)
    ensures |Converse(log, turns)| == |log| + |Replies(turns)| + |Prompts(turns)|
    ensures |log| <= |Converse(log, turns)| && Converse(log, turns)[..|log|] == log
  {
    if turns != [] {
      var init, last := turns[..|turns| - 1], turns[|turns| - 1];
      var before := Converse(log, init);
      ConverseLength(log, init);
      var after := AfterChat(before, last.prompt, last.reply);
      assert Converse(log, turns) == after;
      assert after[..|before|] == before;
      assert after[..|log|] == before[..|log|];
    }
  }

  /** A named conversation with its tools and message history. */
  class Agent {
    const name: string
    var tools: seq<Tool>
    var messages: seq<Message>

    /** A fresh agent offers the built-in tools and has an empty history. */
    constructor(name: string)
      ensures this.name == name
      ensures tools == BuiltInTools() && messages == []
    {
      this.name := name;
      tools := [];
      messages := [];
      tools := tools + BuiltInTools();
    }

    /** `add_message`: append one `{"role", "content"}` message to the history. */
    method AddMessage(role: string, content: string)
      modifies this
      ensures messages == old(messages) + [Message(role, content)]
      ensures tools == old(tools)
    {
      messages := messages + [Message(role, content)];
    }

    /**
     * `chat`: record the prompt as a user message when it is non-empty, ask
     * `completion` for a reply given the whole history, record the reply as
     * an assistant message and return it.
     */
    method Chat(prompt: string, completion: seq<Message> -> string) returns (response: string)
      modifies this
      ensures response == completion(Asked(old(messages), prompt))
      ensures messages == AfterChat(old(messages), prompt, response)
      ensures tools == old(tools)
    {
      if prompt != "" {
        AddMessage("user", prompt);
      }
      response := completion(messages);
      AddMessage("assistant", response);
    }
  }
}
