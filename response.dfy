/**
 * The Responses API client: the request keyword arguments of
 * `streaming_response`, and its event loop, which forwards non-empty text
 * deltas, assembles tool-call fragments per positional index, yields them
 * when the provider says the tool calls are complete, and stops at the
 * response's completion.
 */
module Response {
  import opened Wrappers
  import opened ToolCalls
  import opened Requests
  import ToolSchema

  /** The model used when the caller names none. */
  const DefaultModel := "gpt-4o"

  /**
   * One event of the stream, by its `type`. The dispatch on `event.type`
   * sends each of the four known type strings to its own case, so `Other`
   * stands for an event whose type is none of them and never carries one of
   * those four strings.
   */
  datatype Event =
    | TextDelta(text: Option<string>)  // "response.output_text.delta", with `data.delta.text`
    | ToolCallPart(call: Fragment)     // "response.tool_call", with `data` (its `call_id` is the fragment's id)
    | ToolCallsCompleted               // "response.tool_calls.completed"
    | Completed                        // "response.completed"
    | Other(eventType: string)         // any other event type

  /**
   * The request keyword arguments: model, input, `stream` set, the tools and
   * `tool_choice` "auto" only when tools are given, then the caller's extra
   * keyword arguments, which win over everything set before them. Python
   * binds the names `input`, `tools` and `model` to the named parameters, so
   * the extra ones can only override `stream` and `tool_choice`. The
   * `input` is a plain string or a list of messages, as its type says.
   */
  method RequestKwargs(input: Arg, tools: seq<ToolSchema.Tool>, model: string, extra: map<string, Arg>)
    returns (kwargs: map<string, Arg>)
    requires input.Str? || input.Messages?
    requires "input" !in extra && "tools" !in extra && "model" !in extra
    ensures kwargs.Keys == {"model", "input", "stream"} + (if tools != [] then {"tools", "tool_choice"} else {}) + extra.Keys
    ensures forall k :: k in extra ==> kwargs[k] == extra[k]
    ensures kwargs["model"] == Str(model) && kwargs["input"] == input
    ensures "stream" !in extra ==> kwargs["stream"] == Flag(true)
    ensures tools != [] ==> kwargs["tools"] == Tools(tools)
    ensures tools != [] && "tool_choice" !in extra ==> kwargs["tool_choice"] == Str("auto")
  {
    kwargs := map["model" := Str(model), "input" := input, "stream" := Flag(true)];
    if tools != [] {
      kwargs := kwargs["tools" := Tools(tools)];
      kwargs := kwargs["tool_choice" := Str("auto")];
    }
    kwargs := kwargs + extra;
  }

  /**
   * One fragment merged into the dict. A new index gets a fresh slot (id from
   * `call_id`, type defaulting to "function", name and arguments defaulting
   * to ""); a known index only has its name and arguments extended, its id
   * and type stay those of the first fragment. Other indices are untouched.
   */
  function Merge(acc: Accumulator, d: Fragment): (r: Accumulator)
    requires acc.Valid()
    ensures r.Valid() && d.index in r.slots
    ensures forall i :: i != d.index ==> (i in r.slots <==> i in acc.slots)
    ensures forall i :: i != d.index && i in acc.slots ==> r.slots[i] == acc.slots[i]
    ensures d.index !in acc.slots ==>
              r.order == acc.order + [d.index]
              && r.slots[d.index] == ToolCall(d.id, OrElse(d.typ, "function"), Piece(d.name), Piece(d.arguments))
    ensures d.index in acc.slots ==>
              var s := acc.slots[d.index];
              && r.order == acc.order
              && r.slots[d.index] == ToolCall(s.id, s.typ, s.name + Piece(d.name), s.arguments + Piece(d.arguments))
  {
    if d.index !in acc.slots then acc.Insert(d.index, NewSlot(d))
    else
      var s := acc.slots[d.index];
      var s := if Truthy(d.name) then s.(name := s.name + d.name.value) else s;
      var s := if Truthy(d.arguments) then s.(arguments := s.arguments + d.arguments.value) else s;
      acc.Update(d.index, s)
  }

  /** The fragments merged one after another, in arrival order. */
  function MergeAll(acc: Accumulator, ds: seq<Fragment>): (r: Accumulator)
    requires acc.Valid()
    ensures r.Valid()
  {
    if ds == [] then acc else Merge(MergeAll(acc, ds[..|ds| - 1]), ds[|ds| - 1])
  }

  /** The dict, the values yielded so far, and whether the loop has stopped. */
  datatype State = State(acc: Accumulator, out: seq<Yield>, stopped: bool)

  /**
   * One event. A text delta is yielded only when non-empty; a tool-call part
   * is merged; "tool calls completed" yields every slot once, in first-seen
   * order, and empties the dict, unless the dict is empty; "completed" stops
   * the loop; any other event changes nothing.
   */
  function Step(acc: Accumulator, e: Event): (r: State)
    requires acc.Valid()
    ensures r.acc.Valid()
    ensures r.stopped <==> e.Completed?
    ensures e.TextDelta? ==> r.acc == acc && r.out == (if Truthy(e.text) then [Text(e.text.value)] else [])
    ensures e.ToolCallPart? ==> r.acc == Merge(acc, e.call) && r.out == []
    ensures e.ToolCallsCompleted? && acc.slots != map[] ==> r.acc == Empty && r.out == [Calls(acc.Values())]
    ensures e.ToolCallsCompleted? && acc.slots == map[] ==> r.acc == acc && r.out == []
    ensures e.Completed? || e.Other? ==> r.acc == acc && r.out == []
  {
    match e
    case TextDelta(text) => State(acc, if Truthy(text) then [Text(text.value)] else [], false)
    case ToolCallPart(call) => State(Merge(acc, call), [], false)
    case ToolCallsCompleted =>
      if acc.slots != map[] then State(Empty, [Calls(acc.Values())], false) else State(acc, [], false)
    case Completed => State(acc, [], true)
    case Other(_) => State(acc, [], false)
  }

  /** The state after consuming `events` from an empty dict; nothing is consumed once stopped. */
  function Run(events: seq<Event>): (r: State)
    ensures r.acc.Valid()
  {
    if events == [] then State(Empty, [], false)
    else
      var prev := Run(events[..|events| - 1]);
      if prev.stopped then prev
      else
        var step := Step(prev.acc, events[|events| - 1]);
        State(step.acc, prev.out + step.out, step.stopped)
  }

  /** The body of a tool-call event: one fragment, merged into the dict in place, as `Merge` specifies. */
  method AddFragment(slots: map<int, ToolCall>, order: seq<int>, d: Fragment)
    returns (slots': map<int, ToolCall>, order': seq<int>)
    requires Accumulator(slots, order).Valid()
    ensures Accumulator(slots', order') == Merge(Accumulator(slots, order), d)
  {
    if d.index !in slots {
      slots' := slots[d.index := ToolCall(d.id, OrElse(d.typ, "function"), Piece(d.name), Piece(d.arguments))];
      order' := order + [d.index];
    } else {
      var slot := slots[d.index];
      if Truthy(d.name) {
        slot := slot.(name := slot.name + d.name.value);
      }
      if Truthy(d.arguments) {
        slot := slot.(arguments := slot.arguments + d.arguments.value);
      }
      slots', order' := slots[d.index := slot], order;
    }
  }

  /** `streaming_response`'s loop over the events of the stream: the values it yields, in order. */
  method StreamingResponse(events: seq<Event>) returns (out: seq<Yield>)
    ensures out == Run(events).out
  {
    var slots: map<int, ToolCall> := map[];
    var order: seq<int> := [];
    out := [];
    var n := 0;
    while n < |events|
      invariant 0 <= n <= |events|
      invariant Run(events[..n]) == State(Accumulator(slots, order), out, false)
    {
      assert events[..n + 1][..n] == events[..n];
      ghost var step := Step(Accumulator(slots, order), events[n]);
      assert Run(events[..n + 1]) == State(step.acc, out + step.out, step.stopped);
      match events[n] {
        case TextDelta(text) =>
          if Truthy(text) {
            out := out + [Text(text.value)];
          }
        case ToolCallPart(call) =>
          slots, order := AddFragment(slots, order, call);
        case ToolCallsCompleted =>
          if slots != map[] {
            var toolCalls := seq(|order|, k requires 0 <= k < |order| && order[k] in slots => slots[order[k]]);
            assert toolCalls == Accumulator(slots, order).Values();
            out := out + [Calls(toolCalls)];
            slots, order := map[], [];
          }
        case Completed =>
          StoppedStaysStopped(events[..n + 1], events[n + 1..]);
          assert events[..n + 1] + events[n + 1..] == events;
          break;
        case Other(_) =>
      }
      n := n + 1;
    }
    if n == |events| {
      assert events[..n] == events;
    }
  }

  /** Once stopped, later events have no effect at all. */
  lemma {:induction false} StoppedStaysStopped(events: seq<Event>, rest: seq<Event>)
    requires Run(events).stopped
    ensures Run(events + rest) == Run(events)
  {
    if rest == [] {
      assert events + rest == events;
    } else {
      assert (events + rest)[..|events + rest| - 1] == events + rest[..|rest| - 1];
      StoppedStaysStopped(events, rest[..|rest| - 1]);
    }
  }

  /** The loop has stopped exactly when a "completed" event has been consumed. */
  lemma {:induction false} StoppedIffCompleted(events: seq<Event>)
    ensures Run(events).stopped <==> Completed in events
  {
    if events != [] {
      var init := events[..|events| - 1];
      StoppedIffCompleted(init);
      assert events == init + [events[|events| - 1]];
    }
  }

  /**
   * A "completed" event ends the stream: whatever follows it, and whatever
   * slots are still pending, the output is what it was before the event.
   */
  lemma CompletedEndsStream(events: seq<Event>, rest: seq<Event>)
    requires Completed !in events
    ensures Run(events + [Completed] + rest).out == Run(events).out
  {
    StoppedIffCompleted(events);
    assert (events + [Completed])[..|events|] == events;
    StoppedStaysStopped(events + [Completed], rest);
  }

  /** Merging two runs of fragments is merging their concatenation. */
  lemma {:induction false} MergeAllAppend(acc: Accumulator, a: seq<Fragment>, b: seq<Fragment>)
    requires acc.Valid()
    ensures MergeAll(acc, a + b) == MergeAll(MergeAll(acc, a), b)
  {
    if b == [] {
      assert a + b == a;
    } else {
      assert (a + b)[..|a + b| - 1] == a + b[..|b| - 1];
      MergeAllAppend(acc, a, b[..|b| - 1]);
    }
  }

  /** After merging `ds`, index `i` has a slot exactly when it had one before or occurs in `ds`. */
  lemma {:induction false} MergeAllHas(acc: Accumulator, ds: seq<Fragment>, i: int)
    requires acc.Valid()
    ensures i in MergeAll(acc, ds).slots <==> i in acc.slots || i in Indices(ds)
  {
    if ds != [] {
      IndicesPrefix(ds);
      MergeAllHas(acc, ds[..|ds| - 1], i);
    }
  }

  /** The slot an existing index reaches after `ds`, grown one fragment at a time. */
  lemma GrownSnoc(s: ToolCall, ds: seq<Fragment>, i: int)
    requires ds != []
    ensures var init, d := ds[..|ds| - 1], ds[|ds| - 1];
            var p := ToolCall(s.id, s.typ, s.name + NameOf(init, i), s.arguments + ArgumentsOf(init, i));
            ToolCall(s.id, s.typ, s.name + NameOf(ds, i), s.arguments + ArgumentsOf(ds, i))
            == if d.index != i then p else ToolCall(p.id, p.typ, p.name + Piece(d.name), p.arguments + Piece(d.arguments))
  {
    var init, d := ds[..|ds| - 1], ds[|ds| - 1];
    PiecesSnoc(ds, i);
    if d.index != i {
      assert NameOf(ds, i) == NameOf(init, i) + "" && ArgumentsOf(ds, i) == ArgumentsOf(init, i) + "";
    } else {
      assert s.name + NameOf(ds, i) == s.name + NameOf(init, i) + Piece(d.name);
      assert s.arguments + ArgumentsOf(ds, i) == s.arguments + ArgumentsOf(init, i) + Piece(d.arguments);
    }
  }

  /**
   * An existing slot of index `i` after merging `ds`: its id and type never
   * change, and its name and arguments are extended by the in-order
   * concatenation of the pieces of the fragments of `i`, whatever fragments
   * of other indices come in between.
   */
  lemma {:induction false} MergeAllExisting(acc: Accumulator, ds: seq<Fragment>, i: int)
    requires acc.Valid() && i in acc.slots
    ensures i in MergeAll(acc, ds).slots
    ensures var s := acc.slots[i];
            MergeAll(acc, ds).slots[i] == ToolCall(s.id, s.typ, s.name + NameOf(ds, i), s.arguments + ArgumentsOf(ds, i))
  {
    var s := acc.slots[i];
    if ds == [] {
      assert s.name + "" == s.name && s.arguments + "" == s.arguments;
    } else {
      var init, d := ds[..|ds| - 1], ds[|ds| - 1];
      MergeAllExisting(acc, init, i);
      GrownSnoc(s, ds, i);
      assert MergeAll(acc, ds) == Merge(MergeAll(acc, init), d);
    }
  }



  /** The slot of index `i` as the fragments `ds` build it from nothing. */
  function Assembled(ds: seq<Fragment>, i: int): ToolCall
    requires i in Indices(ds)
  {
    var first := FirstOf(ds, i);
    ToolCall(first.id, OrElse(first.typ, "function"), NameOf(ds, i), ArgumentsOf(ds, i))
  }

  /**
   * A slot created while merging `ds`: its id and type are those of the first
   * fragment of `i` (type defaulting to "function"), its name and arguments
   * the in-order concatenations of the pieces of the fragments of `i`.
   */
  lemma {:induction false} MergeAllFresh(acc: Accumulator, ds: seq<Fragment>, i: int)
    requires acc.Valid() && i !in acc.slots && i in Indices(ds)
    ensures i in MergeAll(acc, ds).slots && MergeAll(acc, ds).slots[i] == Assembled(ds, i)
  {
    var init, d := ds[..|ds| - 1], ds[|ds| - 1];
    IndicesPrefix(ds);
    assert ds == init + [d];
    var prev := MergeAll(acc, init);
    MergeAllHas(acc, init, i);
    if i in Indices(init) {
      MergeAllFresh(acc, init, i);
      LaterFragment(prev, init, d, i);
    } else {
      FirstFragment(prev, init, d);
    }
  }

  /** A fragment arriving after the slot of index `i` was created. */
  lemma LaterFragment(prev: Accumulator, init: seq<Fragment>, d: Fragment, i: int)
    requires prev.Valid() && i in Indices(init) && i in prev.slots && prev.slots[i] == Assembled(init, i)
    ensures i in Indices(init + [d]) && Merge(prev, d).slots[i] == Assembled(init + [d], i)
  {
    var ds := init + [d];
    assert ds[..|ds| - 1] == init;
    FirstOfAppend(init, d, i);
    if d.index != i {
      assert NameOf(ds, i) == NameOf(init, i) + "";
      assert ArgumentsOf(ds, i) == ArgumentsOf(init, i) + "";
    }
  }

  /** The slot created by the first fragment of its index. */
  lemma FirstFragment(prev: Accumulator, init: seq<Fragment>, d: Fragment)
    requires prev.Valid() && d.index !in prev.slots && d.index !in Indices(init)
    ensures d.index in Indices(init + [d]) && Merge(prev, d).slots[d.index] == Assembled(init + [d], d.index)
  {
    var ds, i := init + [d], d.index;
    assert ds[..|ds| - 1] == init;
    AbsentIndex(init, i);
    FirstOfNew(init, d);
    assert NameOf(ds, i) == "" + Piece(d.name);
    assert ArgumentsOf(ds, i) == "" + Piece(d.arguments);
  }

  /** The slots of a round are listed in the order their indices were first seen. */
  lemma {:induction false} MergeAllOrder(ds: seq<Fragment>)
    ensures MergeAll(Empty, ds).order == FirstSeen(Indices(ds))
  {
    if ds != [] {
      var init, d := ds[..|ds| - 1], ds[|ds| - 1];
      IndicesPrefix(ds);
      assert Indices(ds)[..|ds| - 1] == Indices(init);
      MergeAllOrder(init);
      MergeAllHas(Empty, init, d.index);
    }
  }

  /** The batch a "tool calls completed" event yields after the fragments `ds` of one round. */
  function Batch(ds: seq<Fragment>): seq<ToolCall> {
    MergeAll(Empty, ds).Values()
  }

  /**
   * Entry `k` of a batch is the tool call of the `k`-th index in first-seen
   * order (not numeric order), assembled from that index's fragments alone.
   */
  lemma BatchContents(ds: seq<Fragment>, k: nat)
    requires k < |FirstSeen(Indices(ds))|
    ensures |Batch(ds)| == |FirstSeen(Indices(ds))|
    ensures var x := FirstSeen(Indices(ds))[k];
            x in Indices(ds) && Batch(ds)[k] == Assembled(ds, x)
  {
    MergeAllOrder(ds);
    MergeAllFresh(Empty, ds, FirstSeen(Indices(ds))[k]);
  }

  /** A batch is empty exactly when the round had no fragments. */
  lemma BatchEmptyIff(ds: seq<Fragment>)
    ensures MergeAll(Empty, ds).slots == map[] <==> ds == []
  {
    if ds != [] {
      MergeAllHas(Empty, ds, ds[0].index);
      assert Indices(ds)[0] == ds[0].index;
    }
  }

  /**
   * The fragments of the current round: the tool-call parts seen since the
   * last "tool calls completed" event, counting nothing after "completed".
   */
  function Pending(events: seq<Event>): seq<Fragment> {
    if events == [] then []
    else
      var init := events[..|events| - 1];
      var prev := Pending(init);
      if Completed in init then prev
      else match events[|events| - 1]
        case ToolCallPart(call) => prev + [call]
        case ToolCallsCompleted => []
        case _ => prev
  }

  /**
   * Rounds are independent: after any prefix of the stream, the dict holds
   * exactly the fragments of the current round merged from an empty dict.
   */
  lemma {:induction false} AccumulatorIsPending(events: seq<Event>)
    ensures Run(events).acc == MergeAll(Empty, Pending(events))
  {
    if events != [] {
      var init, e := events[..|events| - 1], events[|events| - 1];
      AccumulatorIsPending(init);
      StoppedIffCompleted(init);
      if e.ToolCallPart? {
        MergeAllAppend(Empty, Pending(init), [e.call]);
      } else if e.ToolCallsCompleted? && Run(init).acc.slots == map[] {
        BatchEmptyIff(Pending(init));
      }
    }
  }

  /**
   * Before "completed", a "tool calls completed" event yields exactly one
   * batch holding every pending slot and empties the dict; with no pending
   * fragments it yields nothing.
   */
  lemma RoundEndYields(events: seq<Event>)
    requires Completed !in events
    ensures Run(events + [ToolCallsCompleted]).acc == Empty
    ensures Run(events + [ToolCallsCompleted]).out
            == Run(events).out + (if Pending(events) == [] then [] else [Calls(Batch(Pending(events)))])
  {
    assert (events + [ToolCallsCompleted])[..|events|] == events;
    StoppedIffCompleted(events);
    AccumulatorIsPending(events);
    BatchEmptyIff(Pending(events));
  }

  /** Every batch yielded holds at least one tool call, and every text yielded is non-empty. */
  lemma {:induction false} YieldsNonEmpty(events: seq<Event>)
    ensures forall y :: y in Run(events).out ==> (y.Calls? ==> y.calls != []) && (y.Text? ==> y.text != "")
  {
    if events != [] {
      var init := events[..|events| - 1];
      YieldsNonEmpty(init);
      EmptyIffNoOrder(Run(init).acc);
    }
  }

  /** Events other than text deltas, "tool calls completed" and "completed" add nothing to the output. */
  lemma {:induction false} QuietEventsYieldNothing(events: seq<Event>, tail: seq<Event>)
    requires forall k :: 0 <= k < |tail| ==> tail[k].ToolCallPart? || tail[k].Other?
    ensures Run(events + tail).out == Run(events).out
  {
    if tail == [] {
      assert events + tail == events;
    } else {
      var init := tail[..|tail| - 1];
      assert (events + tail)[..|events + tail| - 1] == events + init;
      QuietEventsYieldNothing(events, init);
    }
  }

  /**
   * Fragments still pending when the stream ends are never yielded: as long
   * as no "tool_calls.completed" event arrives, no batch of tool calls is
   * yielded, whatever text is forwarded in between.
   */
  lemma {:induction false} UnfinishedRoundNotYielded(events: seq<Event>, tail: seq<Event>)
    requires forall k :: 0 <= k < |tail| ==> !tail[k].ToolCallsCompleted?
    ensures CallsOf(Run(events + tail).out) == CallsOf(Run(events).out)
  {
    if tail == [] {
      assert events + tail == events;
    } else {
      var init, e := tail[..|tail| - 1], tail[|tail| - 1];
      UnfinishedRoundNotYielded(events, init);
      NoBatchStep(events + init, e);
      SplitLast(events, tail);
    }
  }

  /** An event other than "tool_calls.completed" adds no batch to the output. */
  lemma NoBatchStep(events: seq<Event>, e: Event)
    requires !e.ToolCallsCompleted?
    ensures CallsOf(Run(events + [e]).out) == CallsOf(Run(events).out)
  {
    assert (events + [e])[..|events|] == events;
    var prev := Run(events);
    if !prev.stopped {
      CallsOfText(prev.out, Step(prev.acc, e).out);
    }
  }
}
