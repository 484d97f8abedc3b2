/**
 * The Chat Completions client: the request keyword arguments of
 * `completion` and `streaming_completion`, and the accumulation loop of
 * `streaming_completion`, which forwards text fragments and assembles
 * tool-call fragments into complete tool calls per round.
 */
module Completion {
  import opened Wrappers
  import opened ToolCalls
  import opened Requests
  import ToolSchema

  /** The model used when the caller names none. */
  const DefaultModel := "gpt-4.1-mini-2025-04-14"

  /** `chunk.choices[0]`: its delta's content and tool-call fragments, and its finish reason. */
  datatype Chunk = Chunk(content: Option<string>, toolCalls: seq<Fragment>, finishReason: Option<string>)

  /** A chunk that ends a round of tool calls (and carries neither content nor fragments). */
  predicate IsRoundEnd(c: Chunk) {
    c.content.None? && c.toolCalls == [] && c.finishReason == Some("tool_calls")
  }

  /** The keyword arguments of the blocking `completion` request. */
  method CompletionKwargs(messages: seq<Message>, tools: seq<ToolSchema.Tool>) returns (kwargs: map<string, Arg>)
    ensures kwargs.Keys == {"model", "messages"} + (if tools != [] then {"tools", "tool_choice"} else {})
    ensures kwargs["model"] == Str(DefaultModel) && kwargs["messages"] == Messages(messages)
    ensures tools != [] ==> kwargs["tools"] == Tools(tools) && kwargs["tool_choice"] == Str("auto")
  {
    kwargs := map["model" := Str(DefaultModel), "messages" := Messages(messages)];
    if tools != [] {
      kwargs := kwargs["tools" := Tools(tools)];
      kwargs := kwargs["tool_choice" := Str("auto")];
    }
  }

  /** The keyword arguments of the `streaming_completion` request: always streamed. */
  method StreamingKwargs(messages: seq<Message>, tools: seq<ToolSchema.Tool>, model: string) returns (kwargs: map<string, Arg>)
    ensures kwargs.Keys == {"model", "messages", "stream"} + (if tools != [] then {"tools", "tool_choice"} else {})
    ensures kwargs["model"] == Str(model) && kwargs["messages"] == Messages(messages)
    ensures kwargs["stream"] == Flag(true)
    ensures tools != [] ==> kwargs["tools"] == Tools(tools) && kwargs["tool_choice"] == Str("auto")
  {
    kwargs := map["model" := Str(model), "messages" := Messages(messages), "stream" := Flag(true)];
    if tools != [] {
      kwargs := kwargs["tools" := Tools(tools)];
      kwargs := kwargs["tool_choice" := Str("auto")];
    }
  }

  /**
   * One fragment merged into the dict. A new index gets a fresh slot (id as
   * given, type defaulting to "function", name and arguments defaulting to
   * ""); a known index has its id and type replaced only by truthy values
   * and its name and arguments extended. Other indices are untouched.
   */
  function Merge(acc: Accumulator, d: Fragment): (r: Accumulator)
    requires acc.Valid()
    ensures r.Valid() && d.index in r.slots
    ensures forall i :: i != d.index ==> (i in r.slots <==> i in acc.slots)
    ensures forall i :: i != d.index && i in acc.slots ==> r.slots[i] == acc.slots[i]
    ensures d.index !in acc.slots ==>
              r.order == acc.order + [d.index]
              && r.slots[d.index] == ToolCall(d.id, OrElse(d.typ, "function"), Piece(d.name), Piece(d.arguments))
    ensures d.index in acc.slots ==>
              var s := acc.slots[d.index];
              && r.order == acc.order
              && r.slots[d.index] == ToolCall(if Truthy(d.id) then d.id else s.id,
                                               OrElse(d.typ, s.typ),
                                               s.name + Piece(d.name),
                                               s.arguments + Piece(d.arguments))
  {
    if d.index !in acc.slots then acc.Insert(d.index, NewSlot(d))
    else
      var s := acc.slots[d.index];
      var s := if Truthy(d.id) then s.(id := d.id) else s;
      var s := if Truthy(d.typ) then s.(typ := d.typ.value) else s;
      var s := if Truthy(d.name) then s.(name := s.name + d.name.value) else s;
      var s := if Truthy(d.arguments) then s.(arguments := s.arguments + d.arguments.value) else s;
      acc.Update(d.index, s)
  }

  /** The fragments merged one after another, in arrival order. */
  function MergeAll(acc: Accumulator, ds: seq<Fragment>): (r: Accumulator)
    requires acc.Valid()
    ensures r.Valid()
  {
    if ds == [] then acc else Merge(MergeAll(acc, ds[..|ds| - 1]), ds[|ds| - 1])
  }

  /** The dict and the values yielded so far. */
  datatype Progress = Progress(acc: Accumulator, out: seq<Yield>)

  /**
   * One chunk of the stream. Non-`None` content is yielded as it is, even
   * when empty, and any fragments beside it are ignored; otherwise fragments
   * are merged; otherwise a "tool_calls" finish yields every slot once, in
   * first-seen order, and empties the dict, unless the dict is empty.
   */
  function Step(acc: Accumulator, c: Chunk): (r: Progress)
    requires acc.Valid()
    ensures r.acc.Valid()
    ensures c.content.Some? ==> r == Progress(acc, [Text(c.content.value)])
    ensures c.content.None? && c.toolCalls != [] ==> r == Progress(MergeAll(acc, c.toolCalls), [])
    ensures IsRoundEnd(c) && acc.slots != map[] ==> r == Progress(Empty, [Calls(acc.Values())])
    ensures IsRoundEnd(c) && acc.slots == map[] ==> r == Progress(acc, [])
    ensures c.content.None? && c.toolCalls == [] && c.finishReason != Some("tool_calls") ==> r == Progress(acc, [])
  {
    if c.content.Some? then Progress(acc, [Text(c.content.value)])
    else if c.toolCalls != [] then Progress(MergeAll(acc, c.toolCalls), [])
    else if c.finishReason == Some("tool_calls") then
      if acc.slots != map[] then Progress(Empty, [Calls(acc.Values())]) else Progress(acc, [])
    else Progress(acc, [])
  }

  /** The state after consuming `chunks` from an empty dict. */
  function Run(chunks: seq<Chunk>): (r: Progress)
    ensures r.acc.Valid()
  {
    if chunks == [] then Progress(Empty, [])
    else
      var prev := Run(chunks[..|chunks| - 1]);
      var step := Step(prev.acc, chunks[|chunks| - 1]);
      Progress(step.acc, prev.out + step.out)
  }

  /**
   * The body of the inner loop: one fragment, merged into the dict in
   * place, as `Merge` specifies.
   */
  method AddFragment(slots: map<int, ToolCall>, order: seq<int>, d: Fragment)
    returns (slots': map<int, ToolCall>, order': seq<int>)
    requires Accumulator(slots, order).Valid()
    ensures Accumulator(slots', order') == Merge(Accumulator(slots, order), d)
  {
    if d.index !in slots {
      slots' := slots[d.index := ToolCall(d.id, OrElse(d.typ, "function"), Piece(d.name), Piece(d.arguments))];
      order' := order + [d.index];
    } else {
      var slot := slots[d.index];
      if Truthy(d.id) {
        slot := slot.(id := d.id);
      }
      if Truthy(d.typ) {
        slot := slot.(typ := d.typ.value);
      }
      if Truthy(d.name) {
        slot := slot.(name := slot.name + d.name.value);
      }
      if Truthy(d.arguments) {
        slot := slot.(arguments := slot.arguments + d.arguments.value);
      }
      slots', order' := slots[d.index := slot], order;
    }
  }

  /** The inner loop: the fragments of one chunk, merged in arrival order, as `MergeAll` specifies. */
  method AddFragments(slots: map<int, ToolCall>, order: seq<int>, ds: seq<Fragment>)
    returns (slots': map<int, ToolCall>, order': seq<int>)
    requires Accumulator(slots, order).Valid()
    ensures Accumulator(slots', order') == MergeAll(Accumulator(slots, order), ds)
  {
    slots', order' := slots, order;
    for m := 0 to |ds|
      invariant Accumulator(slots', order') == MergeAll(Accumulator(slots, order), ds[..m])
    {
      assert ds[..m + 1][..m] == ds[..m];
      slots', order' := AddFragment(slots', order', ds[m]);
    }
    assert ds[..|ds|] == ds;
  }

  /**
   * `streaming_completion`'s loop over the chunks of a finished stream: the
   * values it yields, in order.
   */
  method StreamingCompletion(chunks: seq<Chunk>) returns (out: seq<Yield>)
    ensures out == Run(chunks).out
  {
    var slots: map<int, ToolCall> := map[];
    var order: seq<int> := [];
    out := [];
    for n := 0 to |chunks|
      invariant Run(chunks[..n]) == Progress(Accumulator(slots, order), out)
    {
      assert chunks[..n + 1][..n] == chunks[..n];
      var choice := chunks[n];
      ghost var step := Step(Accumulator(slots, order), choice);
      assert Run(chunks[..n + 1]) == Progress(step.acc, out + step.out);
      if choice.content.Some? {
        out := out + [Text(choice.content.value)];
      } else if choice.toolCalls != [] {
        slots, order := AddFragments(slots, order, choice.toolCalls);
      } else if choice.finishReason == Some("tool_calls") {
        if slots != map[] {
          var toolCalls := seq(|order|, k requires 0 <= k < |order| && order[k] in slots => slots[order[k]]);
          assert toolCalls == Accumulator(slots, order).Values();
          out := out + [Calls(toolCalls)];
          slots, order := map[], [];
        }
      }
    }
    assert chunks[..|chunks|] == chunks;
  }

  /** Merging two runs of fragments is merging their concatenation. */
  lemma {:induction false} MergeAllAppend(acc: Accumulator, a: seq<Fragment>, b: seq<Fragment>)
    requires acc.Valid()
    ensures MergeAll(acc, a + b) == MergeAll(MergeAll(acc, a), b)
  {
    if b == [] {
      assert a + b == a;
    } else {
      assert (a + b)[..|a + b| - 1] == a + b[..|b| - 1];
      MergeAllAppend(acc, a, b[..|b| - 1]);
    }
  }

  /** After merging `ds`, index `i` has a slot exactly when it had one before or occurs in `ds`. */
  lemma {:induction false} MergeAllHas(acc: Accumulator, ds: seq<Fragment>, i: int)
    requires acc.Valid()
    ensures i in MergeAll(acc, ds).slots <==> i in acc.slots || i in Indices(ds)
  {
    if ds != [] {
      IndicesPrefix(ds);
      MergeAllHas(acc, ds[..|ds| - 1], i);
    }
  }

  /** The slot an existing index reaches after `ds`, grown one fragment at a time. */
  lemma GrownSnoc(s: ToolCall, ds: seq<Fragment>, i: int)
    requires ds != []
    ensures var init, d := ds[..|ds| - 1], ds[|ds| - 1];
            var p := ToolCall(if LastId(init, i).Some? then LastId(init, i) else s.id, OrElse(LastTyp(init, i), s.typ),
                              s.name + NameOf(init, i), s.arguments + ArgumentsOf(init, i));
            ToolCall(if LastId(ds, i).Some? then LastId(ds, i) else s.id, OrElse(LastTyp(ds, i), s.typ),
                     s.name + NameOf(ds, i), s.arguments + ArgumentsOf(ds, i))
            == if d.index != i then p
               else ToolCall(if Truthy(d.id) then d.id else p.id, OrElse(d.typ, p.typ),
                             p.name + Piece(d.name), p.arguments + Piece(d.arguments))
  {
    var init, d := ds[..|ds| - 1], ds[|ds| - 1];
    PiecesSnoc(ds, i);
    if d.index != i {
      assert NameOf(ds, i) == NameOf(init, i) + "" && ArgumentsOf(ds, i) == ArgumentsOf(init, i) + "";
    } else {
      assert s.name + NameOf(ds, i) == s.name + NameOf(init, i) + Piece(d.name);
      assert s.arguments + ArgumentsOf(ds, i) == s.arguments + ArgumentsOf(init, i) + Piece(d.arguments);
    }
  }

  /**
   * An existing slot of index `i` after merging `ds`: its name and arguments
   * are extended by the in-order concatenation of the pieces of the
   * fragments of `i`, whatever fragments of other indices come in between;
   * its id and type are the last truthy ones sent for `i`, if any.
   */
  lemma {:induction false} MergeAllExisting(acc: Accumulator, ds: seq<Fragment>, i: int)
    requires acc.Valid() && i in acc.slots
    ensures i in MergeAll(acc, ds).slots
    ensures var s := acc.slots[i];
            MergeAll(acc, ds).slots[i]
            == ToolCall(if LastId(ds, i).Some? then LastId(ds, i) else s.id, OrElse(LastTyp(ds, i), s.typ),
                        s.name + NameOf(ds, i), s.arguments + ArgumentsOf(ds, i))
  {
    var s := acc.slots[i];
    if ds == [] {
      assert s.name + "" == s.name && s.arguments + "" == s.arguments;
    } else {
      var init, d := ds[..|ds| - 1], ds[|ds| - 1];
      MergeAllExisting(acc, init, i);
      GrownSnoc(s, ds, i);
      assert MergeAll(acc, ds) == Merge(MergeAll(acc, init), d);
    }
  }



  /**
   * A slot created while merging `ds`: its name and arguments are the
   * in-order concatenations of the pieces of the fragments of `i`; its id and
   * type are the last truthy ones sent for `i`, falling back to the first
   * fragment's id and to "function".
   */
  lemma {:induction false} MergeAllFresh(acc: Accumulator, ds: seq<Fragment>, i: int)
    requires acc.Valid() && i !in acc.slots && i in Indices(ds)
    ensures i in MergeAll(acc, ds).slots
    ensures MergeAll(acc, ds).slots[i]
            == ToolCall(if LastId(ds, i).Some? then LastId(ds, i) else FirstOf(ds, i).id,
                        OrElse(LastTyp(ds, i), "function"), NameOf(ds, i), ArgumentsOf(ds, i))
  {
    var init, d := ds[..|ds| - 1], ds[|ds| - 1];
    IndicesPrefix(ds);
    assert ds == init + [d];
    var prev := MergeAll(acc, init);
    MergeAllHas(acc, init, i);
    if i in Indices(init) {
      MergeAllFresh(acc, init, i);
      LaterFragment(prev, init, d, i);
    } else {
      FirstFragment(prev, init, d);
    }
  }

  /** A fragment arriving after the slot of index `i` was created. */
  lemma LaterFragment(prev: Accumulator, init: seq<Fragment>, d: Fragment, i: int)
    requires prev.Valid() && i in Indices(init) && i in prev.slots
    requires prev.slots[i]
             == ToolCall(if LastId(init, i).Some? then LastId(init, i) else FirstOf(init, i).id,
                         OrElse(LastTyp(init, i), "function"), NameOf(init, i), ArgumentsOf(init, i))
    ensures i in Indices(init + [d]) && FirstOf(init + [d], i) == FirstOf(init, i)
    ensures var ds := init + [d];
            Merge(prev, d).slots[i]
            == ToolCall(if LastId(ds, i).Some? then LastId(ds, i) else FirstOf(ds, i).id,
                        OrElse(LastTyp(ds, i), "function"), NameOf(ds, i), ArgumentsOf(ds, i))
  {
    var ds := init + [d];
    assert ds[..|ds| - 1] == init;
    FirstOfAppend(init, d, i);
    if d.index != i {
      assert NameOf(ds, i) == NameOf(init, i) + "";
      assert ArgumentsOf(ds, i) == ArgumentsOf(init, i) + "";
    }
  }

  /** The slot created by the first fragment of its index. */
  lemma FirstFragment(prev: Accumulator, init: seq<Fragment>, d: Fragment)
    requires prev.Valid() && d.index !in prev.slots && d.index !in Indices(init)
    ensures d.index in Indices(init + [d]) && FirstOf(init + [d], d.index) == d
    ensures var ds, i := init + [d], d.index;
            Merge(prev, d).slots[i]
            == ToolCall(if LastId(ds, i).Some? then LastId(ds, i) else FirstOf(ds, i).id,
                        OrElse(LastTyp(ds, i), "function"), NameOf(ds, i), ArgumentsOf(ds, i))
  {
    var ds, i := init + [d], d.index;
    assert ds[..|ds| - 1] == init;
    AbsentIndex(init, i);
    FirstOfNew(init, d);
    assert LastId(ds, i) == if Truthy(d.id) then d.id else None;
    assert LastTyp(ds, i) == if Truthy(d.typ) then d.typ else None;
    assert NameOf(ds, i) == "" + Piece(d.name);
    assert ArgumentsOf(ds, i) == "" + Piece(d.arguments);
  }

  /** The slots of a round are listed in the order their indices were first seen. */
  lemma {:induction false} MergeAllOrder(ds: seq<Fragment>)
    ensures MergeAll(Empty, ds).order == FirstSeen(Indices(ds))
  {
    if ds != [] {
      var init, d := ds[..|ds| - 1], ds[|ds| - 1];
      IndicesPrefix(ds);
      assert Indices(ds)[..|ds| - 1] == Indices(init);
      MergeAllOrder(init);
      MergeAllHas(Empty, init, d.index);
    }
  }

  /** The batch a round end yields after the fragments `ds` of one round. */
  function Batch(ds: seq<Fragment>): seq<ToolCall> {
    MergeAll(Empty, ds).Values()
  }

  /**
   * Entry `k` of a batch is the tool call of the `k`-th index in first-seen
   * order (not numeric order): its name and arguments are the in-order
   * concatenations of that index's pieces, its type the last truthy type sent
   * (default "function"), its id the last truthy id sent, else the first
   * fragment's.
   */
  lemma BatchContents(ds: seq<Fragment>, k: nat)
    requires k < |FirstSeen(Indices(ds))|
    ensures |Batch(ds)| == |FirstSeen(Indices(ds))|
    ensures var x := FirstSeen(Indices(ds))[k];
            x in Indices(ds)
            && Batch(ds)[k] == ToolCall(if LastId(ds, x).Some? then LastId(ds, x) else FirstOf(ds, x).id,
                                        OrElse(LastTyp(ds, x), "function"), NameOf(ds, x), ArgumentsOf(ds, x))
  {
    MergeAllOrder(ds);
    MergeAllFresh(Empty, ds, FirstSeen(Indices(ds))[k]);
  }

  /** A batch is empty exactly when the round had no fragments. */
  lemma BatchEmptyIff(ds: seq<Fragment>)
    ensures MergeAll(Empty, ds).slots == map[] <==> ds == []
  {
    if ds != [] {
      MergeAllHas(Empty, ds, ds[0].index);
      assert Indices(ds)[0] == ds[0].index;
    }
  }

  /** The fragments of the current round: those seen since the last chunk that ended a round. */
  function Pending(chunks: seq<Chunk>): seq<Fragment> {
    if chunks == [] then []
    else
      var prev := Pending(chunks[..|chunks| - 1]);
      var c := chunks[|chunks| - 1];
      if c.content.Some? then prev
      else if c.toolCalls != [] then prev + c.toolCalls
      else if c.finishReason == Some("tool_calls") then []
      else prev
  }

  /**
   * Rounds are independent: after any prefix of the stream, the dict holds
   * exactly the fragments of the current round merged from an empty dict.
   */
  lemma {:induction false} AccumulatorIsPending(chunks: seq<Chunk>)
    ensures Run(chunks).acc == MergeAll(Empty, Pending(chunks))
  {
    if chunks != [] {
      var init, c := chunks[..|chunks| - 1], chunks[|chunks| - 1];
      AccumulatorIsPending(init);
      if c.content.None? && c.toolCalls != [] {
        MergeAllAppend(Empty, Pending(init), c.toolCalls);
      } else if IsRoundEnd(c) && Run(init).acc.slots == map[] {
        BatchEmptyIff(Pending(init));
      }
    }
  }

  /**
   * A chunk that ends a round yields exactly one batch holding every pending
   * slot, and empties the dict; with no pending fragments it yields nothing.
   */
  lemma RoundEndYields(chunks: seq<Chunk>, c: Chunk)
    requires IsRoundEnd(c)
    ensures Run(chunks + [c]).acc == Empty
    ensures Run(chunks + [c]).out
            == Run(chunks).out + (if Pending(chunks) == [] then [] else [Calls(Batch(Pending(chunks)))])
  {
    assert (chunks + [c])[..|chunks|] == chunks;
    AccumulatorIsPending(chunks);
    BatchEmptyIff(Pending(chunks));
  }

  /** Every batch yielded holds at least one tool call. */
  lemma {:induction false} BatchesNonEmpty(chunks: seq<Chunk>)
    ensures forall y :: y in Run(chunks).out && y.Calls? ==> y.calls != []
  {
    if chunks != [] {
      var init := chunks[..|chunks| - 1];
      BatchesNonEmpty(init);
      EmptyIffNoOrder(Run(init).acc);
    }
  }

  /**
   * Chunks without content that do not end a round add nothing at all to the
   * output: the fragments they carry wait in the dict.
   */
  lemma {:induction false} SilentTailYieldsNothing(chunks: seq<Chunk>, tail: seq<Chunk>)
    requires forall k :: 0 <= k < |tail| ==> tail[k].content.None? && !IsRoundEnd(tail[k])
    ensures Run(chunks + tail).out == Run(chunks).out
  {
    if tail == [] {
      assert chunks + tail == chunks;
    } else {
      var init := tail[..|tail| - 1];
      assert (chunks + tail)[..|chunks + tail| - 1] == chunks + init;
      SilentTailYieldsNothing(chunks, init);
    }
  }

  /**
   * Fragments still pending when the stream ends are never yielded: as long
   * as no chunk ends the round, no batch of tool calls is yielded, whatever
   * text is forwarded in between.
   */
  lemma {:induction false} UnfinishedRoundNotYielded(chunks: seq<Chunk>, tail: seq<Chunk>)
    requires forall k :: 0 <= k < |tail| ==> !IsRoundEnd(tail[k])
    ensures CallsOf(Run(chunks + tail).out) == CallsOf(Run(chunks).out)
  {
    if tail == [] {
      assert chunks + tail == chunks;
    } else {
      var init, c := tail[..|tail| - 1], tail[|tail| - 1];
      UnfinishedRoundNotYielded(chunks, init);
      NoBatchStep(chunks + init, c);
      SplitLast(chunks, tail);
    }
  }


  /** A chunk that does not end the round adds no batch to the output. */
  lemma NoBatchStep(chunks: seq<Chunk>, c: Chunk)
    requires !IsRoundEnd(c)
    ensures CallsOf(Run(chunks + [c]).out) == CallsOf(Run(chunks).out)
  {
    assert (chunks + [c])[..|chunks|] == chunks;
    var prev := Run(chunks);
    CallsOfText(prev.out, Step(prev.acc, c).out);
  }
}
