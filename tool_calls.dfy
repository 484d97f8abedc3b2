/**
 * What the two streaming generators share: the tool-call slot they build per
 * positional index, the dict of slots (with Python's insertion order), and
 * the values they yield.
 */
module ToolCalls {
  import opened Wrappers

  /** One accumulated tool call: `{"id", "type", "function": {"name", "arguments"}}`. */
  datatype ToolCall = ToolCall(id: Option<string>, typ: string, name: string, arguments: string)

  /**
   * One streamed tool-call fragment: the provider's positional index, and
   * the id, type, name piece and arguments piece it carries, each possibly
   * missing.
   */
  datatype Fragment = Fragment(index: int, id: Option<string>, typ: Option<string>, name: Option<string>, arguments: Option<string>)

  /** What a streaming generator yields: a text fragment, or one complete batch of tool calls. */
  datatype Yield = Text(text: string) | Calls(calls: seq<ToolCall>)

  /** Python truthiness of an optional string: present and non-empty. */
  predicate Truthy(o: Option<string>) {
    o.Some? && o.value != ""
  }

  /** Python's `o or default` for an optional string. */
  function OrElse(o: Option<string>, default: string): (r: string)
    ensures Truthy(o) ==> r == o.value
    ensures !Truthy(o) ==> r == default
  {
    if Truthy(o) then o.value else default
  }

  /** `o or ""`: the fragment a missing or empty piece contributes to a concatenation. */
  function Piece(o: Option<string>): string {
    OrElse(o, "")
  }

  /** The batches of tool calls among the yielded values, in the order they were yielded. */
  function CallsOf(out: seq<Yield>): seq<seq<ToolCall>> {
    if out == [] then []
    else CallsOf(out[..|out| - 1]) + (if out[|out| - 1].Calls? then [out[|out| - 1].calls] else [])
  }

  /** A stream with a non-empty tail is the stream up to the tail's last element, then that element. */
  lemma SplitLast<T>(xs: seq<T>, tail: seq<T>)
    requires tail != []
    ensures xs + tail == (xs + tail[..|tail| - 1]) + [tail[|tail| - 1]]
  {
    assert tail == tail[..|tail| - 1] + [tail[|tail| - 1]];
  }

  /** Yielding text, or nothing, adds no batch. */
  lemma CallsOfText(out: seq<Yield>, more: seq<Yield>)
    requires more == [] || (|more| == 1 && more[0].Text?)
    ensures CallsOf(out + more) == CallsOf(out)
  {
    if more == [] {
      assert out + more == out;
    } else {
      assert (out + more)[..|out|] == out;
    }
  }

  /**
   * The `accumulated_tool_calls` dict: slots keyed by positional index, and
   * the order in which the indices were first inserted (the order
   * `dict.values()` follows).
   */
  datatype Accumulator = Accumulator(slots: map<int, ToolCall>, order: seq<int>) {

    /** The insertion order lists every key exactly once. */
    ghost predicate Valid() {
      && (forall k :: 0 <= k < |order| ==> order[k] in slots)
      && (forall i :: i in slots ==> i in order)
      && (forall k, l :: 0 <= k < l < |order| ==> order[k] != order[l])
    }

    /** `list(accumulated_tool_calls.values())`: the slots in insertion order. */
    function Values(): (vs: seq<ToolCall>)
      requires Valid()
      ensures |vs| == |order|
      ensures forall k :: 0 <= k < |order| ==> vs[k] == slots[order[k]]
    {
      seq(|order|, k requires 0 <= k < |order| => slots[order[k]])
    }

    /** A new key, placed last in the insertion order. */
    function Insert(i: int, slot: ToolCall): (r: Accumulator)
      requires Valid() && i !in slots
      ensures r.Valid() && r.slots == slots[i := slot] && r.order == order + [i]
    {
      Accumulator(slots[i := slot], order + [i])
    }

    /** A new value for an existing key, which keeps its place in the insertion order. */
    function Update(i: int, slot: ToolCall): (r: Accumulator)
      requires Valid() && i in slots
      ensures r.Valid() && r.slots == slots[i := slot] && r.order == order
    {
      Accumulator(slots[i := slot], order)
    }
  }

  /** An empty dict. */
  const Empty := Accumulator(map[], [])

  /** A valid dict is empty exactly when its insertion order is. */
  lemma EmptyIffNoOrder(acc: Accumulator)
    requires acc.Valid()
    ensures acc.slots == map[] <==> acc.order == []
  {
    if acc.order != [] {
      assert acc.order[0] in acc.slots;
    }
    if acc.order == [] {
      assert forall i :: i in acc.slots.Keys ==> i in acc.order;
      assert acc.slots.Keys == {};
    }
  }

  /** The indices of `xs` in the order of their first occurrence, each once. */
  function FirstSeen(xs: seq<int>): (r: seq<int>)
    ensures forall x :: x in r <==> x in xs
    ensures forall k, l :: 0 <= k < l < |r| ==> r[k] != r[l]
  {
    if xs == [] then []
    else
      var prev := FirstSeen(xs[..|xs| - 1]);
      var x := xs[|xs| - 1];
      assert forall y :: y in xs <==> y in xs[..|xs| - 1] || y == x;
      if x in prev then prev else prev + [x]
  }

  /** The slot created on the first fragment of an index: type defaults to "function", name and arguments to "". */
  function NewSlot(d: Fragment): ToolCall {
    ToolCall(d.id, OrElse(d.typ, "function"), Piece(d.name), Piece(d.arguments))
  }

  /** The positional indices of the fragments, in arrival order. */
  function Indices(ds: seq<Fragment>): (r: seq<int>)
    ensures |r| == |ds| && forall k :: 0 <= k < |ds| ==> r[k] == ds[k].index
  {
    seq(|ds|, k requires 0 <= k < |ds| => ds[k].index)
  }

  /** Dropping the last fragment drops the last index. */
  lemma IndicesPrefix(ds: seq<Fragment>)
    requires ds != []
    ensures Indices(ds) == Indices(ds[..|ds| - 1]) + [ds[|ds| - 1].index]
  {
  }

  /** The first fragment carrying index `i`. */
  function FirstOf(ds: seq<Fragment>, i: int): (d: Fragment)
    requires i in Indices(ds)
    ensures d in ds && d.index == i
  {
    if ds[0].index == i then ds[0]
    else
      assert i in Indices(ds[1..]) by {
        var k :| 0 <= k < |ds| && Indices(ds)[k] == i;
        assert Indices(ds[1..])[k - 1] == i;
      }
      FirstOf(ds[1..], i)
  }

  /** The first fragment of `i` is the same in any extension of a sequence that already carries `i`. */
  lemma {:induction false} FirstOfAppend(ds: seq<Fragment>, d: Fragment, i: int)
    requires i in Indices(ds)
    ensures i in Indices(ds + [d]) && FirstOf(ds + [d], i) == FirstOf(ds, i)
  {
    IndicesPrefix(ds + [d]);
    assert (ds + [d])[..|ds|] == ds;
    if ds[0].index != i {
      assert (ds + [d])[1..] == ds[1..] + [d];
      assert i in Indices(ds[1..]) by {
        var k :| 0 <= k < |ds| && Indices(ds)[k] == i;
        assert Indices(ds[1..])[k - 1] == i;
      }
      FirstOfAppend(ds[1..], d, i);
    }
  }

  /** When `d` is the first fragment of its index, it is what `FirstOf` finds. */
  lemma {:induction false} FirstOfNew(ds: seq<Fragment>, d: Fragment)
    requires d.index !in Indices(ds)
    ensures d.index in Indices(ds + [d]) && FirstOf(ds + [d], d.index) == d
  {
    assert Indices(ds + [d])[|ds|] == d.index;
    if ds != [] {
      assert (ds + [d])[1..] == ds[1..] + [d];
      assert ds[0].index != d.index by { assert Indices(ds)[0] == ds[0].index; }
      assert d.index !in Indices(ds[1..]) by {
        forall k | 0 <= k < |ds| - 1 ensures Indices(ds[1..])[k] != d.index {
          assert Indices(ds[1..])[k] == Indices(ds)[k + 1];
        }
      }
      FirstOfNew(ds[1..], d);
    }
  }

  /** The in-order concatenation of the name pieces of the fragments of index `i`. */
  function NameOf(ds: seq<Fragment>, i: int): string {
    if ds == [] then ""
    else NameOf(ds[..|ds| - 1], i) + (if ds[|ds| - 1].index == i then Piece(ds[|ds| - 1].name) else "")
  }

  /** The in-order concatenation of the argument pieces of the fragments of index `i`. */
  function ArgumentsOf(ds: seq<Fragment>, i: int): string {
    if ds == [] then ""
    else ArgumentsOf(ds[..|ds| - 1], i) + (if ds[|ds| - 1].index == i then Piece(ds[|ds| - 1].arguments) else "")
  }

  /** The last truthy id among the fragments of index `i`. */
  function LastId(ds: seq<Fragment>, i: int): (r: Option<string>)
    ensures r.Some? ==> Truthy(r)
  {
    if ds == [] then None
    else if ds[|ds| - 1].index == i && Truthy(ds[|ds| - 1].id) then ds[|ds| - 1].id
    else LastId(ds[..|ds| - 1], i)
  }

  /** The last truthy type among the fragments of index `i`. */
  function LastTyp(ds: seq<Fragment>, i: int): (r: Option<string>)
    ensures r.Some? ==> Truthy(r)
  {
    if ds == [] then None
    else if ds[|ds| - 1].index == i && Truthy(ds[|ds| - 1].typ) then ds[|ds| - 1].typ
    else LastTyp(ds[..|ds| - 1], i)
  }

  /** What the last fragment adds to the pieces, id and type of index `i`. */
  lemma PiecesSnoc(ds: seq<Fragment>, i: int)
    requires ds != []
    ensures var init, d := ds[..|ds| - 1], ds[|ds| - 1];
            && NameOf(ds, i) == NameOf(init, i) + (if d.index == i then Piece(d.name) else "")
            && ArgumentsOf(ds, i) == ArgumentsOf(init, i) + (if d.index == i then Piece(d.arguments) else "")
            && LastId(ds, i) == (if d.index == i && Truthy(d.id) then d.id else LastId(init, i))
            && LastTyp(ds, i) == (if d.index == i && Truthy(d.typ) then d.typ else LastTyp(init, i))
  {
  }

  /** Fragments of an index that never occurs contribute nothing. */
  lemma {:induction false} AbsentIndex(ds: seq<Fragment>, i: int)
    requires i !in Indices(ds)
    ensures NameOf(ds, i) == "" && ArgumentsOf(ds, i) == "" && LastId(ds, i).None? && LastTyp(ds, i).None?
  {
    if ds != [] {
      IndicesPrefix(ds);
      AbsentIndex(ds[..|ds| - 1], i);
    }
  }
}
