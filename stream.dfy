/** The streaming delta aggregator (`_transform_openai_stream` in entity.py): it turns
    the chunks of a streamed OpenAI chat completion into Home Assistant delta dicts.
    `Step` and `Aggregate` state the per-chunk state machine as functions;
    `TransformOpenAIStream` is the source's loop, proved to compute `Aggregate`. */
module Stream {
  import opened Wrappers
  import opened Text
  import opened Json

  // ---------------------------------------------------------------- input chunks

  datatype FunctionFragment = FunctionFragment(name: Option<string>, arguments: Option<string>)
  datatype ToolCallFragment = ToolCallFragment(id: Option<string>, fn: Option<FunctionFragment>)
  datatype ChoiceDelta = ChoiceDelta(role: Option<string>, content: Option<string>, toolCalls: seq<ToolCallFragment>)
  datatype Choice = Choice(delta: ChoiceDelta, finishReason: Option<string>)
  /** A chunk of the stream; only its first choice is read. */
  datatype Chunk = Chunk(choices: seq<Choice>)

  // ---------------------------------------------------------------- output deltas

  /** A finished tool call (`llm.ToolInput`); id and name are whatever the stream supplied. */
  datatype FinishedCall = FinishedCall(id: Option<string>, toolName: Option<string>, toolArgs: Json)

  /** A delta dict: `role` only on the first chunk that has choices, `toolCalls` only on
      a chunk that finishes the turn. */
  datatype Delta = Delta(role: Option<string>, content: Option<string>, toolCalls: Option<seq<FinishedCall>>)

  /** The external collaborators: the emoji filter (used when `stripEmojis` holds) and
      `json.loads`, which may fail. */
  datatype StreamEnv = StreamEnv(stripEmojis: bool, demoji: string -> string, parse: string -> Option<Json>)

  // ---------------------------------------------------------------- state

  /** An entry of `pending_tool_calls`. */
  datatype PendingCall = PendingCall(id: Option<string>, name: Option<string>, args: string)

  /** The generator's local variables; `order` records the insertion order of the
      `pending` dictionary. */
  datatype AggState = AggState(
    newMsg: bool,
    inThink: bool,
    pendingThink: string,
    seenVisible: bool,
    pending: map<string, PendingCall>,
    order: seq<string>,
    callId: Option<string>,
    callName: Option<string>)

  const Init: AggState := AggState(true, false, "", false, map[], [], None, None)

  /** Python truthiness of an optional string. */
  predicate Truthy(s: Option<string>) {
    s.Some? && s.value != ""
  }

  predicate Distinct(s: seq<string>) {
    forall i, j :: 0 <= i < j < |s| ==> s[i] != s[j]
  }

  /** `order` lists the keys of `pending`, each once. */
  predicate WF(st: AggState) {
    && (forall k :: k in st.order ==> k in st.pending)
    && (forall k :: k in st.pending ==> k in st.order)
    && Distinct(st.order)
  }

  // ---------------------------------------------------------------- tool-call fragments

  /** The dictionary key of a fragment after inheriting the last seen id and name. */
  function FragmentKey(id: Option<string>, name: Option<string>): string {
    id.GetOr("") + name.GetOr("")
  }

  /** One iteration of the inner loop over `delta.tool_calls`. */
  function AbsorbFragment(st: AggState, tc: ToolCallFragment): (r: AggState)
    requires WF(st)
    ensures WF(r)
    ensures Untouched(st, r)
  {
    var st1 := Inherit(st, tc);
    var key := FragmentKey(st1.callId, st1.callName);
    if key !in st1.pending then InsertCall(st1, key, NewCall(st1.callId, tc))
    else if tc.fn.Some? && Truthy(tc.fn.value.arguments) then ExtendArgs(st1, key, tc.fn.value.arguments.value)
    else st1
  }

  /** A fragment without an id inherits the last seen one; a fragment with a new non-empty
      name replaces the last seen name. */
  function Inherit(st: AggState, tc: ToolCallFragment): AggState {
    var id := if Truthy(tc.id) then tc.id else st.callId;
    var name :=
      if tc.fn.Some? && Truthy(tc.fn.value.name) && tc.fn.value.name != st.callName
      then tc.fn.value.name else st.callName;
    st.(callId := id, callName := name)
  }

  /** The entry a fragment creates for a key not yet pending: its own name (or "" when it
      has no function part) and its argument text. */
  function NewCall(id: Option<string>, tc: ToolCallFragment): PendingCall {
    PendingCall(
      id,
      if tc.fn.Some? then tc.fn.value.name else Some(""),
      if tc.fn.Some? then tc.fn.value.arguments.GetOr("") else "")
  }

  /** A new key enters the pending dictionary, last in its insertion order. */
  function InsertCall(st: AggState, key: string, e: PendingCall): (r: AggState)
    requires WF(st) && key !in st.pending
    ensures WF(r) && Grows(st, r) && Untouched(st, r)
    ensures key in r.pending && r.pending[key] == e && r.order == st.order + [key]
  {
    st.(pending := st.pending[key := e], order := st.order + [key])
  }

  /** More argument text is appended to a pending entry. */
  function ExtendArgs(st: AggState, key: string, more: string): (r: AggState)
    requires WF(st) && key in st.pending
    ensures WF(r) && Grows(st, r) && Untouched(st, r)
    ensures key in r.pending && r.pending[key].args == st.pending[key].args + more && r.order == st.order
  {
    var prev := st.pending[key];
    st.(pending := st.pending[key := prev.(args := prev.args + more)])
  }

  /** The whole inner loop: fragments are absorbed in arrival order. Existing entries keep
      their id and name and their argument text only grows; new keys are appended. */
  function AbsorbAll(st: AggState, tcs: seq<ToolCallFragment>): (r: AggState)
    requires WF(st)
    ensures WF(r)
    ensures Untouched(st, r)
    decreases |tcs|
  {
    if tcs == [] then st else AbsorbAll(AbsorbFragment(st, tcs[0]), tcs[1..])
  }

  /** The fields that tool-call accumulation leaves alone. */
  predicate Untouched(st: AggState, r: AggState) {
    r.newMsg == st.newMsg && r.inThink == st.inThink && r.pendingThink == st.pendingThink && r.seenVisible == st.seenVisible
  }

  /** Accumulation only grows the pending calls: the insertion order is extended at the
      end, and an existing entry keeps its id and name while its argument text is extended. */
  predicate Grows(st: AggState, r: AggState) {
    && st.order <= r.order
    && forall k :: k in st.pending ==>
         k in r.pending && r.pending[k].id == st.pending[k].id && r.pending[k].name == st.pending[k].name
         && st.pending[k].args <= r.pending[k].args
  }

  /** A fragment never removes, renames or reorders a pending call: it adds a key at the
      end of the order or extends the argument text of an existing one. */
  lemma FragmentGrows(st: AggState, tc: ToolCallFragment)
    requires WF(st)
    ensures Grows(st, AbsorbFragment(st, tc))
  {
    var st1 := Inherit(st, tc);
    assert st1.pending == st.pending && st1.order == st.order;
    var r := AbsorbFragment(st, tc);
    if r == st1 {
      forall k | k in st.pending ensures st.pending[k].args <= r.pending[k].args {
        assert st.pending[k].args == r.pending[k].args;
      }
    }
  }

  lemma {:induction false} AbsorbAllGrows(st: AggState, tcs: seq<ToolCallFragment>)
    requires WF(st)
    ensures Grows(st, AbsorbAll(st, tcs))
    decreases |tcs|
  {
    if tcs != [] {
      var s1 := AbsorbFragment(st, tcs[0]);
      FragmentGrows(st, tcs[0]);
      AbsorbAllGrows(s1, tcs[1..]);
      var r := AbsorbAll(s1, tcs[1..]);
      assert st.order <= s1.order <= r.order;
      forall k | k in st.pending
        ensures k in r.pending && r.pending[k].id == st.pending[k].id && r.pending[k].name == st.pending[k].name
             && st.pending[k].args <= r.pending[k].args
      {
        assert st.pending[k].args <= s1.pending[k].args <= r.pending[k].args;
      }
    }
  }

  // ---------------------------------------------------------------- text

  /** The emoji filter, applied only when enabled. */
  function View(text: string, env: StreamEnv): string {
    if env.stripEmojis then env.demoji(text) else text
  }

  /** The text branch: `<think>` opens suppression, `</think>` inside it closes it,
      suppressed text is only collected; any other text is filtered and emitted. */
  function AbsorbText(st: AggState, text: string, env: StreamEnv): (r: (AggState, Option<string>))
    ensures r.0.(inThink := st.inThink, pendingThink := st.pendingThink, seenVisible := st.seenVisible) == st
    ensures st.seenVisible ==> r.0.seenVisible
  {
    if text == "<think>" then (st.(inThink := true, pendingThink := ""), None)
    else if st.inThink then
      if text == "</think>" then (st.(inThink := false, pendingThink := ""), None)
      else (st.(pendingThink := st.pendingThink + text), None)
    else
      var t := View(text, env);
      (st.(seenVisible := st.seenVisible || Strip(t) != ""), Some(t))
  }

  // ---------------------------------------------------------------- finish

  function PendingArgs(c: PendingCall, parse: string -> Option<Json>): Option<Json> {
    if c.args != "" then parse(c.args) else Some(EmptyObject)
  }

  /** The finished tool calls, in first-seen order; `None` when `json.loads` raises. */
  function Finalize(pending: map<string, PendingCall>, order: seq<string>, parse: string -> Option<Json>): Option<seq<FinishedCall>>
    requires forall k :: k in order ==> k in pending
  {
    if order == [] then Some([])
    else
      var c := pending[order[0]];
      var rest := Finalize(pending, order[1..], parse);
      match PendingArgs(c, parse)
      case None => None
      case Some(args) =>
        if rest.None? then None else Some([FinishedCall(c.id, c.name, args)] + rest.value)
  }

  /** Finishing fails exactly when some non-empty argument text does not parse; otherwise
      there is one call per pending entry, in first-seen order, with its id and name, its
      parsed argument text, and `{}` for empty argument text. */
  lemma {:induction false} FinalizeInOrder(pending: map<string, PendingCall>, order: seq<string>, parse: string -> Option<Json>)
    requires forall k :: k in order ==> k in pending
    ensures Finalize(pending, order, parse).Some?
        <==> forall i :: 0 <= i < |order| ==> PendingArgs(pending[order[i]], parse).Some?
    ensures Finalize(pending, order, parse).Some? ==>
      var r := Finalize(pending, order, parse).value;
      && |r| == |order|
      && forall i :: 0 <= i < |order| ==>
        && r[i].id == pending[order[i]].id
        && r[i].toolName == pending[order[i]].name
        && (pending[order[i]].args == "" ==> r[i].toolArgs == EmptyObject)
        && (pending[order[i]].args != "" ==> Some(r[i].toolArgs) == parse(pending[order[i]].args))
  {
    if order != [] {
      FinalizeInOrder(pending, order[1..], parse);
      var rest := Finalize(pending, order[1..], parse);
      if Finalize(pending, order, parse).Some? {
        var r := Finalize(pending, order, parse).value;
        forall i | 0 <= i < |order|
          ensures && r[i].id == pending[order[i]].id
                  && r[i].toolName == pending[order[i]].name
                  && (pending[order[i]].args == "" ==> r[i].toolArgs == EmptyObject)
                  && (pending[order[i]].args != "" ==> Some(r[i].toolArgs) == parse(pending[order[i]].args))
        {
          if i > 0 {
            assert r[i] == rest.value[i - 1] && order[i] == order[1..][i - 1];
          }
        }
      }
      if forall i :: 0 <= i < |order| ==> PendingArgs(pending[order[i]], parse).Some? {
        forall i | 0 <= i < |order| - 1 ensures PendingArgs(pending[order[1..][i]], parse).Some? {
          assert order[1..][i] == order[i + 1];
        }
      } else {
        var i :| 0 <= i < |order| && PendingArgs(pending[order[i]], parse).None?;
        if i > 0 {
          assert order[1..][i - 1] == order[i];
        }
      }
    }
  }

  // ---------------------------------------------------------------- one chunk

  /** One iteration of the `async for` loop: the new state, the yielded delta (if any),
      and whether `json.loads` raised. */
  function Step(st: AggState, ch: Chunk, env: StreamEnv): (r: (AggState, Option<Delta>, bool))
    requires WF(st)
    ensures WF(r.0)
    ensures ch.choices == [] ==> r == (st, None, false)
    ensures ch.choices != [] ==> !r.0.newMsg
    ensures st.seenVisible ==> r.0.seenVisible
    ensures r.2 ==> r.1.None?
    ensures r.1.Some? && r.1.value.role.Some? ==> st.newMsg
    ensures r.1.Some? && r.1.value.toolCalls.Some? ==> Truthy(ch.choices[0].finishReason)
    ensures ch.choices != [] && !r.2 && r.0.seenVisible ==> r.1.Some?
    ensures r.1.Some? <==>
      && ch.choices != [] && !r.2
      && (|| r.0.seenVisible
          || (st.newMsg && Truthy(ch.choices[0].delta.role))
          || (Truthy(ch.choices[0].finishReason) && r.0.pending != map[]))
  {
    if ch.choices == [] then (st, None, false)
    else
      var choice := ch.choices[0];
      var role := if st.newMsg then choice.delta.role else None;
      var s2 := AbsorbAll(st.(newMsg := false), choice.delta.toolCalls);
      var t := AbsorbDeltaText(s2, choice.delta.content, env);
      Finish(t.0, role, t.1, choice.finishReason, env)
  }

  /** The text branch, when the delta has text. */
  function AbsorbDeltaText(st: AggState, content: Option<string>, env: StreamEnv): (r: (AggState, Option<string>))
    ensures r.0.(inThink := st.inThink, pendingThink := st.pendingThink, seenVisible := st.seenVisible) == st
    ensures st.seenVisible ==> r.0.seenVisible
  {
    if content.Some? then AbsorbText(st, content.value, env) else (st, None)
  }

  /** The finish branch and the yield rule. */
  function Finish(st: AggState, role: Option<string>, content: Option<string>, finishReason: Option<string>, env: StreamEnv)
    : (r: (AggState, Option<Delta>, bool))
    requires WF(st)
    ensures r.0 == st
    ensures r.2 ==> r.1.None?
    ensures r.1.Some? ==> r.1.value.role == role && r.1.value.content == content
    ensures r.1.Some? && r.1.value.toolCalls.Some? ==> Truthy(finishReason)
    ensures !r.2 && st.seenVisible ==> r.1.Some?
    ensures r.1.Some? <==> !r.2 && (st.seenVisible || Truthy(role) || (Truthy(finishReason) && st.pending != map[]))
  {
    if Truthy(finishReason) && st.pending != map[] then
      var calls := Finalize(st.pending, st.order, env.parse);
      if calls.None? then (st, None, true)
      else
        var out := Delta(role, content, Some(calls.value));
        (st, if st.seenVisible || calls.value != [] || Truthy(role) then Some(out) else None, false)
    else
      var out := Delta(role, content, None);
      (st, if st.seenVisible || Truthy(role) then Some(out) else None, false)
  }

  /** The yielded deltas of a stream, and whether it ended by raising. */
  function Aggregate(st: AggState, chunks: seq<Chunk>, env: StreamEnv): (r: (seq<Delta>, bool))
    requires WF(st)
    ensures |r.0| <= |chunks|
    decreases |chunks|
  {
    if chunks == [] then ([], false)
    else
      var (s1, o, failed) := Step(st, chunks[0], env);
      if failed then ([], true)
      else
        var (rest, f) := Aggregate(s1, chunks[1..], env);
        (OptSeq(o) + rest, f)
  }

  function Then(out: seq<Delta>, r: (seq<Delta>, bool)): (seq<Delta>, bool) {
    (out + r.0, r.1)
  }

  /** One unfolding of `Aggregate`, phrased with `Then` so that the loop invariant of
      `TransformOpenAIStream` advances by one chunk. */
  lemma AggregateUnfold(st: AggState, chunks: seq<Chunk>, env: StreamEnv)
    requires WF(st) && chunks != []
    ensures
      var (s1, o, failed) := Step(st, chunks[0], env);
      && (failed ==> Aggregate(st, chunks, env) == ([], true))
      && (!failed ==> forall out :: Then(out, Aggregate(st, chunks, env)) == Then(out + OptSeq(o), Aggregate(s1, chunks[1..], env)))
  {
    var (s1, o, failed) := Step(st, chunks[0], env);
    if !failed {
      var rest := Aggregate(s1, chunks[1..], env);
      forall out: seq<Delta> ensures Then(out, Aggregate(st, chunks, env)) == Then(out + OptSeq(o), rest) {
        assert out + (OptSeq(o) + rest.0) == (out + OptSeq(o)) + rest.0;
      }
    }
  }

  // ---------------------------------------------------------------- the generator

  /** The inner loop over `delta.tool_calls`, absorbing the fragments in arrival order. */
  method AccumulateToolCalls(st: AggState, tcs: seq<ToolCallFragment>) returns (r: AggState)
    requires WF(st)
    ensures r == AbsorbAll(st, tcs)
  {
    r := st;
    var j := 0;
    assert tcs[0..] == tcs;
    while j < |tcs|
      invariant 0 <= j <= |tcs|
      invariant WF(r)
      invariant AbsorbAll(st, tcs) == AbsorbAll(r, tcs[j..])
    {
      assert tcs[j..][1..] == tcs[j + 1..];
      r := AccumulateToolCall(r, tcs[j]);
      j := j + 1;
    }
    assert tcs[|tcs|..] == [];
  }

  /** One fragment: the last seen id and name are inherited, then the pending dictionary
      gets a new entry under the key, or the entry's argument text is extended. */
  method AccumulateToolCall(st: AggState, tc: ToolCallFragment) returns (r: AggState)
    requires WF(st)
    ensures r == AbsorbFragment(st, tc)
  {
    var pending, order, callId, callName := st.pending, st.order, st.callId, st.callName;
    callId := if Truthy(tc.id) then tc.id else callId;
    callName :=
      if tc.fn.Some? && Truthy(tc.fn.value.name) && tc.fn.value.name != callName
      then tc.fn.value.name else callName;
    var key := callId.GetOr("") + callName.GetOr("");
    ghost var st1 := Inherit(st, tc);
    assert st1 == st.(callId := callId, callName := callName) && key == FragmentKey(st1.callId, st1.callName);
    if key !in pending {
      pending := pending[key := PendingCall(
        callId,
        if tc.fn.Some? then tc.fn.value.name else Some(""),
        if tc.fn.Some? then tc.fn.value.arguments.GetOr("") else "")];
      order := order + [key];
    } else if tc.fn.Some? && Truthy(tc.fn.value.arguments) {
      pending := pending[key := pending[key].(args := pending[key].args + tc.fn.value.arguments.value)];
    }
    r := st.(pending := pending, order := order, callId := callId, callName := callName);
  }

  /** The list comprehension over `pending_tool_calls.values()`; `None` when `json.loads` raises. */
  method FinishToolCalls(pending: map<string, PendingCall>, order: seq<string>, parse: string -> Option<Json>)
    returns (calls: Option<seq<FinishedCall>>)
    requires forall k :: k in order ==> k in pending
    ensures calls == Finalize(pending, order, parse)
  {
    var list: seq<FinishedCall> := [];
    FinalizeStart(pending, order, parse);
    for k := 0 to |order|
      invariant Finalize(pending, order, parse) == Then2(list, Finalize(pending, order[k..], parse))
    {
      var tc := pending[order[k]];
      var args: Json := EmptyObject;
      if tc.args != "" {
        var parsed := parse(tc.args);
        if parsed.None? {
          FinalizeFailsAt(pending, order, k, parse);
          return None;
        }
        args := parsed.value;
      }
      FinalizeStep(pending, order, k, list, args, parse);
      list := list + [FinishedCall(tc.id, tc.name, args)];
    }
    assert order[|order|..] == [];
    assert list + [] == list;
    calls := Some(list);
  }

  lemma FinalizeStart(pending: map<string, PendingCall>, order: seq<string>, parse: string -> Option<Json>)
    requires forall k :: k in order ==> k in pending
    ensures Finalize(pending, order, parse) == Then2([], Finalize(pending, order[0..], parse))
  {
    assert order[0..] == order;
    var f := Finalize(pending, order, parse);
    if f.Some? { assert [] + f.value == f.value; }
  }

  /** A key whose argument text does not parse fails the rest of the list. */
  lemma FinalizeFailsAt(pending: map<string, PendingCall>, order: seq<string>, k: nat, parse: string -> Option<Json>)
    requires forall k :: k in order ==> k in pending
    requires k < |order| && PendingArgs(pending[order[k]], parse).None?
    ensures Finalize(pending, order[k..], parse) == None
  {
    assert order[k..][0] == order[k];
  }

  /** The loop advances by one key: its finished call moves from the rest onto the list. */
  lemma FinalizeStep(pending: map<string, PendingCall>, order: seq<string>, k: nat, list: seq<FinishedCall>,
                     args: Json, parse: string -> Option<Json>)
    requires forall k :: k in order ==> k in pending
    requires k < |order| && PendingArgs(pending[order[k]], parse) == Some(args)
    ensures var c := pending[order[k]];
      Then2(list, Finalize(pending, order[k..], parse))
      == Then2(list + [FinishedCall(c.id, c.name, args)], Finalize(pending, order[k + 1..], parse))
  {
    var c := pending[order[k]];
    assert order[k..][0] == order[k] && order[k..][1..] == order[k + 1..];
    var rest := Finalize(pending, order[k + 1..], parse);
    if rest.Some? {
      AppendAssociative(list, [FinishedCall(c.id, c.name, args)], rest.value);
    }
  }

  /** The body of the generator's loop for one chunk that has choices: role capture,
      tool-call accumulation, the thinking filter, the finish branch and the yield rule. */
  method ProcessChunk(st: AggState, choice: Choice, env: StreamEnv) returns (r: AggState, yielded: Option<Delta>, failed: bool)
    requires WF(st)
    ensures (r, yielded, failed) == Step(st, Chunk([choice]), env)
  {
    var delta := choice.delta;
    var role: Option<string> := None;
    if st.newMsg {
      role := delta.role;
    }
    var tools := AccumulateToolCalls(st.(newMsg := false), delta.toolCalls);
    var content;
    r, content := ProcessText(tools, delta.content, env);
    r, yielded, failed := FinishChunk(r, role, content, choice.finishReason, env);
  }

  /** The text branch of the loop body: the thinking filter and the emoji filter. */
  method ProcessText(st: AggState, content: Option<string>, env: StreamEnv) returns (r: AggState, shown: Option<string>)
    ensures (r, shown) == AbsorbDeltaText(st, content, env)
  {
    var inThink, pendingThink, seenVisible := st.inThink, st.pendingThink, st.seenVisible;
    shown := None;
    if content.Some? {
      var text := content.value;
      if text == "<think>" {
        inThink := true;
        pendingThink := "";
      } else if inThink {
        if text == "</think>" {
          inThink := false;
          pendingThink := "";
        } else {
          pendingThink := pendingThink + text;
        }
      } else {
        if env.stripEmojis {
          text := env.demoji(text);
        }
        if Strip(text) != "" {
          seenVisible := true;
        }
        shown := Some(text);
      }
    }
    r := st.(inThink := inThink, pendingThink := pendingThink, seenVisible := seenVisible);
  }

  /** The finish branch of the loop body and the yield rule. */
  method FinishChunk(st: AggState, role: Option<string>, content: Option<string>, finishReason: Option<string>, env: StreamEnv)
    returns (r: AggState, yielded: Option<Delta>, failed: bool)
    requires WF(st)
    ensures (r, yielded, failed) == Finish(st, role, content, finishReason, env)
  {
    r := st;
    var calls: Option<seq<FinishedCall>> := None;
    if Truthy(finishReason) && st.pending != map[] {
      calls := FinishToolCalls(st.pending, st.order, env.parse);
      if calls.None? {
        return r, None, true;
      }
    }
    yielded := None;
    failed := false;
    if st.seenVisible || (calls.Some? && calls.value != []) || Truthy(role) {
      yielded := Some(Delta(role, content, calls));
    }
  }

  /** The source's generator: its loop over the chunks, skipping those without choices.
      It returns the deltas yielded and whether it raised after yielding them. */
  method TransformOpenAIStream(chunks: seq<Chunk>, env: StreamEnv) returns (out: seq<Delta>, failed: bool)
    ensures (out, failed) == Aggregate(Init, chunks, env)
  {
    var st := Init;
    out, failed := [], false;
    var i := 0;
    assert chunks[0..] == chunks;
    assert [] + Aggregate(Init, chunks, env).0 == Aggregate(Init, chunks, env).0;
    while i < |chunks|
      invariant 0 <= i <= |chunks|
      invariant WF(st)
      invariant Aggregate(Init, chunks, env) == Then(out, Aggregate(st, chunks[i..], env))
    {
      var event := chunks[i];
      AggregateUnfold(st, chunks[i..], env);
      assert chunks[i..][0] == event && chunks[i..][1..] == chunks[i + 1..];
      if event.choices == [] {
        assert out + OptSeq<Delta>(None) == out;
        i := i + 1;
        continue;
      }
      var next, yielded, raised := ProcessChunk(st, event.choices[0], env);
      assert Step(st, event, env) == Step(st, Chunk([event.choices[0]]), env);
      if raised {
        assert out + [] == out;
        failed := true;
        return;
      }
      assert Then(out, Aggregate(st, chunks[i..], env)) == Then(out + OptSeq(yielded), Aggregate(next, chunks[i + 1..], env));
      if yielded.Some? {
        out := out + [yielded.value];
      } else {
        assert out + OptSeq(yielded) == out;
      }
      st := next;
      i := i + 1;
    }
    assert chunks[|chunks|..] == [];
    assert out + [] == out;
  }

  function Then2(list: seq<FinishedCall>, r: Option<seq<FinishedCall>>): Option<seq<FinishedCall>> {
    if r.Some? then Some(list + r.value) else None
  }

  // ---------------------------------------------------------------- properties

  /** After the first chunk that has choices, no delta carries a role. */
  lemma {:induction false} RolesAfterFirstAreNone(st: AggState, chunks: seq<Chunk>, env: StreamEnv)
    requires WF(st)
    ensures forall i :: 0 < i < |Aggregate(st, chunks, env).0| ==> Aggregate(st, chunks, env).0[i].role.None?
    ensures !st.newMsg ==> forall i :: 0 <= i < |Aggregate(st, chunks, env).0| ==> Aggregate(st, chunks, env).0[i].role.None?
    decreases |chunks|
  {
    if chunks != [] {
      var (s1, o, failed) := Step(st, chunks[0], env);
      if !failed {
        RolesAfterFirstAreNone(s1, chunks[1..], env);
        var rest := Aggregate(s1, chunks[1..], env).0;
        var out := Aggregate(st, chunks, env).0;
        assert out == OptSeq(o) + rest;
        if chunks[0].choices == [] {
          assert out == rest;
        } else {
          assert !s1.newMsg;
          forall i | 0 < i < |out| ensures out[i].role.None? {
            assert out[i] == rest[i - |OptSeq(o)|];
          }
          if !st.newMsg && o.Some? {
            assert out[0] == o.value;
          }
        }
      }
    }
  }

  /** Only the first delta of a stream can carry the role. */
  lemma RoleOnlyOnFirst(chunks: seq<Chunk>, env: StreamEnv)
    ensures forall i :: 0 < i < |Aggregate(Init, chunks, env).0| ==> Aggregate(Init, chunks, env).0[i].role.None?
  {
    RolesAfterFirstAreNone(Init, chunks, env);
  }

  /** A stream none of whose chunks carries a finish reason yields no tool calls. */
  lemma {:induction false} NoFinishNoToolCalls(st: AggState, chunks: seq<Chunk>, env: StreamEnv)
    requires WF(st)
    requires forall k :: 0 <= k < |chunks| && chunks[k].choices != [] ==> !Truthy(chunks[k].choices[0].finishReason)
    ensures forall d :: d in Aggregate(st, chunks, env).0 ==> d.toolCalls.None?
    decreases |chunks|
  {
    if chunks != [] {
      var (s1, o, failed) := Step(st, chunks[0], env);
      if !failed {
        assert forall k :: 1 <= k < |chunks| ==> chunks[1..][k - 1] == chunks[k];
        NoFinishNoToolCalls(s1, chunks[1..], env);
        assert Aggregate(st, chunks, env).0 == OptSeq(o) + Aggregate(s1, chunks[1..], env).0;
      }
    }
  }

  // ---- the thinking filter

  /** The text fragments of a stream, in order: the `content` of the first choice of each
      chunk that has choices and text. */
  function Texts(chunks: seq<Chunk>): seq<string> {
    if chunks == [] then []
    else
      var c := chunks[0];
      (if c.choices != [] && c.choices[0].delta.content.Some? then [c.choices[0].delta.content.value] else [])
      + Texts(chunks[1..])
  }

  /** Reference definition of the thinking filter: the fragments outside every window
      opened by an exact "<think>" fragment and closed by the next exact "</think>". */
  function Shown(texts: seq<string>, inThink: bool): seq<string> {
    if texts == [] then []
    else if texts[0] == "<think>" then Shown(texts[1..], true)
    else if inThink then Shown(texts[1..], texts[0] != "</think>")
    else [texts[0]] + Shown(texts[1..], false)
  }

  function ViewAll(texts: seq<string>, env: StreamEnv): (r: seq<string>)
    ensures |r| == |texts|
  {
    seq(|texts|, i requires 0 <= i < |texts| => View(texts[i], env))
  }

  /** The text carried by the yielded deltas, in order. */
  function Contents(out: seq<Delta>): seq<string> {
    if out == [] then []
    else (if out[0].content.Some? then [out[0].content.value] else []) + Contents(out[1..])
  }

  /** `a` is `b` with some elements left out. */
  predicate IsSubseq<T(==)>(a: seq<T>, b: seq<T>)
    decreases |b|
  {
    a == [] || (b != [] && ((a[0] == b[0] && IsSubseq(a[1..], b[1..])) || IsSubseq(a, b[1..])))
  }

  lemma ContentsCons(d: Delta, rest: seq<Delta>)
    ensures Contents([d] + rest) == (if d.content.Some? then [d.content.value] else []) + Contents(rest)
  {
    assert ([d] + rest)[1..] == rest;
  }

  /** The text fragment of one chunk, as a sequence of zero or one element. */
  function HeadText(c: Chunk): seq<string> {
    if c.choices != [] && c.choices[0].delta.content.Some? then [c.choices[0].delta.content.value] else []
  }

  /** One chunk's effect on the thinking state and on the text it yields. */
  lemma StepText(st: AggState, c: Chunk, env: StreamEnv)
    requires WF(st) && c.choices != []
    ensures
      var r := Step(st, c, env);
      var content := c.choices[0].delta.content;
      && r.0.inThink == (if content.Some? then content.value == "<think>" || (st.inThink && content.value != "</think>") else st.inThink)
      && (r.1.Some? ==>
            r.1.value.content == (if content.Some? && content.value != "<think>" && !st.inThink then Some(View(content.value, env)) else None))
  {
  }

  lemma SubseqSkip<T>(a: seq<T>, x: T, b: seq<T>)
    requires IsSubseq(a, b)
    ensures IsSubseq(a, [x] + b) && IsSubseq([x] + a, [x] + b)
  {
    assert ([x] + b)[1..] == b;
    assert ([x] + a)[1..] == a;
  }

  /** The thinking filter on one fragment keeps the emitted text a subsequence of the
      shown text, given what the fragment does to the thinking state and the yielded text. */
  lemma TextStepSubseq(inThink: bool, head: seq<string>, inThink1: bool, o: Option<Delta>,
                       rest: seq<Delta>, T: seq<string>, env: StreamEnv)
    requires |head| <= 1
    requires head == [] ==> inThink1 == inThink && (o.Some? ==> o.value.content.None?)
    requires head != [] ==>
      && inThink1 == (head[0] == "<think>" || (inThink && head[0] != "</think>"))
      && (o.Some? ==> o.value.content == (if head[0] != "<think>" && !inThink then Some(View(head[0], env)) else None))
    requires IsSubseq(Contents(rest), ViewAll(Shown(T, inThink1), env))
    ensures IsSubseq(Contents(OptSeq(o) + rest), ViewAll(Shown(head + T, inThink), env))
  {
    var e: seq<string> := if o.Some? && o.value.content.Some? then [o.value.content.value] else [];
    if o.Some? { ContentsCons(o.value, rest); } else { assert OptSeq(o) + rest == rest; }
    assert Contents(OptSeq(o) + rest) == e + Contents(rest);
    if head == [] {
      assert head + T == T && e == [];
      assert e + Contents(rest) == Contents(rest);
    } else {
      assert head + T == [head[0]] + T;
      FragmentSubseq(inThink, head[0], inThink1, e, Contents(rest), T, env);
    }
  }

  /** One text fragment `t`: whatever it emits (`e`) followed by the later emitted text `C`
      stays a subsequence of the shown text. */
  lemma FragmentSubseq(inThink: bool, t: string, inThink1: bool, e: seq<string>,
                       C: seq<string>, T: seq<string>, env: StreamEnv)
    requires inThink1 == (t == "<think>" || (inThink && t != "</think>"))
    requires e == [] || (t != "<think>" && !inThink && e == [View(t, env)])
    requires IsSubseq(C, ViewAll(Shown(T, inThink1), env))
    ensures IsSubseq(e + C, ViewAll(Shown([t] + T, inThink), env))
  {
    assert ([t] + T)[1..] == T;
    if e == [] {
      assert e + C == C;
      if t == "<think>" || inThink {
        assert Shown([t] + T, inThink) == Shown(T, inThink1);
      } else {
        ShownVisible(t, T, env);
        SubseqSkip(C, View(t, env), ViewAll(Shown(T, false), env));
      }
    } else {
      ShownVisible(t, T, env);
      SubseqSkip(C, View(t, env), ViewAll(Shown(T, false), env));
    }
  }

  /** A fragment outside a window and other than `<think>` is shown, filtered. */
  lemma ShownVisible(t: string, T: seq<string>, env: StreamEnv)
    requires t != "<think>"
    ensures ViewAll(Shown([t] + T, false), env) == [View(t, env)] + ViewAll(Shown(T, false), env)
  {
    assert ([t] + T)[1..] == T;
    assert Shown([t] + T, false) == [t] + Shown(T, false);
    ViewAllCons(t, Shown(T, false), env);
  }

  lemma ViewAllCons(t: string, S: seq<string>, env: StreamEnv)
    ensures ViewAll([t] + S, env) == [View(t, env)] + ViewAll(S, env)
  {
    var a, b := ViewAll([t] + S, env), [View(t, env)] + ViewAll(S, env);
    assert |a| == |b|;
    forall i | 0 <= i < |a| ensures a[i] == b[i] {
      if i > 0 { assert ([t] + S)[i] == S[i - 1]; }
    }
  }

  /** One chunk keeps the emitted text a subsequence of the shown text. */
  lemma StepKeepsSubseq(st: AggState, c: Chunk, env: StreamEnv, rest: seq<Delta>, T: seq<string>)
    requires WF(st) && !Step(st, c, env).2
    requires IsSubseq(Contents(rest), ViewAll(Shown(T, Step(st, c, env).0.inThink), env))
    ensures IsSubseq(Contents(OptSeq(Step(st, c, env).1) + rest), ViewAll(Shown(HeadText(c) + T, st.inThink), env))
  {
    var r := Step(st, c, env);
    if c.choices != [] { StepText(st, c, env); }
    TextStepSubseq(st.inThink, HeadText(c), r.0.inThink, r.1, rest, T, env);
  }

  lemma TextsCons(chunks: seq<Chunk>)
    requires chunks != []
    ensures Texts(chunks) == HeadText(chunks[0]) + Texts(chunks[1..])
  {
  }

  /** Every emitted text is a filtered fragment that lies outside every thinking window,
      and emitted texts keep their order: text inside a window, and the tags that open
      and close it, are never emitted. Blank text before any visible text may be dropped. */
  lemma {:induction false} EmittedTextIsShown(st: AggState, chunks: seq<Chunk>, env: StreamEnv)
    requires WF(st)
    ensures IsSubseq(Contents(Aggregate(st, chunks, env).0), ViewAll(Shown(Texts(chunks), st.inThink), env))
    decreases |chunks|
  {
    if chunks != [] {
      var (s1, o, failed) := Step(st, chunks[0], env);
      if !failed {
        EmittedTextIsShown(s1, chunks[1..], env);
        TextsCons(chunks);
        StepKeepsSubseq(st, chunks[0], env, Aggregate(s1, chunks[1..], env).0, Texts(chunks[1..]));
        assert Aggregate(st, chunks, env).0 == OptSeq(o) + Aggregate(s1, chunks[1..], env).0;
      }
    }
  }

  /** The global form: what a stream emits is a subsequence of its filtered fragments
      outside the thinking windows. */
  lemma ThinkTextNeverEmitted(chunks: seq<Chunk>, env: StreamEnv)
    ensures IsSubseq(Contents(Aggregate(Init, chunks, env).0), ViewAll(Shown(Texts(chunks), false), env))
  {
    EmittedTextIsShown(Init, chunks, env);
  }

  lemma {:induction false} InsideWindow(inner: seq<string>, post: seq<string>)
    requires forall k :: 0 <= k < |inner| ==> inner[k] != "</think>"
    ensures Shown(inner + ["</think>"] + post, true) == Shown(post, false)
    decreases |inner|
  {
    if inner == [] {
      assert (["</think>"] + post)[1..] == post;
      assert [] + ["</think>"] + post == ["</think>"] + post;
    } else {
      assert (inner + ["</think>"] + post)[1..] == inner[1..] + ["</think>"] + post;
      InsideWindow(inner[1..], post);
    }
  }

  /** A well-formed "<think>" ... "</think>" span contributes nothing to the shown text,
      whatever it contains, so the visible text is the same as if the span were absent. */
  lemma ThinkSpanHidden(inner: seq<string>, post: seq<string>)
    requires forall k :: 0 <= k < |inner| ==> inner[k] != "</think>"
    ensures Shown(["<think>"] + inner + ["</think>"] + post, false) == Shown(post, false)
  {
    assert (["<think>"] + inner + ["</think>"] + post)[1..] == inner + ["</think>"] + post;
    InsideWindow(inner, post);
  }

  // ---- tool-call fragments

  /** A fragment that carries only argument text: no id and no name. */
  function Continuation(arg: string): ToolCallFragment {
    ToolCallFragment(None, Some(FunctionFragment(None, Some(arg))))
  }

  function Continuations(args: seq<string>): (r: seq<ToolCallFragment>)
    ensures |r| == |args|
  {
    seq(|args|, i requires 0 <= i < |args| => Continuation(args[i]))
  }

  function Concat(parts: seq<string>): string {
    if parts == [] then "" else parts[0] + Concat(parts[1..])
  }

  /** The state after appending `extra` to the argument text of the current key. */
  function Extended(st: AggState, extra: string): AggState
    requires FragmentKey(st.callId, st.callName) in st.pending
  {
    var key := FragmentKey(st.callId, st.callName);
    st.(pending := st.pending[key := st.pending[key].(args := st.pending[key].args + extra)])
  }

  lemma ContinuationStep(st: AggState, a: string)
    requires WF(st)
    requires FragmentKey(st.callId, st.callName) in st.pending
    ensures AbsorbFragment(st, Continuation(a)) == Extended(st, a)
  {
    var key := FragmentKey(st.callId, st.callName);
    if a == "" {
      assert st.pending[key].args + a == st.pending[key].args;
      assert st.pending[key := st.pending[key]] == st.pending;
    }
  }

  lemma ContinuationsCons(st: AggState, args: seq<string>)
    requires WF(st) && args != []
    ensures AbsorbAll(st, Continuations(args)) == AbsorbAll(AbsorbFragment(st, Continuation(args[0])), Continuations(args[1..]))
  {
    assert Continuations(args)[1..] == Continuations(args[1..]);
  }

  lemma ExtendedTwice(st: AggState, a: string, b: string)
    requires FragmentKey(st.callId, st.callName) in st.pending
    ensures Extended(Extended(st, a), b) == Extended(st, a + b)
  {
    var key := FragmentKey(st.callId, st.callName);
    assert st.pending[key].args + a + b == st.pending[key].args + (a + b);
  }

  /** Fragments without id or name inherit the last seen id and name, so their argument
      text is appended, in arrival order, to the entry of that key, and nothing else changes. */
  lemma {:induction false} ContinuationsAppend(st: AggState, args: seq<string>)
    requires WF(st)
    requires FragmentKey(st.callId, st.callName) in st.pending
    ensures AbsorbAll(st, Continuations(args)) == Extended(st, Concat(args))
    decreases |args|
  {
    var key := FragmentKey(st.callId, st.callName);
    if args == [] {
      assert st.pending[key].args + "" == st.pending[key].args;
      assert st.pending[key := st.pending[key]] == st.pending;
    } else {
      ContinuationsCons(st, args);
      ContinuationStep(st, args[0]);
      var s1 := Extended(st, args[0]);
      ContinuationsAppend(s1, args[1..]);
      ExtendedTwice(st, args[0], Concat(args[1..]));
    }
  }

  /** A tool call whose arguments arrive split over several fragments, the first with
      its id and name and the rest with neither, is accumulated as one entry whose
      argument text is the concatenation of the pieces in arrival order. */
  lemma SplitArgumentsConcatenate(st: AggState, id: string, name: string, args: seq<string>)
    requires WF(st) && id != "" && name != "" && |args| >= 1
    requires id + name !in st.pending
    ensures
      var r := AbsorbAll(st, [ToolCallFragment(Some(id), Some(FunctionFragment(Some(name), Some(args[0]))))] + Continuations(args[1..]));
      && id + name in r.pending
      && r.pending[id + name] == PendingCall(Some(id), Some(name), Concat(args))
      && r.order == st.order + [id + name]
  {
    var first := ToolCallFragment(Some(id), Some(FunctionFragment(Some(name), Some(args[0]))));
    var s1 := AbsorbFragment(st, first);
    assert s1.callId == Some(id) && s1.callName == Some(name);
    assert FragmentKey(Some(id), Some(name)) == id + name;
    assert s1.pending[id + name] == PendingCall(Some(id), Some(name), args[0]);
    var frags := [first] + Continuations(args[1..]);
    assert frags[1..] == Continuations(args[1..]);
    ContinuationsAppend(s1, args[1..]);
    assert AbsorbAll(st, frags) == AbsorbAll(s1, frags[1..]);
    assert Concat(args) == args[0] + Concat(args[1..]);
  }

  // ---- a tool call split over a stream of chunks

  /** A chunk whose only choice carries one tool-call fragment and nothing else. */
  function FragmentChunk(tc: ToolCallFragment): Chunk {
    Chunk([Choice(ChoiceDelta(None, None, [tc]), None)])
  }

  /** The last chunk of a tool-call turn: no delta content and a finish reason. */
  const ToolCallsFinish: Chunk := Chunk([Choice(ChoiceDelta(None, None, []), Some("tool_calls"))])

  function ContinuationChunks(args: seq<string>): (r: seq<Chunk>)
    ensures |r| == |args|
  {
    if args == [] then [] else [FragmentChunk(Continuation(args[0]))] + ContinuationChunks(args[1..])
  }

  /** A stream announcing one tool call with `id`, `name` and the first piece of its
      arguments, then one chunk per further piece, then the finish chunk. */
  function SplitCallStream(id: string, name: string, args: seq<string>): seq<Chunk>
    requires |args| >= 1
  {
    [FragmentChunk(ToolCallFragment(Some(id), Some(FunctionFragment(Some(name), Some(args[0])))))]
      + ContinuationChunks(args[1..]) + [ToolCallsFinish]
  }

  /** A continuation chunk extends the current entry and yields nothing. */
  lemma ContinuationChunkStep(st: AggState, a: string, env: StreamEnv)
    requires WF(st) && !st.newMsg && !st.seenVisible
    requires FragmentKey(st.callId, st.callName) in st.pending
    ensures Step(st, FragmentChunk(Continuation(a)), env) == (Extended(st, a), None, false)
  {
    ContinuationStep(st, a);
    assert AbsorbAll(st, [Continuation(a)]) == AbsorbFragment(st, Continuation(a));
  }

  /** A chunk that yields nothing and raises nothing only moves the state on. */
  lemma QuietStep(st: AggState, chunks: seq<Chunk>, s1: AggState, env: StreamEnv)
    requires WF(st) && chunks != [] && Step(st, chunks[0], env) == (s1, None, false)
    ensures WF(s1) && Aggregate(st, chunks, env) == Aggregate(s1, chunks[1..], env)
  {
    var rest := Aggregate(s1, chunks[1..], env);
    assert OptSeq(None) + rest.0 == rest.0;
  }

  /** Continuation chunks before the finish chunk act as one extension by the
      concatenation of their pieces. */
  lemma {:induction false} ContinuationChunksAggregate(st: AggState, args: seq<string>, env: StreamEnv)
    requires WF(st) && !st.newMsg && !st.seenVisible
    requires FragmentKey(st.callId, st.callName) in st.pending
    ensures Aggregate(st, ContinuationChunks(args) + [ToolCallsFinish], env)
         == Aggregate(Extended(st, Concat(args)), [ToolCallsFinish], env)
    decreases |args|
  {
    if args == [] {
      var key := FragmentKey(st.callId, st.callName);
      assert ContinuationChunks(args) + [ToolCallsFinish] == [ToolCallsFinish];
      assert st.pending[key].args + "" == st.pending[key].args;
      assert st.pending[key := st.pending[key]] == st.pending;
      assert Extended(st, Concat(args)) == st;
    } else {
      var chunks := ContinuationChunks(args) + [ToolCallsFinish];
      assert chunks[0] == FragmentChunk(Continuation(args[0]));
      assert chunks[1..] == ContinuationChunks(args[1..]) + [ToolCallsFinish];
      ContinuationChunkStep(st, args[0], env);
      var s1 := Extended(st, args[0]);
      QuietStep(st, chunks, s1, env);
      ContinuationChunksAggregate(s1, args[1..], env);
      ExtendedTwice(st, args[0], Concat(args[1..]));
    }
  }

  /** The state once a call with `id` and `name` is open with argument text `a`. */
  function Opened(id: string, name: string, a: string): AggState {
    Init.(newMsg := false, pending := map[id + name := PendingCall(Some(id), Some(name), a)],
          order := [id + name], callId := Some(id), callName := Some(name))
  }

  /** The first chunk of a split call opens its entry and yields nothing. */
  lemma OpeningChunkStep(id: string, name: string, a: string, env: StreamEnv)
    requires id != "" && name != ""
    ensures Step(Init, FragmentChunk(ToolCallFragment(Some(id), Some(FunctionFragment(Some(name), Some(a))))), env)
         == (Opened(id, name, a), None, false)
  {
    var first := ToolCallFragment(Some(id), Some(FunctionFragment(Some(name), Some(a))));
    var s0 := Init.(newMsg := false);
    var st1 := s0.(callId := Some(id), callName := Some(name));
    assert Inherit(s0, first) == st1;
    assert FragmentKey(Some(id), Some(name)) == id + name;
    assert NewCall(Some(id), first) == PendingCall(Some(id), Some(name), a);
    var s1 := InsertCall(st1, id + name, PendingCall(Some(id), Some(name), a));
    assert AbsorbFragment(s0, first) == s1;
    assert [first][1..] == [];
    assert AbsorbAll(s0, [first]) == s1;
    assert AbsorbDeltaText(s1, None, env) == (s1, None);
    assert Finish(s1, None, None, None, env) == (s1, None, false);
    assert [] + [id + name] == [id + name];
    assert s1 == Opened(id, name, a);
  }

  lemma OpenedExtended(id: string, name: string, a: string, b: string)
    ensures FragmentKey(Opened(id, name, a).callId, Opened(id, name, a).callName) == id + name
    ensures Extended(Opened(id, name, a), b) == Opened(id, name, a + b)
  {
  }

  /** The finish chunk after a single open call yields that call, or raises when its
      argument text does not parse. */
  lemma FinishSingleCall(id: string, name: string, a: string, env: StreamEnv)
    ensures var c := PendingCall(Some(id), Some(name), a);
      && (PendingArgs(c, env.parse).None? ==> Aggregate(Opened(id, name, a), [ToolCallsFinish], env) == ([], true))
      && (PendingArgs(c, env.parse).Some? ==>
            Aggregate(Opened(id, name, a), [ToolCallsFinish], env)
              == ([Delta(None, None, Some([FinishedCall(Some(id), Some(name), PendingArgs(c, env.parse).value)]))], false))
  {
    var st := Opened(id, name, a);
    var key := id + name;
    var c := PendingCall(Some(id), Some(name), a);
    var s1 := st.(newMsg := false);
    assert AbsorbAll(s1, []) == s1;
    assert AbsorbDeltaText(s1, None, env) == (s1, None);
    assert st.order[1..] == [];
    assert Finalize(st.pending, st.order[1..], env.parse) == Some([]);
    var calls := Finalize(st.pending, st.order, env.parse);
    assert Step(st, ToolCallsFinish, env) == Finish(s1, None, None, Some("tool_calls"), env);
    assert key in s1.pending && s1.pending != map[];
    assert st.order[0] == key && st.pending[key] == c;
    if PendingArgs(c, env.parse).Some? {
      assert [FinishedCall(c.id, c.name, PendingArgs(c, env.parse).value)] + [] == [FinishedCall(c.id, c.name, PendingArgs(c, env.parse).value)];
      assert calls == Some([FinishedCall(c.id, c.name, PendingArgs(c, env.parse).value)]);
      assert Step(st, ToolCallsFinish, env) == (s1, Some(Delta(None, None, calls)), false);
      assert [ToolCallsFinish][1..] == [];
      assert Aggregate(s1, [], env) == ([], false);
      assert OptSeq(Some(Delta(None, None, calls))) + [] == [Delta(None, None, calls)];
    } else {
      assert calls == None;
    }
  }

  /** Up to the finish chunk, a split call's stream yields nothing and leaves the call
      open with the concatenation of its pieces. */
  lemma SplitCallStreamOpens(id: string, name: string, args: seq<string>, env: StreamEnv)
    requires id != "" && name != "" && |args| >= 1
    ensures Aggregate(Init, SplitCallStream(id, name, args), env)
         == Aggregate(Opened(id, name, Concat(args)), [ToolCallsFinish], env)
  {
    var first := ToolCallFragment(Some(id), Some(FunctionFragment(Some(name), Some(args[0]))));
    var chunks := SplitCallStream(id, name, args);
    assert chunks[0] == FragmentChunk(first);
    assert chunks[1..] == ContinuationChunks(args[1..]) + [ToolCallsFinish];
    var s1 := Opened(id, name, args[0]);
    OpeningChunkStep(id, name, args[0], env);
    QuietStep(Init, chunks, s1, env);
    OpenedExtended(id, name, args[0], Concat(args[1..]));
    ContinuationChunksAggregate(s1, args[1..], env);
    assert Concat(args) == args[0] + Concat(args[1..]);
  }

  /** A tool call whose arguments arrive in pieces over several chunks comes out of the
      stream as one delta carrying one call with its id and name and the parsed
      concatenation of the pieces: `{}` when they concatenate to nothing, and a raised
      error when the concatenation does not parse. */
  lemma SplitCallStreamYields(id: string, name: string, args: seq<string>, env: StreamEnv)
    requires id != "" && name != "" && |args| >= 1
    ensures var out := Aggregate(Init, SplitCallStream(id, name, args), env);
      && (Concat(args) == "" ==>
            out == ([Delta(None, None, Some([FinishedCall(Some(id), Some(name), EmptyObject)]))], false))
      && (Concat(args) != "" && env.parse(Concat(args)).Some? ==>
            out == ([Delta(None, None, Some([FinishedCall(Some(id), Some(name), env.parse(Concat(args)).value)]))], false))
      && (Concat(args) != "" && env.parse(Concat(args)).None? ==> out == ([], true))
  {
    SplitCallStreamOpens(id, name, args, env);
    FinishSingleCall(id, name, Concat(args), env);
  }
}
