/**
 * A conversation graph with a per-thread checkpointer: the `messages` channel
 * merges by concatenation, each invoke runs `add_message` then
 * `llm_response`, and invokes on the same thread id share one history.
 * The chat model is an oracle from the history it is shown to its reply.
 */
module Checkpoint {
  import opened Wrappers

  datatype Message =
    | SystemMessage(content: string)
    | HumanMessage(content: string)
    | AIMessage(content: string)

  /** The graph state: `query` has no reducer, `messages` merges by `operator.add`. */
  datatype State = State(query: string, messages: seq<Message>)

  /** A partial update returned by a node or given as input; a missing `query` leaves it as it is. */
  datatype Update = Update(query: Option<string>, messages: seq<Message>)

  /** The chat model: the content of its reply to a history. */
  type ChatModel = seq<Message> -> string

  /** An opaque thread id (a `uuid4` in the source). */
  type ThreadId = string

  const SystemPrompt: string := "あなたは最小限の応答をする対話エージェントです。"

  /**
   * The state reducer: `query` is replaced when the update carries one, and
   * `messages` is the old history followed by the update's messages, so the
   * history never shrinks or reorders.
   */
  function Merge(s: State, u: Update): (r: State)
    ensures |r.messages| == |s.messages| + |u.messages|
    ensures r.messages[..|s.messages|] == s.messages
    ensures r.messages[|s.messages|..] == u.messages
    ensures u.query.Some? ==> r.query == u.query.value
    ensures u.query.None? ==> r.query == s.query
  {
    State(if u.query.Some? then u.query.value else s.query, s.messages + u.messages)
  }

  /** The update an invoke's input `State(query=..., messages=...)` contributes. */
  function InputUpdate(input: State): Update
  {
    Update(Some(input.query), input.messages)
  }

  /**
   * The `add_message` node: the system prompt only on an empty history, then
   * the human turn; it never touches `query`.
   */
  function AddMessage(s: State): (u: Update)
    ensures u.query.None?
    ensures |u.messages| == if s.messages == [] then 2 else 1
    ensures u.messages[|u.messages| - 1] == HumanMessage(s.query)
    ensures s.messages == [] ==> u.messages[0] == SystemMessage(SystemPrompt)
    ensures s.messages != [] ==> forall m :: m in u.messages ==> !m.SystemMessage?
  {
    var additional := if s.messages == [] then [SystemMessage(SystemPrompt)] else [];
    Update(None, additional + [HumanMessage(s.query)])
  }

  /** The `llm_response` node: exactly one message, the model's reply to the whole history. */
  function LlmResponse(model: ChatModel, s: State): (u: Update)
    ensures u.query.None?
    ensures u.messages == [AIMessage(model(s.messages))]
  {
    Update(None, [AIMessage(model(s.messages))])
  }

  /** The state a thread starts an invoke from: its checkpoint, or the input alone on a new thread. */
  function Load(threads: map<ThreadId, State>, thread: ThreadId, input: State): State
  {
    if thread in threads then threads[thread] else State(input.query, [])
  }

  /** One invoke: merge the input, then run `add_message`, then `llm_response`, then end. */
  function Turn(model: ChatModel, prior: State, input: State): State
  {
    var s0 := Merge(prior, InputUpdate(input));
    var s1 := Merge(s0, AddMessage(s0));
    Merge(s1, LlmResponse(model, s1))
  }

  /** `MemorySaver`: the latest state of every thread. */
  class MemorySaver {
    var threads: map<ThreadId, State>

    constructor ()
      ensures threads == map[]
    {
      threads := map[];
    }
  }

  /** The compiled two-node graph bound to its checkpointer and its model. */
  class CompiledGraph {
    const checkpointer: MemorySaver
    const model: ChatModel

    constructor (checkpointer: MemorySaver, model: ChatModel)
      ensures this.checkpointer == checkpointer && this.model == model
    {
      this.checkpointer := checkpointer;
      this.model := model;
    }

    /** `invoke(input, config)`: run one turn on the thread and save the result; other threads are untouched. */
    method Invoke(input: State, thread: ThreadId) returns (result: State)
      modifies checkpointer
      ensures result == Turn(model, Load(old(checkpointer.threads), thread, input), input)
      ensures checkpointer.threads == old(checkpointer.threads)[thread := result]
    {
      var state := Load(checkpointer.threads, thread, input);
      state := Merge(state, InputUpdate(input));
      state := Merge(state, AddMessage(state));
      state := Merge(state, LlmResponse(model, state));
      checkpointer.threads := checkpointer.threads[thread := state];
      result := state;
    }
  }

  /** A turn keeps the whole prior history as a prefix and sets `query` to the input's. */
  lemma TurnExtendsHistory(model: ChatModel, prior: State, input: State)
    ensures prior.messages <= Turn(model, prior, input).messages
    ensures Turn(model, prior, input).query == input.query
  {
  }

  /**
   * What one turn appends, given the history after the input is merged: on
   * an empty history three messages (system prompt, human turn, reply), on
   * any other history two (human turn, reply); the reply answers the whole
   * history including the new human turn.
   */
  lemma TurnAppends(model: ChatModel, prior: State, input: State)
    ensures var before := prior.messages + input.messages;
      var t := Turn(model, prior, input);
      && (before == [] ==>
            var shown := [SystemMessage(SystemPrompt), HumanMessage(input.query)];
            t.messages == shown + [AIMessage(model(shown))])
      && (before != [] ==>
            var shown := before + [HumanMessage(input.query)];
            t.messages == shown + [AIMessage(model(shown))])
  {
    var before := prior.messages + input.messages;
    var s0 := Merge(prior, InputUpdate(input));
    assert s0 == State(input.query, before);
    var s1 := Merge(s0, AddMessage(s0));
    if before == [] {
      assert s1.messages == [SystemMessage(SystemPrompt), HumanMessage(input.query)];
    } else {
      assert s1.messages == before + [HumanMessage(input.query)];
    }
  }

  /** The history of one thread after invoking the given queries in order, each as `State(query=q)`. */
  function History(model: ChatModel, queries: seq<string>): seq<Message>
  {
    if queries == [] then []
    else
      var last := queries[|queries| - 1];
      Turn(model, State(last, History(model, queries[..|queries| - 1])), State(last, [])).messages
  }

  /** One more query on a thread: the human turn and the reply follow the earlier history. */
  lemma HistoryStep(model: ChatModel, queries: seq<string>)
    requires queries != []
    ensures var before := History(model, queries[..|queries| - 1]);
      var opening := if before == [] then [SystemMessage(SystemPrompt)] else before;
      var shown := opening + [HumanMessage(queries[|queries| - 1])];
      History(model, queries) == shown + [AIMessage(model(shown))]
  {
    var last := queries[|queries| - 1];
    var before := History(model, queries[..|queries| - 1]);
    TurnAppends(model, State(last, before), State(last, []));
    assert before + [] == before;
  }

  /** A thread's history after n queries opens with the system prompt and holds 1 + 2n messages. */
  lemma {:induction false} HistoryLength(model: ChatModel, queries: seq<string>)
    requires queries != []
    ensures |History(model, queries)| == 1 + 2 * |queries|
    ensures History(model, queries)[0] == SystemMessage(SystemPrompt)
  {
    var init := queries[..|queries| - 1];
    HistoryStep(model, queries);
    if init != [] {
      HistoryLength(model, init);
    }
  }

  /**
   * A thread's history after n queries: the system prompt once, at index 0,
   * then for each query its human turn followed by the model's reply to
   * everything before it.
   */
  lemma {:induction false} HistoryShape(model: ChatModel, queries: seq<string>)
    requires queries != []
    ensures var h := History(model, queries);
      && |h| == 1 + 2 * |queries|
      && h[0] == SystemMessage(SystemPrompt)
      && (forall j :: 0 < j < |h| ==> !h[j].SystemMessage?)
      && (forall i :: 0 <= i < |queries| ==> h[1 + 2 * i] == HumanMessage(queries[i]))
      && (forall i :: 0 <= i < |queries| ==> h[2 + 2 * i] == AIMessage(model(h[..2 + 2 * i])))
  {
    var n := |queries|;
    var init := queries[..n - 1];
    var h := History(model, queries);
    var before := History(model, init);
    HistoryStep(model, queries);
    HistoryLength(model, queries);
    if init != [] {
      HistoryShape(model, init);
      HistoryExtends(model, queries, before, h);
      forall i | 0 <= i < n
        ensures h[1 + 2 * i] == HumanMessage(queries[i])
      {
        if i < n - 1 {
          assert queries[i] == init[i];
          assert h[1 + 2 * i] == before[1 + 2 * i];
        }
      }
    } else {
      assert h[1] == HumanMessage(queries[0]);
    }
  }

  /** The step of HistoryShape: the earlier history's facts carry over to the longer one. */
  lemma HistoryExtends(model: ChatModel, queries: seq<string>, before: seq<Message>, h: seq<Message>)
    requires |queries| > 1
    requires before == History(model, queries[..|queries| - 1])
    requires |before| == 2 * |queries| - 1
    requires h == before + [HumanMessage(queries[|queries| - 1])] + [AIMessage(model(before + [HumanMessage(queries[|queries| - 1])]))]
    requires forall j :: 0 < j < |before| ==> !before[j].SystemMessage?
    requires forall i :: 0 <= i < |queries| - 1 ==> before[2 + 2 * i] == AIMessage(model(before[..2 + 2 * i]))
    ensures forall j :: 0 < j < |h| ==> !h[j].SystemMessage?
    ensures forall i :: 0 <= i < |queries| ==> h[2 + 2 * i] == AIMessage(model(h[..2 + 2 * i]))
    ensures forall i :: 0 <= i < |queries| - 1 ==> h[1 + 2 * i] == before[1 + 2 * i]
    ensures h[2 * |queries| - 1] == HumanMessage(queries[|queries| - 1])
  {
    var n := |queries|;
    forall i | 0 <= i < n
      ensures h[2 + 2 * i] == AIMessage(model(h[..2 + 2 * i]))
    {
      if i < n - 1 {
        assert h[..2 + 2 * i] == before[..2 + 2 * i];
      } else {
        assert h[..2 + 2 * i] == before + [HumanMessage(queries[n - 1])];
      }
    }
  }

  /**
   * Two invokes on one thread: the system prompt, both human turns and both
   * replies, and the second reply answers a history holding the first turn.
   */
  lemma TwoInvokesShareHistory(model: ChatModel, q1: string, q2: string)
    ensures var r1 := model([SystemMessage(SystemPrompt), HumanMessage(q1)]);
      var r2 := model([SystemMessage(SystemPrompt), HumanMessage(q1), AIMessage(r1), HumanMessage(q2)]);
      History(model, [q1, q2]) ==
        [SystemMessage(SystemPrompt), HumanMessage(q1), AIMessage(r1), HumanMessage(q2), AIMessage(r2)]
  {
    assert [q1, q2][..1] == [q1];
    assert [q1][..0] == [];
    HistoryStep(model, [q1]);
    assert History(model, [q1][..0]) == [];
    assert History(model, [q1]) == [SystemMessage(SystemPrompt)] + [HumanMessage(q1)] + [AIMessage(model([SystemMessage(SystemPrompt)] + [HumanMessage(q1)]))];
    assert [SystemMessage(SystemPrompt)] + [HumanMessage(q1)] == [SystemMessage(SystemPrompt), HumanMessage(q1)];
    var h1 := History(model, [q1]);
    var r1 := model([SystemMessage(SystemPrompt), HumanMessage(q1)]);
    assert h1 == [SystemMessage(SystemPrompt), HumanMessage(q1), AIMessage(r1)];
    HistoryStep(model, [q1, q2]);
    assert h1 != [];
    var shown := h1 + [HumanMessage(q2)];
    assert History(model, [q1, q2][..1]) == h1;
    assert History(model, [q1, q2]) == shown + [AIMessage(model(shown))];
    assert shown == [SystemMessage(SystemPrompt), HumanMessage(q1), AIMessage(r1), HumanMessage(q2)];
  }

  /**
   * The `main` scenario: a fresh checkpointer, one thread id, two invokes
   * with `query` only; the second invoke's state holds both turns.
   */
  method Converse(model: ChatModel, thread: ThreadId, q1: string, q2: string)
    returns (first: State, second: State)
    ensures first == State(q1, History(model, [q1]))
    ensures second == State(q2, History(model, [q1, q2]))
    ensures |second.messages| == 5 && second.messages[0] == SystemMessage(SystemPrompt)
  {
    var checkpointer := new MemorySaver();
    var graph := new CompiledGraph(checkpointer, model);
    first := graph.Invoke(State(q1, []), thread);
    assert [q1][..0] == [];
    second := graph.Invoke(State(q2, []), thread);
    assert [q1, q2][..1] == [q1];
    HistoryShape(model, [q1, q2]);
  }
}
