/** The tool loop of the round trip: every `tool_use` block of a response is
    executed in order and answered by a `tool_result` block carrying its id.
    A tool that raises stops the loop, and the exception leaves the round
    trip. */
module ToolLoop {
  import opened Optional
  import opened Protocol

  /** The state the loop has reached: the result blocks collected, the calls
      made to the executor, and the exception that stopped it, if any. */
  datatype ToolRun = ToolRun(results: seq<Block>, calls: seq<ToolCall>, failure: Option<ErrorKind>)

  /** The loop over `blocks`, written back to front so that it describes
      every prefix the loop has walked. */
  function RunTools(blocks: seq<Block>, execute: Executor): ToolRun
    decreases |blocks|
  {
    if blocks == [] then ToolRun([], [], None)
    else
      var done := RunTools(blocks[..|blocks| - 1], execute);
      var b := blocks[|blocks| - 1];
      if done.failure.Some? || !b.ToolUse? then done
      else
        var call := ToolCall(b.name, b.input);
        match execute(b.name, b.input)
        case Output(text) => ToolRun(done.results + [ToolResult(b.id, text)], done.calls + [call], None)
        case Raised(e) => ToolRun(done.results, done.calls + [call], Some(e))
  }

  /** Reference definition: the `tool_use` blocks of a list, in order. */
  function ToolUses(blocks: seq<Block>): (uses: seq<Block>)
    ensures forall i :: 0 <= i < |uses| ==> uses[i].ToolUse?
  {
    if blocks == [] then []
    else (if blocks[0].ToolUse? then [blocks[0]] else []) + ToolUses(blocks[1..])
  }

  /** The executor call a `tool_use` block asks for. */
  function CallOf(b: Block): ToolCall
    requires b.ToolUse?
  {
    ToolCall(b.name, b.input)
  }

  lemma {:induction false} ToolUsesAppend(a: seq<Block>, b: seq<Block>)
    ensures ToolUses(a + b) == ToolUses(a) + ToolUses(b)
    decreases |a|
  {
    if a != [] {
      assert (a + b)[1..] == a[1..] + b;
      ToolUsesAppend(a[1..], b);
    } else {
      assert a + b == b;
    }
  }

  /** Once a tool has raised, walking further blocks changes nothing. */
  lemma {:induction false} FailureSticks(blocks: seq<Block>, k: nat, execute: Executor)
    requires k <= |blocks|
    requires RunTools(blocks[..k], execute).failure.Some?
    ensures RunTools(blocks, execute) == RunTools(blocks[..k], execute)
    decreases |blocks|
  {
    if k < |blocks| {
      var front := blocks[..|blocks| - 1];
      assert front[..k] == blocks[..k];
      FailureSticks(front, k, execute);
    } else {
      assert blocks[..k] == blocks;
    }
  }

  /** The last block of a non-empty list, split off. */
  lemma {:induction false} SplitLast(blocks: seq<Block>)
    requires blocks != []
    ensures var front, b := blocks[..|blocks| - 1], blocks[|blocks| - 1];
      ToolUses(blocks) == ToolUses(front) + (if b.ToolUse? then [b] else [])
  {
    var front, b := blocks[..|blocks| - 1], blocks[|blocks| - 1];
    assert blocks == front + [b];
    ToolUsesAppend(front, [b]);
    assert [b][1..] == [];
  }

  /** The executor is called once per `tool_use` block, in order and with
      that block's name and input, up to the call that raises, and for every
      block when none raises. */
  lemma {:induction false} RunToolsCallsInOrder(blocks: seq<Block>, execute: Executor)
    ensures var run, uses := RunTools(blocks, execute), ToolUses(blocks);
      && |run.calls| <= |uses|
      && (forall i :: 0 <= i < |run.calls| ==> run.calls[i] == CallOf(uses[i]))
      && (run.failure.None? ==> |run.calls| == |uses|)
    decreases |blocks|
  {
    if blocks != [] {
      SplitLast(blocks);
      RunToolsCallsInOrder(blocks[..|blocks| - 1], execute);
    }
  }

  /** Without a failure, every call returned and the i-th result carries the
      i-th `tool_use` block's id and that call's output. */
  lemma {:induction false} RunToolsResults(blocks: seq<Block>, execute: Executor)
    ensures var run, uses := RunTools(blocks, execute), ToolUses(blocks);
      run.failure.None? ==>
        && |run.results| == |uses|
        && forall i :: 0 <= i < |uses| ==>
             && execute(uses[i].name, uses[i].input).Output?
             && run.results[i] == ToolResult(uses[i].id, execute(uses[i].name, uses[i].input).text)
    decreases |blocks|
  {
    if blocks != [] {
      SplitLast(blocks);
      RunToolsResults(blocks[..|blocks| - 1], execute);
    }
  }

  /** With a failure, the last call made is the one that raised, and every
      earlier call returned. */
  lemma {:induction false} RunToolsFailure(blocks: seq<Block>, execute: Executor)
    ensures var run := RunTools(blocks, execute);
      run.failure.Some? ==>
        && |run.calls| > 0
        && execute(run.calls[|run.calls| - 1].name, run.calls[|run.calls| - 1].input)
           == Raised(run.failure.value)
        && forall i :: 0 <= i < |run.calls| - 1 ==>
             execute(run.calls[i].name, run.calls[i].input).Output?
    decreases |blocks|
  {
    if blocks != [] {
      RunToolsFailure(blocks[..|blocks| - 1], execute);
      RunToolsResultsCalls(blocks[..|blocks| - 1], execute);
    }
  }

  /** Without a failure, every call made returned. */
  lemma {:induction false} RunToolsResultsCalls(blocks: seq<Block>, execute: Executor)
    ensures var run := RunTools(blocks, execute);
      run.failure.None? ==>
        forall i :: 0 <= i < |run.calls| ==> execute(run.calls[i].name, run.calls[i].input).Output?
    decreases |blocks|
  {
    if blocks != [] {
      RunToolsResultsCalls(blocks[..|blocks| - 1], execute);
    }
  }

  /** The loop runs to the end exactly when every `tool_use` block's call returns. */
  lemma RunToolsCompletes(blocks: seq<Block>, execute: Executor)
    ensures var uses := ToolUses(blocks);
      RunTools(blocks, execute).failure.None? <==>
        forall i :: 0 <= i < |uses| ==> execute(uses[i].name, uses[i].input).Output?
  {
    RunToolsCallsInOrder(blocks, execute);
    RunToolsResults(blocks, execute);
    RunToolsFailure(blocks, execute);
  }
}
