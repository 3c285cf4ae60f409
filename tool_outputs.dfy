/**
 * Selecting the tool outputs of a run that requires action: the tool calls are
 * mapped to an output for `get_weather` calls and to `undefined` for any other
 * tool, and the `undefined` entries are filtered out.
 */
module ToolOutputs {
  import opened Wrappers

  /** The one tool the route knows how to answer. */
  const WeatherTool: string := "get_weather"

  /** A tool call the assistant asks for: its id, the tool's name and the raw argument text. */
  datatype ToolCall = ToolCall(id: string, name: string, arguments: string)

  /**
   * The `output` of a tool output: the lookup started on the call's argument
   * text. The route does not wait for it, so what it resolves to is not part
   * of the value submitted.
   */
  datatype PendingLookup = PendingLookup(arguments: string)

  /** One entry of `tool_outputs`: the call it answers and its output. */
  datatype ToolOutput = ToolOutput(toolCallId: string, output: PendingLookup)

  /** The answer to one `get_weather` call. */
  function AnswerTo(call: ToolCall): ToolOutput {
    ToolOutput(call.id, PendingLookup(call.arguments))
  }

  /** The `map` callback: an output for a `get_weather` call, `undefined` otherwise. */
  function MapCall(call: ToolCall): Option<ToolOutput> {
    if call.name == WeatherTool then Some(AnswerTo(call)) else None
  }

  /** `calls.map(MapCall)`. */
  function MapCalls(calls: seq<ToolCall>): (mapped: seq<Option<ToolOutput>>)
    ensures |mapped| == |calls|
  {
    if calls == [] then [] else [MapCall(calls[0])] + MapCalls(calls[1..])
  }

  /** `filter((output) => output !== undefined)`. */
  function Defined(xs: seq<Option<ToolOutput>>): (kept: seq<ToolOutput>)
    ensures |kept| <= |xs|
  {
    if xs == [] then [] else (if xs[0].Some? then [xs[0].value] else []) + Defined(xs[1..])
  }

  /** The tool outputs collected for a run's tool calls. */
  function CollectToolOutputs(calls: seq<ToolCall>): (outputs: seq<ToolOutput>)
    ensures |outputs| <= |calls|
  {
    Defined(MapCalls(calls))
  }

  /** The `get_weather` calls among `calls`, in order. */
  function WeatherCalls(calls: seq<ToolCall>): (r: seq<ToolCall>)
    ensures forall i :: 0 <= i < |r| ==> r[i].name == WeatherTool
  {
    if calls == [] then []
    else (if calls[0].name == WeatherTool then [calls[0]] else []) + WeatherCalls(calls[1..])
  }

  /** The outputs are exactly the `get_weather` calls, in their order, each answered under its own id. */
  lemma {:induction false} CollectIsWeatherCallsAnswered(calls: seq<ToolCall>)
    ensures |CollectToolOutputs(calls)| == |WeatherCalls(calls)|
    ensures forall k :: 0 <= k < |WeatherCalls(calls)| ==>
      CollectToolOutputs(calls)[k] == AnswerTo(WeatherCalls(calls)[k])
  {
    if calls != [] {
      CollectIsWeatherCallsAnswered(calls[1..]);
      assert MapCalls(calls) == [MapCall(calls[0])] + MapCalls(calls[1..]);
      assert MapCalls(calls)[1..] == MapCalls(calls[1..]);
    }
  }

  /** Collecting distributes over concatenation, so the order of the calls is the order of the outputs. */
  lemma {:induction false} CollectAppend(a: seq<ToolCall>, b: seq<ToolCall>)
    ensures CollectToolOutputs(a + b) == CollectToolOutputs(a) + CollectToolOutputs(b)
  {
    if a == [] {
      assert a + b == b;
    } else {
      assert (a + b)[0] == a[0];
      assert (a + b)[1..] == a[1..] + b;
      CollectAppend(a[1..], b);
      assert MapCalls(a + b)[1..] == MapCalls(a[1..] + b);
      assert MapCalls(a)[1..] == MapCalls(a[1..]);
    }
  }

  /** A single call yields its answer when it is a `get_weather` call and nothing otherwise. */
  lemma CollectSingle(call: ToolCall)
    ensures CollectToolOutputs([call]) == if call.name == WeatherTool then [AnswerTo(call)] else []
  {
    assert [call][1..] == [];
    assert MapCalls([call]) == [MapCall(call)];
    assert Defined([MapCall(call)]) == (if MapCall(call).Some? then [MapCall(call).value] else []) + Defined([]);
  }

  /** Nothing is collected exactly when no call names `get_weather`. */
  lemma {:induction false} CollectEmptyIff(calls: seq<ToolCall>)
    ensures CollectToolOutputs(calls) == [] <==> forall i :: 0 <= i < |calls| ==> calls[i].name != WeatherTool
  {
    if calls != [] {
      CollectEmptyIff(calls[1..]);
      assert MapCalls(calls)[1..] == MapCalls(calls[1..]);
      assert forall i :: 1 <= i < |calls| ==> calls[i] == calls[1..][i - 1];
    }
  }

  /** An output is collected exactly when some `get_weather` call has that id and argument text. */
  lemma {:induction false} CollectMembers(calls: seq<ToolCall>, o: ToolOutput)
    ensures o in CollectToolOutputs(calls) <==>
      exists i :: 0 <= i < |calls| && calls[i].name == WeatherTool && o == AnswerTo(calls[i])
  {
    if calls != [] {
      CollectMembers(calls[1..], o);
      assert MapCalls(calls)[1..] == MapCalls(calls[1..]);
      assert forall i :: 1 <= i < |calls| ==> calls[i] == calls[1..][i - 1];
      if exists i :: 1 <= i < |calls| && calls[i].name == WeatherTool && o == AnswerTo(calls[i]) {
        var i :| 1 <= i < |calls| && calls[i].name == WeatherTool && o == AnswerTo(calls[i]);
        assert calls[1..][i - 1] == calls[i];
      }
    }
  }
}
