/** The graph's conditional edge after the chat model: `tools_router`
    sends the conversation to the tool node while the model's last message
    asks for tools, and ends the run otherwise. */
module Router {
  import opened Basics

  /** One tool invocation requested by the model: `{"name", "args", "id"}`. */
  datatype ToolCall = ToolCall(name: string, args: map<string, string>, id: string)

  /** A message in the graph state; `toolCalls` is `None` when the message
      has no `tool_calls` attribute at all. */
  datatype GraphMessage = GraphMessage(toolCalls: Option<seq<ToolCall>>)

  /** The two successors of the model node. */
  datatype Route = ToToolNode | ToEnd

  /** Reading `state["messages"][-1]` of an empty list raises. */
  datatype RouteError = EmptyState

  /** `tools_router(state)`. */
  function ToolsRouter(messages: seq<GraphMessage>): (r: Result<Route, RouteError>)
    ensures messages == [] <==> r.Failure?
    ensures r.Success? ==>
      (r.value == ToToolNode <==>
        var last := messages[|messages| - 1];
        last.toolCalls.Some? && |last.toolCalls.value| > 0)
  {
    if messages == [] then Failure(EmptyState)
    else
      var last := messages[|messages| - 1];
      if last.toolCalls.Some? && |last.toolCalls.value| > 0 then Success(ToToolNode)
      else Success(ToEnd)
  }

  /** The route depends only on the last message: earlier messages never
      change it. */
  lemma RouteDependsOnLastOnly(earlier: seq<GraphMessage>, last: GraphMessage)
    ensures ToolsRouter(earlier + [last]) == ToolsRouter([last])
  {
    assert (earlier + [last])[|earlier + [last]| - 1] == last;
  }
}
