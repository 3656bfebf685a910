/**
 * The tool-response constructors of tool_api.go. `Content` values are left abstract: the
 * constructors only collect them.
 */
module ToolApi {
  /** A tool's answer: a status and its content items, in order. */
  datatype ToolResponse<C> = ToolResponse(status: int, content: seq<C>)

  /** `NewToolResponse(content...)`: status 0 and the arguments as content. */
  function NewToolResponse<C>(content: seq<C>): (r: ToolResponse<C>)
    ensures r.status == 0
    ensures |r.content| == |content| && forall i :: 0 <= i < |content| ==> r.content[i] == content[i]
  {
    ToolResponse(0, content)
  }

  /** `NewToolResponseWithStatus(status, content...)`: the given status and the arguments as content. */
  function NewToolResponseWithStatus<C>(status: int, content: seq<C>): (r: ToolResponse<C>)
    ensures r.status == status
    ensures |r.content| == |content| && forall i :: 0 <= i < |content| ==> r.content[i] == content[i]
  {
    ToolResponse(status, content)
  }

  /**
   * For the same arguments the two constructors agree on the content and differ only in the
   * status; with status 0 they build the same response.
   */
  lemma ConstructorsAgree<C>(status: int, content: seq<C>)
    ensures NewToolResponse(content).content == NewToolResponseWithStatus(status, content).content
    ensures NewToolResponse(content) == NewToolResponseWithStatus(0, content)
    ensures status != 0 ==> NewToolResponse(content) != NewToolResponseWithStatus(status, content)
  {
  }

  /** Without arguments the content is empty. */
  lemma NoArgumentsNoContent<C>(status: int)
    ensures NewToolResponse<C>([]).content == []
    ensures NewToolResponseWithStatus<C>(status, []).content == []
  {
  }
}
