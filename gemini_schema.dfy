/**
 The response schema the model is configured with
 (`lostOnCampus_response_schema`): an object with three required fields.
 A reply that `JSON.parse` accepts is modelled in this shape; the
 coordinates are carried as opaque numbers and may be missing or `null`,
 which JavaScript treats as falsy.
 */
module GeminiSchema {
  import opened Wrappers

  const AgentMessage: string := "agent_message"
  const FinalQuery: string := "final_query"
  const FinalCoordinates: string := "final_coordinates"

  /** The `required` list of the schema, in its order. */
  const Required: seq<string> := [AgentMessage, FinalQuery, FinalCoordinates]

  datatype NavReply = NavReply(
    agentMessage: string,
    finalQuery: string,
    finalCoordinates: Option<seq<real>>)
}
