/**
 * The JSON values that cross the model's boundaries. Parsing and serialising JSON
 * are not modelled: the orchestrator receives them as functions (see Llm.Env).
 */
module Json {

  /**
   * A JSON value as the tools return it: a string (get_weather, get_dealership_address),
   * an array (check_appointment_availability) or an object whose members keep their
   * insertion order (schedule_appointment and the tool_output payload).
   */
  datatype JValue =
    | JStr(s: string)
    | JArr(items: seq<JValue>)
    | JObj(members: seq<(string, JValue)>)

  /**
   * What parsing a tool call's accumulated argument text can give: text that is not
   * JSON at all, JSON that is not an object (its Python type name is kept, because the
   * orchestrator then fails on `.items()`), or an object of string-valued arguments.
   */
  datatype Parsed =
    | Malformed
    | NotAnObject(typeName: string)
    | Object(args: map<string, string>)

  /** The keys of an object's members, in order. */
  function Keys(members: seq<(string, JValue)>): (ks: seq<string>)
    ensures |ks| == |members|
    ensures forall i :: 0 <= i < |members| ==> ks[i] == members[i].0
  {
    if members == [] then [] else [members[0].0] + Keys(members[1..])
  }
}
