/** The server-sent event records the orchestrator yields (backend/utils/stream.py). */
module Stream {
  import opened Json

  /** One wire event: its tag (`event`) and its payload (`data`). */
  datatype Event = Event(event: string, data: string)

  const ChunkTag := "chunk"
  const ToolUseTag := "tool_use"
  const ToolOutputTag := "tool_output"
  const EndTag := "end"

  /** A text fragment, carried verbatim: the client concatenates fragments itself. */
  function ChunkEvent(text: string): (e: Event)
    ensures e.event == ChunkTag && e.data == text
  {
    Event(ChunkTag, text)
  }

  /** Announces that the named tool is about to run. */
  function ToolUseEvent(toolName: string): (e: Event)
    ensures e.event == ToolUseTag && e.data == toolName
  {
    Event(ToolUseTag, toolName)
  }

  /**
   * A tool's result: the payload is the serialisation `dumps` gives of an object with
   * exactly two members, `name` then `output`.
   */
  function ToolOutputEvent(dumps: JValue -> string, toolName: string, output: JValue): (e: Event)
    ensures e.event == ToolOutputTag
    ensures e.data == dumps(JObj([("name", JStr(toolName)), ("output", output)]))
  {
    Event(ToolOutputTag, dumps(JObj([("name", JStr(toolName)), ("output", output)])))
  }

  /** Closes the stream; its payload is empty. */
  function EndEvent(): (e: Event)
    ensures e.event == EndTag && e.data == ""
  {
    Event(EndTag, "")
  }

  /** The four encoders produce four pairwise distinct tags, whatever their arguments. */
  lemma EncoderTagsDistinct(text: string, name: string, dumps: JValue -> string, output: JValue)
    ensures var tags := [ChunkEvent(text).event, ToolUseEvent(name).event,
                         ToolOutputEvent(dumps, name, output).event, EndEvent().event];
            forall i, j :: 0 <= i < j < 4 ==> tags[i] != tags[j]
  {
  }

  /**
   * The tool_output payload names the tool and carries its output: for a serialiser
   * that tells distinct values apart, equal payloads come from the same tool name
   * and the same output.
   */
  lemma ToolOutputMembers(dumps: JValue -> string, name1: string, output1: JValue, name2: string, output2: JValue)
    requires forall a, b :: dumps(a) == dumps(b) ==> a == b
    ensures ToolOutputEvent(dumps, name1, output1).data == ToolOutputEvent(dumps, name2, output2).data
            ==> name1 == name2 && output1 == output2
  {
    var m1 := [("name", JStr(name1)), ("output", output1)];
    var m2 := [("name", JStr(name2)), ("output", output2)];
    if dumps(JObj(m1)) == dumps(JObj(m2)) {
      assert m1[0].1 == m2[0].1 && m1[1].1 == m2[1].1;
    }
  }
}
