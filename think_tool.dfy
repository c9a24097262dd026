/** The reflection tool: it records a reflection by echoing it behind a fixed acknowledgement. */
module ThinkTool {

  const ReflectionRecorded: string := "Reflection이 기록되었습니다: "

  /** `think_tool(reflection)`: the acknowledgement followed by the reflection, verbatim. */
  function ThinkTool(reflection: string): (r: string)
    ensures |r| == |ReflectionRecorded| + |reflection|
    ensures r[..|ReflectionRecorded|] == ReflectionRecorded
    ensures r[|ReflectionRecorded|..] == reflection
  {
    ReflectionRecorded + reflection
  }

  /** The reflection can be read back off the echo, so distinct reflections give distinct echoes. */
  lemma ThinkToolInjective(a: string, b: string)
    requires ThinkTool(a) == ThinkTool(b)
    ensures a == b
  {
    calc {
      a;
      ThinkTool(a)[|ReflectionRecorded|..];
      ThinkTool(b)[|ReflectionRecorded|..];
      b;
    }
  }

  /** The reflection is a suffix of the echo, after a prefix exactly as long as the fixed acknowledgement. */
  lemma ThinkToolSuffix(reflection: string)
    ensures exists pre: string :: pre + reflection == ThinkTool(reflection) && |pre| == |ReflectionRecorded|
  {
    assert ReflectionRecorded + reflection == ThinkTool(reflection);
  }
}
