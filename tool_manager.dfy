/**
  The tool manager seen from the generator: a fixed behaviour from a tool
  name and its arguments to an output or an exception, plus the log of the
  calls it received.
 */
module ToolManagement {
  import opened Api

  class ToolManager {
    const run: ToolFn
    var calls: seq<ToolCall>

    constructor (run: ToolFn)
      ensures this.run == run && calls == []
    {
      this.run := run;
      calls := [];
    }

    /** Runs the named tool on its arguments and logs the call. */
    method ExecuteTool(name: string, input: ToolInput) returns (outcome: ToolOutcome)
      modifies this
      ensures outcome == run(name, input)
      ensures calls == old(calls) + [ToolCall(name, input)]
    {
      outcome := run(name, input);
      calls := calls + [ToolCall(name, input)];
    }
  }
}
