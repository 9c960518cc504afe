/** A tracing session driven end to end through the agent's callbacks and commands. */
module Scenarios {
  import opened Opt
  import opened Frames
  import opened Store
  import opened Tracing

  /** A frame of the application class `Foo`, with no line table. */
  const FooFrame := Frame(Some("LFoo;"), "<init>", Some("Foo.java"), None, 0)

  /** A frame of an application class `Bar` whose method reports an empty line table. */
  const BarFrame := Frame(Some("LBar;"), "run", None, Some([]), 5)

  /** Only frame 0 and the calling frame are read, so an empty line table on any other
      frame does not stop a stack from being recorded. */
  lemma UnreadFrameAccepted()
    ensures CallingFrameIndex([FooFrame, BarFrame]) == 0
    ensures ResolvableStack([FooFrame, BarFrame])
  {
  }

  /** Start, the start marker and one sampled `Foo`: the marker activates tracing without
      being stored, and the object is stored under the first tag. */
  method StartSession() returns (agent: Agent)
    ensures agent.Valid() && agent.state == Active
    ensures |agent.allocs| == 1 && agent.allocs[0].tag == 0
    ensures agent.allocs[0].objSize == 24 && agent.allocs[0].threadId == 7
  {
    agent := new Agent();
    agent.Command(StartAllocationTracing, []);
    assert agent.state == Starting;

    agent.SampledObjectAlloc(100, Some(StartMarker), 0, Some([FooFrame]), 7);
    assert agent.state == Active && agent.allocs == [];

    agent.SampledObjectAlloc(101, Some("LFoo;"), 24, Some([FooFrame]), 7);
  }

  /** Stop, the finish marker, an unknown free event, the marker's free event and a report:
      stopping, flushing, flushed, and an empty store at the end. */
  method EndSession(agent: Agent)
    requires agent.Valid() && agent.state == Active
    modifies agent, agent.allocs
  {
    agent.Command(StopAllocationTracing, []);
    assert agent.state == Stopping;

    var tag := agent.nextObjectTag;
    agent.SampledObjectAlloc(102, Some(FinishMarker), 0, Some([FooFrame]), 7);
    assert agent.state == Flushing && agent.allocsByTag[tag].disableMarker;

    agent.ObjectFree(tag + 1);
    assert agent.state == Flushing;

    agent.ObjectFree(tag);
    assert agent.state == Flushed && agent.mirror == Flushing;

    agent.Command(ReportAllocationTracing, [101, 102]);
    assert agent.allocs == [] && agent.allocsByTag == map[] && agent.state == Flushed;
  }
}
