# Allocation tracing in the criterium native agent

This project models the allocation-tracing engine of the criterium JVMTI agent
(`agent-cpp/agent.cpp`) in Dafny and proves properties of the model.

The engine works as follows:

- The host samples allocations. Each sampled object gets an integer tag from a counter.
- For each sampled object the engine stores a record: the object's class and size, the
  allocation site (the innermost stack frame) and the calling site (the first frame outside
  the platform and Clojure runtimes), the thread, a freed flag, and the tag.
- Free notifications mark records freed.
- A report hands every record to the Java side in insertion order, then untags the objects
  and empties the store.
- Tracing is started and stopped by commands from the Java side. Two marker classes,
  allocated by the Java side, delimit a session:
  - sampling the start marker while starting and with an empty store activates tracing;
  - sampling the finish marker while stopping enters `Flushing`;
  - freeing the finish marker's object enters `Flushed`.

Files:

- `option.dfy` (`Opt`): the `Option` type.
- `frames.dfy` (`Frames`): stack frames, the calling-frame search and the line-number scan.
- `store.dfy` (`Store`):
  - the `AllocRec` class (the C++ `alloc_rec`, whose `freed` and `disable_marker` fields are
    written in place through the tag map's pointer);
  - the `Record` value of a record and the `Allocation` item sent to `Agent.data1`;
  - the trace of host calls;
  - the functions that specify the report and the untagging (`Emit`, `AllTags`,
    `UntagCalls`) and the free event (`MarkFreed`).
- `agent.dfy` (`Tracing`): the `Agent` class.
  - Its fields are the global state of the C++ file: the tracing state, the Java-visible
    mirror of the state, the tag counter, the `allocs` vector, the `allocs_by_tag` map, and
    the trace of host calls made so far.
  - Its methods are the callbacks and commands.
  - `Valid()` is the invariant every callback keeps. Among other things, the stored
    records carry the last tags the counter issued, in order, and the map indexes exactly
    those.
- `cstrings.dfy` (`CStrings`): `terminate_string` over a `char` array, and `parse_options`.
- `scenarios.dfy` (`Scenarios`): one tracing session driven end to end through the
  commands and callbacks.

Host calls whose effect lies outside the agent are appended to `hostCalls`:

- `SetTag`;
- `GetObjectsWithTags`;
- `SetEventNotificationMode`;
- `SetHeapSamplingInterval`;
- `Agent.data1`.

What the host answers is passed in as parameters:

- the class signature;
- the captured stack, with each frame's class, method, source file and line table;
- the thread id;
- the objects found for the tag query.

Behaviours of the code that the model keeps and that are easy to miss:

- The tag counter is never reset. Starting a new session empties the store but leaves
  the counter where it was, so tags keep increasing across sessions.
- While the state is `Starting` and the store is empty, every sample is dropped
  unrecorded. Only the start marker changes the state; other classes are neither
  recorded nor acted on.
- The free-side transition to `Flushed` writes the local state only. The Java-visible
  mirror keeps `Flushing` until the next mirrored write: a `sync_state`, start or stop
  command.
- The finish marker's own object is recorded like any other sample (it only carries the
  disable marker in addition), so a report emits it together with the real samples.
- Only frame 0 and the calling frame have their details (and line tables) read; other
  frames only have their class looked up by the calling-frame search.
- The tag query that `untag_objects` sends holds 2n entries for n records: n zeros
  followed by the n tags. The vector is pre-sized and then appended to.

## Model

| member | source | states |
|---|---|---|
| `Tracing.Agent.constructor` | agent-cpp/agent.cpp:124-152 | the engine starts passive, with the counter at 0 and both containers empty; the invariant holds |
| `Tracing.Agent.SetState` | agent-cpp/agent.cpp:126-129 | the local `set_state` writes the state and nothing else |
| `Tracing.Agent.SetStateMirrored` | agent-cpp/agent.cpp:131-134 | the mirrored `set_state` writes the mirror and the state to the same value, and touches nothing else |
| `Tracing.Agent.NextTag` | agent-cpp/agent.cpp:190-193 | returns the counter's value and advances the counter by exactly 1, so consecutive tags are 0, 1, 2, … |
| `Tracing.Agent.TagsUnique` | agent-cpp/agent.cpp:190-193 | under the invariant, stored tags strictly increase in insertion order and lie in [0, counter): no tag is stored twice |
| `Tracing.Agent.KeysAreTags` | agent-cpp/agent.cpp:247-250 | under the invariant, the map's key set is exactly the set of stored tags, and each key leads to a stored record carrying that tag |
| `Tracing.StoreAppend` | agent-cpp/agent.cpp:438-440 | storing a record under the tag just issued finds that tag absent from the map and keeps the store invariant with the advanced counter |
| `Store.AllocRec.constructor` | agent-cpp/agent.cpp:218-244 | a new record holds the given fields, a missing call or alloc file becomes "NO_SOURCC", and it starts neither freed nor marked |
| `Store.NewRecord` | agent-cpp/agent.cpp:344-379 | a new record is not freed and not marked, and carries the given tag. Its allocation site is frame 0's class, method and line. Its calling class is outside the infrastructure prefixes whenever some frame is a candidate. When no frame is a candidate, the calling site equals the allocation site |
| `Frames.FirstCandidate` | agent-cpp/agent.cpp:261-287 | the search from `from` stops at the first frame whose class resolved and is not infrastructure, or at the end |
| `Frames.CallingFrameIndex` | agent-cpp/agent.cpp:254-292 | the least candidate index when one exists, otherwise 0. Always below the frame count when there are frames |
| `Frames.CallingFrame` | agent-cpp/agent.cpp:254-292 | the loop with its break and its fallback to 0 returns exactly `CallingFrameIndex` |
| `Frames.ScanStop` | agent-cpp/agent.cpp:320-325 | the scan from `from` stops at the first entry starting past the location, or at the end; every entry it passes starts at or before the location |
| `Frames.LineAtSorted` | agent-cpp/agent.cpp:316-328 | on a table sorted by start location, the line is that of the last entry starting at or before the location, or entry 0's when none does |
| `Frames.ScanStopIsFirst` | agent-cpp/agent.cpp:320-325 | any index that every earlier entry passes, and that is the end or starts past the location, is where the scan stops |
| `Frames.LineNumber` | agent-cpp/agent.cpp:316-328 | the loop yields -1 without a table, and otherwise entry 0's line overwritten up to the first entry starting past the location (`LineAt`) |
| `Frames.FrameDetail` | agent-cpp/agent.cpp:295-342 | the frame's class, method name and source file (None when absent), and the line from the scan; -1 without a line table |
| `Tracing.Agent.IsAllocsEmpty` | agent-cpp/agent.cpp:381-384 | true exactly when the store holds no record |
| `Tracing.Agent.AllocationRecord` | agent-cpp/agent.cpp:344-379 | builds a fresh record equal to `NewRecord` under the counter's old value, and advances the counter by one |
| `Tracing.Agent.SampledObjectAlloc` | agent-cpp/agent.cpp:386-442 | covers every branch. A failed class lookup changes nothing. While starting with an empty store nothing is recorded, and the state and mirror become `Active` exactly for the start marker. Otherwise a failed stack capture changes nothing, and a captured stack records one sample (`Recorded`). The invariant holds |
| `Tracing.Agent.RecordSample` | agent-cpp/agent.cpp:421-440 | appends exactly one fresh record, equal to `NewRecord` under the old counter with the disable marker set only for the finish marker while stopping. The map gains exactly that tag, and the object is tagged with it. The finish marker while stopping also switches sampling off and moves state and mirror to `Flushing`; any other sample leaves them unchanged |
| `Tracing.Agent.StoreRecord` | agent-cpp/agent.cpp:438-440 | `emplace` then `push_back`: the record is appended and keyed by its tag, and the store invariant moves to the advanced counter |
| `Tracing.Agent.ObjectFree` | agent-cpp/agent.cpp:534-549 | sets `freed` on exactly the stored record carrying the tag, and on no other; freed flags never return to false, and no disable marker changes. The finish marker freed while flushing switches free events off and moves the state, not the mirror, to `Flushed`. Otherwise state and host calls are unchanged, including for an unknown tag |
| `Store.RecordsOfMarkFreed` | agent-cpp/agent.cpp:538-539 | the change `ObjectFree` makes to the records, seen as values, is `MarkFreed` of the records before |
| `Store.MarkFreed` | agent-cpp/agent.cpp:538-539 | after a free event for a tag, a record is freed exactly when it was freed before or carries the tag; every other field is unchanged |
| `Store.MarkFreedUnknown` | agent-cpp/agent.cpp:538-547 | a free event for a tag no record carries leaves the records unchanged |
| `Store.MarkFreedIdempotent` | agent-cpp/agent.cpp:538-539 | a second free event for the same tag changes nothing, and a freed flag stays set |
| `Store.MarkFreedCommutes` | agent-cpp/agent.cpp:538-539 | free events for two tags give the same records in either order |
| `Store.AllTags` | agent-cpp/agent.cpp:493-500 | the tag query has 2n entries for n records: n zeros, then the records' tags in store order |
| `Store.ClearTags` | agent-cpp/agent.cpp:520-522 | one `SetTag(obj, 0)` per object the host found, in order |
| `Tracing.Agent.ClearObjectTags` | agent-cpp/agent.cpp:520-522 | the loop makes exactly the calls `ClearTags` lists |
| `Tracing.Agent.UntagObjects` | agent-cpp/agent.cpp:502-531 | the map ends empty. An empty store asks the host nothing; otherwise the host calls are one tag query with `AllTags` followed by the untagging of every found object |
| `Store.Emit` | agent-cpp/agent.cpp:564-616 | one `data1` call per record, in store order, each carrying the record's twelve fields in constructor order with `freed` as 0 or 1 |
| `Store.EmitSnoc` | agent-cpp/agent.cpp:564-616 | emitting one more record appends exactly its call |
| `Tracing.Agent.EmitRecords` | agent-cpp/agent.cpp:564-616 | the loop makes exactly the calls `Emit` lists for the stored records |
| `Tracing.Agent.Report` | agent-cpp/agent.cpp:560-620 | emits every record in insertion order, then makes the untagging calls. Afterwards both containers are empty, and state, mirror and counter are unchanged |
| `Tracing.Agent.EnableAllocationTracing` | agent-cpp/agent.cpp:646-672 | from any state: state and mirror `Starting`, both containers empty, counter unchanged, then continuous sampling and both events enabled |
| `Tracing.Agent.DisableAllocationTracing` | agent-cpp/agent.cpp:674-676 | from any state: state and mirror `Stopping`, nothing else changes |
| `Tracing.Agent.Command` | agent-cpp/agent.cpp:722-742 | the five commands and their effects: `ping` sends "Alive"; `sync_state` re-mirrors the state; start enters `Starting` from any state, empties both containers and makes the three enabling host calls; stop enters `Stopping` from any state; report drains. Any other value changes nothing |
| `Scenarios.UnreadFrameAccepted` | agent-cpp/agent.cpp:355-363 | a two-frame stack whose second frame reports an empty line table is still resolvable, because its calling frame is frame 0 and only frames 0 and the calling frame are read |
| `Scenarios.StartSession` | agent-cpp/agent.cpp:402-440 | start, start marker, one sample: tracing becomes active without storing the marker, and the sample is stored under tag 0 with its size and thread |
| `CStrings.CLength` | agent-cpp/agent.cpp:622-625 | `strlen`: the index of the first NUL |
| `CStrings.CLengthAt` | agent-cpp/agent.cpp:622-625 | a NUL with none before it is where `strlen` stops |
| `CStrings.TerminateString` | agent-cpp/agent.cpp:622-625 | writes NUL over the last character and nothing else. The returned string is the original without its first and last characters, and empty for a one-character string |
| `CStrings.DigitRun` | agent-cpp/agent.cpp:838-842 | the length of the leading run of decimal digits |
| `CStrings.ParseOptions` | agent-cpp/agent.cpp:838-842 | an interval is set exactly when the option string is present and starts with a digit, and it is never negative |
| `CStrings.DecimalValueOfDecimal` | agent-cpp/agent.cpp:838-842 | reading back the decimal rendering of n gives n |
| `CStrings.DigitRunOfDigits` | agent-cpp/agent.cpp:838-842 | the digit run of digits followed by a non-digit is exactly the digits |
| `CStrings.ParseOptionsDecimal` | agent-cpp/agent.cpp:838-842 | round trip: the rendering of n followed by text not starting with a digit parses to n |

## Left out

- JVMTI and JNI calls are not modelled as code.
  - Their results are parameters: the class signature, the stack, the frame details, the
    thread id, and the objects found for the tag query.
  - Their effects are entries in the `hostCalls` trace.
  - Their error codes and the `printf` diagnostics are not modelled.
  - A `GetObjectsWithTags` failure is not modelled.
  - The found objects' own tags and count are not modelled beyond the `found` sequence.
- Raw monitors and the two locks are not modelled. Each callback and command is one
  atomic step, so interleavings of concurrent callbacks are not covered.
- The RAII wrappers (`allocated`, `local_ref`, `global_ref`) are not modelled; they only
  manage host resource lifetimes.
- `VMInit`, `VMDeath`, `Agent_OnLoad` and `Agent_OnAttach` are not modelled, nor are the
  `IFn` helpers and `sayHello`. The `Agent` constructor stands for the state `VMInit`
  leaves: the static initial values of the C++ globals, with the mirror set to `passive`
  by VMInit's final `set_state` (before that the Java field holds its own initial value).
- `ClassLoad`, `watch_field` and `FieldModification` are not modelled: the callback is
  never registered and the handler body is empty. `terminate_string`, which `ClassLoad`
  calls, is modelled on its own.
- `bases/agent/src/java/criterium/agent/Agent.java` is not part of this model. The
  mirror field stands for its static `state` field, and `data1` calls are trace entries.
- JVMTI's rule that tag 0 means "untagged" is not modelled. Under that rule the first
  sample is never really tagged, and the zero entries of the tag query are not accepted
  by the host.
- `jlong` and `jint` are modelled as unbounded integers. Counter wrap-around and `atoi`
  overflow on huge option values are not modelled.
- Inputs the C++ code would read out of bounds or dereference as null are excluded by
  preconditions:
  - a stack with no frames;
  - an innermost frame whose class does not resolve;
  - an empty line table reported as present for frame 0 or for the calling frame (the
    two frames whose tables are read; other frames' tables are unconstrained);
  - an empty string passed to `terminate_string`.
- `allocation_record` reads a frame's class in both `calling_frame` and `frame_detail`.
  The model takes one answer per frame, so the two lookups cannot disagree.
- A failure of `NewObject` while building a report item is not modelled.
- The `unique_ptr` ownership of records is not modelled. A record is an `AllocRec`
  object shared between `allocs` and `allocsByTag`, as the raw pointer in the map shares
  it; clearing the store drops both references.
- `Tracing.Agent.ObjectFree` states the freed update field by field on the stored
  objects. The same update over whole record values is the separate twostate lemma
  `Store.RecordsOfMarkFreed`.
