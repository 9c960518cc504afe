/** The allocation-tracing engine of the native agent: the tracing state and its
    host-visible mirror, the tag counter, the record store (the `allocs` vector and the
    `allocs_by_tag` map), and the callbacks and commands that act on them. Each callback
    and command runs as one atomic step; host calls are appended to `hostCalls` and host
    answers are parameters. */
module Tracing {
  import opened Opt
  import opened Frames
  import opened Store

  /** Values of the tracing state (`States`). */
  const Passive: int := 0
  const Starting: int := 10
  const Active: int := 11
  const Stopping: int := 15
  const Flushing: int := 16
  const Flushed: int := 17

  predicate IsState(s: int) {
    s == Passive || s == Starting || s == Active || s == Stopping || s == Flushing || s == Flushed
  }

  /** Values of the command argument of `Agent.command` (`Commands`). */
  const Ping: int := 0
  const SyncState: int := 1
  const StartAllocationTracing: int := 10
  const StopAllocationTracing: int := 11
  const ReportAllocationTracing: int := 12

  /** The host calls `enable_allocation_tracing` makes: continuous sampling, then both
      event kinds switched on. */
  const EnableCalls := [SetHeapSamplingInterval(0),
                        SetEventNotificationMode(true, SampledObjectAllocEvent),
                        SetEventNotificationMode(true, ObjectFreeEvent)]

  /** Class signatures of the two marker types. */
  const StartMarker := "Lcriterium/agent/Agent$AllocationStartMarker;"
  const FinishMarker := "Lcriterium/agent/Agent$AllocationFinishMarker;"

  /** The store invariant. Every issued tag goes into the store at once and the store is
      only ever emptied as a whole, so the stored records carry the last |allocs| tags
      issued below `next`, in insertion order; the map holds exactly those tags, each
      pointing at the record carrying it. Tags are fixed at construction, so this reads
      no mutable state. */
  ghost predicate StoreInvariant(allocs: seq<AllocRec>, byTag: map<int, AllocRec>, next: int) {
    && |allocs| <= next
    && (forall i :: 0 <= i < |allocs| ==> allocs[i].tag == next - |allocs| + i)
    && (forall t :: t in byTag <==> next - |allocs| <= t < next)
    && (forall t :: t in byTag ==> byTag[t] == allocs[t - (next - |allocs|)])
  }

  /** Storing a record under the tag just issued keeps the store invariant. */
  lemma StoreAppend(allocs: seq<AllocRec>, byTag: map<int, AllocRec>, next: int, rec: AllocRec)
    requires StoreInvariant(allocs, byTag, next)
    requires rec.tag == next
    ensures next !in byTag
    ensures StoreInvariant(allocs + [rec], byTag[next := rec], next + 1)
  {
  }

  class Agent {
    /** `agent_state`, the authoritative tracing state. */
    var state: int
    /** The Java static field `Agent.state`, written by the mirrored transitions. */
    var mirror: int
    /** `next_object_tag`. */
    var nextObjectTag: int
    var allocs: seq<AllocRec>
    var allocsByTag: map<int, AllocRec>
    var hostCalls: seq<HostCall>

    /** The tracing invariant: a known state, a mirror that agrees with it except after
        the free-side flushed transition (which writes the state alone), and a store that
        holds the last tags the counter issued. */
    ghost predicate Valid()
      reads this
    {
      && IsState(state)
      && (mirror == state || (state == Flushed && mirror == Flushing))
      && StoreInvariant(allocs, allocsByTag, nextObjectTag)
    }

    /** Stored tags are unique and below the counter. */
    lemma TagsUnique()
      requires Valid()
      ensures forall i, j :: 0 <= i < j < |allocs| ==> allocs[i].tag < allocs[j].tag
      ensures forall i :: 0 <= i < |allocs| ==> 0 <= allocs[i].tag < nextObjectTag
    {
    }

    /** The map indexes exactly the stored records: its keys are their tags, and each key
        leads to the record carrying it. */
    lemma KeysAreTags()
      requires Valid()
      ensures allocsByTag.Keys == set i | 0 <= i < |allocs| :: allocs[i].tag
      ensures forall t :: t in allocsByTag ==> allocsByTag[t] in allocs && allocsByTag[t].tag == t
    {
      var base := nextObjectTag - |allocs|;
      forall t | t in allocsByTag ensures t in set i | 0 <= i < |allocs| :: allocs[i].tag {
        assert allocs[t - base].tag == t;
      }
    }

    /** The store's records, in insertion order. */
    function Records(): (rs: seq<Record>)
      reads this`allocs, allocs
      ensures |rs| == |allocs|
    {
      RecordsOf(allocs)
    }

    /** The agent as `VMInit` leaves it: passive, with the mirror set, nothing stored and
        no tag issued. */
    constructor ()
      ensures Valid()
      ensures state == Passive && mirror == Passive && nextObjectTag == 0
      ensures allocs == [] && allocsByTag == map[] && hostCalls == []
    {
      state := Passive;
      mirror := Passive;
      nextObjectTag := 0;
      allocs := [];
      allocsByTag := map[];
      hostCalls := [];
    }

    /** `set_state(state)`: the local state only. */
    method SetState(s: int)
      modifies this`state
      ensures state == s
    {
      state := s;
    }

    /** `set_state(env, state)`: the mirror, then the local state. */
    method SetStateMirrored(s: int)
      modifies this`state, this`mirror
      ensures state == s && mirror == s
    {
      mirror := s;
      SetState(s);
    }

    /** `next_tag`: hands out the counter's value and advances it by one. */
    method NextTag() returns (tag: int)
      modifies this`nextObjectTag
      ensures tag == old(nextObjectTag) && nextObjectTag == tag + 1
    {
      tag := nextObjectTag;
      nextObjectTag := nextObjectTag + 1;
    }

    /** `is_allocs_empty`. */
    method IsAllocsEmpty() returns (empty: bool)
      ensures empty <==> allocs == []
    {
      empty := |allocs| == 0;
    }

    /** `allocation_record`: resolves frame 0 and the calling frame, and builds a fresh
        record under the next tag. */
    method AllocationRecord(classSig: string, size: int, threadId: int, frames: seq<Frame>) returns (rec: AllocRec)
      requires ResolvableStack(frames)
      modifies this`nextObjectTag
      ensures fresh(rec)
      ensures nextObjectTag == old(nextObjectTag) + 1
      ensures rec.Value() == NewRecord(classSig, size, frames, threadId, old(nextObjectTag))
    {
      var f0Class, f0Method, f0Source, f0Line := FrameDetail(frames[0]);
      var framei := CallingFrame(frames);
      var fiClass, fiMethod, fiSource, fiLine := FrameDetail(frames[framei]);
      var tag := NextTag();
      rec := new AllocRec(classSig, size, fiClass, fiMethod, fiSource, fiLine,
                          f0Class, f0Method, f0Source, f0Line, threadId, tag);
    }

    /** `SampledObjectAlloc`, called by the host for object `obj`. `classSig` is the class
        signature lookup (None on failure), `stack` the stack capture (None on failure),
        `threadId` the allocating thread's id. */
    method SampledObjectAlloc(obj: ObjectRef, classSig: Option<string>, size: int,
                              stack: Option<seq<Frame>>, threadId: int)
      requires Valid()
      requires stack.Some? ==> ResolvableStack(stack.value)
      modifies this
      ensures Valid()
      // a failed class lookup changes nothing
      ensures classSig.None? ==> unchanged(this)
      // empty store while starting: nothing recorded, only the start marker activates
      ensures classSig.Some? && old(allocs) == [] && old(state) == Starting ==>
                && allocs == [] && allocsByTag == old(allocsByTag)
                && nextObjectTag == old(nextObjectTag) && hostCalls == old(hostCalls)
                && (classSig.value == StartMarker ==> state == Active && mirror == Active)
                && (classSig.value != StartMarker ==> state == old(state) && mirror == old(mirror))
      // otherwise a failed stack capture changes nothing
      ensures classSig.Some? && !(old(allocs) == [] && old(state) == Starting) && stack.None? ==>
                unchanged(this)
      // otherwise exactly one fresh record is appended under a fresh tag
      ensures classSig.Some? && !(old(allocs) == [] && old(state) == Starting) && stack.Some? ==>
                Recorded(obj, classSig.value, size, stack.value, threadId)
    {
      if classSig.None? {
        return;
      }
      var sig := classSig.value;
      var empty := IsAllocsEmpty();
      if empty && state == Starting {
        if sig == StartMarker {
          SetStateMirrored(Active);
        }
      } else {
        if stack.None? {
          return;
        }
        RecordSample(obj, sig, size, stack.value, threadId);
      }
    }

    /** What recording a sample does to the agent: one fresh record, built by
        `allocation_record` under the next tag, is appended to the store and keyed in the
        map; the object is tagged with it; and the finish marker sampled while stopping
        carries the disable marker, switches sampling off and enters `Flushing`. */
    twostate predicate Recorded(obj: ObjectRef, sig: string, size: int, frames: seq<Frame>, threadId: int)
      requires ResolvableStack(frames)
      reads this, allocs
    {
      var tag := old(nextObjectTag);
      var finish := old(state) == Stopping && sig == FinishMarker;
      && nextObjectTag == tag + 1
      && |allocs| == |old(allocs)| + 1 && allocs[..|old(allocs)|] == old(allocs)
      && fresh(allocs[|old(allocs)|])
      && allocs[|old(allocs)|].Value() == NewRecord(sig, size, frames, threadId, tag).(disableMarker := finish)
      && allocsByTag.Keys == old(allocsByTag).Keys + {tag}
      && (finish ==> state == Flushing && mirror == Flushing)
      && (!finish ==> state == old(state) && mirror == old(mirror))
      && hostCalls == old(hostCalls) + [SetTag(obj, tag)]
                       + (if finish then [SetEventNotificationMode(false, SampledObjectAllocEvent)] else [])
    }

    /** The recording half of `SampledObjectAlloc`, once the class and the stack are known
        and the store is not in its empty-while-starting phase. */
    method RecordSample(obj: ObjectRef, sig: string, size: int, frames: seq<Frame>, threadId: int)
      requires Valid()
      requires ResolvableStack(frames)
      modifies this
      ensures Valid()
      ensures Recorded(obj, sig, size, frames, threadId)
    {
      var rec := AllocationRecord(sig, size, threadId, frames);
      hostCalls := hostCalls + [SetTag(obj, rec.tag)];
      if state == Stopping && sig == FinishMarker {
        hostCalls := hostCalls + [SetEventNotificationMode(false, SampledObjectAllocEvent)];
        rec.disableMarker := true;
        SetStateMirrored(Flushing);
      }
      StoreRecord(rec);
    }

    /** Stores a record under the tag just issued: `allocs_by_tag.emplace`, which inserts
        only under a tag not yet present, then `allocs.push_back`. */
    method StoreRecord(rec: AllocRec)
      requires StoreInvariant(allocs, allocsByTag, rec.tag)
      requires nextObjectTag == rec.tag + 1
      modifies this`allocs, this`allocsByTag
      ensures StoreInvariant(allocs, allocsByTag, nextObjectTag)
      ensures allocs == old(allocs) + [rec]
      ensures allocsByTag == old(allocsByTag)[rec.tag := rec]
    {
      StoreAppend(allocs, allocsByTag, rec.tag, rec);
      if rec.tag !in allocsByTag {
        allocsByTag := allocsByTag[rec.tag := rec];
      }
      allocs := allocs + [rec];
    }

    /** `ObjectFree`: the host reports that the object tagged `tag` was reclaimed. */
    method ObjectFree(tag: int)
      requires Valid()
      modifies this`state, this`hostCalls, allocs
      ensures Valid()
      // exactly the record carrying `tag` is marked freed; see RecordsOfMarkFreed
      ensures forall i :: 0 <= i < |allocs| ==> allocs[i].freed == (old(allocs[i].freed) || allocs[i].tag == tag)
      ensures forall i :: 0 <= i < |allocs| ==> allocs[i].disableMarker == old(allocs[i].disableMarker)
      // freeing the finish marker while flushing switches the free events off
      ensures old(state) == Flushing && tag in allocsByTag && old(allocsByTag[tag].disableMarker) ==>
                state == Flushed && hostCalls == old(hostCalls) + [SetEventNotificationMode(false, ObjectFreeEvent)]
      ensures !(old(state) == Flushing && tag in allocsByTag && old(allocsByTag[tag].disableMarker)) ==>
                state == old(state) && hostCalls == old(hostCalls)
    {
      if tag !in allocsByTag {
        return;
      }
      var rec := allocsByTag[tag];
      rec.freed := true;
      if state == Flushing && rec.disableMarker {
        hostCalls := hostCalls + [SetEventNotificationMode(false, ObjectFreeEvent)];
        SetState(Flushed);
      }
    }

    /** `untag_objects`: asks the host for the objects carrying the stored tags (the query
        built by `all_tags`), clears the tag of each object the host returns (`found`), and
        empties the tag map. Nothing is asked of the host when the store is empty. */
    method UntagObjects(found: seq<ObjectRef>)
      modifies this`allocsByTag, this`hostCalls
      ensures allocsByTag == map[]
      ensures hostCalls == old(hostCalls) + UntagCalls(allocs, found)
    {
      var tags := AllTags(allocs);
      if |tags| > 0 {
        ghost var before := hostCalls;
        hostCalls := hostCalls + [GetObjectsWithTags(tags)];
        ClearObjectTags(found);
        assert before + [GetObjectsWithTags(tags)] + ClearTags(found)
            == before + ([GetObjectsWithTags(tags)] + ClearTags(found));
      }
      allocsByTag := map[];
    }

    /** The loop of `untag_objects` over the objects the host found: tag 0 for each. */
    method ClearObjectTags(found: seq<ObjectRef>)
      modifies this`hostCalls
      ensures hostCalls == old(hostCalls) + ClearTags(found)
    {
      var i := 0;
      while i < |found|
        invariant i <= |found|
        invariant hostCalls == old(hostCalls) + ClearTags(found[..i])
      {
        hostCalls := hostCalls + [SetTag(found[i], 0)];
        i := i + 1;
        assert found[..i][..i - 1] == found[..i - 1];
      }
      assert found[..i] == found;
    }

    /** `allocation_tracing_report`: hands every record to `Agent.data1` in insertion order,
        untags the objects and empties the store. The state is not touched. */
    method Report(found: seq<ObjectRef>)
      requires Valid()
      modifies this
      ensures Valid()
      ensures allocs == [] && allocsByTag == map[]
      ensures state == old(state) && mirror == old(mirror) && nextObjectTag == old(nextObjectTag)
      ensures hostCalls == old(hostCalls) + Emit(old(Records())) + UntagCalls(old(allocs), found)
    {
      ghost var emitted := Records();
      EmitRecords();
      UntagObjects(found);
      assert hostCalls == old(hostCalls) + Emit(emitted) + UntagCalls(old(allocs), found);
      allocs := [];
    }

    /** The loop of `allocation_tracing_report`: one `Agent.data1` call per record, in
        insertion order, each carrying the record's fields with `freed` as 0 or 1. */
    method EmitRecords()
      modifies this`hostCalls
      ensures hostCalls == old(hostCalls) + Emit(old(Records()))
    {
      ghost var rs := Records();
      var i := 0;
      while i < |allocs|
        invariant i <= |allocs|
        invariant hostCalls == old(hostCalls) + Emit(rs[..i])
      {
        var item := ToAllocation(allocs[i].Value());
        EmitSnoc(rs, i);
        assert old(hostCalls) + Emit(rs[..i]) + [Data1(Item(item))]
            == old(hostCalls) + (Emit(rs[..i]) + [Data1(Item(item))]);
        hostCalls := hostCalls + [Data1(Item(item))];
        i := i + 1;
      }
      assert rs[..i] == rs;
    }

    /** `enable_allocation_tracing`: enters `Starting` from any state, empties the store and
        asks the host for continuous sampling and both event kinds. The tag counter is
        not reset. */
    method EnableAllocationTracing()
      requires Valid()
      modifies this
      ensures Valid()
      ensures state == Starting && mirror == Starting
      ensures allocs == [] && allocsByTag == map[] && nextObjectTag == old(nextObjectTag)
      ensures hostCalls == old(hostCalls) + EnableCalls
    {
      SetStateMirrored(Starting);
      allocs := [];
      allocsByTag := map[];
      hostCalls := hostCalls + [SetHeapSamplingInterval(0)];
      hostCalls := hostCalls + [SetEventNotificationMode(true, SampledObjectAllocEvent)];
      hostCalls := hostCalls + [SetEventNotificationMode(true, ObjectFreeEvent)];
    }

    /** `disable_allocation_tracing`: enters `Stopping` from any state. */
    method DisableAllocationTracing()
      requires Valid()
      modifies this
      ensures Valid()
      ensures state == Stopping && mirror == Stopping
      ensures allocs == old(allocs) && allocsByTag == old(allocsByTag)
      ensures nextObjectTag == old(nextObjectTag) && hostCalls == old(hostCalls)
    {
      SetStateMirrored(Stopping);
    }

    /** `Agent_command`: dispatches a command from the Java side. `found` is the host's
        answer to the tag query a report makes; unknown commands do nothing. */
    method Command(cmd: int, found: seq<ObjectRef>)
      requires Valid()
      modifies this
      ensures Valid()
      ensures cmd == Ping ==> unchanged(this`state, this`mirror, this`nextObjectTag, this`allocs, this`allocsByTag)
                              && hostCalls == old(hostCalls) + [Data1(Alive)]
      ensures cmd == SyncState ==> unchanged(this`state, this`nextObjectTag, this`allocs, this`allocsByTag, this`hostCalls)
                                   && mirror == state
      ensures cmd == StartAllocationTracing ==>
                state == Starting && mirror == Starting && allocs == [] && allocsByTag == map[]
                && nextObjectTag == old(nextObjectTag)
                && hostCalls == old(hostCalls) + EnableCalls
      ensures cmd == StopAllocationTracing ==>
                state == Stopping && mirror == Stopping
                && unchanged(this`nextObjectTag, this`allocs, this`allocsByTag, this`hostCalls)
      ensures cmd == ReportAllocationTracing ==>
                allocs == [] && allocsByTag == map[]
                && unchanged(this`state, this`mirror, this`nextObjectTag)
                && hostCalls == old(hostCalls) + Emit(old(Records())) + UntagCalls(old(allocs), found)
      ensures cmd !in {Ping, SyncState, StartAllocationTracing, StopAllocationTracing, ReportAllocationTracing} ==>
                unchanged(this)
    {
      if cmd == Ping {
        hostCalls := hostCalls + [Data1(Alive)];
      } else if cmd == SyncState {
        SetStateMirrored(state);
      } else if cmd == StartAllocationTracing {
        EnableAllocationTracing();
      } else if cmd == StopAllocationTracing {
        DisableAllocationTracing();
      } else if cmd == ReportAllocationTracing {
        Report(found);
      }
    }
  }
}
