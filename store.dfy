/** The allocation records, the items the drain emits to the host, and the calls the agent
    makes on the host.  The record store itself (the `allocs` vector and the `allocs_by_tag`
    map) lives in the Agent class; this module holds what it is built from. */
module Store {
  import opened Opt
  import opened Frames

  /** Placeholder stored when the host supplies no source file name. */
  const NoFileName := "NO_SOURCC"

  /** Opaque handle of a host object. */
  type ObjectRef = int

  /** The value of one allocation record. */
  datatype Record = Record(
    objClass: string,
    objSize: int,
    callClass: string,
    callMethod: string,
    callFile: string,
    callLine: int,
    allocClass: string,
    allocMethod: string,
    allocFile: string,
    allocLine: int,
    threadId: int,
    freed: bool,
    tag: int,
    disableMarker: bool)

  /** `alloc_rec`: one record per sampled object. Only the freed flag and the
      disable marker are ever written after construction. */
  class AllocRec {
    const objClass: string
    const objSize: int
    const callClass: string
    const callMethod: string
    const callFile: string
    const callLine: int
    const allocClass: string
    const allocMethod: string
    const allocFile: string
    const allocLine: int
    const threadId: int
    const tag: int
    var freed: bool
    var disableMarker: bool

    /** The record's current value. */
    function Value(): (r: Record)
      reads this
    {
      Record(objClass, objSize, callClass, callMethod, callFile, callLine,
             allocClass, allocMethod, allocFile, allocLine, threadId, freed, tag, disableMarker)
    }

    /** The `alloc_rec` constructor: a missing file name becomes the placeholder, and the
        record starts neither freed nor marked. */
    constructor (objClass: string, objSize: int,
                 callClass: string, callMethod: string, callFile: Option<string>, callLine: int,
                 allocClass: string, allocMethod: string, allocFile: Option<string>, allocLine: int,
                 threadId: int, tag: int)
      ensures Value() == Record(objClass, objSize,
                                callClass, callMethod, callFile.GetOr(NoFileName), callLine,
                                allocClass, allocMethod, allocFile.GetOr(NoFileName), allocLine,
                                threadId, false, tag, false)
    {
      this.objClass := objClass;
      this.objSize := objSize;
      this.callClass := callClass;
      this.callMethod := callMethod;
      this.callFile := callFile.GetOr(NoFileName);
      this.callLine := callLine;
      this.allocClass := allocClass;
      this.allocMethod := allocMethod;
      this.allocFile := allocFile.GetOr(NoFileName);
      this.allocLine := allocLine;
      this.threadId := threadId;
      this.tag := tag;
      this.freed := false;
      this.disableMarker := false;
    }
  }

  /** The values of a sequence of records, in order. */
  function RecordsOf(rs: seq<AllocRec>): (vs: seq<Record>)
    reads rs
    ensures |vs| == |rs|
    ensures forall i :: 0 <= i < |rs| ==> vs[i] == rs[i].Value()
  {
    if rs == [] then [] else RecordsOf(rs[..|rs| - 1]) + [rs[|rs| - 1].Value()]
  }

  /** RecordsOf is determined by the records' values one by one. */
  lemma RecordsOfPointwise(rs: seq<AllocRec>, vs: seq<Record>)
    requires |vs| == |rs|
    requires forall i :: 0 <= i < |rs| ==> rs[i].Value() == vs[i]
    ensures RecordsOf(rs) == vs
  {
  }

  /** A free event that sets `freed` on exactly the records carrying `tag` turns
      their values into `MarkFreed` of the values before. */
  twostate lemma RecordsOfMarkFreed(rs: seq<AllocRec>, tag: int)
    requires forall i :: 0 <= i < |rs| ==> rs[i].freed == (old(rs[i].freed) || rs[i].tag == tag)
    requires forall i :: 0 <= i < |rs| ==> rs[i].disableMarker == old(rs[i].disableMarker)
    ensures RecordsOf(rs) == MarkFreed(old(RecordsOf(rs)), tag)
  {
    var before := old(RecordsOf(rs));
    var after := MarkFreed(before, tag);
    forall i | 0 <= i < |rs| ensures rs[i].Value() == after[i] { }
    RecordsOfPointwise(rs, after);
  }

  /** The record `allocation_record` builds for an object of class `classSig` and size
      `size`, sampled on thread `threadId` with captured stack `frames`, under tag `tag`:
      the allocation site is frame 0, the calling site the frame `calling_frame` picks. */
  function NewRecord(classSig: string, size: int, frames: seq<Frame>, threadId: int, tag: int): (r: Record)
    requires ResolvableStack(frames)
    ensures !r.freed && !r.disableMarker && r.tag == tag
    ensures r.allocClass == frames[0].declaringClass.value && r.allocMethod == frames[0].methodName
    ensures r.allocLine == LineAt(frames[0].lineTable, frames[0].location)
    ensures (exists j :: 0 <= j < |frames| && IsCallingCandidate(frames[j])) ==> !IsInfrastructure(r.callClass)
    ensures (forall j :: 0 <= j < |frames| ==> !IsCallingCandidate(frames[j])) ==>
              r.callClass == r.allocClass && r.callMethod == r.allocMethod &&
              r.callFile == r.allocFile && r.callLine == r.allocLine
  {
    var c := frames[CallingFrameIndex(frames)];
    var a := frames[0];
    Record(classSig, size,
           c.declaringClass.value, c.methodName, c.sourceFile.GetOr(NoFileName), LineAt(c.lineTable, c.location),
           a.declaringClass.value, a.methodName, a.sourceFile.GetOr(NoFileName), LineAt(a.lineTable, a.location),
           threadId, false, tag, false)
  }

  /** The host-visible `criterium.agent.Allocation` built from a record: the twelve
      constructor arguments in order, with the freed flag as a `jlong` 0 or 1. */
  datatype Allocation = Allocation(
    objClass: string,
    objSize: int,
    callClass: string,
    callMethod: string,
    callFile: string,
    callLine: int,
    allocClass: string,
    allocMethod: string,
    allocFile: string,
    allocLine: int,
    threadId: int,
    freed: int)

  function ToAllocation(r: Record): (a: Allocation) {
    Allocation(r.objClass, r.objSize, r.callClass, r.callMethod, r.callFile, r.callLine,
               r.allocClass, r.allocMethod, r.allocFile, r.allocLine, r.threadId,
               if r.freed then 1 else 0)
  }

  /** What the agent passes to `Agent.data1`. */
  datatype Datum = Alive | Item(allocation: Allocation)

  datatype Event = SampledObjectAllocEvent | ObjectFreeEvent

  /** The host calls whose effect lies outside the agent, in the order they are made. */
  datatype HostCall =
    | SetTag(obj: ObjectRef, tag: int)
    | GetObjectsWithTags(tags: seq<int>)
    | SetEventNotificationMode(enable: bool, event: Event)
    | SetHeapSamplingInterval(interval: int)
    | Data1(datum: Datum)

  /** The `data1` calls of a report, one per record in store order. */
  function Emit(rs: seq<Record>): (calls: seq<HostCall>)
    ensures |calls| == |rs|
    ensures forall i :: 0 <= i < |rs| ==> calls[i] == Data1(Item(ToAllocation(rs[i])))
  {
    if rs == [] then [] else Emit(rs[..|rs| - 1]) + [Data1(Item(ToAllocation(rs[|rs| - 1])))]
  }

  /** Emitting one more record appends its call. */
  lemma EmitSnoc(rs: seq<Record>, i: nat)
    requires i < |rs|
    ensures Emit(rs[..i + 1]) == Emit(rs[..i]) + [Data1(Item(ToAllocation(rs[i])))]
  {
    assert rs[..i + 1][..i] == rs[..i];
  }

  /** `all_tags`: the vector is created holding |rs| zeros and the tags are then appended
      behind them, so it holds twice as many entries as there are records. */
  function AllTags(rs: seq<AllocRec>): (tags: seq<int>)
    ensures |tags| == 2 * |rs|
    ensures forall i :: 0 <= i < |rs| ==> tags[i] == 0
    ensures forall i :: |rs| <= i < 2 * |rs| ==> tags[i] == rs[i - |rs|].tag
  {
    seq(|rs|, _ => 0) + seq(|rs|, i requires 0 <= i < |rs| => rs[i].tag)
  }

  /** The untagging calls for the objects the host found: each gets tag 0. */
  function ClearTags(objs: seq<ObjectRef>): (calls: seq<HostCall>)
    ensures |calls| == |objs|
    ensures forall i :: 0 <= i < |objs| ==> calls[i] == SetTag(objs[i], 0)
  {
    if objs == [] then [] else ClearTags(objs[..|objs| - 1]) + [SetTag(objs[|objs| - 1], 0)]
  }

  /** Host calls of `untag_objects` when the store holds `rs` and the host answers the
      tag query with `found`: nothing at all for an empty store. */
  function UntagCalls(rs: seq<AllocRec>, found: seq<ObjectRef>): (calls: seq<HostCall>) {
    if rs == [] then [] else [GetObjectsWithTags(AllTags(rs))] + ClearTags(found)
  }

  /** The records after a free event for `tag`: the record carrying that tag is freed,
      every other record and every other field stays as it was. */
  function MarkFreed(rs: seq<Record>, tag: int): (r: seq<Record>)
    ensures |r| == |rs|
    ensures forall i :: 0 <= i < |rs| ==> r[i].freed == (rs[i].freed || rs[i].tag == tag)
    ensures forall i :: 0 <= i < |rs| ==> r[i].(freed := rs[i].freed) == rs[i]
  {
    if rs == [] then []
    else
      var last := rs[|rs| - 1];
      MarkFreed(rs[..|rs| - 1], tag) + [if last.tag == tag then last.(freed := true) else last]
  }

  /** A free event for a tag no record carries changes nothing. */
  lemma {:induction false} MarkFreedUnknown(rs: seq<Record>, tag: int)
    requires forall i :: 0 <= i < |rs| ==> rs[i].tag != tag
    ensures MarkFreed(rs, tag) == rs
  {
    var r := MarkFreed(rs, tag);
    forall i | 0 <= i < |rs| ensures r[i] == rs[i] {
      assert r[i].(freed := rs[i].freed) == rs[i];
    }
  }

  /** Freeing twice is freeing once, and a freed flag never returns to false. */
  lemma {:induction false} MarkFreedIdempotent(rs: seq<Record>, tag: int)
    ensures MarkFreed(MarkFreed(rs, tag), tag) == MarkFreed(rs, tag)
    ensures forall i :: 0 <= i < |rs| && rs[i].freed ==> MarkFreed(rs, tag)[i].freed
  {
    var once := MarkFreed(rs, tag);
    var twice := MarkFreed(once, tag);
    forall i | 0 <= i < |rs| ensures twice[i] == once[i] {
      assert twice[i].(freed := once[i].freed) == once[i];
    }
  }

  /** Free events for different tags commute. */
  lemma {:induction false} MarkFreedCommutes(rs: seq<Record>, t1: int, t2: int)
    ensures MarkFreed(MarkFreed(rs, t1), t2) == MarkFreed(MarkFreed(rs, t2), t1)
  {
    var a := MarkFreed(MarkFreed(rs, t1), t2);
    var b := MarkFreed(MarkFreed(rs, t2), t1);
    forall i | 0 <= i < |rs| ensures a[i] == b[i] {
      var both := rs[i].freed || rs[i].tag == t1 || rs[i].tag == t2;
      assert a[i] == rs[i].(freed := both) by {
        assert a[i].(freed := rs[i].freed) == rs[i];
      }
      assert b[i] == rs[i].(freed := both) by {
        assert b[i].(freed := rs[i].freed) == rs[i];
      }
    }
  }
}
