/** Stack-frame resolution: the search for the calling frame (`calling_frame`) and the
    per-frame details, including the line-number table scan (`frame_detail`).

    A captured frame is given together with what the host reports about its method:
    the declaring class signature (None when either host lookup fails), the method name,
    the source file (None when the host supplies none), the line-number table (None when
    the host reports an error) and the frame's bytecode location. */
module Frames {
  import opened Opt

  datatype LineEntry = LineEntry(startLocation: int, lineNumber: int)

  datatype Frame = Frame(
    declaringClass: Option<string>,
    methodName: string,
    sourceFile: Option<string>,
    lineTable: Option<seq<LineEntry>>,
    location: int)

  /** Largest stack depth requested from the host. */
  const MaxFrames: nat := 1024

  /** Class-signature prefixes of the platform and language runtimes. */
  const JavaPrefix := "Ljava/"
  const ComSunPrefix := "Lcom/sun/"
  const JdkPrefix := "Ljdk/"
  const JavaxPrefix := "Ljavax/"
  const SunManagementPrefix := "Lsun/management"
  const ClojurePrefix := "Lclojure/"

  /** True when the class signature belongs to infrastructure code (a `strncmp` prefix match). */
  predicate IsInfrastructure(sig: string) {
    || JavaPrefix <= sig
    || ComSunPrefix <= sig
    || JdkPrefix <= sig
    || JavaxPrefix <= sig
    || SunManagementPrefix <= sig
    || ClojurePrefix <= sig
  }

  /** A frame that may be reported as the calling site: its class resolved and is not
      infrastructure. */
  predicate IsCallingCandidate(f: Frame) {
    f.declaringClass.Some? && !IsInfrastructure(f.declaringClass.value)
  }

  /** Index of the first candidate at or after `from`, or |frames| when there is none. */
  function FirstCandidate(frames: seq<Frame>, from: nat): (k: nat)
    requires from <= |frames|
    ensures from <= k <= |frames|
    ensures k < |frames| ==> IsCallingCandidate(frames[k])
    ensures forall j :: from <= j < k ==> !IsCallingCandidate(frames[j])
    decreases |frames| - from
  {
    if from == |frames| then from
    else if IsCallingCandidate(frames[from]) then from
    else FirstCandidate(frames, from + 1)
  }

  /** The frame the calling site is taken from: the least candidate index, or 0 when no
      frame is a candidate (the innermost frame stands in). */
  function CallingFrameIndex(frames: seq<Frame>): (i: nat)
    ensures |frames| == 0 ==> i == 0
    ensures |frames| > 0 ==> i < |frames|
    ensures (exists j :: 0 <= j < |frames| && IsCallingCandidate(frames[j])) ==>
              IsCallingCandidate(frames[i]) && forall j :: 0 <= j < i ==> !IsCallingCandidate(frames[j])
    ensures (forall j :: 0 <= j < |frames| ==> !IsCallingCandidate(frames[j])) ==> i == 0
  {
    var k := FirstCandidate(frames, 0);
    if k >= |frames| then 0 else k
  }

  /** `calling_frame`: walks the frames innermost first and stops at the first candidate. */
  method CallingFrame(frames: seq<Frame>) returns (framei: nat)
    ensures framei == CallingFrameIndex(frames)
  {
    framei := 0;
    while framei < |frames|
      invariant framei <= |frames|
      invariant forall j :: 0 <= j < framei ==> !IsCallingCandidate(frames[j])
    {
      if IsCallingCandidate(frames[framei]) {
        break;
      }
      framei := framei + 1;
    }
    if framei >= |frames| {
      framei := 0;
    }
  }

  /** Index one past the last entry taken by the line scan started at `from`: the first
      index at or after `from` whose start location exceeds `location`, or |table|. */
  function ScanStop(table: seq<LineEntry>, location: int, from: nat): (k: nat)
    requires from <= |table|
    ensures from <= k <= |table|
    ensures k < |table| ==> location < table[k].startLocation
    ensures forall j :: from <= j < k ==> table[j].startLocation <= location
    decreases |table| - from
  {
    if from == |table| then from
    else if location < table[from].startLocation then from
    else ScanStop(table, location, from + 1)
  }

  /** A line table the scan may read: present tables have an entry 0. */
  predicate ReadableTable(table: Option<seq<LineEntry>>) {
    table.Some? ==> |table.value| > 0
  }

  /** The line reported for `location`: -1 without a table; otherwise entry 0's line,
      overwritten by each later entry until the first one that starts past `location`. */
  function LineAt(table: Option<seq<LineEntry>>, location: int): (line: int)
    requires ReadableTable(table)
  {
    match table
    case None => -1
    case Some(t) => t[ScanStop(t, location, 1) - 1].lineNumber
  }

  /** On a table sorted by start location, the scan picks the last entry (from index 1 on)
      that starts at or before `location`, and entry 0 when there is none. */
  lemma {:induction false} LineAtSorted(t: seq<LineEntry>, location: int)
    requires |t| > 0
    requires forall i, j :: 0 <= i < j < |t| ==> t[i].startLocation <= t[j].startLocation
    ensures var k := ScanStop(t, location, 1) - 1;
            && LineAt(Some(t), location) == t[k].lineNumber
            && (k > 0 ==> t[k].startLocation <= location)
            && forall j :: k < j < |t| ==> location < t[j].startLocation
  {
    var k := ScanStop(t, location, 1);
    if k < |t| {
      forall j | k < j < |t| ensures location < t[j].startLocation {
        assert t[k].startLocation <= t[j].startLocation;
      }
    }
  }

  /** The line-number scan of `frame_detail`. */
  method LineNumber(table: Option<seq<LineEntry>>, location: int) returns (line: int)
    requires ReadableTable(table)
    ensures line == LineAt(table, location)
  {
    if table.None? {
      return -1;
    }
    var t := table.value;
    line := t[0].lineNumber;
    var i := 1;
    while i < |t|
      invariant 1 <= i <= |t|
      invariant forall j :: 1 <= j < i ==> t[j].startLocation <= location
      invariant line == t[i - 1].lineNumber
    {
      if location < t[i].startLocation {
        break;
      }
      line := t[i].lineNumber;
      i := i + 1;
    }
    assert ScanStop(t, location, 1) == i by {
      ScanStopIsFirst(t, location, 1, i);
    }
  }

  /** ScanStop is the only stopping point: the scan from `from` reaches `k` when every entry
      before it starts at or before `location` and `k` is the end or starts past it. */
  lemma {:induction false} ScanStopIsFirst(t: seq<LineEntry>, location: int, from: nat, k: nat)
    requires from <= k <= |t|
    requires forall j :: from <= j < k ==> t[j].startLocation <= location
    requires k < |t| ==> location < t[k].startLocation
    ensures ScanStop(t, location, from) == k
    decreases k - from
  {
    if from < k {
      ScanStopIsFirst(t, location, from + 1, k);
    }
  }

  /** A stack the agent can resolve: at least one frame, at most MaxFrames, the innermost
      frame's class resolves, and the two frames whose details are read (frame 0 and the
      calling frame) have an entry 0 in any line table they report. */
  predicate ResolvableStack(frames: seq<Frame>) {
    && 1 <= |frames| <= MaxFrames
    && frames[0].declaringClass.Some?
    && ReadableTable(frames[0].lineTable)
    && ReadableTable(frames[CallingFrameIndex(frames)].lineTable)
  }

  /** `frame_detail`: the class signature, method name, source file (None when absent)
      and line of one frame. */
  method FrameDetail(f: Frame) returns (className: string, methodName: string, source: Option<string>, line: int)
    requires f.declaringClass.Some? && ReadableTable(f.lineTable)
    ensures className == f.declaringClass.value && methodName == f.methodName
    ensures source == f.sourceFile
    ensures line == LineAt(f.lineTable, f.location)
    ensures f.lineTable.None? ==> line == -1
  {
    className := f.declaringClass.value;
    methodName := f.methodName;
    line := LineNumber(f.lineTable, f.location);
    source := f.sourceFile;
  }
}
