/**
 * The storage tracer process: its post-fork setup, the open() filter built
 * for the current architecture, and the loop that follows the app's
 * threads through their ptrace stops, telling syscall entries from exits.
 */
module StorageTracer {
  import opened Wrappers
  import opened StoragePaths
  import opened TracerMemory

  /** How a thread stopped, as waitpid reports it. */
  datatype Stop =
    | SyscallStop(openResult: int)    // a syscall entry or exit; what interposition would return here
    | CloneStop(newPid: Option<int>)  // a new thread; None when its id cannot be fetched
    | ExitEventStop                   // a thread is about to exit
    | OtherStop                       // any other stop, restarted as it is
    | Exited                          // a normal-exit status
    | Signaled                        // terminated by a signal
    | Unrecognised                    // any other status

  /** One waitpid result. */
  datatype Wait = WaitFailed | Waited(pid: int, stop: Stop)

  /** The loop's bookkeeping: the live thread count, the entry/exit flags,
   *  the events on which open interposition ran, how many events were
   *  consumed, and whether the loop broke out. */
  datatype LoopState = LoopState(threads: int, tracker: map<int, bool>, entries: seq<nat>, consumed: nat, broke: bool)

  /** syscall_tracker[pid], which is false for a pid never stored. */
  function Flag(tracker: map<int, bool>, pid: int): bool {
    pid in tracker && tracker[pid]
  }

  /** The state the loop starts in: one thread, the app's flag cleared. */
  function Start(appPid: int, tracker: map<int, bool>): LoopState {
    LoopState(1, tracker[appPid := false], [], 0, false)
  }

  /** One turn of the loop. A syscall stop flips the flag stored under the
   *  app pid (as written) or under the stopped thread (per thread); when the
   *  flag becomes true this is an entry, and interposition runs and may end
   *  the loop. */
  function Step(appPid: int, perThread: bool, s: LoopState, e: Wait): LoopState {
    var next := s.(consumed := s.consumed + 1);
    match e
    case WaitFailed => next.(broke := true)
    case Waited(pid, stop) =>
      match stop
      case SyscallStop(result) =>
        var key := if perThread then pid else appPid;
        var t := s.tracker[key := !Flag(s.tracker, key)];
        if t[key] then next.(tracker := t, entries := s.entries + [s.consumed], broke := result < 0)
        else next.(tracker := t)
      case CloneStop(newPid) =>
        if newPid.None? then next.(broke := true)
        else next.(threads := s.threads + 1, tracker := s.tracker[newPid.value := false])
      case ExitEventStop => next.(threads := s.threads - 1)
      case OtherStop => next
      case Exited => next
      case Signaled => next.(broke := true)
      case Unrecognised => next.(broke := true)
  }

  /** The loop over the stops waitpid delivers, until no thread is left,
   *  the loop breaks, or the given stops run out. */
  function Trace(appPid: int, perThread: bool, events: seq<Wait>, s: LoopState): (r: LoopState)
    requires s.consumed <= |events|
    ensures s.consumed <= r.consumed <= |events|
    ensures r.broke || r.threads <= 0 || r.consumed == |events|
    decreases |events| - s.consumed
  {
    if s.broke || s.threads <= 0 || s.consumed == |events| then s
    else Trace(appPid, perThread, events, Step(appPid, perThread, s, events[s.consumed]))
  }

  /** tracer_run_loop as written: every syscall stop flips the app pid's flag. */
  function TraceAsWritten(appPid: int, events: seq<Wait>): LoopState {
    Trace(appPid, false, events, Start(appPid, map[]))
  }

  /** tracer_run_loop with the flag kept per stopped thread. */
  function TracePerThread(appPid: int, events: seq<Wait>): LoopState {
    Trace(appPid, true, events, Start(appPid, map[]))
  }

  /** The app (100) starts a thread (101); each enters and leaves one
   *  syscall. Flipping one shared flag misses the new thread's entry and
   *  interposes on its exit instead; per-thread flags catch both entries. */
  lemma SharedFlagMissesThreadEntry()
    ensures var events := [Waited(100, CloneStop(Some(101))), Waited(100, SyscallStop(0)),
                           Waited(101, SyscallStop(0)), Waited(101, SyscallStop(0)), Waited(100, SyscallStop(0))];
            TraceAsWritten(100, events).entries == [1, 3] &&
            TracePerThread(100, events).entries == [1, 2]
  {
    var events := [Waited(100, CloneStop(Some(101))), Waited(100, SyscallStop(0)),
                   Waited(101, SyscallStop(0)), Waited(101, SyscallStop(0)), Waited(100, SyscallStop(0))];
    var s0 := Start(100, map[]);
    var s1 := LoopState(2, map[100 := false, 101 := false], [], 1, false);
    assert Step(100, false, s0, events[0]) == s1 == Step(100, true, s0, events[0]);
    var a2 := LoopState(2, map[100 := true, 101 := false], [1], 2, false);
    assert Step(100, false, s1, events[1]) == a2 == Step(100, true, s1, events[1]);
    // the new thread's entry flips the app's flag back: taken for an exit
    var a3 := LoopState(2, map[100 := false, 101 := false], [1], 3, false);
    assert Step(100, false, a2, events[2]) == a3;
    var a4 := LoopState(2, map[100 := true, 101 := false], [1, 3], 4, false);
    assert Step(100, false, a3, events[3]) == a4;
    var a5 := LoopState(2, map[100 := false, 101 := false], [1, 3], 5, false);
    assert Step(100, false, a4, events[4]) == a5;
    var p3 := LoopState(2, map[100 := true, 101 := true], [1, 2], 3, false);
    assert Step(100, true, a2, events[2]) == p3;
    var p4 := LoopState(2, map[100 := true, 101 := false], [1, 2], 4, false);
    assert Step(100, true, p3, events[3]) == p4;
    var p5 := LoopState(2, map[100 := false, 101 := false], [1, 2], 5, false);
    assert Step(100, true, p4, events[4]) == p5;
  }

  /** The event is a syscall stop of thread `pid`. */
  predicate SyscallOf(e: Wait, pid: int) {
    e.Waited? && e.pid == pid && e.stop.SyscallStop?
  }

  /** The number of syscall stops of `pid` among the events. */
  function SyscallCount(events: seq<Wait>, pid: int): nat {
    if events == [] then 0
    else SyscallCount(events[..|events| - 1], pid) + (if SyscallOf(events[|events| - 1], pid) then 1 else 0)
  }

  /** Event j is a syscall entry: its thread has had an even number of
   *  syscall stops before it. */
  predicate IsEntry(events: seq<Wait>, j: nat)
    requires j < |events|
  {
    events[j].Waited? && events[j].stop.SyscallStop? && SyscallCount(events[..j], events[j].pid) % 2 == 0
  }

  /** The entries among the first n events, in order. */
  function EntriesUpTo(events: seq<Wait>, n: nat): seq<nat>
    requires n <= |events|
  {
    if n == 0 then [] else EntriesUpTo(events, n - 1) + (if IsEntry(events, n - 1) then [n - 1] else [])
  }

  lemma {:induction false} EntriesUpToMembers(events: seq<Wait>, n: nat, j: nat)
    requires n <= |events|
    ensures j in EntriesUpTo(events, n) <==> j < n && IsEntry(events, j)
  {
    if n > 0 {
      EntriesUpToMembers(events, n - 1, j);
    }
  }

  /** A new thread's id has no syscall stop pending when it is reported. */
  ghost predicate FreshThreads(events: seq<Wait>) {
    forall j :: 0 <= j < |events| && events[j].Waited? && events[j].stop.CloneStop? && events[j].stop.newPid.Some? ==>
      SyscallCount(events[..j], events[j].stop.newPid.value) % 2 == 0
  }

  /** After the first n events, each flag records whether its thread is
   *  inside a syscall, and the entries are exactly the entry stops. */
  ghost predicate Tracking(events: seq<Wait>, s: LoopState)
    requires s.consumed <= |events|
  {
    (forall pid :: Flag(s.tracker, pid) == (SyscallCount(events[..s.consumed], pid) % 2 == 1)) &&
    s.entries == EntriesUpTo(events, s.consumed)
  }

  lemma CountStep(events: seq<Wait>, j: nat, pid: int)
    requires j < |events|
    ensures SyscallCount(events[..j + 1], pid) ==
              SyscallCount(events[..j], pid) + (if SyscallOf(events[j], pid) then 1 else 0)
  {
    assert events[..j + 1][..j] == events[..j];
  }

  /** One per-thread step keeps the tracking facts. */
  lemma StepTracks(appPid: int, events: seq<Wait>, s: LoopState)
    requires s.consumed < |events| && Tracking(events, s) && FreshThreads(events)
    ensures Tracking(events, Step(appPid, true, s, events[s.consumed]))
  {
    var j := s.consumed;
    var e := events[j];
    var r := Step(appPid, true, s, e);
    assert EntriesUpTo(events, j + 1) == EntriesUpTo(events, j) + (if IsEntry(events, j) then [j] else []);
    if e.Waited? && e.stop.SyscallStop? {
      CountStep(events, j, e.pid);
      assert r.tracker == s.tracker[e.pid := !Flag(s.tracker, e.pid)];
      assert IsEntry(events, j) == r.tracker[e.pid];
      forall pid
        ensures Flag(r.tracker, pid) == (SyscallCount(events[..j + 1], pid) % 2 == 1)
      {
        CountStep(events, j, pid);
      }
    } else if e.Waited? && e.stop.CloneStop? && e.stop.newPid.Some? {
      var n := e.stop.newPid.value;
      assert r.tracker == s.tracker[n := false];
      forall pid
        ensures Flag(r.tracker, pid) == (SyscallCount(events[..j + 1], pid) % 2 == 1)
      {
        CountStep(events, j, pid);
      }
    } else {
      forall pid
        ensures Flag(r.tracker, pid) == (SyscallCount(events[..j + 1], pid) % 2 == 1)
      {
        CountStep(events, j, pid);
      }
    }
  }

  /** Per-thread tracing keeps the tracking facts to the end. */
  lemma {:induction false} TraceTracks(appPid: int, events: seq<Wait>, s: LoopState)
    requires s.consumed <= |events| && Tracking(events, s) && FreshThreads(events)
    ensures Tracking(events, Trace(appPid, true, events, s))
    decreases |events| - s.consumed
  {
    if !(s.broke || s.threads <= 0 || s.consumed == |events|) {
      StepTracks(appPid, events, s);
      TraceTracks(appPid, events, Step(appPid, true, s, events[s.consumed]));
    }
  }

  /** With flags kept per thread, interposition runs exactly on the stops
   *  that enter a syscall: each thread's first, third, fifth... syscall
   *  stop among the events the loop consumed. */
  lemma PerThreadInterposesOnEntries(appPid: int, events: seq<Wait>, j: nat)
    requires FreshThreads(events)
    ensures var r := TracePerThread(appPid, events);
            j in r.entries <==> j < r.consumed && IsEntry(events, j)
  {
    var s := Start(appPid, map[]);
    assert events[..0] == [];
    TraceTracks(appPid, events, s);
    EntriesUpToMembers(events, TracePerThread(appPid, events).consumed, j);
  }

  /** The number of syscall stops, of any thread, among the events. */
  function AnySyscallCount(events: seq<Wait>): nat {
    if events == [] then 0
    else AnySyscallCount(events[..|events| - 1]) +
         (var e := events[|events| - 1]; if e.Waited? && e.stop.SyscallStop? then 1 else 0)
  }

  /** Event j is a syscall stop preceded by an even number of syscall stops
   *  of all threads together. */
  predicate IsSharedEntry(events: seq<Wait>, j: nat)
    requires j < |events|
  {
    events[j].Waited? && events[j].stop.SyscallStop? && AnySyscallCount(events[..j]) % 2 == 0
  }

  /** The shared-flag entries among the first n events, in order. */
  function SharedEntriesUpTo(events: seq<Wait>, n: nat): seq<nat>
    requires n <= |events|
  {
    if n == 0 then [] else SharedEntriesUpTo(events, n - 1) + (if IsSharedEntry(events, n - 1) then [n - 1] else [])
  }

  lemma {:induction false} SharedEntriesUpToMembers(events: seq<Wait>, n: nat, j: nat)
    requires n <= |events|
    ensures j in SharedEntriesUpTo(events, n) <==> j < n && IsSharedEntry(events, j)
  {
    if n > 0 {
      SharedEntriesUpToMembers(events, n - 1, j);
    }
  }

  /** No clone event reports the app pid as a new thread. */
  predicate NoCloneOf(events: seq<Wait>, appPid: int) {
    forall j :: 0 <= j < |events| && events[j].Waited? && events[j].stop.CloneStop? ==>
      events[j].stop.newPid != Some(appPid)
  }

  /** After the first n events, the app's flag records the parity of all
   *  syscall stops so far, and the entries are the shared-flag entries. */
  ghost predicate SharedTracking(appPid: int, events: seq<Wait>, s: LoopState)
    requires s.consumed <= |events|
  {
    Flag(s.tracker, appPid) == (AnySyscallCount(events[..s.consumed]) % 2 == 1) &&
    s.entries == SharedEntriesUpTo(events, s.consumed)
  }

  /** One as-written step keeps the shared tracking facts. */
  lemma SharedStepTracks(appPid: int, events: seq<Wait>, s: LoopState)
    requires s.consumed < |events| && SharedTracking(appPid, events, s) && NoCloneOf(events, appPid)
    ensures SharedTracking(appPid, events, Step(appPid, false, s, events[s.consumed]))
  {
    var j := s.consumed;
    assert events[..j + 1][..j] == events[..j];
    assert SharedEntriesUpTo(events, j + 1) ==
             SharedEntriesUpTo(events, j) + (if IsSharedEntry(events, j) then [j] else []);
  }

  /** As-written tracing keeps the shared tracking facts to the end. */
  lemma {:induction false} SharedTraceTracks(appPid: int, events: seq<Wait>, s: LoopState)
    requires s.consumed <= |events| && SharedTracking(appPid, events, s) && NoCloneOf(events, appPid)
    ensures SharedTracking(appPid, events, Trace(appPid, false, events, s))
    decreases |events| - s.consumed
  {
    if !(s.broke || s.threads <= 0 || s.consumed == |events|) {
      SharedStepTracks(appPid, events, s);
      SharedTraceTracks(appPid, events, Step(appPid, false, s, events[s.consumed]));
    }
  }

  /** With the one flag under the app pid, interposition runs on every
   *  other syscall stop of all threads taken together: the first, third,
   *  fifth... syscall stop among the events the loop consumed, whichever
   *  thread made it. */
  lemma SharedFlagAlternates(appPid: int, events: seq<Wait>, j: nat)
    requires NoCloneOf(events, appPid)
    ensures var r := TraceAsWritten(appPid, events);
            j in r.entries <==> j < r.consumed && IsSharedEntry(events, j)
  {
    assert events[..0] == [];
    SharedTraceTracks(appPid, events, Start(appPid, map[]));
    SharedEntriesUpToMembers(events, TraceAsWritten(appPid, events).consumed, j);
  }

  /** The number of clone and exit events among the events. */
  function Clones(events: seq<Wait>): int {
    if events == [] then 0
    else Clones(events[..|events| - 1]) +
         (var e := events[|events| - 1]; if e.Waited? && e.stop.CloneStop? && e.stop.newPid.Some? then 1 else 0)
  }

  function Exits(events: seq<Wait>): int {
    if events == [] then 0
    else Exits(events[..|events| - 1]) + (var e := events[|events| - 1]; if e.Waited? && e.stop.ExitEventStop? then 1 else 0)
  }

  /** The thread count is one plus the threads started minus the threads
   *  that exited, over the events the loop consumed. */
  lemma {:induction false} ThreadCount(appPid: int, perThread: bool, events: seq<Wait>, s: LoopState)
    requires s.consumed <= |events| && s.threads == 1 + Clones(events[..s.consumed]) - Exits(events[..s.consumed])
    ensures var r := Trace(appPid, perThread, events, s);
            r.threads == 1 + Clones(events[..r.consumed]) - Exits(events[..r.consumed])
    decreases |events| - s.consumed
  {
    if !(s.broke || s.threads <= 0 || s.consumed == |events|) {
      var j := s.consumed;
      assert events[..j + 1][..j] == events[..j];
      ThreadCount(appPid, perThread, events, Step(appPid, perThread, s, events[j]));
    }
  }

  /** The loop stops at the first stop that breaks it, after the last
   *  thread exits, or when the stops run out; it never consumes past a
   *  failed wait or a signal termination. */
  lemma StopsAtBreak(appPid: int, perThread: bool, events: seq<Wait>, j: nat)
    requires j < |events| && (events[j] == WaitFailed || (events[j].Waited? && events[j].stop == Signaled))
    ensures Trace(appPid, perThread, events, Start(appPid, map[])).consumed <= j + 1
  {
    StopsAtBreakFrom(appPid, perThread, events, j, Start(appPid, map[]));
  }

  lemma {:induction false} StopsAtBreakFrom(appPid: int, perThread: bool, events: seq<Wait>, j: nat, s: LoopState)
    requires j < |events| && s.consumed <= j
    requires events[j] == WaitFailed || (events[j].Waited? && events[j].stop == Signaled)
    ensures Trace(appPid, perThread, events, s).consumed <= j + 1
    decreases |events| - s.consumed
  {
    if !(s.broke || s.threads <= 0 || s.consumed == |events|) {
      var next := Step(appPid, perThread, s, events[s.consumed]);
      if s.consumed == j {
        assert next.broke;
      } else {
        StopsAtBreakFrom(appPid, perThread, events, j, next);
      }
    }
  }

  /** What ptrace, waitpid and mmap answer during post-fork setup. */
  datatype SetupAnswers = SetupAnswers(attachOk: bool, waitOk: bool, optionsOk: bool, pathBufOk: bool)

  class StorageTracerProcess {
    /** gSharedMemory holds the semaphores' page. */
    var sharedMemory: bool
    /** That page has been unmapped. */
    var sharedUnmapped: bool
    /** gAppPid; -1 until set up. */
    var appPid: int
    /** The tracer semaphore was posted for the app. */
    var tracerSemPosted: bool
    /** gPathBuf is mapped. */
    var pathBuf: bool
    /** syscall_tracker. */
    var tracker: map<int, bool>

    /** The tracer's state after the fork, with or without the shared page
     *  the pre-fork setup mapped. */
    constructor (sharedMemory: bool)
      ensures this.sharedMemory == sharedMemory && !sharedUnmapped && appPid == -1
      ensures !tracerSemPosted && !pathBuf && tracker == map[]
    {
      this.sharedMemory := sharedMemory;
      sharedUnmapped := false;
      appPid := -1;
      tracerSemPosted := false;
      pathBuf := false;
      tracker := map[];
    }

    /** tracer_postfork_setup: -1 at once without the shared page; otherwise
     *  the app pid is recorded, the app attached, waited for and given its
     *  trace options and the path buffer mapped, each failure giving -1;
     *  only full success posts the tracer semaphore; the shared page is
     *  unmapped on every path past the first check. */
    method PostforkSetup(pid: int, a: SetupAnswers) returns (ret: int)
      modifies this`appPid, this`sharedUnmapped, this`tracerSemPosted, this`pathBuf
      ensures !old(sharedMemory) ==> ret == -1 && unchanged(this)
      ensures old(sharedMemory) ==>
                appPid == pid && sharedUnmapped &&
                (ret == 0 <==> a.attachOk && a.waitOk && a.optionsOk && a.pathBufOk) &&
                (ret != 0 ==> ret == -1) &&
                tracerSemPosted == (old(tracerSemPosted) || ret == 0) &&
                pathBuf == (old(pathBuf) || ret == 0)
    {
      if !sharedMemory {
        return -1;
      }
      ret := 0;
      appPid := pid;
      if !a.attachOk || !a.waitOk || !a.optionsOk || !a.pathBufOk {
        ret := -1;
      } else {
        pathBuf := true;
        tracerSemPosted := true;
      }
      sharedUnmapped := true;
    }

    /** tracer_run_loop: returns at once when no app pid was set up;
     *  otherwise runs the loop over the stops, flipping the one entry/exit
     *  flag stored under the app pid on every syscall stop of any thread,
     *  and unmaps the path buffer at the end. */
    method RunLoop(events: seq<Wait>) returns (r: LoopState)
      modifies this`tracker, this`pathBuf
      ensures old(appPid) == -1 ==> r == LoopState(0, old(tracker), [], 0, false) && unchanged(this)
      ensures old(appPid) != -1 ==>
                r == Trace(appPid, false, events, Start(appPid, old(tracker))) && tracker == r.tracker && !pathBuf
    {
      if appPid == -1 {
        return LoopState(0, tracker, [], 0, false);
      }
      ghost var start := Start(appPid, tracker);
      tracker := tracker[appPid := false];
      var numThreads := 1;
      var entries: seq<nat> := [];
      var k := 0;
      var stop := false;
      while !stop && numThreads > 0 && k < |events|
        invariant k <= |events|
        invariant Trace(appPid, false, events, start) == Trace(appPid, false, events, LoopState(numThreads, tracker, entries, k, stop))
        decreases |events| - k
      {
        ghost var before := LoopState(numThreads, tracker, entries, k, stop);
        var e := events[k];
        k := k + 1;
        if e.WaitFailed? {
          stop := true;
        } else {
          var pausedPid := e.pid;
          match e.stop {
            case SyscallStop(result) =>
              tracker := tracker[appPid := !Flag(tracker, appPid)];
              if tracker[appPid] {
                entries := entries + [k - 1];
                if result < 0 {
                  stop := true;
                }
              }
            case CloneStop(newPid) =>
              if newPid.None? {
                stop := true;
              } else {
                numThreads := numThreads + 1;
                tracker := tracker[newPid.value := false];
              }
            case ExitEventStop =>
              numThreads := numThreads - 1;
            case OtherStop =>
            case Exited =>
            case Signaled =>
              stop := true;
            case Unrecognised =>
              stop := true;
          }
        }
        assert LoopState(numThreads, tracker, entries, k, stop) == Step(appPid, false, before, e);
      }
      r := LoopState(numThreads, tracker, entries, k, stop);
      pathBuf := false;
    }
  }

  /** tracer_interpose_on_open as built with the tracer: -1 off aarch64; on
   *  aarch64 a failed path read gives -1, and every other case (not
   *  openat, relative, off external storage, or on it) gives 0. */
  method InterposeOnOpenFilter(aarch64: bool, syscallNumber: int, mem: seq<Option<Word>>) returns (ret: int)
    ensures ret == -1 <==> !aarch64 || (syscallNumber == SYS_OPENAT && Read(mem, 0).ret != 0)
    ensures ret == 0 || ret == -1
  {
    if !aarch64 {
      return -1;
    }
    if syscallNumber != SYS_OPENAT {
      return 0;
    }
    var read, pathBuf := ReadStringFromPid(mem);
    if read != 0 {
      return -1;
    }
    var path := CString(pathBuf);
    if path == [] || path[0] != '/' {
      return 0;
    }
    var external := IsOnExternalStorage(path);
    if !external {
      return 0;
    }
    return 0;
  }
}
