/**
  The injection ladder of _tmain: with a target process in hand, check the DLL
  path, commit a buffer in the target, copy the path into it, find LoadLibrary,
  start a remote thread on it with the buffer as argument, wait up to ten
  seconds and read the thread's exit code. Each step runs only when the
  previous one succeeded; the thread handle is closed and the remote buffer
  released on every path that acquired them, and the process handle is closed
  at the end.

  The source has no result type: `Outcome` names the message each branch
  prints.
*/
module Injector {
  import opened Wrappers
  import opened Win32
  import ProcessList
  import Resolver

  datatype Outcome =
    | Usage          // argc != 3
    | NotFound       // getProcessbyNameOrId failed
    | PathTooLong    // "Dll path too long"
    | AllocFailed    // VirtualAllocEx failed
    | WriteFailed    // WriteProcessMemory failed
    | NoEntryPoint   // GetProcAddress failed
    | ThreadFailed   // CreateRemoteThread failed
    | Hung           // wait timed out: "remote thread has been hung for 10 secs"
    | WaitFailed     // "wait failed"
    | NoExitCode     // GetExitCodeThread failed
    | LoadFailed     // exit code 0: LoadLibrary failed in the target
    | Injected       // exit code non-zero

  /** What each step of the ladder answered. Answers of steps that were not
      reached are irrelevant. */
  datatype Answers = Answers(
    alloc: bool,
    write: bool,
    entry: bool,
    thread: bool,
    wait: WaitResult,
    exitCode: Option<DWORD>,
    freed: bool)

  // ------------------------------------------------------------ the path

  /** _tcsnlen(s, max): the characters before the first NUL, at most `max`. */
  function Tcsnlen(s: string, max: nat): (n: nat)
    ensures n <= max && n <= |s|
    ensures forall i :: 0 <= i < n ==> s[i] != '\0'
    ensures n < max ==> n == |s| || s[n] == '\0'
  {
    if s == [] || max == 0 || s[0] == '\0' then 0 else 1 + Tcsnlen(s[1..], max - 1)
  }

  function PathLen(path: string): nat
  {
    Tcsnlen(path, MAX_PATH)
  }

  predicate Accepted(path: string)
  {
    PathLen(path) < MAX_PATH
  }

  /** sizerequired: the path and its terminator, in bytes. */
  function RegionBytes(path: string): nat
  {
    TCHAR_SIZE * (PathLen(path) + 1)
  }

  /** argv[2] as it sits in memory: the argument and its terminator. */
  function Image(path: string): string
  {
    path + ['\0']
  }

  /** The characters WriteProcessMemory copies: sizerequired bytes of the image. */
  function Written(path: string): string
    requires Accepted(path)
  {
    Image(path)[..PathLen(path) + 1]
  }

  // ------------------------------------------------------------ the ladder

  /** The branch the ladder takes. */
  function LadderOutcome(path: string, a: Answers): (o: Outcome)
    ensures o != Usage && o != NotFound
    ensures (o == PathTooLong) == !Accepted(path)
    ensures o != PathTooLong && o != AllocFailed ==> Accepted(path) && a.alloc
  {
    if !Accepted(path) then PathTooLong
    else if !a.alloc then AllocFailed
    else if !a.write then WriteFailed
    else if !a.entry then NoEntryPoint
    else if !a.thread then ThreadFailed
    else ThreadOutcome(a.wait, a.exitCode)
  }

  /** The branch taken once the remote thread runs. */
  function ThreadOutcome(wait: WaitResult, exitCode: Option<DWORD>): (o: Outcome)
    ensures o in {Hung, WaitFailed, NoExitCode, LoadFailed, Injected}
    ensures (o == Hung) == wait.TimedOut?
    ensures o in {NoExitCode, LoadFailed, Injected} <==> wait.Signaled?
  {
    match wait
    case TimedOut => Hung
    case WaitError => WaitFailed
    case Signaled =>
      match exitCode
      case None => NoExitCode
      case Some(code) => if code != 0 then Injected else LoadFailed
  }

  /** The calls made on the created thread: wait, read the exit code when it
      finished, close the handle. */
  function ThreadCalls(a: Answers): seq<Call>
  {
    [WaitForSingleObject(TIMEOUT_10SEC, a.wait)] +
    (if a.wait.Signaled? then [GetExitCodeThread(a.exitCode)] else []) +
    [CloseThread]
  }

  /** The calls made once the path is in the target: find LoadLibrary, start
      the thread, and the thread calls. */
  function LaunchCalls(path: string, a: Answers): seq<Call>
    requires Accepted(path)
  {
    [GetProcAddress(a.entry)] + if !a.entry then [] else StartCalls(path, a)
  }

  /** The calls made once LoadLibrary is found: start the thread, and the thread calls. */
  function StartCalls(path: string, a: Answers): seq<Call>
    requires Accepted(path)
  {
    [CreateRemoteThread(Written(path), a.thread)] + if !a.thread then [] else ThreadCalls(a)
  }

  /** The calls made between the allocation and its release. */
  function WorkCalls(path: string, a: Answers): seq<Call>
    requires Accepted(path)
  {
    [WriteProcessMemory(Written(path), a.write)] +
    if !a.write then [] else LaunchCalls(path, a)
  }

  /** Every call of the ladder, in order. */
  function LadderCalls(path: string, a: Answers): seq<Call>
  {
    if !Accepted(path) then []
    else
      [VirtualAllocEx(RegionBytes(path), a.alloc)] +
      if !a.alloc then [] else WorkCalls(path, a) + [VirtualFreeEx(a.freed)]
  }

  predicate IsRegionAllocated(c: Call)
  {
    c.VirtualAllocEx? && c.ok
  }

  predicate IsRegionRelease(c: Call)
  {
    c.VirtualFreeEx?
  }

  predicate IsThreadCreated(c: Call)
  {
    c.CreateRemoteThread? && c.ok
  }

  predicate IsThreadClose(c: Call)
  {
    c.CloseThread?
  }

  // ------------------------------------------------------------ lemmas

  /** Path check: a path with no embedded NUL is accepted exactly when it is
      shorter than MAX_PATH characters; a path of MAX_PATH characters is refused. */
  lemma PathLimit(path: string)
    requires forall i :: 0 <= i < |path| ==> path[i] != '\0'
    ensures Accepted(path) <==> |path| < MAX_PATH
    ensures Accepted(path) ==> RegionBytes(path) == TCHAR_SIZE * (|path| + 1)
  {
  }

  /** A refused path makes no call at all: no remote allocation. */
  lemma RefusedPathCallsNothing(path: string, a: Answers)
    requires !Accepted(path)
    ensures LadderCalls(path, a) == [] && LadderOutcome(path, a) == PathTooLong
  {
  }

  /** The thread's argument is the path's characters up to its length, then
      a terminator; for a path with no NUL, the whole path. */
  lemma ThreadArgumentIsPath(path: string)
    requires Accepted(path)
    ensures Written(path) == path[..PathLen(path)] + ['\0']
    ensures |Written(path)| * TCHAR_SIZE == RegionBytes(path)
    ensures (forall i :: 0 <= i < |path| ==> path[i] != '\0') ==> Written(path) == Image(path)
  {
    var n := PathLen(path);
    assert Image(path)[..n + 1] == path[..n] + ['\0'] by {
      if n < |path| {
        assert path[n] == '\0';
      }
    }
  }

  lemma {:induction false} NoneOf(calls: seq<Call>, p: Call -> bool)
    requires forall k :: 0 <= k < |calls| ==> !p(calls[k])
    ensures Count(calls, p) == 0
  {
    if calls != [] {
      NoneOf(calls[1..], p);
    }
  }

  /** Cleanup of the remote buffer: exactly one VirtualFreeEx when the
      allocation succeeded, none otherwise, and it is the last call. */
  lemma FreedOnceIffAllocated(path: string, a: Answers)
    ensures Count(LadderCalls(path, a), IsRegionRelease) == (if Accepted(path) && a.alloc then 1 else 0)
    ensures Count(LadderCalls(path, a), IsRegionAllocated) == Count(LadderCalls(path, a), IsRegionRelease)
    ensures Accepted(path) && a.alloc ==>
      LadderCalls(path, a)[|LadderCalls(path, a)| - 1] == VirtualFreeEx(a.freed)
  {
    var calls := LadderCalls(path, a);
    if Accepted(path) {
      var head := [VirtualAllocEx(RegionBytes(path), a.alloc)];
      var rest := if !a.alloc then [] else WorkCalls(path, a) + [VirtualFreeEx(a.freed)];
      assert calls == head + rest;
      CountAppend(head, rest, IsRegionRelease);
      CountAppend(head, rest, IsRegionAllocated);
      assert Count(head, IsRegionRelease) == 0;
      if a.alloc {
        var work := WorkCalls(path, a);
        WorkAvoidsRegion(path, a);
        CountAppend(work, [VirtualFreeEx(a.freed)], IsRegionRelease);
        CountAppend(work, [VirtualFreeEx(a.freed)], IsRegionAllocated);
      }
    }
  }

  /** The calls between allocation and release neither allocate nor release
      remote memory. */
  lemma WorkAvoidsRegion(path: string, a: Answers)
    requires Accepted(path)
    ensures Count(WorkCalls(path, a), IsRegionRelease) == 0
    ensures Count(WorkCalls(path, a), IsRegionAllocated) == 0
  {
    var work := WorkCalls(path, a);
    assert forall k :: 0 <= k < |work| ==> !work[k].VirtualFreeEx? && !work[k].VirtualAllocEx?;
    NoneOf(work, IsRegionRelease);
    NoneOf(work, IsRegionAllocated);
  }

  /** The thread calls close the handle once and create nothing. */
  lemma ThreadCallsCloseOnce(a: Answers)
    ensures Count(ThreadCalls(a), IsThreadClose) == 1 && Count(ThreadCalls(a), IsThreadCreated) == 0
  {
    var wait := [WaitForSingleObject(TIMEOUT_10SEC, a.wait)] +
                (if a.wait.Signaled? then [GetExitCodeThread(a.exitCode)] else []);
    assert forall k :: 0 <= k < |wait| ==> !wait[k].CloseThread? && !wait[k].CreateRemoteThread?;
    NoneOf(wait, IsThreadClose);
    NoneOf(wait, IsThreadCreated);
    CountAppend(wait, [CloseThread], IsThreadClose);
    CountAppend(wait, [CloseThread], IsThreadCreated);
  }

  /** Between allocation and release, a created thread is closed once. */
  lemma WorkClosesCreatedThread(path: string, a: Answers)
    requires Accepted(path)
    ensures Count(WorkCalls(path, a), IsThreadClose) == (if a.write && a.entry && a.thread then 1 else 0)
    ensures Count(WorkCalls(path, a), IsThreadCreated) == (if a.write && a.entry && a.thread then 1 else 0)
  {
    var work := WorkCalls(path, a);
    if a.write && a.entry && a.thread {
      var before := [WriteProcessMemory(Written(path), true), GetProcAddress(true)];
      var create := [CreateRemoteThread(Written(path), true)];
      assert work == before + (create + ThreadCalls(a));
      NoneOf(before, IsThreadClose);
      NoneOf(before, IsThreadCreated);
      ThreadCallsCloseOnce(a);
      CountAppend(before, create + ThreadCalls(a), IsThreadClose);
      CountAppend(before, create + ThreadCalls(a), IsThreadCreated);
      CountAppend(create, ThreadCalls(a), IsThreadClose);
      CountAppend(create, ThreadCalls(a), IsThreadCreated);
    } else {
      assert forall k :: 0 <= k < |work| ==> !work[k].CloseThread? && !IsThreadCreated(work[k]);
      NoneOf(work, IsThreadClose);
      NoneOf(work, IsThreadCreated);
    }
  }

  /** Cleanup of the thread handle: closed exactly once when the thread was
      created, never otherwise. */
  lemma ThreadClosedIffCreated(path: string, a: Answers)
    ensures Count(LadderCalls(path, a), IsThreadClose) == Count(LadderCalls(path, a), IsThreadCreated)
    ensures Count(LadderCalls(path, a), IsThreadCreated) ==
      (if Accepted(path) && a.alloc && a.write && a.entry && a.thread then 1 else 0)
  {
    var calls := LadderCalls(path, a);
    if Accepted(path) && a.alloc {
      var alloc, work, free := [VirtualAllocEx(RegionBytes(path), true)], WorkCalls(path, a), [VirtualFreeEx(a.freed)];
      assert calls == alloc + (work + free);
      NoneOf(alloc, IsThreadClose);
      NoneOf(alloc, IsThreadCreated);
      NoneOf(free, IsThreadClose);
      NoneOf(free, IsThreadCreated);
      WorkClosesCreatedThread(path, a);
      CountAppend(alloc, work + free, IsThreadClose);
      CountAppend(alloc, work + free, IsThreadCreated);
      CountAppend(work, free, IsThreadClose);
      CountAppend(work, free, IsThreadCreated);
    } else {
      assert forall k :: 0 <= k < |calls| ==> !calls[k].CloseThread? && !IsThreadCreated(calls[k]);
      NoneOf(calls, IsThreadClose);
      NoneOf(calls, IsThreadCreated);
    }
  }

  /** Outcome classification: success exactly when every step succeeded, the
      wait saw the thread finish, and its exit code could be read and is not 0. */
  lemma SuccessIff(path: string, a: Answers)
    ensures LadderOutcome(path, a) == Injected <==>
      Accepted(path) && a.alloc && a.write && a.entry && a.thread &&
      a.wait == Signaled && a.exitCode.Some? && a.exitCode.value != 0
  {
  }

  /** After the wait, only the exit-code read and the releases follow: nothing
      stops the remote thread, even after a timeout. */
  lemma AfterWait(path: string, a: Answers)
    requires Accepted(path) && a.alloc && a.write && a.entry && a.thread
    ensures LadderCalls(path, a) ==
      [VirtualAllocEx(RegionBytes(path), true), WriteProcessMemory(Written(path), true),
       GetProcAddress(true), CreateRemoteThread(Written(path), true), WaitForSingleObject(TIMEOUT_10SEC, a.wait)] +
      (if a.wait.Signaled? then [GetExitCodeThread(a.exitCode)] else []) +
      [CloseThread, VirtualFreeEx(a.freed)]
  {
  }

  lemma WorkIgnoresRelease(path: string, a: Answers, freed: bool)
    requires Accepted(path)
    ensures WorkCalls(path, a.(freed := freed)) == WorkCalls(path, a)
  {
  }

  /** The release's answer never changes the outcome. */
  lemma OutcomeIgnoresRelease(path: string, a: Answers, freed: bool)
    ensures LadderOutcome(path, a.(freed := freed)) == LadderOutcome(path, a)
  {
  }

  /** Each outcome is reached by exactly the steps it names: an exit code is read
      only after a finished wait, and a timeout and a failed wait stay apart. */
  lemma OutcomeSteps(path: string, a: Answers)
    ensures LadderOutcome(path, a) == LoadFailed <==>
      LadderOutcome(path, a.(exitCode := Some(1))) == Injected && a.exitCode == Some(0)
    ensures LadderOutcome(path, a) == NoExitCode <==>
      LadderOutcome(path, a.(exitCode := Some(1))) == Injected && a.exitCode.None?
    ensures LadderOutcome(path, a) in {Hung, WaitFailed} <==>
      Accepted(path) && a.alloc && a.write && a.entry && a.thread && !a.wait.Signaled?
  {
  }

  // ------------------------------------------------------------ the methods

  /** Lines 189-207: wait for the thread, read its exit code if it finished,
      classify, close the handle. */
  method AwaitThread(os: Os, thread: ThreadHandle)
    returns (outcome: Outcome, ghost wait: WaitResult, ghost code: Option<DWORD>)
    requires thread in os.owned.threads
    modifies os
    ensures outcome == ThreadOutcome(wait, code)
    ensures !wait.Signaled? ==> code.None?
    ensures os.owned == old(os.owned).(threads := old(os.owned.threads) - {thread})
    ensures os.log == old(os.log) + ThreadCalls(Answers(true, true, true, true, wait, code, true))
  {
    code := None;
    var waitResult := os.WaitForSingleObject(thread, TIMEOUT_10SEC);
    wait := waitResult;
    if waitResult == Signaled {
      var threadExitCode := os.GetExitCodeThread(thread);
      code := threadExitCode;
      if threadExitCode.Some? && threadExitCode.value != 0 {
        outcome := Injected;
      } else if threadExitCode.Some? {
        outcome := LoadFailed;
      } else {
        outcome := NoExitCode;
      }
    } else if waitResult == TimedOut {
      outcome := Hung;
    } else {
      outcome := WaitFailed;
    }
    os.CloseThread(thread);
  }

  /** Lines 174-230: the ladder on an open process handle. */
  method Inject(os: Os, process: ProcessHandle, path: string) returns (outcome: Outcome, ghost a: Answers)
    requires process in os.owned.processes
    modifies os
    ensures outcome == LadderOutcome(path, a)
    ensures os.log == old(os.log) + LadderCalls(path, a)
    ensures os.owned.heap == old(os.owned.heap)
    ensures os.owned.processes == old(os.owned.processes)
    ensures os.owned.threads == old(os.owned.threads)
    ensures Accepted(path) && a.alloc && !a.freed ==>
      old(os.owned.regions) < os.owned.regions && |os.owned.regions - old(os.owned.regions)| == 1
    ensures !(Accepted(path) && a.alloc && !a.freed) ==> os.owned.regions == old(os.owned.regions)
  {
    a := Answers(false, false, false, false, WaitError, None, false);
    var dllpathlen := Tcsnlen(path, MAX_PATH);
    if !(dllpathlen < MAX_PATH) {
      return PathTooLong, a;
    }
    var sizerequired := TCHAR_SIZE * (dllpathlen + 1);
    var mem := os.VirtualAllocEx(process, sizerequired);
    if mem == null {
      return AllocFailed, a;
    }
    a := a.(alloc := true);
    ghost var a1: Answers;
    outcome, a1 := UseRegion(os, process, mem, path, a);
    var freed := os.VirtualFreeEx(process, mem);
    a := a1.(freed := freed);
    ghost var work := WorkCalls(path, a1);
    WorkIgnoresRelease(path, a1, freed);
    OutcomeIgnoresRelease(path, a1, freed);
    AppendAssoc(old(os.log), [VirtualAllocEx(sizerequired, true)], work);
    AppendAssoc(old(os.log) + [VirtualAllocEx(sizerequired, true)], work, [VirtualFreeEx(freed)]);
    AppendAssoc([VirtualAllocEx(sizerequired, true)], work, [VirtualFreeEx(freed)]);
    AppendAssoc(old(os.log), [VirtualAllocEx(sizerequired, true)], work + [VirtualFreeEx(freed)]);
  }

  /** Lines 181-219: the steps that use the committed buffer, up to (not
      including) its release. */
  method UseRegion(os: Os, process: ProcessHandle, mem: Region, path: string, ghost a0: Answers)
    returns (outcome: Outcome, ghost a: Answers)
    requires Accepted(path) && a0.alloc
    requires process in os.owned.processes && mem in os.owned.regions
    requires mem.size == RegionBytes(path)
    modifies os, mem
    ensures a.alloc && a.freed == a0.freed
    ensures outcome == LadderOutcome(path, a)
    ensures os.log == old(os.log) + WorkCalls(path, a)
    ensures os.owned == old(os.owned)
  {
    a := a0;
    var image := Image(path);
    var bytes := RegionBytes(path);
    var written := os.WriteProcessMemory(process, mem, image, bytes);
    a := a.(write := written);
    assert bytes / TCHAR_SIZE == PathLen(path) + 1;
    if !written {
      outcome := WriteFailed;
      return;
    }
    outcome, a := Launch(os, process, mem, path, a);
    AppendAssoc(old(os.log), [WriteProcessMemory(Written(path), true)], LaunchCalls(path, a));
  }

  /** Lines 184-215: find LoadLibrary, then start the remote thread. */
  method Launch(os: Os, process: ProcessHandle, mem: Region, path: string, ghost a0: Answers)
    returns (outcome: Outcome, ghost a: Answers)
    requires Accepted(path) && a0.alloc && a0.write
    requires process in os.owned.processes && mem in os.owned.regions
    requires mem.data == Written(path)
    modifies os
    ensures a.alloc && a.write && a.freed == a0.freed
    ensures outcome == LadderOutcome(path, a)
    ensures os.log == old(os.log) + LaunchCalls(path, a)
    ensures os.owned == old(os.owned)
  {
    var entry := os.GetProcAddress();
    if !entry {
      a := a0.(entry := false);
      return NoEntryPoint, a;
    }
    outcome, a := StartThread(os, process, mem, path, a0.(entry := true));
    AppendAssoc(old(os.log), [GetProcAddress(true)], StartCalls(path, a));
  }

  /** Lines 187-211: start the remote thread on the buffer holding the path, and
      wait for it. */
  method StartThread(os: Os, process: ProcessHandle, mem: Region, path: string, ghost a0: Answers)
    returns (outcome: Outcome, ghost a: Answers)
    requires Accepted(path) && a0.alloc && a0.write && a0.entry
    requires process in os.owned.processes && mem in os.owned.regions
    requires mem.data == Written(path)
    modifies os
    ensures a.alloc && a.write && a.entry && a.freed == a0.freed
    ensures outcome == LadderOutcome(path, a)
    ensures os.log == old(os.log) + StartCalls(path, a)
    ensures os.owned == old(os.owned)
  {
    var thread := os.CreateRemoteThread(process, mem);
    if thread == null {
      a := a0.(thread := false);
      return ThreadFailed, a;
    }
    ghost var wait, code;
    outcome, wait, code := AwaitThread(os, thread);
    a := a0.(thread := true, wait := wait, exitCode := code);
    AppendAssoc(old(os.log), [CreateRemoteThread(Written(path), true)], ThreadCalls(a));
  }

  /** _tmain's effect (lines 159-238): resolve the target from argv[1], run the
      ladder with argv[2], close the process handle. The ghost outputs are what
      the resolver's name search saw. */
  method Run(os: Os, argv: seq<string>)
    returns (outcome: Outcome, found: bool, ghost target: DWORD, ghost a: Answers,
             ghost t: ProcessList.Trace, ghost pids: seq<DWORD>, ghost probes: seq<Resolver.Probe>)
    modifies os
    ensures |probes| <= |pids|
    ensures |argv| != 3 ==> outcome == Usage && os.log == old(os.log) && os.owned == old(os.owned)
    ensures |argv| == 3 && !found ==>
      outcome == NotFound && os.log == old(os.log) + Resolver.ResolveCalls(argv[1], found, t, pids, probes)
    ensures |argv| == 3 && found ==>
      outcome == LadderOutcome(argv[2], a) &&
      os.log == old(os.log) + Resolver.ResolveCalls(argv[1], found, t, pids, probes) + LadderCalls(argv[2], a) +
                [CloseProcess(target)]
    ensures |argv| == 3 && Resolver.IsPidToken(argv[1]) && found ==> target == Resolver.ParseUnsigned(argv[1]).0
    ensures |argv| == 3 && !Resolver.IsPidToken(argv[1]) ==>
      ProcessList.Ran(Resolver.STACK_BYTES, t) && |pids| == ProcessList.ListCount(Resolver.STACK_BYTES, t) &&
      found == Resolver.FirstMatch(argv[1], probes).Some? &&
      (found ==> target == pids[Resolver.FirstMatch(argv[1], probes).value])
    ensures |argv| == 3 && argv[1] == [] ==> !found
    ensures os.owned.processes == old(os.owned.processes)
    ensures os.owned.threads == old(os.owned.threads)
    ensures |argv| == 3 && !Resolver.IsPidToken(argv[1]) && ProcessList.Leaks(Resolver.STACK_BYTES, t) ==>
      old(os.owned.heap) < os.owned.heap && |os.owned.heap - old(os.owned.heap)| == 1
    ensures !(|argv| == 3 && !Resolver.IsPidToken(argv[1]) && ProcessList.Leaks(Resolver.STACK_BYTES, t)) ==>
      os.owned.heap == old(os.owned.heap)
    ensures |argv| == 3 && found && Accepted(argv[2]) && a.alloc && !a.freed ==>
      old(os.owned.regions) < os.owned.regions && |os.owned.regions - old(os.owned.regions)| == 1
    ensures !(|argv| == 3 && found && Accepted(argv[2]) && a.alloc && !a.freed) ==>
      os.owned.regions == old(os.owned.regions)
  {
    found, target := false, 0;
    a := Answers(false, false, false, false, WaitError, None, false);
    t, pids, probes := ProcessList.Trace(EnumFailed, []), [], [];
    if |argv| != 3 {
      return Usage, found, target, a, t, pids, probes;
    }
    var process;
    found, process, t, pids, probes := Resolver.GetProcessByNameOrId(os, argv[1]);
    if !found {
      return NotFound, found, target, a, t, pids, probes;
    }
    target := process.pid;
    outcome, a := Inject(os, process, argv[2]);
    os.CloseProcess(process);
  }
}
