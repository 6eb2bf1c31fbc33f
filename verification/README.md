# ncloader, modelled in Dafny

ncloader is a Windows command-line tool: `ncloader <process name | pid> <dll full path>`.
It finds one running process and makes it load a DLL. To do that it copies the path
into a buffer committed in the target, then starts a remote thread on `LoadLibrary`
with that buffer as the argument.

This project models the core of `ncloader.c` as imperative Dafny that follows the C
code block by block:

- **ProcessList** (`process_list.dfy`) covers `FillProcessesList` and
  `FillProcessesListWithAlloc`. The caller's stack buffer is tried first. When
  `EnumProcesses` fills it completely, the list moves to the heap, and each retry
  doubles the buffer and then allocates or reallocates it.
- **Resolver** (`resolver.dfy`) covers `getProcessbyNameOrId`.
  - A token that `_tcstoul` reads completely as a non-zero number is opened as a
    process identifier.
  - Any other token is a base name. Candidates are opened in list order, and the
    first one whose main module has that name (case ignored) is kept.
  - Every other handle is closed. The list is freed when it was moved to the heap.
- **Injector** (`injector.dfy`) covers `_tmain`, in order:
  1. the argument count
  2. resolving the target
  3. the path-length check
  4. `VirtualAllocEx`
  5. `WriteProcessMemory`
  6. `GetProcAddress`
  7. `CreateRemoteThread`
  8. a ten-second `WaitForSingleObject`
  9. `GetExitCodeThread`

  The thread handle, the remote buffer and the process handle are then released.
  `Outcome` names the message that each branch prints.
- **Win32** (`win32.dfy`) represents Windows through the class `Os`. Each API
  the core calls is a method of `Os`, and the answer it gives is left open (an
  oracle).
  - `Os` keeps two ghost records.
    - `owned` is every heap block, process handle, thread handle and remote
      buffer the program holds.
    - `log` is every call made, with its answer.
  - A release method (`HeapFree`, `CloseProcess`, `CloseThread`, `VirtualFreeEx`)
    requires that the resource is held. So each verified method never releases
    something twice and never releases something it does not hold.
- **Wrappers** (`wrappers.dfy`) holds `Option`, `Min`, a counting function and
  associativity of concatenation.

Each C function is a method.

- It returns its real results together with ghost values that record what
  Windows answered: a `Trace` of enumeration replies, a `Probe` per examined
  candidate, or the `Answers` of the injection steps.
- Its `ensures` relate those results, the new `owned` and the appended `log` to
  pure specification functions of the answers: `ListCount`, `Calls`, `FirstMatch`,
  `ScanCalls`, `LadderOutcome` and `LadderCalls`.
- Lemmas about those functions state what the program promises. Those promises
  are: stack first, doubling, the failure contract, the numeric-token rule, the
  first-match search, the path limit, exactly-once cleanup and the outcome
  classification.

## Model

| member | source | states |
|---|---|---|
| ProcessList.FillProcessesListWithAlloc | ncloader.c:30-78 | One heap round. A retry is asked exactly when enumeration succeeded and filled the buffer. Otherwise the count becomes the reported bytes / 4, or 0 on any failure. The calls made are alloc or realloc, then enumerate or free. The caller holds the new block exactly when enumeration succeeded. A failed enumeration frees the new block. A failed realloc frees the old one. |
| ProcessList.GrowOnHeap | ncloader.c:88-96 | The do-while loop. Every round retried except the last. Round k asks for the stack size doubled k times. The count is the last round's count. The log is the rounds' calls in order. At most one heap block is gained, and only when the last round enumerated. |
| ProcessList.FillProcessesList | ncloader.c:80-105 | The count is `ListCount` of the trace and the log is `Calls` of the trace. The returned buffer is the caller's own exactly when the stack attempt did not come back full. One heap block of the final size is held exactly when the heap path ended in a successful enumeration, and nothing else is held. A non-zero count fits in the returned buffer. |
| ProcessList.StackFirst | ncloader.c:87-99 | A stack attempt that succeeds without filling the buffer gives bytes / sizeof(DWORD). It makes that single call and holds no heap block. |
| ProcessList.RetryMeansExactFill | ncloader.c:48-56 | Since EnumProcesses never reports more than the buffer, a retry means the buffer was filled exactly. |
| ProcessList.RoundHeld | ncloader.c:39-72 | One round changes the number of held blocks correctly. Alloc plus successful enumeration: +1. Realloc: the count is unchanged, or -1 when it or the enumeration failed. A failed alloc: nothing. There is never a release without a block. |
| ProcessList.RoundSizes | ncloader.c:39-45 | Each round makes exactly one allocation or reallocation request, for that round's size. |
| ProcessList.RetryingLoopHoldsOne | ncloader.c:91-95 | While rounds keep retrying, exactly one heap block is held. |
| ProcessList.LoopOwnership | ncloader.c:88-96 | A finished loop holds one block when its last round enumerated and none otherwise. |
| ProcessList.Ownership | ncloader.c:30-32 | Afterwards the caller holds one heap block exactly when the heap path ended in a successful enumeration, and none otherwise. |
| ProcessList.FailureContract | ncloader.c:60-104 | Each failure gives count 0 and no held block: a failed stack enumeration, a failed allocation or realloc, or a failed heap enumeration. A failed stack enumeration is the only call made. A heap failure after a block existed ends with HeapFree. |
| ProcessList.LoopDoubles | ncloader.c:91-95 | The k-th heap request of the loop asks for the stack size doubled k + 1 times, one request per round. |
| ProcessList.Doubling | ncloader.c:83-95 | For a whole run that moved to the heap: one request per round, the k-th of size bufsize·2^(k+1), each twice the previous one. |
| ProcessList.SuccessBelowSize | ncloader.c:48-98 | A non-zero count comes from a reply strictly smaller than the final buffer, and equals that reply / 4. |
| ProcessList.TrueCount | ncloader.c:83-98 | Suppose Windows holds `total` bytes of identifiers and every reply is the part of them that fits the buffer. Then the run ends with a buffer strictly larger than the list, and the count is the whole list, total / 4. |
| ProcessList.SizeAtIsProduct | ncloader.c:92 | Doubling k times multiplies the size by 2^k. |
| ProcessList.RetryBound | ncloader.c:91-95 | Every retried size was reported full, so bufsize·2^(rounds-1) is at most the system's largest reply. The loop therefore ends after logarithmically many rounds. |
| ProcessList.CountedListIsHeld | ncloader.c:129-150 | When the count is non-zero, the list is on the heap exactly when the stack buffer was outgrown. No block is then left behind. |
| ProcessList.LeakIff | ncloader.c:129-150 | The block is kept with a zero count exactly when the last heap enumeration reported 0 bytes. The caller then never frees it. |
| Resolver.LeadingDigits | ncloader.c:116 | The length of the token's leading decimal digits: all digits before it, a non-digit at it. |
| Resolver.ParseUnsigned | ncloader.c:116 | `_tcstoul` stops at the first non-digit, and a token with no leading digit parses to 0. |
| Resolver.DecimalZero | ncloader.c:116-117 | A digit string has value 0 exactly when all its digits are '0'. |
| Resolver.PidTokenIff | ncloader.c:116-117 | A token is a process identifier exactly when it is all digits and one of them is not '0'. "", "0" and "12a" go to the name search. |
| Resolver.IsPidToken | ncloader.c:117 | The test `processId && *stop == L'\0'`. Only a non-empty, all-digit token passes. |
| Resolver.SameName | ncloader.c:136 | `_tcsicmp(...) == 0`: equal names always match, and matching names have the same length. |
| Resolver.SameNameIsEquivalence | ncloader.c:136 | The case-insensitive comparison is reflexive, symmetric and transitive. |
| Resolver.FirstMatch | ncloader.c:131-139 | The position of the first candidate whose module name equals the token ignoring case. When there is none, no candidate matches. |
| Resolver.EmptyTokenNeverMatches | ncloader.c:135-136 | GetModuleBaseName reports an empty name as failure, so the empty token matches no candidate. |
| Resolver.ProbeOpensOnce | ncloader.c:132 | Examining a candidate opens exactly that identifier, once. |
| Resolver.ProbeClosesUnlessMatched | ncloader.c:132-145 | A candidate's handle, when opened, is closed exactly when it did not match. |
| Resolver.ScanStep | ncloader.c:131-139 | Examining one more candidate after no match finds it exactly when it matches. The calls grow by that candidate's calls. |
| Resolver.ScanOpensInOrder | ncloader.c:131-132 | The search opens the listed identifiers one by one in list order, and only the examined ones. |
| Resolver.ScanClosesAllButMatch | ncloader.c:142-145 | Every handle opened by the search is closed, except the match's handle when the search stopped on it. |
| Resolver.ExamineCandidate | ncloader.c:132-146 | A handle is returned exactly when the candidate's base name matches, and it is for that identifier. Only that handle stays held. The calls are those of the candidate's `Probe`. A name that was read is never empty, because a 0-length result takes the failure branch. |
| Resolver.ScanCandidates | ncloader.c:131-147 | The loop examines candidates in order and stops after the first match. found means a match, and the handle is for the matched identifier. Otherwise every listed identifier was examined. |
| Resolver.SearchByName | ncloader.c:128-154 | The name branch. The list comes from FillProcessesList on 256 stack slots, and the result is the first match in that list. It frees the list exactly when the list is on the heap. Otherwise the heap is unchanged, except in the zero-count leak case. |
| Resolver.GetProcessByNameOrId | ncloader.c:107-157 | found exactly when a handle is returned, and it is the only handle gained. A numeric token opens that identifier directly and touches no heap. A name token behaves like SearchByName, and the empty token is never found. The log is `ResolveCalls`. |
| Injector.Tcsnlen | ncloader.c:174 | `_tcsnlen`: at most `max` characters, none of them NUL. When shorter than `max`, it stops at the end or at a NUL. |
| Injector.LadderOutcome | ncloader.c:175-226 | The branch the ladder ends in. It is never Usage or NotFound. PathTooLong happens exactly when the path is refused. Any outcome other than PathTooLong or AllocFailed means the remote buffer was allocated. |
| Injector.ThreadOutcome | ncloader.c:189-206 | Once the thread runs, the outcome is one of the five wait outcomes. Hung happens exactly on a timeout. An exit-code outcome (NoExitCode, LoadFailed, Injected) happens exactly when the wait saw the thread finish. |
| Injector.PathLimit | ncloader.c:174-176 | A path without NUL is accepted exactly when it is shorter than MAX_PATH, and the buffer is 2·(length + 1) bytes. |
| Injector.RefusedPathCallsNothing | ncloader.c:227-230 | A refused path makes no Windows call in the ladder and gives PathTooLong. |
| Injector.ThreadArgumentIsPath | ncloader.c:176-187 | What is written and passed to the thread is the path up to its length, then a terminator, and fills the buffer exactly. For a path without NUL it is the whole path. |
| Injector.FreedOnceIffAllocated | ncloader.c:178-223 | VirtualFreeEx runs exactly once when the allocation succeeded and never otherwise. It matches the allocations one for one and is the ladder's last call. |
| Injector.WorkAvoidsRegion | ncloader.c:181-219 | Between allocation and release, no remote memory is allocated or released. |
| Injector.ThreadCallsCloseOnce | ncloader.c:189-207 | After thread creation the handle is closed exactly once and nothing else is created. |
| Injector.WorkClosesCreatedThread | ncloader.c:181-216 | Between allocation and release, a thread is created and closed once exactly when the write, the entry-point lookup and the creation all succeeded. |
| Injector.ThreadClosedIffCreated | ncloader.c:178-223 | In the whole ladder, thread closes equal thread creations, and there is one exactly when every step up to creation succeeded. |
| Injector.SuccessIff | ncloader.c:188-194 | The outcome is Injected exactly when every step succeeded, the wait saw the thread finish, and the exit code was read and is not 0. |
| Injector.OutcomeSteps | ncloader.c:189-206 | LoadFailed is a read exit code of 0. NoExitCode is a failed read. Both need a finished wait, and otherwise each would be Injected. A timeout or failed wait happens exactly after a created thread whose wait did not finish. |
| Injector.AfterWait | ncloader.c:178-222 | When every step up to creation succeeds, this is the full sequence of calls. After the wait only the exit-code read, the thread close and the release follow, even on timeout. |
| Injector.OutcomeIgnoresRelease | ncloader.c:220-222 | A failed VirtualFreeEx does not change the outcome. |
| Injector.AwaitThread | ncloader.c:189-207 | Waits, reads the exit code only after a finished wait, and classifies as `ThreadOutcome`. Closes the thread handle, which is then no longer held. |
| Injector.Launch | ncloader.c:184-215 | Looks up LoadLibrary and, when it is found, starts the thread. Outcome and calls follow `LadderOutcome` and `LaunchCalls`. Ownership is unchanged. |
| Injector.StartThread | ncloader.c:187-211 | Starts the thread on the buffer holding the written path and waits for it. Outcome and calls follow `LadderOutcome` and `StartCalls`. Ownership is unchanged, because a created thread's handle is closed. |
| Injector.UseRegion | ncloader.c:181-219 | Writes the image of the path (sizerequired bytes) into the buffer, then launches. Outcome and calls follow `LadderOutcome` and `WorkCalls`. Ownership is unchanged. |
| Injector.Inject | ncloader.c:174-230 | The ladder on an open process. The outcome is `LadderOutcome` and the calls are `LadderCalls`. No heap block, process handle or thread handle is gained. A remote buffer stays held only when its release failed. |
| Injector.Run | ncloader.c:159-238 | A count other than 3 gives Usage and makes no call. A failed resolution gives NotFound after the resolver's calls only. Otherwise the ladder runs on argv[2] and the process handle is closed last. A numeric argv[1] targets that identifier. A name argv[1] targets the first matching candidate of the enumerated list, and is found exactly when one matches. No process or thread handle is left held. The heap gains a block only in the zero-count leak. A remote buffer stays held only when its release failed. |

## Left out

- Console output (`usage`, `_tprintf`, `GetLastError`) is not modelled. `Outcome` names which message a branch prints. `_tmain` always returns 0, and `Run` returns the `Outcome` instead.
- Windows itself is not modelled: each API is an oracle with only the guarantees the code relies on. `EnumProcesses` reports a multiple of 4 bytes, no more than the buffer and no more than a run-wide bound below 2^31. That bound keeps `size *= 2` from wrapping and makes the retry loop terminate.
- `GetProcessHeap`, `GetModuleHandle` and `GetProcessId` are folded into the calls that use them.
- The remote thread's execution inside the target (what `LoadLibrary` does) is not modelled; only its exit code is seen.
- The contents `HeapReAlloc` preserves are not modelled, because the code never reads them.
- Resolver.ParseUnsigned: `_tcstoul` with base 0 also accepts leading white space, a sign, and `0x` and octal prefixes. The model reads decimal digits only and saturates at ULONG_MAX. "0x1A" is therefore a name here, while the code would open process 26.
- Resolver.SameName: `_tcsicmp` folds case by locale. The model folds ASCII letters only.
- Truncation of a module base name longer than MAX_PATH characters by `GetModuleBaseName` is left to the oracle: the name it returns is any non-empty string.
- TCHAR is fixed at 2 bytes (the UNICODE build, `LoadLibraryW`). The ANSI build is not modelled.
- The code refuses a path of MAX_PATH characters or more (`dllpathlen < MAX_PATH`, ncloader.c:175); the model follows it.
- The zero-count leak: a heap enumeration that succeeds with 0 bytes leaves the heap block held with count 0, and `getProcessbyNameOrId` never frees it. The model keeps this behaviour as written.
- When a heap enumeration fails after a successful realloc, `*pprocesses` keeps the address of the old, already released block. The model keeps that reference but, as in the code, never uses it again.
- FillProcessesList requires a buffer size above 0. With a size of 0, `size *= 2` stays 0. Every successful `EnumProcesses` then reports `bytes >= size`, so the do-while at ncloader.c:91-95 never ends. The only call, at ncloader.c:129, passes 1024, so this case is never reached.
