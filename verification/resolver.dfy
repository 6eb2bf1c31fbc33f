/**
  getProcessbyNameOrId: turn the command-line token into an open process handle.

  A token that parses, as a whole, to a non-zero number is a process identifier
  and is opened directly. Any other token is a base name: the identifiers from
  FillProcessesList are opened in order, and the first whose main module's base
  name equals the token (ignoring case) is kept; every other handle is closed.
*/
module Resolver {
  import opened Wrappers
  import opened Win32
  import ProcessList

  /** sizeof(lpProcesses): QUITE_LARGE_NB_PROCESSES DWORDs on the stack. */
  const STACK_BYTES: DWORD := 1024

  // ------------------------------------------------------------ the token

  predicate IsDigit(c: char)
  {
    '0' <= c <= '9'
  }

  /** The length of the run of decimal digits that `s` starts with. */
  function LeadingDigits(s: string): (n: nat)
    ensures n <= |s|
    ensures forall i :: 0 <= i < n ==> IsDigit(s[i])
    ensures n < |s| ==> !IsDigit(s[n])
  {
    if s == [] || !IsDigit(s[0]) then 0 else 1 + LeadingDigits(s[1..])
  }

  /** The value of a string of decimal digits. */
  function Decimal(ds: string): nat
    requires forall i :: 0 <= i < |ds| ==> IsDigit(ds[i])
  {
    if ds == [] then 0
    else
      assert IsDigit(ds[|ds| - 1]);
      10 * Decimal(ds[..|ds| - 1]) + (ds[|ds| - 1] as int - '0' as int)
  }

  /** _tcstoul(token, &stop, 0) on a decimal token: the value, saturated at
      ULONG_MAX, and the index where the parse stopped. */
  function ParseUnsigned(s: string): (r: (DWORD, nat))
    ensures r.1 <= |s| && forall i :: 0 <= i < r.1 ==> IsDigit(s[i])
    ensures r.1 < |s| ==> !IsDigit(s[r.1])
    ensures r.1 == 0 ==> r.0 == 0
  {
    var n := LeadingDigits(s);
    var v := Decimal(s[..n]);
    (if v > 0xFFFF_FFFF then 0xFFFF_FFFF else v, n)
  }

  /** The token is taken as a process identifier: the parse gave a non-zero
      value and stopped at the terminator. */
  function IsPidToken(s: string): (r: bool)
    ensures r ==> 0 < |s| && forall i :: 0 <= i < |s| ==> IsDigit(s[i])
  {
    ParseUnsigned(s).0 != 0 && ParseUnsigned(s).1 == |s|
  }

  lemma {:induction false} DecimalZero(ds: string)
    requires forall i :: 0 <= i < |ds| ==> IsDigit(ds[i])
    ensures Decimal(ds) == 0 <==> forall i :: 0 <= i < |ds| ==> ds[i] == '0'
    decreases |ds|
  {
    if ds != [] {
      var init := ds[..|ds| - 1];
      DecimalZero(init);
      assert forall i :: 0 <= i < |init| ==> init[i] == ds[i];
    }
  }

  /** Numeric token: exactly the non-empty all-digit tokens with a non-zero
      digit. "0", "", "12a" and names go to the name search. */
  lemma PidTokenIff(s: string)
    ensures IsPidToken(s) <==>
      (forall i :: 0 <= i < |s| ==> IsDigit(s[i])) && (exists i :: 0 <= i < |s| && s[i] != '0')
  {
    var n := LeadingDigits(s);
    DecimalZero(s[..n]);
    if n == |s| {
      assert s[..n] == s;
    }
  }

  // ------------------------------------------------------------ the name

  /** Case folding of _tcsicmp, on ASCII letters. */
  function Lower(c: char): char
  {
    if 'A' <= c <= 'Z' then (c as int + 32) as char else c
  }

  /** _tcsicmp(a, b) == 0: equal lengths and equal characters once folded. */
  function SameName(a: string, b: string): (r: bool)
    ensures a == b ==> r
    ensures r ==> |a| == |b|
  {
    |a| == |b| && forall i :: 0 <= i < |a| ==> Lower(a[i]) == Lower(b[i])
  }

  /** The comparison is an equivalence: which argument is the token does not matter,
      and names equal to a common name are equal to each other. */
  lemma SameNameIsEquivalence(a: string, b: string, c: string)
    ensures SameName(a, a)
    ensures SameName(a, b) == SameName(b, a)
    ensures SameName(a, b) && SameName(b, c) ==> SameName(a, c)
  {
  }

  /** What examining one candidate identifier gave. */
  datatype Probe = OpenFailed | ModulesFailed | NameFailed | Named(name: string)

  predicate Matches(token: string, probe: Probe)
  {
    probe.Named? && SameName(token, probe.name)
  }

  /** Every name read is non-empty: GetModuleBaseName reports an empty name as a failure. */
  predicate NamesNonEmpty(probes: seq<Probe>)
  {
    forall k :: 0 <= k < |probes| ==> probes[k].Named? ==> |probes[k].name| > 0
  }

  /** The position of the first candidate whose name matches. */
  function FirstMatch(token: string, probes: seq<Probe>): (r: Option<nat>)
    ensures r.Some? ==>
      r.value < |probes| && Matches(token, probes[r.value]) &&
      forall j :: 0 <= j < r.value ==> !Matches(token, probes[j])
    ensures r.None? ==> forall j :: 0 <= j < |probes| ==> !Matches(token, probes[j])
  {
    if probes == [] then None
    else
      var r := FirstMatch(token, probes[..|probes| - 1]);
      if r.Some? then r
      else if Matches(token, probes[|probes| - 1]) then Some(|probes| - 1)
      else None
  }

  /** The calls made while examining candidate `pid`. */
  function ProbeCalls(token: string, pid: DWORD, probe: Probe): seq<Call>
  {
    match probe
    case OpenFailed => [OpenProcess(pid, false)]
    case ModulesFailed => [OpenProcess(pid, true), EnumProcessModules(false), CloseProcess(pid)]
    case NameFailed => [OpenProcess(pid, true), EnumProcessModules(true), GetModuleBaseName(None), CloseProcess(pid)]
    case Named(n) =>
      [OpenProcess(pid, true), EnumProcessModules(true), GetModuleBaseName(Some(n))] +
      (if SameName(token, n) then [] else [CloseProcess(pid)])
  }

  /** The calls made while examining the first |probes| candidates of `pids`. */
  function ScanCalls(token: string, pids: seq<DWORD>, probes: seq<Probe>): seq<Call>
    requires |probes| <= |pids|
  {
    if probes == [] then []
    else ScanCalls(token, pids, probes[..|probes| - 1]) +
         ProbeCalls(token, pids[|probes| - 1], probes[|probes| - 1])
  }

  /** All calls of a name search over the enumeration `t` that listed `pids`. */
  function NameSearchCalls(token: string, t: ProcessList.Trace, pids: seq<DWORD>, probes: seq<Probe>): seq<Call>
    requires |probes| <= |pids|
  {
    ProcessList.Calls(STACK_BYTES, t) +
    (if |pids| > 0
     then ScanCalls(token, pids, probes) + (if ProcessList.Grows(STACK_BYTES, t) then [HeapFree] else [])
     else [])
  }

  /** All calls of getProcessbyNameOrId: a single OpenProcess for a numeric
      token, the name search otherwise. */
  function ResolveCalls(token: string, found: bool, t: ProcessList.Trace, pids: seq<DWORD>, probes: seq<Probe>): seq<Call>
    requires |probes| <= |pids|
  {
    if IsPidToken(token) then [OpenProcess(ParseUnsigned(token).0, found)]
    else NameSearchCalls(token, t, pids, probes)
  }

  function OpenedPids(calls: seq<Call>): seq<DWORD>
  {
    if calls == [] then []
    else (if calls[0].OpenProcess? then [calls[0].pid] else []) + OpenedPids(calls[1..])
  }

  predicate IsOpenedHandle(c: Call)
  {
    c.OpenProcess? && c.ok
  }

  predicate IsCloseProcess(c: Call)
  {
    c.CloseProcess?
  }

  lemma {:induction false} OpenedPidsAppend(a: seq<Call>, b: seq<Call>)
    ensures OpenedPids(a + b) == OpenedPids(a) + OpenedPids(b)
  {
    if a == [] {
      assert a + b == b;
    } else {
      var ab := a + b;
      assert ab[0] == a[0] && ab[1..] == a[1..] + b;
      OpenedPidsAppend(a[1..], b);
      var head := if a[0].OpenProcess? then [a[0].pid] else [];
      assert OpenedPids(ab) == head + OpenedPids(a[1..] + b);
      AppendAssoc(head, OpenedPids(a[1..]), OpenedPids(b));
    }
  }

  /** One candidate: a single OpenProcess, for that candidate. */
  lemma ProbeOpensOnce(token: string, pid: DWORD, probe: Probe)
    ensures OpenedPids(ProbeCalls(token, pid, probe)) == [pid]
  {
    var calls := ProbeCalls(token, pid, probe);
    var rest := calls[1..];
    assert OpenedPids(calls) == [pid] + OpenedPids(rest);
    assert forall k :: 0 <= k < |rest| ==> !rest[k].OpenProcess?;
    NoOpens(rest);
  }

  /** One candidate: its handle, when opened, is closed unless it matched. */
  lemma ProbeClosesUnlessMatched(token: string, pid: DWORD, probe: Probe)
    ensures Count(ProbeCalls(token, pid, probe), IsOpenedHandle) ==
            Count(ProbeCalls(token, pid, probe), IsCloseProcess) + (if Matches(token, probe) then 1 else 0)
  {
    var calls := ProbeCalls(token, pid, probe);
    var rest := calls[1..];
    assert Count(calls, IsOpenedHandle) == (if probe.OpenFailed? then 0 else 1) + Count(rest, IsOpenedHandle);
    assert Count(calls, IsCloseProcess) == Count(rest, IsCloseProcess);
    assert forall k :: 0 <= k < |rest| ==> !rest[k].OpenProcess?;
    NoOpens(rest);
    if probe.OpenFailed? || Matches(token, probe) {
      assert forall k :: 0 <= k < |rest| ==> !rest[k].CloseProcess?;
      NoCloses(rest);
    } else {
      var init := rest[..|rest| - 1];
      assert rest == init + [CloseProcess(pid)];
      assert forall k :: 0 <= k < |init| ==> !init[k].CloseProcess?;
      NoCloses(init);
      CountAppend(init, [CloseProcess(pid)], IsCloseProcess);
    }
  }

  lemma {:induction false} NoOpens(calls: seq<Call>)
    requires forall k :: 0 <= k < |calls| ==> !calls[k].OpenProcess?
    ensures OpenedPids(calls) == [] && Count(calls, IsOpenedHandle) == 0
  {
    if calls != [] {
      NoOpens(calls[1..]);
    }
  }

  lemma {:induction false} NoCloses(calls: seq<Call>)
    requires forall k :: 0 <= k < |calls| ==> !calls[k].CloseProcess?
    ensures Count(calls, IsCloseProcess) == 0
  {
    if calls != [] {
      NoCloses(calls[1..]);
    }
  }

  /** One more candidate examined after a scan that has not matched yet. */
  lemma ScanStep(token: string, pids: seq<DWORD>, probes: seq<Probe>, probe: Probe)
    requires |probes| < |pids| && FirstMatch(token, probes).None?
    ensures FirstMatch(token, probes + [probe]) == (if Matches(token, probe) then Some(|probes|) else None)
    ensures ScanCalls(token, pids, probes + [probe]) ==
            ScanCalls(token, pids, probes) + ProbeCalls(token, pids[|probes|], probe)
  {
    assert (probes + [probe])[..|probes|] == probes;
  }

  lemma NamesNonEmptyAppend(probes: seq<Probe>, probe: Probe)
    requires NamesNonEmpty(probes) && (probe.Named? ==> |probe.name| > 0)
    ensures NamesNonEmpty(probes + [probe])
  {
    forall k | 0 <= k < |probes| + 1
      ensures (probes + [probe])[k].Named? ==> |(probes + [probe])[k].name| > 0
    {
      if k < |probes| {
        assert (probes + [probe])[k] == probes[k];
      }
    }
  }

  /** The empty token matches no name that was read, so the search never finds it. */
  lemma EmptyTokenNeverMatches(probes: seq<Probe>)
    requires NamesNonEmpty(probes)
    ensures FirstMatch("", probes).None?
  {
  }

  /** Enumeration order: candidates are opened one by one, in list order, and
      only the examined ones. */
  lemma {:induction false} ScanOpensInOrder(token: string, pids: seq<DWORD>, probes: seq<Probe>)
    requires |probes| <= |pids|
    ensures OpenedPids(ScanCalls(token, pids, probes)) == pids[..|probes|]
    decreases |probes|
  {
    if probes != [] {
      var n := |probes| - 1;
      var init, a, b := probes[..n], ScanCalls(token, pids, probes[..n]), ProbeCalls(token, pids[n], probes[n]);
      assert ScanCalls(token, pids, probes) == a + b;
      ScanOpensInOrder(token, pids, init);
      OpenedPidsAppend(a, b);
      ProbeOpensOnce(token, pids[n], probes[n]);
      assert pids[..n] + [pids[n]] == pids[..n + 1];
    }
  }

  /** No handle leak in the scan: every handle opened is closed, except the
      one of the match when the scan stopped on it. */
  lemma {:induction false} ScanClosesAllButMatch(token: string, pids: seq<DWORD>, probes: seq<Probe>)
    requires |probes| <= |pids|
    requires FirstMatch(token, probes).Some? ==> FirstMatch(token, probes).value == |probes| - 1
    ensures Count(ScanCalls(token, pids, probes), IsOpenedHandle) ==
            Count(ScanCalls(token, pids, probes), IsCloseProcess) +
            (if FirstMatch(token, probes).Some? then 1 else 0)
    decreases |probes|
  {
    if probes != [] {
      var init := probes[..|probes| - 1];
      var last := probes[|probes| - 1];
      assert FirstMatch(token, init).None?;
      ScanClosesAllButMatch(token, pids, init);
      var a, b := ScanCalls(token, pids, init), ProbeCalls(token, pids[|probes| - 1], last);
      CountAppend(a, b, IsOpenedHandle);
      CountAppend(a, b, IsCloseProcess);
      ProbeClosesUnlessMatched(token, pids[|probes| - 1], last);
    }
  }

  // ------------------------------------------------------------ the method

  /** One pass of the search loop (lines 132-146): open candidate `pid`, read its
      main module's base name, and keep the handle only when the name matches. */
  method ExamineCandidate(os: Os, token: string, pid: DWORD) returns (h: ProcessHandle?, ghost probe: Probe)
    modifies os
    ensures (h != null) == Matches(token, probe)
    ensures probe.Named? ==> |probe.name| > 0
    ensures h != null ==> fresh(h) && h.pid == pid
    ensures os.owned == old(os.owned).(processes := old(os.owned.processes) + (if h == null then {} else {h}))
    ensures os.log == old(os.log) + ProbeCalls(token, pid, probe)
  {
    h := null;
    var hProcess := os.OpenProcess(pid);
    if hProcess == null {
      probe := OpenFailed;
      return;
    }
    var ok := os.EnumProcessModules(hProcess);
    if ok {
      var name := os.GetModuleBaseName(hProcess);
      if name.Some? {
        probe := Named(name.value);
        if SameName(token, name.value) {
          h := hProcess;
        }
      } else {
        probe := NameFailed;
      }
    } else {
      probe := ModulesFailed;
    }
    if h == null {
      os.CloseProcess(hProcess);
    }
  }

  /** The search loop of lines 131-147: the candidates are examined in list
      order until one matches. */
  method ScanCandidates(os: Os, token: string, processes: array<DWORD>, nb: nat)
    returns (found: bool, h: ProcessHandle?, ghost probes: seq<Probe>)
    requires nb <= processes.Length
    modifies os
    ensures |probes| <= nb && NamesNonEmpty(probes)
    ensures found == (h != null) && found == FirstMatch(token, probes).Some?
    ensures |probes| == (if found then FirstMatch(token, probes).value + 1 else nb)
    ensures found ==> fresh(h) && h.pid == processes[FirstMatch(token, probes).value]
    ensures os.owned == old(os.owned).(processes := old(os.owned.processes) + (if found then {h} else {}))
    ensures os.log == old(os.log) + ScanCalls(token, processes[..nb], probes)
  {
    found, h, probes := false, null, [];
    ghost var pids := processes[..nb];
    var i := 0;
    while i < nb && !found
      invariant 0 <= i <= nb && |probes| == i && NamesNonEmpty(probes)
      invariant found ==> FirstMatch(token, probes) == Some(i - 1) && h != null && fresh(h) && h.pid == pids[i - 1]
      invariant !found ==> FirstMatch(token, probes).None? && h == null
      invariant os.owned == old(os.owned).(processes := old(os.owned.processes) + (if found then {h} else {}))
      invariant os.log == old(os.log) + ScanCalls(token, pids, probes)
    {
      ghost var probe: Probe;
      assert processes[i] == pids[i];
      h, probe := ExamineCandidate(os, token, processes[i]);
      found := h != null;
      ScanStep(token, pids, probes, probe);
      NamesNonEmptyAppend(probes, probe);
      AppendAssoc(old(os.log), ScanCalls(token, pids, probes), ProbeCalls(token, pids[i], probe));
      probes := probes + [probe];
      i := i + 1;
    }
  }

  /** The name branch of getProcessbyNameOrId (lines 128-154): list the
      processes (QUITE_LARGE_NB_PROCESSES slots on the stack first), examine the
      candidates, and free the list when it was moved to the heap. */
  method SearchByName(os: Os, token: string)
    returns (found: bool, h: ProcessHandle?,
             ghost t: ProcessList.Trace, ghost pids: seq<DWORD>, ghost probes: seq<Probe>,
             ghost list: array?<DWORD>)
    modifies os
    ensures found == (h != null)
    ensures found ==> fresh(h)
    ensures os.owned.processes == old(os.owned.processes) + (if found then {h} else {})
    ensures os.owned.threads == old(os.owned.threads) && os.owned.regions == old(os.owned.regions)
    ensures ProcessList.Ran(STACK_BYTES, t) && ProcessList.Fits(STACK_BYTES, t, os.maxBytes)
    ensures |pids| == ProcessList.ListCount(STACK_BYTES, t) && |probes| <= |pids| && NamesNonEmpty(probes)
    ensures found == FirstMatch(token, probes).Some?
    ensures |probes| == (if found then FirstMatch(token, probes).value + 1 else |pids|)
    ensures found ==> h.pid == pids[FirstMatch(token, probes).value]
    ensures os.log == old(os.log) + NameSearchCalls(token, t, pids, probes)
    ensures ProcessList.Leaks(STACK_BYTES, t) ==>
      list != null && list !in old(os.owned.heap) && os.owned.heap == old(os.owned.heap) + {list}
    ensures !ProcessList.Leaks(STACK_BYTES, t) ==> os.owned.heap == old(os.owned.heap)
  {
    list := null;
    found, h, pids, probes := false, null, [], [];
    var lpProcesses := new DWORD[ProcessList.QUITE_LARGE_NB_PROCESSES];
    var processes, nbProcesses;
    processes, nbProcesses, t := ProcessList.FillProcessesList(os, lpProcesses, STACK_BYTES);
    if nbProcesses == 0 {
      list := processes;
      assert ProcessList.Calls(STACK_BYTES, t) + [] == ProcessList.Calls(STACK_BYTES, t);
      return;
    }
    ProcessList.CountedListIsHeld(STACK_BYTES, t);
    pids := processes[..nbProcesses];
    found, h, probes := ScanCandidates(os, token, processes, nbProcesses);
    ghost var tail: seq<Call> := [];
    if processes != lpProcesses {
      os.HeapFree(processes);
      tail := [HeapFree];
    }
    AppendAssoc(old(os.log), ProcessList.Calls(STACK_BYTES, t), ScanCalls(token, pids, probes));
    AppendAssoc(old(os.log) + ProcessList.Calls(STACK_BYTES, t), ScanCalls(token, pids, probes), tail);
    AppendAssoc(old(os.log), ProcessList.Calls(STACK_BYTES, t), ScanCalls(token, pids, probes) + tail);
  }

  /** getProcessbyNameOrId: returns found and *phProcess. The ghost outputs
      describe a name search: the enumeration, the list it gave, and what
      examining each candidate gave. */
  method GetProcessByNameOrId(os: Os, token: string)
    returns (found: bool, h: ProcessHandle?,
             ghost t: ProcessList.Trace, ghost pids: seq<DWORD>, ghost probes: seq<Probe>)
    modifies os
    ensures found == (h != null)
    ensures found ==> fresh(h)
    ensures os.owned.processes == old(os.owned.processes) + (if found then {h} else {})
    ensures os.owned.threads == old(os.owned.threads) && os.owned.regions == old(os.owned.regions)
    ensures |probes| <= |pids| && NamesNonEmpty(probes)
    ensures token == [] ==> !found
    ensures os.log == old(os.log) + ResolveCalls(token, found, t, pids, probes)
    ensures IsPidToken(token) ==>
      (found ==> h.pid == ParseUnsigned(token).0) && os.owned.heap == old(os.owned.heap)
    ensures !IsPidToken(token) ==>
      ProcessList.Ran(STACK_BYTES, t) && ProcessList.Fits(STACK_BYTES, t, os.maxBytes) &&
      |pids| == ProcessList.ListCount(STACK_BYTES, t) &&
      found == FirstMatch(token, probes).Some? &&
      |probes| == (if found then FirstMatch(token, probes).value + 1 else |pids|) &&
      (found ==> h.pid == pids[FirstMatch(token, probes).value])
    ensures !IsPidToken(token) && ProcessList.Leaks(STACK_BYTES, t) ==>
      old(os.owned.heap) < os.owned.heap && |os.owned.heap - old(os.owned.heap)| == 1
    ensures !(!IsPidToken(token) && ProcessList.Leaks(STACK_BYTES, t)) ==>
      os.owned.heap == old(os.owned.heap)
  {
    found, h, t, pids, probes := false, null, ProcessList.Trace(EnumFailed, []), [], [];
    var processId, stop := ParseUnsigned(token).0, ParseUnsigned(token).1;
    if processId != 0 && stop == |token| {
      h := os.OpenProcess(processId);
      found := h != null;
    } else {
      ghost var list;
      found, h, t, pids, probes, list := SearchByName(os, token);
      if token == [] {
        EmptyTokenNeverMatches(probes);
      }
      if ProcessList.Leaks(STACK_BYTES, t) {
        assert os.owned.heap - old(os.owned.heap) == {list};
      }
    }
  }
}
