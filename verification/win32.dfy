/**
  The Windows services the loader calls, modelled as oracles.

  Every call is a method of `Os` whose result the model does not determine (it is
  havocked): the proofs hold for every answer Windows may give. What the loader
  owns is tracked as ghost state (`owned`), and every call, with the answer it
  got, is appended to the ghost `log`. Releasing calls require the released
  resource to be owned, so a double free or a use after release does not verify.
*/
module Win32 {
  import opened Wrappers

  /** A 32-bit unsigned Windows integer. */
  type DWORD = x: int | 0 <= x < 0x1_0000_0000

  /** The largest byte count a process list may take; below 2^31, so doubling a
      buffer size that is still below it never wraps a DWORD. */
  type ListBytes = b: nat | b < 0x8000_0000

  const DWORD_SIZE: nat := 4       // sizeof(DWORD)
  const TCHAR_SIZE: nat := 2       // sizeof(TCHAR) in the UNICODE build
  const MAX_PATH: nat := 260
  const TIMEOUT_10SEC: DWORD := 10000

  class ProcessHandle {
    const pid: DWORD
    constructor (pid: DWORD)
      ensures this.pid == pid
    {
      this.pid := pid;
    }
  }

  class ThreadHandle {
    constructor ()
    {
    }
  }

  /** Memory committed in the target process by VirtualAllocEx. */
  class Region {
    const size: nat
    var data: seq<char>
    constructor (size: nat)
      ensures this.size == size && data == []
    {
      this.size := size;
      data := [];
    }
  }

  /** What EnumProcesses answered: failure, or the number of bytes it filled. */
  datatype Reply = EnumFailed | Reported(bytes: nat)

  /** WaitForSingleObject: WAIT_OBJECT_0, WAIT_TIMEOUT, or any other return value. */
  datatype WaitResult = Signaled | TimedOut | WaitError

  /** One Windows call as the loader made it, with the answer it got. */
  datatype Call =
    | EnumProcesses(size: nat, reply: Reply)
    | HeapAlloc(size: nat, ok: bool)
    | HeapReAlloc(size: nat, ok: bool)
    | HeapFree
    | OpenProcess(pid: DWORD, ok: bool)
    | EnumProcessModules(ok: bool)
    | GetModuleBaseName(name: Option<string>)
    | CloseProcess(pid: DWORD)
    | VirtualAllocEx(size: nat, ok: bool)
    | WriteProcessMemory(data: seq<char>, ok: bool)
    | GetProcAddress(ok: bool)
    | CreateRemoteThread(argument: seq<char>, ok: bool)
    | WaitForSingleObject(timeout: DWORD, result: WaitResult)
    | GetExitCodeThread(code: Option<DWORD>)
    | CloseThread
    | VirtualFreeEx(ok: bool)

  /** Everything the loader has acquired and not yet released. */
  datatype Owned = Owned(
    heap: set<array<DWORD>>,
    processes: set<ProcessHandle>,
    threads: set<ThreadHandle>,
    regions: set<Region>)

  function Block(p: array?<DWORD>): set<array<DWORD>>
  {
    if p == null then {} else {p}
  }

  class Os {
    /** A bound, fixed for the run, on the bytes EnumProcesses can report. */
    const maxBytes: ListBytes
    ghost var owned: Owned
    ghost var log: seq<Call>

    constructor (maxBytes: ListBytes)
      ensures this.maxBytes == maxBytes
      ensures owned == Owned({}, {}, {}, {}) && log == []
    {
      this.maxBytes := maxBytes;
      owned := Owned({}, {}, {}, {});
      log := [];
    }

    /** Fills `buf` (of `size` bytes) with process identifiers. */
    method EnumProcesses(buf: array<DWORD>, size: DWORD) returns (ok: bool, bytes: DWORD)
      requires size / DWORD_SIZE <= buf.Length
      modifies this, buf
      ensures owned == old(owned)
      ensures ok ==> bytes <= size && bytes <= maxBytes && bytes % DWORD_SIZE == 0
      ensures log == old(log) + [Call.EnumProcesses(size, if ok then Reported(bytes) else EnumFailed)]
    {
      ok := *;
      var n: nat := *;
      var cap := Min(size, maxBytes) / DWORD_SIZE;
      bytes := if ok then DWORD_SIZE * (n % (cap + 1)) else 0;
      log := log + [Call.EnumProcesses(size, if ok then Reported(bytes) else EnumFailed)];
    }

    method HeapAlloc(size: DWORD) returns (p: array?<DWORD>)
      modifies this
      ensures p != null ==> fresh(p) && p.Length == size / DWORD_SIZE
      ensures owned == old(owned).(heap := old(owned.heap) + Block(p))
      ensures log == old(log) + [Call.HeapAlloc(size, p != null)]
    {
      var ok: bool := *;
      if ok {
        p := new DWORD[size / DWORD_SIZE];
      } else {
        p := null;
      }
      owned := owned.(heap := owned.heap + Block(p));
      log := log + [Call.HeapAlloc(size, p != null)];
    }

    /** On success the old block is released and a new one owned; on failure the old block stays owned. */
    method HeapReAlloc(mem: array<DWORD>, size: DWORD) returns (p: array?<DWORD>)
      requires mem in owned.heap
      modifies this
      ensures p != null ==> fresh(p) && p.Length == size / DWORD_SIZE
      ensures p != null ==> owned == old(owned).(heap := old(owned.heap) - {mem} + {p})
      ensures p == null ==> owned == old(owned)
      ensures log == old(log) + [Call.HeapReAlloc(size, p != null)]
    {
      var ok: bool := *;
      if ok {
        p := new DWORD[size / DWORD_SIZE];
        owned := owned.(heap := owned.heap - {mem} + {p});
      } else {
        p := null;
      }
      log := log + [Call.HeapReAlloc(size, p != null)];
    }

    method HeapFree(p: array<DWORD>)
      requires p in owned.heap
      modifies this
      ensures owned == old(owned).(heap := old(owned.heap) - {p})
      ensures log == old(log) + [Call.HeapFree]
    {
      owned := owned.(heap := owned.heap - {p});
      log := log + [Call.HeapFree];
    }

    /** Opens `pid` with the rights the loader needs (create thread, query, VM operation, read, write). */
    method OpenProcess(pid: DWORD) returns (h: ProcessHandle?)
      modifies this
      ensures h != null ==> fresh(h) && h.pid == pid
      ensures owned == old(owned).(processes := old(owned.processes) + (if h == null then {} else {h}))
      ensures log == old(log) + [Call.OpenProcess(pid, h != null)]
    {
      var ok: bool := *;
      if ok {
        h := new ProcessHandle(pid);
      } else {
        h := null;
      }
      owned := owned.(processes := owned.processes + (if h == null then {} else {h}));
      log := log + [Call.OpenProcess(pid, h != null)];
    }

    /** Asks for the first module of the process. */
    method EnumProcessModules(h: ProcessHandle) returns (ok: bool)
      requires h in owned.processes
      modifies this
      ensures owned == old(owned)
      ensures log == old(log) + [Call.EnumProcessModules(ok)]
    {
      ok := *;
      log := log + [Call.EnumProcessModules(ok)];
    }

    /** The base file name of the module EnumProcessModules found. The API returns the
        number of characters copied, and 0 means failure, so a name is never empty. */
    method GetModuleBaseName(h: ProcessHandle) returns (name: Option<string>)
      requires h in owned.processes
      modifies this
      ensures owned == old(owned)
      ensures name.Some? ==> |name.value| > 0
      ensures log == old(log) + [Call.GetModuleBaseName(name)]
    {
      name := *;
      if name.Some? && name.value == [] {
        name := None;
      }
      log := log + [Call.GetModuleBaseName(name)];
    }

    method CloseProcess(h: ProcessHandle)
      requires h in owned.processes
      modifies this
      ensures owned == old(owned).(processes := old(owned.processes) - {h})
      ensures log == old(log) + [Call.CloseProcess(h.pid)]
    {
      owned := owned.(processes := owned.processes - {h});
      log := log + [Call.CloseProcess(h.pid)];
    }

    /** Reserves and commits `size` read/write bytes in the target process. */
    method VirtualAllocEx(h: ProcessHandle, size: nat) returns (r: Region?)
      requires h in owned.processes
      modifies this
      ensures r != null ==> fresh(r) && r.size == size && r.data == []
      ensures owned == old(owned).(regions := old(owned.regions) + (if r == null then {} else {r}))
      ensures log == old(log) + [Call.VirtualAllocEx(size, r != null)]
    {
      var ok: bool := *;
      if ok {
        r := new Region(size);
      } else {
        r := null;
      }
      owned := owned.(regions := owned.regions + (if r == null then {} else {r}));
      log := log + [Call.VirtualAllocEx(size, r != null)];
    }

    /** Copies the first `bytes` bytes of `src` into the region. */
    method WriteProcessMemory(h: ProcessHandle, r: Region, src: seq<char>, bytes: nat) returns (ok: bool)
      requires h in owned.processes && r in owned.regions
      requires bytes <= r.size && bytes <= TCHAR_SIZE * |src|
      modifies this, r
      ensures owned == old(owned)
      ensures ok ==> r.data == src[..bytes / TCHAR_SIZE]
      ensures !ok ==> r.data == old(r.data)
      ensures log == old(log) + [Call.WriteProcessMemory(src[..bytes / TCHAR_SIZE], ok)]
    {
      ok := *;
      if ok {
        r.data := src[..bytes / TCHAR_SIZE];
      }
      log := log + [Call.WriteProcessMemory(src[..bytes / TCHAR_SIZE], ok)];
    }

    /** The address of LoadLibrary in kernel32.dll. */
    method GetProcAddress() returns (ok: bool)
      modifies this
      ensures owned == old(owned)
      ensures log == old(log) + [Call.GetProcAddress(ok)]
    {
      ok := *;
      log := log + [Call.GetProcAddress(ok)];
    }

    /** Starts LoadLibrary in the target process with the region as its argument. */
    method CreateRemoteThread(h: ProcessHandle, argument: Region) returns (t: ThreadHandle?)
      requires h in owned.processes && argument in owned.regions
      modifies this
      ensures t != null ==> fresh(t)
      ensures owned == old(owned).(threads := old(owned.threads) + (if t == null then {} else {t}))
      ensures log == old(log) + [Call.CreateRemoteThread(argument.data, t != null)]
    {
      var ok: bool := *;
      if ok {
        t := new ThreadHandle();
      } else {
        t := null;
      }
      owned := owned.(threads := owned.threads + (if t == null then {} else {t}));
      log := log + [Call.CreateRemoteThread(argument.data, t != null)];
    }

    method WaitForSingleObject(t: ThreadHandle, timeout: DWORD) returns (result: WaitResult)
      requires t in owned.threads
      modifies this
      ensures owned == old(owned)
      ensures log == old(log) + [Call.WaitForSingleObject(timeout, result)]
    {
      result := *;
      log := log + [Call.WaitForSingleObject(timeout, result)];
    }

    /** The remote thread's exit code (LoadLibrary's return value, truncated), if it can be read. */
    method GetExitCodeThread(t: ThreadHandle) returns (code: Option<DWORD>)
      requires t in owned.threads
      modifies this
      ensures owned == old(owned)
      ensures log == old(log) + [Call.GetExitCodeThread(code)]
    {
      code := *;
      log := log + [Call.GetExitCodeThread(code)];
    }

    method CloseThread(t: ThreadHandle)
      requires t in owned.threads
      modifies this
      ensures owned == old(owned).(threads := old(owned.threads) - {t})
      ensures log == old(log) + [Call.CloseThread]
    {
      owned := owned.(threads := owned.threads - {t});
      log := log + [Call.CloseThread];
    }

    /** Releases the region; a failed release leaves it committed in the target. */
    method VirtualFreeEx(h: ProcessHandle, r: Region) returns (ok: bool)
      requires h in owned.processes && r in owned.regions
      modifies this
      ensures owned == old(owned).(regions := old(owned.regions) - (if ok then {r} else {}))
      ensures log == old(log) + [Call.VirtualFreeEx(ok)]
    {
      ok := *;
      owned := owned.(regions := owned.regions - (if ok then {r} else {}));
      log := log + [Call.VirtualFreeEx(ok)];
    }
  }
}
