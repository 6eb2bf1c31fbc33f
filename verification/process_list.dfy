/**
  FillProcessesList and FillProcessesListWithAlloc: the process-identifier list,
  first enumerated into the caller's stack buffer and, when that comes back full,
  into a heap buffer whose size doubles on every retry.

  The two methods mirror the C functions. What they did is described by a
  `Trace` (the answers Windows gave), and the specification functions below say,
  for any trace, what count comes back and which Windows calls were made; the
  lemmas prove the retry, doubling, failure and ownership rules from them.
*/
module ProcessList {
  import opened Wrappers
  import opened Win32

  /** The resolver's stack buffer holds this many identifiers. */
  const QUITE_LARGE_NB_PROCESSES: nat := 256

  /** One call of FillProcessesListWithAlloc: the (re)allocation failed, or it
      succeeded and EnumProcesses gave this reply for the new block. */
  datatype Round = AllocFailed | Filled(reply: Reply)

  /** The answers one FillProcessesList run received: the reply for the caller's
      buffer, then one round per call of FillProcessesListWithAlloc. */
  datatype Trace = Trace(first: Reply, rounds: seq<Round>)

  /** The buffer size of the `k`-th attempt: `size` doubled `k` times. */
  function SizeAt(size: nat, k: nat): nat
  {
    if k == 0 then size else 2 * SizeAt(size, k - 1)
  }

  function Pow2(k: nat): (r: nat)
    ensures 1 <= r
  {
    if k == 0 then 1 else 2 * Pow2(k - 1)
  }

  /** EnumProcesses used the whole buffer, so the list may not fit: `bytes == size` retries too. */
  predicate Full(size: nat, reply: Reply)
  {
    reply.Reported? && reply.bytes >= size
  }

  predicate Retries(size: nat, round: Round)
  {
    round.Filled? && Full(size, round.reply)
  }

  /** The round left a heap block that the caller must free. */
  predicate Holds(round: Round)
  {
    round.Filled? && round.reply.Reported?
  }

  /** After `rounds`, the loop holds a heap block. */
  predicate LastHolds(rounds: seq<Round>)
  {
    rounds != [] && Holds(rounds[|rounds| - 1])
  }

  /** The count a round that does not retry writes back. */
  function RoundCount(size: nat, round: Round): nat
  {
    if Holds(round) && round.reply.bytes < size then round.reply.bytes / DWORD_SIZE else 0
  }

  /** The calls of one FillProcessesListWithAlloc at `size`; `realloc` when a block is already held. */
  function RoundCalls(size: nat, realloc: bool, round: Round): seq<Call>
  {
    var alloc := if realloc then HeapReAlloc(size, round.Filled?) else HeapAlloc(size, round.Filled?);
    match round
    case AllocFailed => [alloc] + (if realloc then [HeapFree] else [])
    case Filled(reply) => [alloc, EnumProcesses(size, reply)] + (if reply.EnumFailed? then [HeapFree] else [])
  }

  /** Every round so far asked for a retry; round `k` runs at `SizeAt(bufsize, k + 1)`. */
  ghost predicate Retried(bufsize: nat, rounds: seq<Round>)
  {
    forall k :: 0 <= k < |rounds| ==> Retries(SizeAt(bufsize, k + 1), rounds[k])
  }

  /** The rounds of a do-while loop that finished: all retried except the last. */
  ghost predicate Completes(bufsize: nat, rounds: seq<Round>)
  {
    |rounds| > 0 &&
    Retried(bufsize, rounds[..|rounds| - 1]) &&
    !Retries(SizeAt(bufsize, |rounds|), rounds[|rounds| - 1])
  }

  function LoopCalls(bufsize: nat, rounds: seq<Round>): seq<Call>
  {
    if rounds == [] then []
    else LoopCalls(bufsize, rounds[..|rounds| - 1]) +
         RoundCalls(SizeAt(bufsize, |rounds|), |rounds| > 1, rounds[|rounds| - 1])
  }

  /** The stack attempt came back full: the heap loop ran. */
  predicate Grows(bufsize: nat, t: Trace)
  {
    Full(bufsize, t.first)
  }

  /** The loop ran exactly the rounds of `t`. */
  ghost predicate Ran(bufsize: nat, t: Trace)
  {
    if Grows(bufsize, t) then Completes(bufsize, t.rounds) else t.rounds == []
  }

  /** Every reply fits its buffer, is a whole number of DWORDs and respects the system's bound. */
  predicate FitsReply(size: nat, reply: Reply, maxBytes: nat)
  {
    reply.Reported? ==> reply.bytes <= size && reply.bytes <= maxBytes && reply.bytes % DWORD_SIZE == 0
  }

  ghost predicate Fits(bufsize: nat, t: Trace, maxBytes: nat)
  {
    FitsReply(bufsize, t.first, maxBytes) &&
    forall k :: 0 <= k < |t.rounds| && t.rounds[k].Filled? ==>
      FitsReply(SizeAt(bufsize, k + 1), t.rounds[k].reply, maxBytes)
  }

  /** The count FillProcessesList returns. */
  function ListCount(bufsize: nat, t: Trace): nat
  {
    match t.first
    case EnumFailed => 0
    case Reported(bytes) =>
      if bytes < bufsize then bytes / DWORD_SIZE
      else if t.rounds == [] then 0
      else RoundCount(SizeAt(bufsize, |t.rounds|), t.rounds[|t.rounds| - 1])
  }

  /** Every Windows call FillProcessesList makes, in order. */
  function Calls(bufsize: nat, t: Trace): seq<Call>
  {
    [EnumProcesses(bufsize, t.first)] + (if Grows(bufsize, t) then LoopCalls(bufsize, t.rounds) else [])
  }

  /** On return the caller owns a heap block holding the list. */
  predicate HeapHeld(bufsize: nat, t: Trace)
  {
    Grows(bufsize, t) && t.rounds != [] && Holds(t.rounds[|t.rounds| - 1])
  }

  /** The heap block is held but the count is 0, so the caller never frees it. */
  predicate Leaks(bufsize: nat, t: Trace)
  {
    HeapHeld(bufsize, t) && ListCount(bufsize, t) == 0
  }

  /** The size of the buffer the final reply came from. */
  function FinalSize(bufsize: nat, t: Trace): nat
  {
    SizeAt(bufsize, |t.rounds|)
  }

  /** Heap blocks held after `calls`, starting from `start`; None once a
      block is released (HeapFree or HeapReAlloc) while none is held. */
  function Held(start: nat, calls: seq<Call>): Option<nat>
    decreases |calls|
  {
    if calls == [] then Some(start)
    else match HeldAfter(start, calls[0])
      case None => None
      case Some(n) => Held(n, calls[1..])
  }

  function HeldAfter(n: nat, c: Call): Option<nat>
  {
    match c
    case HeapAlloc(_, ok) => Some(if ok then n + 1 else n)
    case HeapReAlloc(_, _) => if n == 0 then None else Some(n)
    case HeapFree => if n == 0 then None else Some(n - 1)
    case _ => Some(n)
  }

  /** The sizes requested by HeapAlloc and HeapReAlloc, in order. */
  function AllocSizes(calls: seq<Call>): seq<nat>
  {
    if calls == [] then [] else AllocSize(calls[0]) + AllocSizes(calls[1..])
  }

  function AllocSize(c: Call): seq<nat>
  {
    match c
    case HeapAlloc(size, _) => [size]
    case HeapReAlloc(size, _) => [size]
    case _ => []
  }

  // ---------------------------------------------------------------- lemmas

  lemma {:induction false} HeldAppend(start: nat, a: seq<Call>, b: seq<Call>)
    ensures Held(start, a + b) == match Held(start, a) case None => None case Some(n) => Held(n, b)
    decreases |a|
  {
    if a == [] {
      assert a + b == b;
    } else {
      assert (a + b)[1..] == a[1..] + b;
      match HeldAfter(start, a[0])
      case None =>
      case Some(n) => HeldAppend(n, a[1..], b);
    }
  }

  lemma {:induction false} AllocSizesAppend(a: seq<Call>, b: seq<Call>)
    ensures AllocSizes(a + b) == AllocSizes(a) + AllocSizes(b)
  {
    if a == [] {
      assert a + b == b;
    } else {
      var ab := a + b;
      assert ab[0] == a[0] && ab[1..] == a[1..] + b;
      AllocSizesAppend(a[1..], b);
      var head := AllocSize(a[0]);
      AppendAssoc(head, AllocSizes(a[1..]), AllocSizes(b));
    }
  }

  /** One round's effect on ownership: a first round gains a block iff it
      enumerated; a realloc round keeps its block iff it enumerated. */
  lemma RoundHeld(n: nat, size: nat, realloc: bool, round: Round)
    requires realloc ==> n > 0
    ensures Held(n, RoundCalls(size, realloc, round)) ==
      Some(if realloc then (if Holds(round) then n else n - 1) else (if Holds(round) then n + 1 else n))
  {
    var calls := RoundCalls(size, realloc, round);
    var m := if realloc then n else n + 1;  // blocks held once the (re)allocation succeeded
    match round
    case AllocFailed =>
      if realloc {
        assert calls[1..] == [HeapFree] && calls[1..][1..] == [];
        assert Held(n, calls[1..]) == Some(n - 1);
      } else {
        assert calls[1..] == [];
      }
    case Filled(reply) =>
      assert calls[1..][0] == EnumProcesses(size, reply);
      if reply.EnumFailed? {
        assert calls[1..][1..] == [HeapFree] && calls[1..][1..][1..] == [];
        assert Held(m, calls[1..][1..]) == Some(m - 1);
        assert Held(m, calls[1..]) == Some(m - 1);
      } else {
        assert calls[1..][1..] == [];
        assert Held(m, calls[1..]) == Some(m);
      }
  }

  /** One round makes exactly one (re)allocation request, for its size. */
  lemma RoundSizes(size: nat, realloc: bool, round: Round)
    ensures AllocSizes(RoundCalls(size, realloc, round)) == [size]
  {
    var calls := RoundCalls(size, realloc, round);
    assert AllocSizes(calls) == [size] + AllocSizes(calls[1..]);
    match round
    case AllocFailed =>
      if realloc {
        assert calls[1..] == [HeapFree] && calls[1..][1..] == [];
      } else {
        assert calls[1..] == [];
      }
    case Filled(reply) =>
      assert calls[1..][0] == EnumProcesses(size, reply);
      if reply.EnumFailed? {
        assert calls[1..][1..] == [HeapFree] && calls[1..][1..][1..] == [];
        assert AllocSizes(calls[1..][1..]) == [];
      } else {
        assert calls[1..][1..] == [];
      }
      assert AllocSizes(calls[1..]) == [];
  }

  /** Because EnumProcesses never reports more than the buffer, a retry means
      the buffer was filled exactly. */
  lemma RetryMeansExactFill(size: nat, reply: Reply, maxBytes: nat)
    requires FitsReply(size, reply, maxBytes) && Full(size, reply)
    ensures reply.bytes == size
  {
  }

  /** A non-empty list is on the heap exactly when the stack buffer was outgrown. */
  lemma CountedListIsHeld(bufsize: nat, t: Trace)
    requires Ran(bufsize, t) && ListCount(bufsize, t) > 0
    ensures HeapHeld(bufsize, t) == Grows(bufsize, t) && !Leaks(bufsize, t)
  {
  }

  /** Stack first: a successful stack attempt that is not full gives
      bytes / sizeof(DWORD), with no heap call and the stack buffer kept. */
  lemma StackFirst(bufsize: nat, t: Trace)
    requires Ran(bufsize, t) && t.first.Reported? && t.first.bytes < bufsize
    ensures ListCount(bufsize, t) == t.first.bytes / DWORD_SIZE
    ensures Calls(bufsize, t) == [EnumProcesses(bufsize, t.first)]
    ensures !Grows(bufsize, t) && !HeapHeld(bufsize, t)
  {
  }

  /** While every round retries, exactly one heap block is held and no release
      was made without a block; a realloc always has its block. */
  lemma {:induction false} RetryingLoopHoldsOne(bufsize: nat, rounds: seq<Round>)
    requires |rounds| > 0 && Retried(bufsize, rounds)
    ensures Held(0, LoopCalls(bufsize, rounds)) == Some(1)
    decreases |rounds|
  {
    var prefix, last := rounds[..|rounds| - 1], rounds[|rounds| - 1];
    assert Retries(SizeAt(bufsize, |rounds|), last);
    var size := SizeAt(bufsize, |rounds|);
    HeldAppend(0, LoopCalls(bufsize, prefix), RoundCalls(size, |rounds| > 1, last));
    if |rounds| > 1 {
      RoundHeld(1, size, true, last);
      assert Retried(bufsize, prefix) by {
        forall k | 0 <= k < |prefix| ensures Retries(SizeAt(bufsize, k + 1), prefix[k]) {
          assert prefix[k] == rounds[k];
        }
      }
      RetryingLoopHoldsOne(bufsize, prefix);
    } else {
      RoundHeld(0, size, false, last);
    }
  }

  /** Ownership along the whole loop: a completed loop holds one block iff its
      last round enumerated, none otherwise, and never releases what it does not hold. */
  lemma LoopOwnership(bufsize: nat, rounds: seq<Round>)
    requires Completes(bufsize, rounds)
    ensures Held(0, LoopCalls(bufsize, rounds)) == Some(if Holds(rounds[|rounds| - 1]) then 1 else 0)
  {
    var prefix, last := rounds[..|rounds| - 1], rounds[|rounds| - 1];
    var size := SizeAt(bufsize, |rounds|);
    HeldAppend(0, LoopCalls(bufsize, prefix), RoundCalls(size, |rounds| > 1, last));
    if |rounds| > 1 {
      RetryingLoopHoldsOne(bufsize, prefix);
      RoundHeld(1, size, true, last);
    } else {
      RoundHeld(0, size, false, last);
    }
  }

  /** Ownership of FillProcessesList: afterwards the caller holds one heap block
      exactly when the heap path ended in a successful enumeration. */
  lemma Ownership(bufsize: nat, t: Trace)
    requires Ran(bufsize, t)
    ensures Held(0, Calls(bufsize, t)) == Some(if HeapHeld(bufsize, t) then 1 else 0)
  {
    HeldAppend(0, [EnumProcesses(bufsize, t.first)], if Grows(bufsize, t) then LoopCalls(bufsize, t.rounds) else []);
    if Grows(bufsize, t) {
      LoopOwnership(bufsize, t.rounds);
    }
  }

  /** Failure contract: a failed stack attempt, a failed (re)allocation or a
      failed heap enumeration yields 0 and leaves no heap block; a failed
      HeapReAlloc or a failed EnumProcesses on the heap is followed by HeapFree. */
  lemma FailureContract(bufsize: nat, t: Trace)
    requires Ran(bufsize, t)
    requires t.first.EnumFailed? || (Grows(bufsize, t) && !Holds(t.rounds[|t.rounds| - 1]))
    ensures ListCount(bufsize, t) == 0
    ensures Held(0, Calls(bufsize, t)) == Some(0)
    ensures t.first.EnumFailed? ==> Calls(bufsize, t) == [EnumProcesses(bufsize, EnumFailed)]
    ensures Grows(bufsize, t) && (|t.rounds| > 1 || t.rounds[|t.rounds| - 1].Filled?) ==>
      Calls(bufsize, t)[|Calls(bufsize, t)| - 1] == HeapFree
  {
    Ownership(bufsize, t);
  }

  /** Doubling: the k-th heap request asks for the stack size doubled k + 1 times,
      so every request is twice the previous one. */
  lemma {:induction false} LoopDoubles(bufsize: nat, rounds: seq<Round>)
    ensures |AllocSizes(LoopCalls(bufsize, rounds))| == |rounds|
    ensures forall k :: 0 <= k < |rounds| ==> AllocSizes(LoopCalls(bufsize, rounds))[k] == SizeAt(bufsize, k + 1)
    decreases |rounds|
  {
    if rounds != [] {
      var prefix := rounds[..|rounds| - 1];
      var size := SizeAt(bufsize, |rounds|);
      var last := RoundCalls(size, |rounds| > 1, rounds[|rounds| - 1]);
      assert LoopCalls(bufsize, rounds) == LoopCalls(bufsize, prefix) + last;
      AllocSizesAppend(LoopCalls(bufsize, prefix), last);
      LoopDoubles(bufsize, prefix);
      RoundSizes(size, |rounds| > 1, rounds[|rounds| - 1]);
      var before := AllocSizes(LoopCalls(bufsize, prefix));
      assert AllocSizes(LoopCalls(bufsize, rounds)) == before + [size];
      forall k | 0 <= k < |rounds|
        ensures (before + [size])[k] == SizeAt(bufsize, k + 1)
      {
        if k < |prefix| {
          assert (before + [size])[k] == before[k];
        }
      }
    }
  }

  lemma Doubling(bufsize: nat, t: Trace)
    requires Ran(bufsize, t) && Grows(bufsize, t)
    ensures |AllocSizes(Calls(bufsize, t))| == |t.rounds|
    ensures forall k :: 0 <= k < |t.rounds| ==> AllocSizes(Calls(bufsize, t))[k] == SizeAt(bufsize, k + 1)
    ensures forall k :: 0 < k < |t.rounds| ==> AllocSizes(Calls(bufsize, t))[k] == 2 * AllocSizes(Calls(bufsize, t))[k - 1]
  {
    AllocSizesAppend([EnumProcesses(bufsize, t.first)], LoopCalls(bufsize, t.rounds));
    LoopDoubles(bufsize, t.rounds);
  }

  /** A finished run with a non-zero count got a reply strictly smaller than its
      buffer, and the count is that reply divided by sizeof(DWORD). */
  lemma SuccessBelowSize(bufsize: nat, t: Trace)
    requires Ran(bufsize, t) && ListCount(bufsize, t) > 0
    ensures var reply := if Grows(bufsize, t) then t.rounds[|t.rounds| - 1].reply else t.first;
      reply.Reported? && reply.bytes < FinalSize(bufsize, t) &&
      ListCount(bufsize, t) == reply.bytes / DWORD_SIZE
  {
  }

  /** The true list: when Windows has `total` bytes of identifiers and every reply is the
      part of them that fits the buffer, the run ends with a buffer larger than the list
      and returns the whole list. */
  lemma TrueCount(bufsize: nat, t: Trace, total: nat)
    requires 0 < bufsize && total % DWORD_SIZE == 0 && Ran(bufsize, t)
    requires t.first == Reported(Min(bufsize, total))
    requires forall k :: 0 <= k < |t.rounds| ==> t.rounds[k] == Filled(Reported(Min(SizeAt(bufsize, k + 1), total)))
    ensures ListCount(bufsize, t) == total / DWORD_SIZE
    ensures total < FinalSize(bufsize, t)
  {
    if Grows(bufsize, t) {
      var m := |t.rounds|;
      assert t.rounds[m - 1] == Filled(Reported(Min(SizeAt(bufsize, m), total)));
    }
  }

  lemma {:induction false} SizeAtIsProduct(size: nat, k: nat)
    ensures SizeAt(size, k) == size * Pow2(k)
  {
    if k > 0 {
      SizeAtIsProduct(size, k - 1);
    }
  }

  /** Termination: every retried size was at most the system's bound, so the
      number of rounds is logarithmic in maxBytes / bufsize. */
  lemma RetryBound(bufsize: nat, t: Trace, maxBytes: nat)
    requires Ran(bufsize, t) && Fits(bufsize, t, maxBytes) && Grows(bufsize, t)
    ensures bufsize * Pow2(|t.rounds| - 1) <= maxBytes
  {
    var m := |t.rounds|;
    SizeAtIsProduct(bufsize, m - 1);
    if m > 1 {
      assert Retries(SizeAt(bufsize, m - 1), t.rounds[m - 2]) by {
        assert t.rounds[..m - 1][m - 2] == t.rounds[m - 2];
      }
    }
  }

  /** The leak the source leaves: the heap block is kept with a zero count
      exactly when the last heap enumeration reported 0 bytes. */
  lemma LeakIff(bufsize: nat, t: Trace, maxBytes: nat)
    requires Ran(bufsize, t) && Fits(bufsize, t, maxBytes)
    ensures Leaks(bufsize, t) <==> HeapHeld(bufsize, t) && t.rounds[|t.rounds| - 1].reply.bytes == 0
  {
    if HeapHeld(bufsize, t) {
      var k := |t.rounds| - 1;
      assert FitsReply(SizeAt(bufsize, k + 1), t.rounds[k].reply, maxBytes);
    }
  }

  /** One more round of the loop: what the loop invariant of FillProcessesList needs. */
  lemma Extend(bufsize: nat, t: Trace, round: Round, maxBytes: nat)
    requires Retried(bufsize, t.rounds) && Fits(bufsize, t, maxBytes)
    requires round.Filled? ==> FitsReply(SizeAt(bufsize, |t.rounds| + 1), round.reply, maxBytes)
    ensures var rounds := t.rounds + [round];
      Fits(bufsize, Trace(t.first, rounds), maxBytes) &&
      LoopCalls(bufsize, rounds) == LoopCalls(bufsize, t.rounds) + RoundCalls(SizeAt(bufsize, |rounds|), |rounds| > 1, round) &&
      (Retries(SizeAt(bufsize, |rounds|), round) ==> Retried(bufsize, rounds)) &&
      (!Retries(SizeAt(bufsize, |rounds|), round) ==> Completes(bufsize, rounds))
  {
    var rounds := t.rounds + [round];
    assert rounds[..|rounds| - 1] == t.rounds;
    forall k | 0 <= k < |t.rounds| ensures rounds[k] == t.rounds[k] {
    }
  }

  /** What a finished heap loop means for the whole run. */
  lemma Finish(bufsize: nat, t: Trace)
    requires Grows(bufsize, t) && Completes(bufsize, t.rounds)
    ensures Ran(bufsize, t)
    ensures ListCount(bufsize, t) == RoundCount(FinalSize(bufsize, t), t.rounds[|t.rounds| - 1])
    ensures Calls(bufsize, t) == [EnumProcesses(bufsize, t.first)] + LoopCalls(bufsize, t.rounds)
    ensures HeapHeld(bufsize, t) == Holds(t.rounds[|t.rounds| - 1])
  {
  }

  // ---------------------------------------------------------------- methods

  /** FillProcessesListWithAlloc: one heap round at `size`. `p` is *pprocesses
      (null before the first round), `nb` is *pnbProcesses. */
  method FillProcessesListWithAlloc(os: Os, p: array?<DWORD>, size: DWORD, nb: DWORD)
    returns (p': array?<DWORD>, nb': DWORD, retry: bool, ghost round: Round)
    requires p != null ==> p in os.owned.heap
    modifies os
    ensures retry == Retries(size, round)
    ensures nb' == if retry then nb else RoundCount(size, round)
    ensures round.Filled? ==> FitsReply(size, round.reply, os.maxBytes)
    ensures os.log == old(os.log) + RoundCalls(size, p != null, round)
    ensures Holds(round) ==>
      p' != null && fresh(p') && p'.Length == size / DWORD_SIZE &&
      os.owned == old(os.owned).(heap := old(os.owned.heap) - Block(p) + {p'})
    ensures !Holds(round) ==> p' == p && os.owned == old(os.owned).(heap := old(os.owned.heap) - Block(p))
  {
    var processes: array?<DWORD>;
    var result: DWORD := 0;
    var realloc := false;
    retry := false;
    if p == null {
      processes := os.HeapAlloc(size);
    } else {
      processes := os.HeapReAlloc(p, size);
      realloc := true;
    }
    if processes != null {
      var ok, bytes := os.EnumProcesses(processes, size);
      if ok {
        round := Filled(Reported(bytes));
        if bytes < size {
          result := bytes / DWORD_SIZE;
        } else {
          retry := true;
        }
        p' := processes;
      } else {
        round := Filled(EnumFailed);
        os.HeapFree(processes);
        p' := p;
      }
    } else {
      round := AllocFailed;
      if realloc {
        os.HeapFree(p);
      }
      p' := p;
    }
    if !retry {
      nb' := result;
    } else {
      nb' := nb;
    }
  }

  /** The do-while loop of FillProcessesList: the stack attempt (`bufsize` bytes)
      came back full with `bytes`; double the size and retry on the heap until a
      round does not ask for a retry. Returns *pprocesses, the count and the rounds. */
  method GrowOnHeap(os: Os, bufsize: DWORD, ghost bytes: nat)
    returns (p: array?<DWORD>, nb: DWORD, ghost rounds: seq<Round>)
    requires 0 < bufsize <= bytes && FitsReply(bufsize, Reported(bytes), os.maxBytes)
    modifies os
    ensures Completes(bufsize, rounds)
    ensures Fits(bufsize, Trace(Reported(bytes), rounds), os.maxBytes)
    ensures nb == RoundCount(SizeAt(bufsize, |rounds|), rounds[|rounds| - 1])
    ensures os.log == old(os.log) + LoopCalls(bufsize, rounds)
    ensures p == null || fresh(p)
    ensures Holds(rounds[|rounds| - 1]) ==>
      p != null && p.Length == SizeAt(bufsize, |rounds|) / DWORD_SIZE &&
      os.owned == old(os.owned).(heap := old(os.owned.heap) + {p})
    ensures !Holds(rounds[|rounds| - 1]) ==> os.owned == old(os.owned)
  {
    var size := bufsize;
    nb := 0;
    rounds := [];
    p := null;
    var retry := true;
    while retry
      invariant size == SizeAt(bufsize, |rounds|)
      invariant retry ==> size <= os.maxBytes && Retried(bufsize, rounds)
      invariant !retry ==> Completes(bufsize, rounds)
      invariant Fits(bufsize, Trace(Reported(bytes), rounds), os.maxBytes)
      invariant nb == if retry then 0 else RoundCount(size, rounds[|rounds| - 1])
      invariant os.log == old(os.log) + LoopCalls(bufsize, rounds)
      invariant p == null || fresh(p)
      invariant rounds == [] ==> p == null
      invariant retry ==> rounds == [] || Holds(rounds[|rounds| - 1])
      invariant LastHolds(rounds) ==> p != null && p.Length == size / DWORD_SIZE
      invariant os.owned == old(os.owned).(heap := old(os.owned.heap) + (if LastHolds(rounds) then {p} else {}))
      decreases if retry then os.maxBytes + 1 - size else 0
    {
      size := size * 2;
      ghost var round: Round;
      ghost var rounds0 := rounds;
      p, nb, retry, round := FillProcessesListWithAlloc(os, p, size, nb);
      rounds := rounds + [round];
      Extend(bufsize, Trace(Reported(bytes), rounds0), round, os.maxBytes);
      AppendAssoc(old(os.log), LoopCalls(bufsize, rounds0), RoundCalls(size, |rounds| > 1, round));
    }
  }

  /** FillProcessesList: enumerate into the caller's buffer `stack` of `bufsize`
      bytes, then grow on the heap. Returns *pprocesses and the count. */
  method FillProcessesList(os: Os, stack: array<DWORD>, bufsize: DWORD)
    returns (p: array?<DWORD>, nb: DWORD, ghost t: Trace)
    requires 0 < bufsize && bufsize / DWORD_SIZE <= stack.Length
    requires stack !in os.owned.heap
    modifies os, stack
    ensures Ran(bufsize, t) && Fits(bufsize, t, os.maxBytes)
    ensures nb == ListCount(bufsize, t)
    ensures os.log == old(os.log) + Calls(bufsize, t)
    ensures (p == stack) == !Grows(bufsize, t)
    ensures HeapHeld(bufsize, t) ==>
      p != null && fresh(p) && p.Length == FinalSize(bufsize, t) / DWORD_SIZE &&
      os.owned == old(os.owned).(heap := old(os.owned.heap) + {p})
    ensures !HeapHeld(bufsize, t) ==> os.owned == old(os.owned)
    ensures nb > 0 ==> p != null && nb <= p.Length
  {
    nb := 0;
    var size := bufsize;
    var ok, bytes := os.EnumProcesses(stack, size);
    p := stack;
    if !ok {
      t := Trace(EnumFailed, []);
      return;
    }
    if bytes < size {
      nb := bytes / DWORD_SIZE;
      t := Trace(Reported(bytes), []);
      return;
    }
    ghost var rounds;
    p, nb, rounds := GrowOnHeap(os, bufsize, bytes);
    t := Trace(Reported(bytes), rounds);
    Finish(bufsize, t);
    AppendAssoc(old(os.log), [EnumProcesses(bufsize, t.first)], LoopCalls(bufsize, rounds));
  }
}
