/** `BasePypsiThread` of pypsi/os/base.py: a worker that installs its private
    streams into the process-wide stdin/stdout/stderr proxies for its own
    thread id (`setup_io`) and removes and closes them again (`cleanup`). */
module OsBase {
  import opened Errors
  import opened Streams
  import opened ThreadLocal

  type Proxy = ThreadLocalProxy<IoObject>

  /** What `sys.stdin`, `sys.stdout` or `sys.stderr` holds: a proxy, or a plain object. */
  datatype Slot = Proxied(proxy: Proxy) | Direct(obj: IoObject)

  /** 0 is stdin, 1 is stdout, 2 is stderr. */
  type SlotIndex = k: int | 0 <= k < 3

  /** The descriptor of the real OS stream of a slot, which cleanup never closes. */
  function ReservedFd(k: SlotIndex): int { k }

  /** stdin is closed with `close_input_pipe`, stdout and stderr with `close_output_pipe`. */
  function SideOf(k: SlotIndex): Side { if k == 0 then InputSide else OutputSide }

  datatype StdSlots = StdSlots(stdin: Slot, stdout: Slot, stderr: Slot) {

    function At(k: SlotIndex): Slot
    {
      if k == 0 then stdin else if k == 1 then stdout else stderr
    }

    function ProxyAt(k: SlotIndex): set<Proxy>
    {
      if At(k).Proxied? then {At(k).proxy} else {}
    }

    function Proxies(): set<Proxy>
    {
      ProxyAt(0) + ProxyAt(1) + ProxyAt(2)
    }

    /** No proxy object sits in two slots, as when each standard stream gets its own proxy. */
    predicate Distinct()
    {
      ProxyAt(0) !! ProxyAt(1) && ProxyAt(0) !! ProxyAt(2) && ProxyAt(1) !! ProxyAt(2)
    }
  }

  /** `sys.stdin.fileno()` on a proxy whose table is `table`: KeyError when the
      caller has no binding, AttributeError when the binding has no `fileno`. */
  function FilenoCheck(table: map<ThreadId, IoObject>, caller: ThreadId): (r: Outcome)
    ensures r == Pass <==> caller in table && table[caller].Plain?
    ensures caller !in table ==> r == Fail(KeyError)
    ensures caller in table && !table[caller].Plain? ==> r == Fail(AttributeError)
  {
    match Lookup(table, caller)
    case Err(e) => Fail(e)
    case Ok(b) => match Fileno(b) case Err(e) => Fail(e) case Ok(_) => Pass
  }

  /** The streams one cleanup block closes for slot `k` of a proxy with `table`:
      the end of the CURRENT binding that the slot's helper closes, unless the
      binding reports the slot's reserved descriptor. */
  function ClosesFrom(table: map<ThreadId, IoObject>, caller: ThreadId, k: SlotIndex): set<Stream>
  {
    if caller in table && table[caller].Plain? && table[caller].stream.fileno != ReservedFd(k)
    then ClosedBy(table[caller], SideOf(k))
    else {}
  }

  /** Outcome of the cleanup block of slot `k` in the current state. */
  function StepOutcome(sys: StdSlots, k: SlotIndex, caller: ThreadId): Outcome
    reads sys.ProxyAt(k)
  {
    match sys.At(k)
    case Direct(_) => Pass
    case Proxied(p) => FilenoCheck(p.proxies, caller)
  }

  /** Streams the cleanup block of slot `k` closes in the current state. */
  function StepCloses(sys: StdSlots, k: SlotIndex, caller: ThreadId): set<Stream>
    reads sys.ProxyAt(k)
  {
    match sys.At(k)
    case Direct(_) => {}
    case Proxied(p) => ClosesFrom(p.proxies, caller, k)
  }

  /** Whether the cleanup blocks before slot `k` all completed. */
  function Reached(sys: StdSlots, k: SlotIndex, caller: ThreadId): bool
    reads sys.Proxies()
  {
    (k >= 1 ==> StepOutcome(sys, 0, caller).Pass?) && (k >= 2 ==> StepOutcome(sys, 1, caller).Pass?)
  }

  /** Whether the cleanup block of slot `k` runs to its end. */
  function Completes(sys: StdSlots, k: SlotIndex, caller: ThreadId): bool
    reads sys.Proxies()
  {
    Reached(sys, k, caller) && StepOutcome(sys, k, caller).Pass?
  }

  /** The exception cleanup raises: the first failing block's, if any. */
  function CleanupOutcome(sys: StdSlots, caller: ThreadId): Outcome
    reads sys.Proxies()
  {
    if StepOutcome(sys, 0, caller).Fail? then StepOutcome(sys, 0, caller)
    else if StepOutcome(sys, 1, caller).Fail? then StepOutcome(sys, 1, caller)
    else StepOutcome(sys, 2, caller)
  }

  /** The streams cleanup closes: those of every block it reaches. */
  function CleanupCloses(sys: StdSlots, caller: ThreadId): set<Stream>
    reads sys.Proxies()
  {
    StepCloses(sys, 0, caller)
      + (if Reached(sys, 1, caller) then StepCloses(sys, 1, caller) else {})
      + (if Reached(sys, 2, caller) then StepCloses(sys, 2, caller) else {})
  }

  /** One of the three blocks of `cleanup` (lines 24-27 for stdin, 28-31 for
      stdout, 32-35 for stderr): read the binding's `fileno`, close the binding
      with the slot's helper unless it is the reserved descriptor, then remove
      the caller's binding. An exception leaves the table as it was. */
  method CleanupSlot(sys: StdSlots, k: SlotIndex, caller: ThreadId) returns (r: Outcome)
    modifies sys.ProxyAt(k), StepCloses(sys, k, caller)
    ensures r == old(StepOutcome(sys, k, caller))
    ensures sys.At(k).Proxied? ==>
      sys.At(k).proxy.proxies == if r.Pass? then old(sys.At(k).proxy.proxies) - {caller} else old(sys.At(k).proxy.proxies)
    ensures forall s :: s in old(StepCloses(sys, k, caller)) ==> !s.isOpen
  {
    match sys.At(k)
    case Direct(_) =>
      r := Pass;
    case Proxied(p) =>
      var fd := p.GetAttr(Fileno, caller);
      if fd.Err? {
        return Fail(fd.error);
      }
      if fd.value != ReservedFd(k) {
        var bound := p.Get(None, caller);
        if k == 0 {
          CloseInputPipe(bound.value);
        } else {
          CloseOutputPipe(bound.value);
        }
      }
      r := p.RemoveProxy(None, caller);
  }

  /** What one cleanup block does with the caller's binding: a plain stream on
      the slot's reserved descriptor is unbound but stays open, any other plain
      stream is closed whole, and a Pipe or `None` binding raises AttributeError
      at the `fileno` read, so nothing is closed and the binding stays. */
  lemma CleanupBlockCases(table: map<ThreadId, IoObject>, caller: ThreadId, k: SlotIndex)
    requires caller in table
    ensures table[caller].Plain? && table[caller].stream.fileno == ReservedFd(k) ==>
      FilenoCheck(table, caller) == Pass && ClosesFrom(table, caller, k) == {}
    ensures table[caller].Plain? && table[caller].stream.fileno != ReservedFd(k) ==>
      FilenoCheck(table, caller) == Pass && ClosesFrom(table, caller, k) == {table[caller].stream}
    ensures !table[caller].Plain? ==>
      FilenoCheck(table, caller) == Fail(AttributeError) && ClosesFrom(table, caller, k) == {}
  {
  }

  /** Each block spares only its own slot's descriptor: a stdout binding on
      descriptor 2 (the real stderr), or a stdin binding on 1 or 2, is closed. */
  lemma OtherSlotDescriptorClosed(s: Stream, caller: ThreadId, k: SlotIndex)
    requires s.fileno in {0, 1, 2} && s.fileno != ReservedFd(k)
    ensures ClosesFrom(map[caller := Plain(s)], caller, k) == {s}
  {
  }

  /** A cleanup block never closes anything when it raises. */
  lemma FailingBlockClosesNothing(table: map<ThreadId, IoObject>, caller: ThreadId, k: SlotIndex)
    requires FilenoCheck(table, caller).Fail?
    ensures ClosesFrom(table, caller, k) == {}
  {
  }

  class BasePypsiThread {
    /** The worker's private streams; `Nothing` where none was supplied. */
    const stdin: IoObject
    const stdout: IoObject
    const stderr: IoObject

    /** `BasePypsiThread(stdin, stdout, stderr)`. */
    constructor (stdin: IoObject, stdout: IoObject, stderr: IoObject)
      ensures this.stdin == stdin && this.stdout == stdout && this.stderr == stderr
    {
      this.stdin, this.stdout, this.stderr := stdin, stdout, stderr;
    }

    function Private(k: SlotIndex): IoObject
    {
      if k == 0 then stdin else if k == 1 then stdout else stderr
    }

    /** The table of proxy `q` after the setup block of slot `k`. */
    function Install(sys: StdSlots, q: Proxy, table: map<ThreadId, IoObject>, caller: ThreadId, k: SlotIndex): map<ThreadId, IoObject>
    {
      if Private(k).Truthy() && sys.At(k) == Proxied(q) then table[caller := Private(k)] else table
    }

    /** The table of proxy `q` after all three setup blocks, in order. */
    function Installed(sys: StdSlots, q: Proxy, table: map<ThreadId, IoObject>, caller: ThreadId): map<ThreadId, IoObject>
    {
      Install(sys, q, Install(sys, q, Install(sys, q, table, caller, 0), caller, 1), caller, 2)
    }

    /** `setup_io`: for each slot, bind the private stream for the calling
        thread when there is one and the slot holds a proxy. */
    method SetupIo(sys: StdSlots, caller: ThreadId)
      modifies sys.Proxies()
      ensures forall q :: q in sys.Proxies() ==> q.proxies == Installed(sys, q, old(q.proxies), caller)
    {
      if stdin.Truthy() && sys.stdin.Proxied? {
        sys.stdin.proxy.AddProxy(stdin, None, caller);
      }
      if stdout.Truthy() && sys.stdout.Proxied? {
        sys.stdout.proxy.AddProxy(stdout, None, caller);
      }
      if stderr.Truthy() && sys.stderr.Proxied? {
        sys.stderr.proxy.AddProxy(stderr, None, caller);
      }
    }

    /** With distinct proxies, setup of slot `k` binds the caller to the
        private stream exactly when there is one, and otherwise leaves the table. */
    lemma SetupBindsOwnSlot(sys: StdSlots, table: map<ThreadId, IoObject>, caller: ThreadId, k: SlotIndex)
      requires sys.Distinct() && sys.At(k).Proxied?
      ensures Installed(sys, sys.At(k).proxy, table, caller) ==
        if Private(k).Truthy() then table[caller := Private(k)] else table
    {
    }

    /** Setup never touches another thread's binding, nor a proxy outside the slots. */
    lemma SetupIsolation(sys: StdSlots, q: Proxy, table: map<ThreadId, IoObject>, caller: ThreadId, t: ThreadId)
      ensures t != caller ==> Lookup(Installed(sys, q, table, caller), t) == Lookup(table, t)
      ensures q !in sys.Proxies() ==> Installed(sys, q, table, caller) == table
    {
    }

    /** For a thread that starts unbound, the cleanup block of a proxied slot
        after setup completes only when the worker supplied a plain stream for
        it; with `None` it raises KeyError, with a Pipe AttributeError. */
    lemma SetupThenCleanupBlock(sys: StdSlots, table: map<ThreadId, IoObject>, caller: ThreadId, k: SlotIndex)
      requires sys.Distinct() && sys.At(k).Proxied? && caller !in table
      ensures FilenoCheck(Installed(sys, sys.At(k).proxy, table, caller), caller) ==
        match Private(k)
        case Plain(_) => Pass
        case PipeObj(_) => Fail(AttributeError)
        case Nothing => Fail(KeyError)
    {
    }

    /** `setup_io` as written: each check `isinstance(sys.stdin, utils,ThreadLocalProxy)`
        evaluates the name `ThreadLocalProxy`, which base.py never imports, so
        the first block whose private stream is truthy raises NameError before
        anything is bound. */
    function SetupIoAsWritten(): (r: Outcome)
      ensures r == Pass <==> !stdin.Truthy() && !stdout.Truthy() && !stderr.Truthy()
      ensures r.Fail? ==> r.error == NameError
    {
      if stdin.Truthy() || stdout.Truthy() || stderr.Truthy() then Fail(NameError) else Pass
    }

    /** `cleanup` as written: its first check is not guarded, so it raises
        NameError for every worker, before closing or unbinding anything. */
    function CleanupAsWritten(sys: StdSlots, caller: ThreadId): (r: Outcome)
      ensures r.Fail? && r.error == NameError
    {
      Fail(NameError)
    }

    /** Where the intended check binds the private stdin, the code as written
        raises instead; and cleanup as written can never remove that binding. */
    lemma TypoBlocksSetup(sys: StdSlots, table: map<ThreadId, IoObject>, caller: ThreadId)
      requires stdin.Truthy() && sys.stdin.Proxied? && sys.Distinct()
      ensures SetupIoAsWritten() == Fail(NameError)
      ensures Lookup(Installed(sys, sys.stdin.proxy, table, caller), caller) == Ok(stdin)
      ensures CleanupAsWritten(sys, caller) != Pass
    {
    }

    /** `cleanup`. Always: on success the caller is unbound in every proxy slot,
        and no other thread's binding changes. With distinct proxies: the
        exception raised is that of the first failing block, each block that
        runs to its end removes the caller, and every stream those blocks close
        (decided from the binding before its removal) is closed. */
    method Cleanup(sys: StdSlots, caller: ThreadId) returns (r: Outcome)
      modifies sys.Proxies(), CleanupCloses(sys, caller)
      ensures r.Pass? ==> forall k: SlotIndex :: sys.At(k).Proxied? ==> caller !in sys.At(k).proxy.proxies
      ensures forall q :: q in sys.Proxies() ==> q.proxies == old(q.proxies) || q.proxies == old(q.proxies) - {caller}
      ensures sys.Distinct() ==> r == old(CleanupOutcome(sys, caller))
      ensures sys.Distinct() ==> forall k: SlotIndex :: sys.At(k).Proxied? ==>
        sys.At(k).proxy.proxies ==
          if old(Completes(sys, k, caller)) then old(sys.At(k).proxy.proxies) - {caller} else old(sys.At(k).proxy.proxies)
      ensures sys.Distinct() ==> forall s :: s in old(CleanupCloses(sys, caller)) ==> !s.isOpen
    {
      r := CleanupSlot(sys, 0, caller);
      if r.Fail? {
        return;
      }
      r := CleanupSlot(sys, 1, caller);
      if r.Fail? {
        return;
      }
      r := CleanupSlot(sys, 2, caller);
    }
  }
}
