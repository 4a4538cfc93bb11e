/** The run loop of one vcpu interleaved with interrupt-line changes: `kvm_run_wrapper`,
    `kvm_irq_line`, `handle_external_interrupt` and the CR0 part of `handle_cr`.

    One thread runs the loop (the ioctl lock serializes `KVM_RUN`) while another changes lines
    (the irq lock serializes `KVM_IRQ_LINE`). The two hold different locks, so every update of
    `pending_irq` is a read and a write with anything in between. The guest is any step that
    returns an exit reason, a qualification and registers. */
module RunLoop {
  import opened Wrappers
  import Radix

  const IRQ_MAX: nat := 16
  const MAX_TURNS: nat := 1000

  const EXTERNAL_INTERRUPT: nat := 1
  const PENDING_INTERRUPT: nat := 7
  const CR_ACCESS: nat := 28
  const IO_INSTRUCTION: nat := 30

  /** An interrupt on its way into the guest; `cr0` is the last CR0 value the kext had seen. */
  datatype Intr = Intr(line: nat, vector: nat, cr0: Option<nat>)

  /** How the guest came back. `entered` is false when the VM entry itself failed. */
  datatype Exit = Exit(entered: bool, reason: nat, qualification: nat, error: nat, signal: bool, value: nat)

  /** Where the running thread is: outside `KVM_RUN`, at the head of the loop, testing bit `i`,
      clearing bit `i` (about to read `pending_irq`, then about to write it), about to load the
      VMCS, about to choose the interrupt-window control, about to enter, about to handle an
      exit, or about to write back a timer tick. `read` is the value of `pending_irq` read. */
  datatype Pc =
    | Idle | Top | Scan(i: nat) | Clear(i: nat) | Cleared(i: nat, read: set<nat>) | Load(info: Option<Intr>)
    | Sample | Enter | Handle(exit: Exit) | Tick(exit: Exit, read: set<nat>)

  /** Where the thread that changes lines is: between changes, about to read or to write
      `pending_irq` for a rising edge, or about to record the level. */
  datatype Line =
    | Rest | Raise(irq: nat, level: nat) | Raised(irq: nat, level: nat, read: set<nat>) | Record(irq: nat, level: nat)

  /** What became of the requests, by line. */
  datatype Log = Log(
    requests: seq<nat>,     // rising edges and timer ticks
    coalesced: seq<nat>,    // of those, the ones that found the line already latched
    lost: seq<nat>,         // latched, then wiped out by a write meant for another line
    extra: seq<nat>)        // latched by a write meant for another line, or taken when not latched

  /** The arguments of a `KVM_IRQ_LINE`. */
  datatype Arg = Arg(irq: nat, level: nat)

  /** What was asked of the kext: line changes that have returned, and ways the guest came back. */
  datatype Trace = Trace(calls: seq<Arg>, exits: seq<Exit>)

  datatype State = State(
    pc: Pc,
    line: Line,
    turns: nat,             // maxcont
    cont: bool,
    exitReason: nat,        // of the last exit in this KVM_RUN, 0 at its start
    pending: set<nat>,      // pending_irq
    level: seq<nat>,        // irq_level
    paging: bool,
    field: Option<Intr>,    // valid VM-entry interruption information in the VMCS
    window: bool,           // interrupt-window exiting
    // history
    log: Log,
    trace: Trace,
    delivered: seq<Intr>,
    lastCr0: Option<nat>,   // last CR0 value handled
    late: set<nat>,         // lines set by the other thread since the scan, or the choice of the window control, began
    gone: set<nat>)         // lines wiped out by the other thread since the scan began

  const ZERO: seq<nat> := [0, 0, 0, 0, 0, 0, 0, 0, 0, 0, 0, 0, 0, 0, 0, 0]

  predicate Sized(s: State) {
    |s.level| == IRQ_MAX && SizedLog(s.log)
  }

  predicate SizedLog(g: Log) {
    |g.requests| == IRQ_MAX && |g.coalesced| == IRQ_MAX && |g.lost| == IRQ_MAX && |g.extra| == IRQ_MAX
  }

  ghost predicate Init(s: State) {
    s == State(Idle, Rest, 0, false, 0, {}, ZERO, false, None, false,
               Log(ZERO, ZERO, ZERO, ZERO), Trace([], []), [], None, {}, {})
  }

  /** One more for the lines in `which`. */
  function Bumped(count: seq<nat>, which: set<nat>): (r: seq<nat>)
    ensures |r| == |count| && forall l | 0 <= l < |r| :: r[l] == count[l] + if l in which then 1 else 0
  {
    seq(|count|, l requires 0 <= l < |count| => count[l] + if l in which then 1 else 0)
  }

  /** `pending_irq` is written: `value` was computed from what was read earlier, to add the lines
      in `add` and drop those in `drop`. The log compares it with what is there by now. */
  function Wrote(s: State, value: set<nat>, add: set<nat>, drop: set<nat>): State {
    s.(pending := value, log := Logged(s.log, s.pending, value, add, drop))
  }

  function Logged(g: Log, pending: set<nat>, value: set<nat>, add: set<nat>, drop: set<nat>): Log {
    Log(Bumped(g.requests, add), Bumped(g.coalesced, add * pending),
        Bumped(g.lost, pending - value - drop), Bumped(g.extra, (value - pending - add) + (drop - pending)))
  }

  function Returned(t: Trace, a: Arg): Trace {
    t.(calls := t.calls + [a])
  }

  /** One step of `kvm_irq_line`; `irq` and `level` are the arguments of a call that begins. */
  function LineStep(s: State, irq: nat, level: nat): State
    requires Sized(s)
  {
    match s.line
    case Rest =>
      if irq >= IRQ_MAX then s.(trace := Returned(s.trace, Arg(irq, level)))
      else s.(line := if s.level[irq] == 0 && level == 1 then Raise(irq, level) else Record(irq, level))
    case Raise(i, v) => s.(line := Raised(i, v, s.pending))
    case Raised(i, v, read) =>
      var value := read + {i};
      Wrote(s, value, {i}, {}).(line := Record(i, v),
                                late := s.late + (value - s.pending), gone := s.gone + (s.pending - value))
    case Record(i, v) =>
      s.(line := Rest, level := if i < IRQ_MAX then s.level[i := v] else s.level, trace := Returned(s.trace, Arg(i, v)))
  }

  /** `val & (1 << 31)` with the constant sign-extended to 64 bits. */
  predicate SetsPaging(cr0: nat) {
    cr0 >= 0x8000_0000
  }

  /** Exits the table of handlers has an entry for. */
  predicate HasHandler(reason: nat) {
    reason in {1, 7, 9, 10, 28, 29, 30, 31, 32, 44, 48, 52}
  }

  /** CR number 0 and access type 0 in the exit qualification: a move to CR0. */
  predicate IsCr0Write(qualification: nat) {
    qualification % 16 == 0 && qualification / 16 % 4 == 0
  }

  /** Whether the handler asks for another turn. */
  predicate Continues(e: Exit) {
    && HasHandler(e.reason) && e.reason != IO_INSTRUCTION
    && (e.reason == EXTERNAL_INTERRUPT ==> !e.signal)
  }

  /** What a VM entry can do: one that fails reports an instruction error, or exits with bit 31
      of the reason set (sections 26.1 and 26.7 of the Intel SDM, volume 3C). */
  predicate Possible(e: Exit) {
    !e.entered ==> e.error != 0 || e.reason >= 0x8000_0000
  }

  function Handled(s: State, e: Exit): State {
    var t := if e.reason == CR_ACCESS && IsCr0Write(e.qualification)
             then s.(paging := SetsPaging(e.value), lastCr0 := Some(e.value))
             else s;
    t.(pc := if e.error != 0 then Idle else Top, cont := Continues(e), exitReason := e.reason)
  }

  /** One step of the running thread. `e` is what the guest does, should it be entered. */
  function Step(s: State, e: Exit): State
    requires Sized(s)
  {
    match s.pc
    case Idle => s.(pc := Top, turns := 0, cont := true, exitReason := 0)
    case Top =>
      if s.cont && s.turns < MAX_TURNS
      then s.(turns := s.turns + 1, late := {}, gone := {},
              pc := if s.exitReason == PENDING_INTERRUPT then Scan(0) else Load(None))
      else s.(pc := Idle)
    case Scan(i) =>
      if i >= IRQ_MAX then s.(pc := Load(None))
      else if i in s.pending then s.(pc := Clear(i))
      else s.(pc := Scan(i + 1))
    case Clear(i) => s.(pc := Cleared(i, s.pending))
    case Cleared(i, read) =>
      Wrote(s, read - {i}, {}, {i}).(pc := Load(Some(Intr(i, i + if s.paging then 0x30 else 8, s.lastCr0))))
    case Load(info) =>
      s.(field := if info.Some? then info else s.field, pc := Sample)
    case Sample => s.(window := s.pending != {}, late := {}, pc := Enter)
    case Enter =>
      var t := s.(pc := Handle(e), trace := s.trace.(exits := s.trace.exits + [e]));
      if e.entered && s.field.Some? then t.(field := None, delivered := s.delivered + [s.field.value]) else t
    case Handle(x) =>
      if x.reason == EXTERNAL_INTERRUPT && x.qualification == 0 then s.(pc := Tick(x, s.pending)) else Handled(s, x)
    case Tick(x, read) => Handled(Wrote(s, read + {0}, {0}, {}), x)
  }

  /** One step of the whole system: of the thread that changes lines, or of the running thread. */
  ghost predicate Next(s: State, t: State)
    requires Sized(s)
  {
    || (exists irq: nat, level: nat :: t == LineStep(s, irq, level))
    || (exists e :: Possible(e) && t == Step(s, e))
  }

  // ---------- The balance ----------

  function Count(log: seq<Intr>, l: nat): nat {
    if log == [] then 0 else Count(log[..|log| - 1], l) + if log[|log| - 1].line == l then 1 else 0
  }

  function Carries(info: Option<Intr>, l: nat): nat {
    if info.Some? && info.value.line == l then 1 else 0
  }

  /** Taken from the latch, not yet delivered: in the thread's hands or in the VMCS. */
  function InFlight(s: State, l: nat): nat {
    (if s.pc.Load? then Carries(s.pc.info, l) else 0) + Carries(s.field, l)
  }

  /** Every request, and every extra one, was delivered, merged into another, wiped out, is
      latched, or is on its way in. */
  ghost predicate Balanced(s: State, l: nat)
    requires Sized(s) && l < IRQ_MAX
  {
    s.log.requests[l] + s.log.extra[l]
    == Count(s.delivered, l) + s.log.coalesced[l] + s.log.lost[l] + Bit(l in s.pending) + InFlight(s, l)
  }

  function Bit(b: bool): nat {
    if b then 1 else 0
  }

  ghost predicate Conserved(s: State)
    requires Sized(s)
  {
    forall l | 0 <= l < IRQ_MAX :: Balanced(s, l)
  }

  // ---------- What every step keeps ----------

  /** Vectors start at 0x30 exactly when the last CR0 write handled set PG. */
  predicate RightVector(x: Intr) {
    x.vector == x.line + if x.cr0.Some? && SetsPaging(x.cr0.value) then 0x30 else 8
  }

  ghost predicate Vectors(s: State) {
    && (s.paging <==> s.lastCr0.Some? && SetsPaging(s.lastCr0.value))
    && (s.pc.Load? && s.pc.info.Some? ==> RightVector(s.pc.info.value))
    && (s.field.Some? ==> RightVector(s.field.value))
    && (forall i | 0 <= i < |s.delivered| :: RightVector(s.delivered[i]))
  }

  /** An interrupt left in the VMCS by a failed entry is never overwritten. */
  ghost predicate FieldSafe(s: State) {
    s.field.Some? ==>
      match s.pc
      case Top => !s.cont || s.exitReason == 0
      case Scan(_) => false
      case Clear(_) => false
      case Cleared(_, _) => false
      case Load(info) => info.None?
      case Handle(x) => !x.entered
      case Tick(x, _) => !x.entered
      case _ => true
  }

  /** A lower line still latched was set after its bit was tested. */
  ghost predicate LowerAreLate(s: State, i: nat) {
    forall j | j in s.pending && j < i :: j in s.late
  }

  /** The line found is latched, unless it was wiped out since. */
  ghost predicate Taking(s: State, i: nat) {
    s.exitReason == PENDING_INTERRUPT && i < IRQ_MAX && (i in s.pending || i in s.gone) && LowerAreLate(s, i)
  }

  /** Where the scan is. */
  ghost predicate Scanning(s: State) {
    match s.pc
    case Scan(i) => s.exitReason == PENDING_INTERRUPT && i <= IRQ_MAX && LowerAreLate(s, i)
    case Clear(i) => Taking(s, i)
    case Cleared(i, _) => Taking(s, i)
    case Load(info) => info.Some? ==> s.exitReason == PENDING_INTERRUPT
    case Handle(x) => Possible(x)
    case Tick(x, _) => Possible(x) && x.reason == EXTERNAL_INTERRUPT
    case _ => true
  }

  /** At entry the window control tells whether anything was latched when it was chosen. */
  ghost predicate WindowTells(s: State) {
    s.pc.Enter? ==> if s.window then s.pending != {} else s.pending <= s.late
  }

  ghost predicate Inv(s: State) {
    Sized(s) && s.turns <= MAX_TURNS && Conserved(s) && Vectors(s) && FieldSafe(s) && Scanning(s) && WindowTells(s)
  }

  /** A write keeps the balance, whatever it wipes out or brings back; lines dropped are on
      their way into the guest. */
  lemma WroteBalances(s: State, t: State, value: set<nat>, add: set<nat>, drop: set<nat>, l: nat)
    requires Sized(s) && Sized(t) && l < IRQ_MAX && Balanced(s, l)
    requires l in drop ==> l !in value
    requires l in add ==> l in value
    requires t.pending == value && t.log == Logged(s.log, s.pending, value, add, drop) && t.delivered == s.delivered
    requires InFlight(t, l) == InFlight(s, l) + Bit(l in drop)
    ensures Balanced(t, l)
  {
    hide Count, InFlight;
  }

  /** The balance does not depend on levels, control flow or registers. */
  lemma BalancedAlike(s: State, t: State, l: nat)
    requires Sized(s) && Sized(t) && l < IRQ_MAX && Balanced(s, l)
    requires t.log == s.log && t.delivered == s.delivered && t.pending == s.pending && InFlight(t, l) == InFlight(s, l)
    ensures Balanced(t, l)
  {
    hide Count, InFlight;
  }

  lemma CountOne(log: seq<Intr>, x: Intr, l: nat)
    ensures Count(log + [x], l) == Count(log, l) + if x.line == l then 1 else 0
  {
    assert (log + [x])[..|log|] == log;
  }

  lemma LineBalances(s: State, irq: nat, level: nat, l: nat)
    requires Sized(s) && l < IRQ_MAX && Balanced(s, l)
    ensures Sized(LineStep(s, irq, level)) && Balanced(LineStep(s, irq, level), l)
  {
    hide Balanced;
    var t := LineStep(s, irq, level);
    match s.line
    case Raised(i, v, read) => WroteBalances(s, t, read + {i}, {i}, {}, l);
    case _ => BalancedAlike(s, t, l);
  }

  /** The other thread sets some lines and wipes out others, and says so. */
  lemma ScanningWrite(s: State, t: State, value: set<nat>)
    requires Scanning(s) && WindowTells(s) && t.pc == s.pc && t.exitReason == s.exitReason && t.window == s.window
    requires t.pending == value && value != {}
    requires t.late == s.late + (value - s.pending) && t.gone == s.gone + (s.pending - value)
    ensures Scanning(t) && WindowTells(t)
  {
    hide Possible;
  }

  lemma ScanningAlike(s: State, t: State)
    requires Scanning(s) && WindowTells(s) && t.pc == s.pc && t.exitReason == s.exitReason && t.window == s.window
    requires t.pending == s.pending && t.late == s.late && t.gone == s.gone
    ensures Scanning(t) && WindowTells(t)
  {
    hide Possible;
  }

  lemma LineScanning(s: State, irq: nat, level: nat)
    requires Sized(s) && Scanning(s) && WindowTells(s)
    ensures Scanning(LineStep(s, irq, level)) && WindowTells(LineStep(s, irq, level))
  {
    hide Logged, Scanning, WindowTells;
    var t := LineStep(s, irq, level);
    if s.line.Raised? {
      assert s.line.irq in t.pending;
      ScanningWrite(s, t, s.line.read + {s.line.irq});
    } else {
      ScanningAlike(s, t);
    }
  }

  lemma LineRest(s: State, irq: nat, level: nat)
    requires Sized(s) && Vectors(s) && FieldSafe(s)
    ensures Vectors(LineStep(s, irq, level)) && FieldSafe(LineStep(s, irq, level))
    ensures LineStep(s, irq, level).turns == s.turns
  {
    hide Logged, Vectors, RightVector;
    LoadedVector(s);
    VectorsAlike(s, LineStep(s, irq, level));
  }

  lemma LoadedVector(s: State)
    requires Vectors(s)
    ensures s.pc.Load? && s.pc.info.Some? ==> RightVector(s.pc.info.value)
  {
  }

  lemma LineKeeps(s: State, irq: nat, level: nat)
    requires Inv(s)
    ensures Inv(LineStep(s, irq, level))
  {
    hide Balanced, LineStep, Vectors, FieldSafe, Scanning, WindowTells;
    forall l | 0 <= l < IRQ_MAX
      ensures Sized(LineStep(s, irq, level)) && Balanced(LineStep(s, irq, level), l)
    {
      LineBalances(s, irq, level, l);
    }
    LineBalances(s, irq, level, 0);
    LineScanning(s, irq, level);
    LineRest(s, irq, level);
  }

  lemma HandledFrame(s: State, x: Exit, l: nat)
    requires Sized(s) && !s.pc.Load?
    ensures var t := Handled(s, x);
            && Sized(t) && t.log == s.log && t.delivered == s.delivered && t.pending == s.pending
            && InFlight(t, l) == InFlight(s, l)
  {
    hide SetsPaging, HasHandler, IsCr0Write;
  }

  lemma TickBalances(s: State, e: Exit, l: nat)
    requires Sized(s) && l < IRQ_MAX && Balanced(s, l) && s.pc.Tick?
    ensures Sized(Step(s, e)) && Balanced(Step(s, e), l)
  {
    hide Balanced, Handled;
    var value := s.pc.read + {0};
    HandledFrame(Wrote(s, value, {0}, {}), s.pc.exit, l);
    WroteBalances(s, Step(s, e), value, {0}, {}, l);
  }

  lemma ClearBalances(s: State, e: Exit, l: nat)
    requires Sized(s) && l < IRQ_MAX && Balanced(s, l) && s.pc.Cleared? && FieldSafe(s)
    ensures Sized(Step(s, e)) && Balanced(Step(s, e), l)
  {
    hide Balanced;
    WroteBalances(s, Step(s, e), s.pc.read - {s.pc.i}, {}, {s.pc.i}, l);
  }

  lemma EnterBalances(s: State, e: Exit, l: nat)
    requires Sized(s) && l < IRQ_MAX && Balanced(s, l) && s.pc.Enter?
    ensures Sized(Step(s, e)) && Balanced(Step(s, e), l)
  {
    hide Count;
    if s.field.Some? {
      CountOne(s.delivered, s.field.value, l);
    }
  }

  lemma HandleBalances(s: State, e: Exit, l: nat)
    requires Sized(s) && l < IRQ_MAX && Balanced(s, l) && s.pc.Handle?
    ensures Sized(Step(s, e)) && Balanced(Step(s, e), l)
  {
    hide Balanced, Handled;
    HandledFrame(s, s.pc.exit, l);
    BalancedAlike(s, Step(s, e), l);
  }

  lemma StepBalances(s: State, e: Exit, l: nat)
    requires Sized(s) && l < IRQ_MAX && Balanced(s, l) && FieldSafe(s)
    ensures Sized(Step(s, e)) && Balanced(Step(s, e), l)
  {
    match s.pc
    case Cleared(_, _) => ClearBalances(s, e, l);
    case Enter => EnterBalances(s, e, l);
    case Handle(_) => HandleBalances(s, e, l);
    case Tick(_, _) => TickBalances(s, e, l);
    case _ => OtherBalances(s, e, l);
  }

  lemma OtherBalances(s: State, e: Exit, l: nat)
    requires Sized(s) && l < IRQ_MAX && Balanced(s, l) && FieldSafe(s)
    requires !s.pc.Cleared? && !s.pc.Enter? && !s.pc.Handle? && !s.pc.Tick?
    ensures Sized(Step(s, e)) && Balanced(Step(s, e), l)
  {
    hide Balanced;
    BalancedAlike(s, Step(s, e), l);
  }

  lemma VectorsAlike(s: State, t: State)
    requires Vectors(s) && t.paging == s.paging && t.lastCr0 == s.lastCr0 && t.field == s.field
    requires t.delivered == s.delivered
    requires t.pc.Load? && t.pc.info.Some? ==> RightVector(t.pc.info.value)
    ensures Vectors(t)
  {
    hide SetsPaging, RightVector;
  }

  lemma VectorChosen(s: State, i: nat)
    requires Vectors(s)
    ensures RightVector(Intr(i, i + if s.paging then 0x30 else 8, s.lastCr0))
  {
    hide SetsPaging;
  }

  lemma HandledVectors(s: State, x: Exit)
    requires Vectors(s)
    ensures Vectors(Handled(s, x))
  {
    hide SetsPaging, HasHandler, IsCr0Write, RightVector, Continues;
  }

  lemma StepVectors(s: State, e: Exit)
    requires Sized(s) && Vectors(s)
    ensures Vectors(Step(s, e))
  {
    hide RightVector, Logged, Handled, Vectors;
    match s.pc
    case Load(_) => LoadVectors(s, e);
    case Enter => EnterVectors(s, e);
    case Handle(x) =>
      HandledVectors(s, x);
      VectorsAlike(s, s.(pc := Tick(x, s.pending)));
    case Tick(x, read) =>
      VectorsAlike(s, Wrote(s, read + {0}, {0}, {}));
      HandledVectors(Wrote(s, read + {0}, {0}, {}), x);
    case Cleared(i, _) =>
      VectorChosen(s, i);
      VectorsAlike(s, Step(s, e));
    case _ => VectorsAlike(s, Step(s, e));
  }

  lemma LoadVectors(s: State, e: Exit)
    requires Sized(s) && Vectors(s) && s.pc.Load?
    ensures Vectors(Step(s, e))
  {
    hide RightVector, SetsPaging;
  }

  lemma EnterVectors(s: State, e: Exit)
    requires Sized(s) && Vectors(s) && s.pc.Enter?
    ensures Vectors(Step(s, e))
  {
    hide RightVector, SetsPaging;
  }

  lemma StepFieldSafe(s: State, e: Exit)
    requires Sized(s) && FieldSafe(s) && Scanning(s)
    ensures FieldSafe(Step(s, e))
  {
    hide Logged, Handled, LowerAreLate, Continues;
    if s.pc.Handle? || s.pc.Tick? {
      HandledFieldSafe(s, s.pc.exit);
      HandledFieldSafe(Wrote(s, (if s.pc.Tick? then s.pc.read else {}) + {0}, {0}, {}), s.pc.exit);
    }
  }

  /** A failed entry ends the loop. */
  lemma HandledFieldSafe(s: State, x: Exit)
    requires Possible(x) && (s.field.Some? ==> !x.entered)
    ensures FieldSafe(Handled(s, x))
  {
    hide SetsPaging, IsCr0Write;
  }

  lemma HandledPc(s: State, x: Exit)
    ensures Handled(s, x).pc.Idle? || Handled(s, x).pc.Top?
  {
  }

  lemma StepScanning(s: State, e: Exit)
    requires Sized(s) && Scanning(s) && Possible(e)
    ensures Scanning(Step(s, e)) && WindowTells(Step(s, e))
  {
    hide Logged, Handled, Possible;
    if s.pc.Handle? || s.pc.Tick? {
      HandledPc(s, s.pc.exit);
      HandledPc(Wrote(s, (if s.pc.Tick? then s.pc.read else {}) + {0}, {0}, {}), s.pc.exit);
    }
  }

  lemma StepTurns(s: State, e: Exit)
    requires Sized(s) && s.turns <= MAX_TURNS
    ensures Step(s, e).turns <= MAX_TURNS
  {
    hide Logged, Handled;
    if s.pc.Handle? || s.pc.Tick? {
      HandledTurns(s, s.pc.exit);
      HandledTurns(Wrote(s, (if s.pc.Tick? then s.pc.read else {}) + {0}, {0}, {}), s.pc.exit);
    }
  }

  lemma HandledTurns(s: State, x: Exit)
    ensures Handled(s, x).turns == s.turns
  {
  }

  lemma StepKeeps(s: State, e: Exit)
    requires Inv(s) && Possible(e)
    ensures Inv(Step(s, e))
  {
    hide Balanced, Vectors, FieldSafe, Scanning, WindowTells, Step;
    forall l | 0 <= l < IRQ_MAX
      ensures Sized(Step(s, e)) && Balanced(Step(s, e), l)
    {
      StepBalances(s, e, l);
    }
    StepBalances(s, e, 0);
    StepVectors(s, e);
    StepFieldSafe(s, e);
    StepScanning(s, e);
    StepTurns(s, e);
  }

  /** A run of the system from the creation of the vcpu. */
  ghost predicate IsRun(run: seq<State>) {
    && |run| > 0 && Init(run[0])
    && (forall i | 0 <= i < |run| - 1 :: Sized(run[i]) && Next(run[i], run[i + 1]))
  }

  lemma NextKeeps(s: State, t: State)
    requires Inv(s) && Next(s, t)
    ensures Inv(t)
  {
    hide Inv, Step, LineStep, Possible;
    InvSized(s);
    if irq: nat, level: nat :| t == LineStep(s, irq, level) {
      LineKeeps(s, irq, level);
    } else {
      var e :| Possible(e) && t == Step(s, e);
      StepKeeps(s, e);
    }
  }

  /** Over every interleaving of the two threads, across any number of KVM_RUNs. */
  lemma {:induction false} EveryRunKeeps(run: seq<State>)
    requires IsRun(run)
    ensures Inv(run[|run| - 1])
  {
    hide Next;
    if |run| > 1 {
      EveryRunKeeps(run[..|run| - 1]);
      NextKeeps(run[|run| - 2], run[|run| - 1]);
    }
  }

  /** The line taken is the lowest latched one, but for lines set while the bits were tested;
      and lines are only taken after an interrupt-window exit of the same KVM_RUN. */
  lemma LowestLineTaken(run: seq<State>, i: nat)
    requires IsRun(run) && run[|run| - 1].pc == Clear(i)
    ensures var s := run[|run| - 1];
            && s.exitReason == PENDING_INTERRUPT && s.turns <= MAX_TURNS && (i in s.pending || i in s.gone)
            && (forall j | j in s.pending && j !in s.late :: i <= j)
  {
    EveryRunKeeps(run);
  }

  /** At a guest entry: if the window control is set something is latched; if it is clear,
      nothing is, save lines set since the control was chosen. */
  lemma WindowControlAtEntry(run: seq<State>)
    requires IsRun(run) && run[|run| - 1].pc.Enter?
    ensures var s := run[|run| - 1];
            if s.window then s.pending != {} else s.pending <= s.late
  {
    EveryRunKeeps(run);
  }

  /** When an interrupt is written to the VMCS, no undelivered one is there. */
  lemma NeverOverwritten(run: seq<State>)
    requires IsRun(run) && run[|run| - 1].pc.Load? && run[|run| - 1].pc.info.Some?
    ensures run[|run| - 1].field.None?
  {
    EveryRunKeeps(run);
  }

  /** Every delivered vector is its line's offset from 0x30 or from 8. */
  lemma VectorBase(run: seq<State>, k: nat)
    requires IsRun(run) && k < |run[|run| - 1].delivered|
    ensures RightVector(run[|run| - 1].delivered[k])
  {
    EveryRunKeeps(run);
  }

  /** The test of bit 31 sees PG exactly when no higher bit is set, or PG itself is. */
  lemma PagingTest(cr0: nat)
    ensures (SetsPaging(cr0) <==> cr0 / 0x8000_0000 % 2 == 1) <==> (cr0 < 0x1_0000_0000 || cr0 / 0x8000_0000 % 2 == 1)
    ensures SetsPaging(0x1_0000_0000) && 0x1_0000_0000 / 0x8000_0000 % 2 == 0
  {
    var q := cr0 / 0x8000_0000;
    assert cr0 < 0x1_0000_0000 <==> q < 2;
    assert SetsPaging(cr0) <==> q >= 1;
  }

  // ---------- What was asked for ----------

  /** The last level passed for line `l`; lines start low. */
  function Last(args: seq<Arg>, l: nat): nat {
    if args == [] then 0
    else if args[|args| - 1].irq == l then args[|args| - 1].level
    else Last(args[..|args| - 1], l)
  }

  /** How often line `l` was taken from 0 to 1. */
  function Rises(args: seq<Arg>, l: nat): nat {
    if args == [] then 0
    else
      var a, before := args[|args| - 1], args[..|args| - 1];
      Rises(before, l) + if a.irq == l && a.level == 1 && Last(before, l) == 0 then 1 else 0
  }

  /** How often the guest was left for an external interrupt with qualification 0. */
  function Ticks(exits: seq<Exit>): nat {
    if exits == [] then 0
    else
      var e := exits[|exits| - 1];
      Ticks(exits[..|exits| - 1]) + if e.reason == 1 && e.qualification == 0 then 1 else 0
  }

  /** The value of the last write to CR0 that left the guest. */
  function Cr0Of(exits: seq<Exit>): Option<nat> {
    if exits == [] then None
    else
      var e := exits[|exits| - 1];
      if e.reason == 28 && IsCr0Write(e.qualification) then Some(e.value) else Cr0Of(exits[..|exits| - 1])
  }

  lemma OneMoreArg(args: seq<Arg>, a: Arg, l: nat)
    ensures Last(args + [a], l) == if a.irq == l then a.level else Last(args, l)
    ensures Rises(args + [a], l) == Rises(args, l) + Bit(a.irq == l && a.level == 1 && Last(args, l) == 0)
  {
    assert (args + [a])[..|args|] == args;
  }

  lemma OneMoreExit(exits: seq<Exit>)
    requires exits != []
    ensures var e, before := exits[|exits| - 1], exits[..|exits| - 1];
            && Ticks(exits) == Ticks(before) + Bit(e.reason == 1 && e.qualification == 0)
            && Cr0Of(exits) == if e.reason == 28 && IsCr0Write(e.qualification) then Some(e.value) else Cr0Of(before)
  {
  }

  /** The line changes made so far, with one that has yet to record its level. */
  function Args(s: State): seq<Arg> {
    if s.line.Record? then s.trace.calls + [Arg(s.line.irq, s.line.level)] else s.trace.calls
  }

  /** The exits handled so far. */
  function Exits(s: State): seq<Exit> {
    var exits := s.trace.exits;
    if (s.pc.Handle? || s.pc.Tick?) && exits != [] then exits[..|exits| - 1] else exits
  }

  /** What line `l` has been asked for: its rising edges and, for line 0, timer ticks. */
  function Demand(s: State, l: nat): nat {
    Rises(Args(s), l) + if l == 0 then Ticks(Exits(s)) else 0
  }

  /** A line change under way is what the level says it is. */
  ghost predicate LineTells(s: State)
    requires Sized(s)
  {
    match s.line
    case Raise(i, v) => i < IRQ_MAX && v == 1 && s.level[i] == 0
    case Raised(i, v, _) => i < IRQ_MAX && v == 1 && s.level[i] == 0
    case Record(i, _) => i < IRQ_MAX
    case Rest => true
  }

  /** An exit being handled is the last one. */
  ghost predicate ExitTells(s: State) {
    s.pc.Handle? || s.pc.Tick? ==>
      && s.trace.exits != [] && s.trace.exits[|s.trace.exits| - 1] == s.pc.exit
      && (s.pc.Tick? ==> s.pc.exit.reason == 1 && s.pc.exit.qualification == 0)
  }

  /** The log and the levels tell what was asked for. */
  ghost predicate Traced(s: State) {
    && Sized(s) && LineTells(s) && ExitTells(s) && s.lastCr0 == Cr0Of(Exits(s))
    && (forall l | 0 <= l < IRQ_MAX :: s.level[l] == Last(s.trace.calls, l) && s.log.requests[l] == Demand(s, l))
  }

  /** A step that only moves on in a line change, or in the loop. */
  lemma TracedAlike(s: State, t: State)
    requires Traced(s) && Sized(t) && LineTells(t) && ExitTells(t)
    requires t.trace == s.trace && t.level == s.level && t.log.requests == s.log.requests && t.lastCr0 == s.lastCr0
    requires Args(t) == Args(s) && Exits(t) == Exits(s)
    ensures Traced(t)
  {
    hide Last, Rises, Ticks, Cr0Of, Args, Exits, LineTells, ExitTells;
    assert forall l | 0 <= l < IRQ_MAX :: Demand(t, l) == Demand(s, l);
  }

  lemma ExitAlike(s: State, t: State)
    requires t.pc == s.pc && t.trace.exits == s.trace.exits
    ensures ExitTells(t) == ExitTells(s) && Exits(t) == Exits(s)
  {
  }

  /** A line change begins. */
  lemma BeginTraced(s: State, irq: nat, level: nat)
    requires Traced(s) && s.line.Rest?
    ensures Traced(LineStep(s, irq, level))
  {
    hide Last, Rises, Ticks, Cr0Of, ExitTells, Exits;
    var t := LineStep(s, irq, level);
    ExitAlike(s, t);
    forall l | 0 <= l < IRQ_MAX
      ensures t.level[l] == Last(t.trace.calls, l) && t.log.requests[l] == Demand(t, l)
    {
      OneMoreArg(s.trace.calls, Arg(irq, level), l);
    }
  }

  /** A rising edge is latched. */
  lemma RaisedTraced(s: State, irq: nat, level: nat)
    requires Traced(s) && s.line.Raised?
    ensures Traced(LineStep(s, irq, level))
  {
    hide Last, Rises, Ticks, Cr0Of, ExitTells, Exits;
    var t := LineStep(s, irq, level);
    ExitAlike(s, t);
    forall l | 0 <= l < IRQ_MAX
      ensures t.level[l] == Last(t.trace.calls, l) && t.log.requests[l] == Demand(t, l)
    {
      OneMoreArg(s.trace.calls, Arg(s.line.irq, s.line.level), l);
    }
  }

  /** A level is recorded. */
  lemma RecordTraced(s: State, irq: nat, level: nat)
    requires Traced(s) && s.line.Record?
    ensures Traced(LineStep(s, irq, level))
  {
    hide Last, Rises, Ticks, Cr0Of, ExitTells, Exits;
    var t := LineStep(s, irq, level);
    ExitAlike(s, t);
    assert Args(t) == Args(s);
    forall l | 0 <= l < IRQ_MAX
      ensures t.level[l] == Last(t.trace.calls, l) && t.log.requests[l] == Demand(t, l)
    {
      OneMoreArg(s.trace.calls, Arg(s.line.irq, s.line.level), l);
      assert Demand(t, l) == Demand(s, l);
    }
  }

  lemma LineTraced(s: State, irq: nat, level: nat)
    requires Traced(s)
    ensures Traced(LineStep(s, irq, level))
  {
    match s.line
    case Rest => BeginTraced(s, irq, level);
    case Raise(_, _) => TracedAlike(s, LineStep(s, irq, level));
    case Raised(_, _, _) => RaisedTraced(s, irq, level);
    case Record(_, _) => RecordTraced(s, irq, level);
  }

  lemma NoneAsked(count: seq<nat>)
    ensures Bumped(count, {}) == count
  {
  }

  /** A step that neither enters the guest nor handles an exit. */
  lemma LoopTraced(s: State, e: Exit)
    requires Traced(s) && !s.pc.Enter? && !s.pc.Handle? && !s.pc.Tick?
    ensures Traced(Step(s, e))
  {
    LoopAlike(s, e);
    hide Traced, Step;
    TracedAlike(s, Step(s, e));
  }

  lemma LoopAlike(s: State, e: Exit)
    requires Sized(s) && !s.pc.Enter? && !s.pc.Handle? && !s.pc.Tick?
    ensures var t := Step(s, e);
            && Sized(t) && t.trace == s.trace && t.level == s.level && t.log.requests == s.log.requests
            && t.lastCr0 == s.lastCr0 && t.line == s.line && !t.pc.Handle? && !t.pc.Tick?
  {
    hide Handled;
    NoneAsked(s.log.requests);
  }

  lemma EnterTraced(s: State, e: Exit)
    requires Traced(s) && s.pc.Enter?
    ensures Traced(Step(s, e))
  {
    hide Last, Rises, Ticks, Cr0Of;
    var t := Step(s, e);
    assert Exits(t) == s.trace.exits == Exits(s);
    assert forall l | 0 <= l < IRQ_MAX :: Demand(t, l) == Demand(s, l);
  }

  lemma HandleTraced(s: State, e: Exit)
    requires Traced(s) && s.pc.Handle?
    ensures Traced(Step(s, e))
  {
    hide Last, Rises, Ticks, Cr0Of, SetsPaging, Continues, IsCr0Write;
    var t := Step(s, e);
    OneMoreExit(s.trace.exits);
    assert t.pc.Tick? ==> Exits(t) == Exits(s);
    assert !t.pc.Tick? ==> Exits(t) == s.trace.exits;
    assert forall l | 0 <= l < IRQ_MAX :: Demand(t, l) == Demand(s, l);
  }

  lemma TickTraced(s: State, e: Exit)
    requires Traced(s) && s.pc.Tick?
    ensures Traced(Step(s, e))
  {
    hide Last, Rises, Ticks, Cr0Of, SetsPaging, Continues, IsCr0Write;
    var t := Step(s, e);
    OneMoreExit(s.trace.exits);
    assert Exits(t) == s.trace.exits;
    assert forall l | 0 <= l < IRQ_MAX :: Demand(t, l) == Demand(s, l) + Bit(l == 0);
  }

  lemma NextTraced(s: State, t: State)
    requires Traced(s) && Next(s, t)
    ensures Traced(t)
  {
    assert Sized(s);
    hide Traced, Step, LineStep, Possible;
    if irq: nat, level: nat :| t == LineStep(s, irq, level) {
      LineTraced(s, irq, level);
    } else {
      var e :| Possible(e) && t == Step(s, e);
      if s.pc.Enter? {
        EnterTraced(s, e);
      } else if s.pc.Handle? {
        HandleTraced(s, e);
      } else if s.pc.Tick? {
        TickTraced(s, e);
      } else {
        LoopTraced(s, e);
      }
    }
  }

  /** In every run the level kept for a line is the last one passed for it, and the requests
      counted are its 0-to-1 changes and, for line 0, the timer ticks; and the CR0 value that
      decides the vector base is that of the last write to CR0. */
  lemma {:induction false} EveryRunTraced(run: seq<State>)
    requires IsRun(run)
    ensures Traced(run[|run| - 1])
  {
    hide Next, Traced;
    if |run| == 1 {
      InitTraced(run[0]);
    } else {
      EveryRunTraced(run[..|run| - 1]);
      NextTraced(run[|run| - 2], run[|run| - 1]);
    }
  }

  lemma InitTraced(s: State)
    requires Init(s)
    ensures Traced(s)
  {
  }

  /** The loop knows how its last turn ended. */
  ghost predicate ContTells(s: State) {
    && (s.pc.Top? && s.turns == 0 ==> s.cont)
    && (s.pc.Top? && s.turns > 0 ==>
          s.trace.exits != [] && (s.cont <==> Continues(s.trace.exits[|s.trace.exits| - 1])))
    && (!s.pc.Top? && !s.pc.Idle? ==> s.turns > 0)
  }

  lemma NextContTells(s: State, t: State)
    requires Sized(s) && ContTells(s) && ExitTells(s) && Next(s, t)
    ensures ContTells(t)
  {
    hide Step, LineStep, Possible, ContTells, ExitTells;
    if irq: nat, level: nat :| t == LineStep(s, irq, level) {
      LineContTells(s, irq, level);
    } else {
      var e :| Possible(e) && t == Step(s, e);
      StepContTells(s, e);
    }
  }

  lemma LineContTells(s: State, irq: nat, level: nat)
    requires Sized(s) && ContTells(s)
    ensures ContTells(LineStep(s, irq, level))
  {
    hide Logged, Continues;
  }

  lemma StepContTells(s: State, e: Exit)
    requires Sized(s) && ContTells(s) && ExitTells(s)
    ensures ContTells(Step(s, e))
  {
    hide Logged, Continues, Handled;
    if s.pc.Handle? {
      HandledCont(s, s.pc.exit);
    } else if s.pc.Tick? {
      HandledCont(Wrote(s, s.pc.read + {0}, {0}, {}), s.pc.exit);
    }
  }

  lemma HandledCont(s: State, x: Exit)
    ensures var t := Handled(s, x);
            t.cont == Continues(x) && t.trace == s.trace && t.turns == s.turns && (t.pc.Top? || t.pc.Idle?)
  {
    hide Continues, SetsPaging, IsCr0Write;
  }

  lemma {:induction false} EveryRunContTells(run: seq<State>)
    requires IsRun(run)
    ensures ContTells(run[|run| - 1])
  {
    hide Next, Traced;
    if |run| > 1 {
      var before := run[..|run| - 1];
      EveryRunContTells(before);
      EveryRunTraced(before);
      TracedExit(run[|run| - 2]);
      NextContTells(run[|run| - 2], run[|run| - 1]);
    }
  }

  lemma TracedExit(s: State)
    requires Traced(s)
    ensures ExitTells(s)
  {
  }

  /** The loop is left from its head only after 1000 turns, or after an exit that has no handler,
      goes to user space, or found a signal. */
  lemma WhyReturned(run: seq<State>)
    requires IsRun(run) && |run| > 1 && run[|run| - 2].pc.Top? && run[|run| - 1].pc.Idle?
    ensures var s := run[|run| - 2];
            || s.turns == 1000
            || (&& s.trace.exits != []
                && var e := s.trace.exits[|s.trace.exits| - 1];
                   e.reason !in {1, 7, 9, 10, 28, 29, 31, 32, 44, 48, 52} || (e.reason == 1 && e.signal))
  {
    var before := run[..|run| - 1];
    EveryRunContTells(before);
    EveryRunKeeps(before);
    LeftTop(run[|run| - 2], run[|run| - 1]);
  }

  lemma LeftTop(s: State, t: State)
    requires Sized(s) && Next(s, t) && s.pc.Top? && t.pc.Idle?
    ensures !s.cont || s.turns >= MAX_TURNS
  {
    hide Logged;
  }

  /** Every line change that begins, whatever its arguments, can go on to its end, and is then on
      record as it was made. */
  lemma CallCompletes(s: State, irq: nat, level: nat) returns (t: State)
    requires Reached(s) && Sized(s) && s.line.Rest?
    ensures Reached(t) && Sized(t) && t.line.Rest? && t.trace.calls == s.trace.calls + [Arg(irq, level)]
    ensures t.pc == s.pc && t.trace.exits == s.trace.exits
  {
    hide Reached, Logged;
    ReachedLine(s, irq, level);
    t := LineStep(s, irq, level);
    if t.line.Raise? {
      ReachedLine(t, irq, level);
      t := LineStep(t, irq, level);
      ReachedLine(t, irq, level);
      t := LineStep(t, irq, level);
    }
    if t.line.Record? {
      ReachedLine(t, irq, level);
      t := LineStep(t, irq, level);
    }
  }

  /** Going high, low and high again makes two requests, wherever the running thread is. */
  lemma TwiceHigh(s: State, l: nat) returns (t: State)
    requires Reached(s) && Sized(s) && s.line.Rest? && l < IRQ_MAX && s.level[l] == 0
    ensures Reached(t) && Sized(t) && t.log.requests[l] == s.log.requests[l] + 2
  {
    hide Reached, Traced;
    ReachedTraced(s);
    var s1 := CallCompletes(s, l, 1);
    var s2 := CallCompletes(s1, l, 0);
    t := CallCompletes(s2, l, 1);
    ReachedTraced(t);
    CountsOf(s, l);
    CountsOf(t, l);
    assert Exits(t) == Exits(s);
    OneMoreArg(s.trace.calls, Arg(l, 1), l);
    OneMoreArg(s1.trace.calls, Arg(l, 0), l);
    OneMoreArg(s2.trace.calls, Arg(l, 1), l);
  }

  lemma CountsOf(s: State, l: nat)
    requires Traced(s) && l < IRQ_MAX
    ensures s.level[l] == Last(s.trace.calls, l) && s.log.requests[l] == Demand(s, l)
  {
  }

  lemma ReachedTraced(s: State)
    requires Reached(s)
    ensures Traced(s)
  {
    var run :| IsRun(run) && run[|run| - 1] == s;
    EveryRunTraced(run);
  }

  /** The exit qualification of a control-register access (section 27.2.1 of the Intel SDM, volume
      3C): register number, access type, a reserved or LMSW bit, general-purpose register, and more. */
  function CrAccess(number: nat, kind: nat, lmsw: nat, register: nat, rest: nat): nat {
    number + 16 * kind + 64 * lmsw + 256 * register + 4096 * rest
  }

  lemma Cr0WriteRead(number: nat, kind: nat, lmsw: nat, register: nat, rest: nat)
    requires number < 16 && kind < 4 && lmsw < 4 && register < 16
    ensures IsCr0Write(CrAccess(number, kind, lmsw, register, rest)) <==> number == 0 && kind == 0
  {
    var q := CrAccess(number, kind, lmsw, register, rest);
    var high := lmsw + 4 * register + 64 * rest;
    Radix.DivIs(q, 16, kind + 4 * high, number);
    Radix.DivIs(kind + 4 * high, 4, high, kind);
  }

  /** Between two KVM_RUNs everything asked for is accounted for: delivered, merged, wiped out,
      still latched, or left in the VMCS by an entry that failed. A line change that has made its
      request counts, although it has yet to record its level. */
  lemma BalanceBetweenRuns(run: seq<State>, l: nat)
    requires IsRun(run) && run[|run| - 1].pc.Idle? && l < IRQ_MAX
    ensures var s := run[|run| - 1];
            && Sized(s) && s.level[l] == Last(s.trace.calls, l)
            && Rises(Args(s), l) + (if l == 0 then Ticks(s.trace.exits) else 0) + s.log.extra[l]
            == Count(s.delivered, l) + s.log.coalesced[l] + s.log.lost[l] + Bit(l in s.pending) + Carries(s.field, l)
  {
    EveryRunKeeps(run);
    EveryRunTraced(run);
    assert Balanced(run[|run| - 1], l);
  }

  // ---------- What a write does to other lines ----------

  /** A write loses or brings back nothing exactly if what was read still holds of every other
      line and, for a write that clears a line, that line is still latched. */
  lemma WroteExactly(s: State, read: set<nat>, i: nat)
    requires Sized(s) && Lines(read) && Lines(s.pending) && i < IRQ_MAX
    ensures SameLosses(s, Wrote(s, read + {i}, {i}, {})) <==> Unraced(s, read, i)
    ensures SameLosses(s, Wrote(s, read - {i}, {}, {i})) <==> Unraced(s, read, i) && i in s.pending
  {
    BumpedSame(s.log.lost, s.pending - (read + {i}) - {});
    BumpedSame(s.log.extra, ((read + {i}) - s.pending - {i}) + ({} - s.pending));
    BumpedSame(s.log.lost, s.pending - (read - {i}) - {i});
    BumpedSame(s.log.extra, ((read - {i}) - s.pending - {}) + ({i} - s.pending));
    OthersAgree(s.pending, read, i);
  }

  /** Only lines that exist. */
  predicate Lines(lines: set<nat>) {
    forall l | l in lines :: l < IRQ_MAX
  }

  /** What was read still holds of every line but `i`. */
  predicate Unraced(s: State, read: set<nat>, i: nat) {
    read - {i} == s.pending - {i}
  }

  predicate SameLosses(s: State, t: State) {
    t.log.lost == s.log.lost && t.log.extra == s.log.extra
  }

  lemma BumpedSame(count: seq<nat>, which: set<nat>)
    requires forall l | l in which :: l < |count|
    ensures Bumped(count, which) == count <==> which == {}
  {
    if l :| l in which {
      assert Bumped(count, which)[l] != count[l];
    }
  }

  lemma OthersAgree(pending: set<nat>, read: set<nat>, i: nat)
    ensures read - {i} == pending - {i} <==> pending - (read + {i}) == {} && read + {i} - pending - {i} == {}
    ensures read - {i} == pending - {i} <==> pending - (read - {i}) - {i} == {} && read - {i} - pending == {}
  {
    if pending - (read + {i}) == {} && read + {i} - pending - {i} == {} {
      forall x
        ensures x in read - {i} <==> x in pending - {i}
      {
        assert x !in pending - (read + {i}) && x !in read + {i} - pending - {i};
      }
    }
    if pending - (read - {i}) - {i} == {} && read - {i} - pending == {} {
      forall x
        ensures x in read - {i} <==> x in pending - {i}
      {
        assert x !in pending - (read - {i}) - {i} && x !in read - {i} - pending;
      }
    }
  }

  /** `pending_irq`, and every value of it that was read, speaks of lines that exist. */
  ghost predicate Within(s: State) {
    && Lines(s.pending)
    && (s.line.Raised? ==> Lines(s.line.read)) && (s.line.Raise? || s.line.Raised? ==> s.line.irq < IRQ_MAX)
    && (s.pc.Cleared? || s.pc.Tick? ==> Lines(s.pc.read)) && (s.pc.Clear? || s.pc.Cleared? ==> s.pc.i < IRQ_MAX)
  }

  lemma LineWithin(s: State, irq: nat, level: nat)
    requires Sized(s) && Within(s)
    ensures Within(LineStep(s, irq, level))
  {
    hide Logged;
  }

  lemma HandledWithin(s: State, x: Exit)
    requires Lines(s.pending) && (s.line.Raised? ==> Lines(s.line.read))
    requires (s.line.Raise? || s.line.Raised? ==> s.line.irq < IRQ_MAX)
    ensures Within(Handled(s, x))
  {
    hide SetsPaging, IsCr0Write, Continues;
  }

  lemma StepWithin(s: State, e: Exit)
    requires Sized(s) && Within(s)
    ensures Within(Step(s, e))
  {
    hide Step, Within;
    if s.pc.Handle? || s.pc.Tick? {
      ExitWithin(s, e);
    } else {
      LoopWithin(s, e);
    }
  }

  lemma ExitWithin(s: State, e: Exit)
    requires Sized(s) && Within(s) && (s.pc.Handle? || s.pc.Tick?)
    ensures Within(Step(s, e))
  {
    hide Logged, Handled;
    if s.pc.Handle? {
      HandledWithin(s, s.pc.exit);
    } else {
      HandledWithin(Wrote(s, s.pc.read + {0}, {0}, {}), s.pc.exit);
    }
  }

  lemma LoopWithin(s: State, e: Exit)
    requires Sized(s) && Within(s) && !s.pc.Handle? && !s.pc.Tick?
    ensures Within(Step(s, e))
  {
    hide Logged, Handled;
  }

  /** The write made in a step from `s` to `t`, if one was, found every other line as it had been
      read, and a line to be cleared still latched. */
  ghost predicate Clean(s: State, t: State) {
    && (s.line.Raised? && !t.line.Raised? ==> Unraced(s, s.line.read, s.line.irq))
    && (s.pc.Cleared? && !t.pc.Cleared? ==> Unraced(s, s.pc.read, s.pc.i) && s.pc.i in s.pending)
    && (s.pc.Tick? && !t.pc.Tick? ==> Unraced(s, s.pc.read, 0))
  }

  lemma LineClean(s: State, irq: nat, level: nat)
    requires Sized(s) && Within(s)
    ensures SameLosses(s, LineStep(s, irq, level)) <==> Clean(s, LineStep(s, irq, level))
  {
    hide Logged, Unraced;
    if s.line.Raised? {
      WroteExactly(s, s.line.read, s.line.irq);
    }
  }

  lemma HandledLog(s: State, x: Exit)
    ensures Handled(s, x).log == s.log && Handled(s, x).level == s.level && Handled(s, x).line == s.line
    ensures Handled(s, x).pc.Idle? || Handled(s, x).pc.Top?
  {
  }

  lemma StepClean(s: State, e: Exit)
    requires Sized(s) && Within(s)
    ensures SameLosses(s, Step(s, e)) <==> Clean(s, Step(s, e))
  {
    hide Logged, Handled, Unraced;
    if s.pc.Cleared? {
      WroteExactly(s, s.pc.read, s.pc.i);
    } else if s.pc.Tick? {
      WroteExactly(s, s.pc.read, 0);
      HandledLog(Wrote(s, s.pc.read + {0}, {0}, {}), s.pc.exit);
    } else if s.pc.Handle? {
      HandledLog(s, s.pc.exit);
    }
  }

  /** What was lost or brought back stays so. */
  ghost predicate Grows(s: State, t: State)
    requires Sized(s) && Sized(t)
  {
    forall l | 0 <= l < IRQ_MAX :: t.log.lost[l] >= s.log.lost[l] && t.log.extra[l] >= s.log.extra[l]
  }

  lemma LoggedGrows(g: Log, pending: set<nat>, value: set<nat>, add: set<nat>, drop: set<nat>)
    requires SizedLog(g)
    ensures var h := Logged(g, pending, value, add, drop);
            && SizedLog(h)
            && (forall l | 0 <= l < IRQ_MAX :: h.lost[l] >= g.lost[l] && h.extra[l] >= g.extra[l])
  {
  }

  lemma LineGrows(s: State, irq: nat, level: nat)
    requires Sized(s)
    ensures Sized(LineStep(s, irq, level)) && Grows(s, LineStep(s, irq, level))
  {
    hide Logged;
    if s.line.Raised? {
      LoggedGrows(s.log, s.pending, s.line.read + {s.line.irq}, {s.line.irq}, {});
    }
  }

  /** The log a step leaves. */
  lemma StepLog(s: State, e: Exit)
    requires Sized(s)
    ensures Step(s, e).level == s.level
    ensures Step(s, e).log ==
            if s.pc.Cleared? then Logged(s.log, s.pending, s.pc.read - {s.pc.i}, {}, {s.pc.i})
            else if s.pc.Tick? then Logged(s.log, s.pending, s.pc.read + {0}, {0}, {})
            else s.log
  {
    hide Logged, Handled;
    if s.pc.Handle? {
      HandledLog(s, s.pc.exit);
    } else if s.pc.Tick? {
      HandledLog(Wrote(s, s.pc.read + {0}, {0}, {}), s.pc.exit);
    }
  }

  lemma StepGrows(s: State, e: Exit)
    requires Sized(s)
    ensures Sized(Step(s, e)) && Grows(s, Step(s, e))
  {
    hide Logged, Step;
    StepLog(s, e);
    if s.pc.Cleared? {
      LoggedGrows(s.log, s.pending, s.pc.read - {s.pc.i}, {}, {s.pc.i});
    } else if s.pc.Tick? {
      LoggedGrows(s.log, s.pending, s.pc.read + {0}, {0}, {});
    }
  }

  lemma NextClean(s: State, t: State)
    requires Sized(s) && Within(s) && Next(s, t)
    ensures Sized(t) && Within(t) && Grows(s, t) && (SameLosses(s, t) <==> Clean(s, t))
  {
    hide Within, Clean, Grows, SameLosses, Step, LineStep, Possible;
    if irq: nat, level: nat :| t == LineStep(s, irq, level) {
      LineWithin(s, irq, level);
      LineClean(s, irq, level);
      LineGrows(s, irq, level);
    } else {
      var e :| Possible(e) && t == Step(s, e);
      StepWithin(s, e);
      StepClean(s, e);
      StepGrows(s, e);
    }
  }

  /** No request was lost, and none brought back. */
  ghost predicate Lossless(s: State) {
    s.log.lost == ZERO && s.log.extra == ZERO
  }

  lemma LosslessStep(s: State, t: State)
    requires Sized(s) && Sized(t) && Grows(s, t)
    ensures Lossless(t) <==> Lossless(s) && SameLosses(s, t)
  {
    if Lossless(t) {
      forall l | 0 <= l < IRQ_MAX
        ensures s.log.lost[l] == ZERO[l] && s.log.extra[l] == ZERO[l]
      {
        ZeroAt(l);
      }
    }
  }

  lemma ZeroAt(l: nat)
    requires l < IRQ_MAX
    ensures ZERO[l] == 0
  {
  }

  /** Every write made in the run is clean. */
  ghost predicate AllClean(run: seq<State>) {
    forall k | 0 <= k < |run| - 1 :: Clean(run[k], run[k + 1])
  }

  lemma AllCleanStep(run: seq<State>)
    requires |run| > 1
    ensures AllClean(run) <==> AllClean(run[..|run| - 1]) && Clean(run[|run| - 2], run[|run| - 1])
  {
    hide Clean;
    var before := run[..|run| - 1];
    if AllClean(before) && Clean(run[|run| - 2], run[|run| - 1]) {
      forall k | 0 <= k < |run| - 1
        ensures Clean(run[k], run[k + 1])
      {
        assert k < |run| - 2 ==> Clean(before[k], before[k + 1]);
      }
    }
  }

  /** A run loses nothing and brings nothing back exactly if every write in it is clean. */
  lemma {:induction false} LosslessRuns(run: seq<State>)
    requires IsRun(run)
    ensures Sized(run[|run| - 1]) && Within(run[|run| - 1])
    ensures Lossless(run[|run| - 1]) <==> AllClean(run)
  {
    hide Clean, Within, Next, Lossless, Grows, SameLosses;
    if |run| == 1 {
      InitLossless(run[0]);
    } else {
      hide AllClean;
      var s, t := run[|run| - 2], run[|run| - 1];
      LosslessRuns(run[..|run| - 1]);
      NextClean(s, t);
      LosslessStep(s, t);
      AllCleanStep(run);
    }
  }

  lemma InitLossless(s: State)
    requires Init(s)
    ensures Sized(s) && Within(s) && Lossless(s)
  {
  }

  // ---------- When the two updates do not meet ----------

  /** Not both threads are between the read and the write of an update. */
  ghost predicate Apart(s: State) {
    !(s.line.Raised? && (s.pc.Cleared? || s.pc.Tick?))
  }

  /** What was read is still there. */
  ghost predicate StillThere(s: State) {
    && (s.line.Raised? ==> s.line.read == s.pending)
    && (s.pc.Cleared? || s.pc.Tick? ==> s.pc.read == s.pending)
    && s.gone == {}
  }

  lemma LineStillThere(s: State, irq: nat, level: nat)
    requires Sized(s) && StillThere(s) && Apart(s) && Apart(LineStep(s, irq, level))
    ensures StillThere(LineStep(s, irq, level))
  {
    hide Logged;
  }

  lemma StepStillThere(s: State, e: Exit)
    requires Sized(s) && StillThere(s) && Apart(s) && Apart(Step(s, e))
    ensures StillThere(Step(s, e))
  {
    hide Logged, Handled;
    if s.pc.Tick? {
      HandledStillThere(Wrote(s, s.pc.read + {0}, {0}, {}), s.pc.exit);
    } else if s.pc.Handle? {
      HandledStillThere(s, s.pc.exit);
    }
  }

  lemma HandledStillThere(s: State, x: Exit)
    requires (s.line.Raised? ==> s.line.read == s.pending) && s.gone == {}
    ensures StillThere(Handled(s, x))
  {
    hide SetsPaging, IsCr0Write, HasHandler;
  }

  lemma {:induction false} ApartStillThere(run: seq<State>)
    requires IsRun(run) && forall i | 0 <= i < |run| :: Apart(run[i])
    ensures StillThere(run[|run| - 1])
  {
    hide Apart, Inv, Next;
    if |run| > 1 {
      ApartStillThere(run[..|run| - 1]);
      NextStillThere(run[|run| - 2], run[|run| - 1]);
    }
  }

  lemma NextStillThere(s: State, t: State)
    requires Sized(s) && Next(s, t) && StillThere(s) && Apart(s) && Apart(t)
    ensures StillThere(t)
  {
    hide StillThere, Apart, Step, LineStep, Possible;
    if irq: nat, level: nat :| t == LineStep(s, irq, level) {
      LineStillThere(s, irq, level);
    } else {
      var e :| Possible(e) && t == Step(s, e);
      StepStillThere(s, e);
    }
  }

  lemma StillThereIsClean(s: State, t: State)
    requires Inv(s) && StillThere(s)
    ensures Clean(s, t)
  {
    hide Conserved, Vectors, FieldSafe, WindowTells;
  }

  /** As long as the two updates of `pending_irq` never meet, no request is lost or delivered
      twice: every one was delivered, merged, is latched, or is on its way in. */
  lemma NothingLostApart(run: seq<State>, l: nat)
    requires IsRun(run) && (forall i | 0 <= i < |run| :: Apart(run[i])) && l < IRQ_MAX
    ensures Lossless(run[|run| - 1]) && Accounted(run[|run| - 1], l)
  {
    hide Apart, Clean, Lossless, Accounted, Next, Inv, StillThere;
    forall k | 0 <= k < |run| - 1
      ensures Clean(run[k], run[k + 1])
    {
      var before := run[..k + 1];
      assert IsRun(before) && before[|before| - 1] == run[k];
      ApartStillThere(before);
      EveryRunKeeps(before);
      StillThereIsClean(run[k], run[k + 1]);
    }
    LosslessRuns(run);
    LosslessAccounted(run, l);
  }

  /** Everything asked for was delivered, merged, is latched, or is on its way in; nothing else was delivered. */
  ghost predicate Accounted(s: State, l: nat) {
    && Sized(s) && l < IRQ_MAX
    && Demand(s, l) == Count(s.delivered, l) + s.log.coalesced[l] + Bit(l in s.pending) + InFlight(s, l)
  }

  lemma LosslessAccounted(run: seq<State>, l: nat)
    requires IsRun(run) && Lossless(run[|run| - 1]) && l < IRQ_MAX
    ensures Accounted(run[|run| - 1], l)
  {
    EveryRunKeeps(run);
    EveryRunTraced(run);
    ZeroAt(l);
    assert Balanced(run[|run| - 1], l);
  }

  // ---------- When they do ----------

  /** The loop is about to clear line `i`, and the other thread to latch line `j`. */
  ghost predicate Meeting(s: State, i: nat, j: nat) {
    && Sized(s) && s.pc == Clear(i) && s.line == Raise(j, 1) && i != j && i < IRQ_MAX && j < IRQ_MAX
    && i in s.pending && j !in s.pending
  }

  /** Whenever they meet, one order of their reads and writes wipes out the request on `j`. */
  lemma MeetingLoses(s: State, i: nat, j: nat, e: Exit) returns (t: State)
    requires Meeting(s, i, j)
    ensures Sized(Step(s, e)) && Sized(LineStep(Step(s, e), j, 1)) && Sized(LineStep(LineStep(Step(s, e), j, 1), j, 1))
    ensures t == Step(LineStep(LineStep(Step(s, e), j, 1), j, 1), e)
    ensures Sized(t) && j !in t.pending && t.log.requests[j] == s.log.requests[j] + 1
    ensures t.log.lost[j] == s.log.lost[j] + 1
  {
    var s1 := Step(s, e);
    var s2 := LineStep(s1, j, 1);
    var s3 := LineStep(s2, j, 1);
    t := Step(s3, e);
  }

  /** Another brings `i` back, to be delivered once more than it was requested. */
  lemma MeetingRepeats(s: State, i: nat, j: nat, e: Exit) returns (t: State)
    requires Meeting(s, i, j)
    ensures Sized(LineStep(s, j, 1)) && Sized(Step(LineStep(s, j, 1), e)) && Sized(Step(Step(LineStep(s, j, 1), e), e))
    ensures t == LineStep(Step(Step(LineStep(s, j, 1), e), e), j, 1)
    ensures Sized(t) && i in t.pending && InFlight(t, i) > 0
    ensures t.log.requests[i] == s.log.requests[i] && t.log.extra[i] == s.log.extra[i] + 1
  {
    var s1 := LineStep(s, j, 1);
    var s2 := Step(s1, e);
    var s3 := Step(s2, e);
    t := LineStep(s3, j, 1);
  }

  /** A state some run ends in. */
  ghost predicate Reached(s: State) {
    exists run :: IsRun(run) && run[|run| - 1] == s
  }

  lemma ReachedNext(s: State, t: State)
    requires Sized(s) && Reached(s) && Next(s, t)
    ensures Reached(t) && Sized(t)
  {
    hide Next, Inv;
    var run :| IsRun(run) && run[|run| - 1] == s;
    assert IsRun(run + [t]);
    EveryRunKeeps(run + [t]);
    InvSized(t);
  }

  lemma InvSized(s: State)
    requires Inv(s)
    ensures Sized(s)
  {
  }

  lemma ReachedStep(s: State, e: Exit)
    requires Sized(s) && Reached(s) && Possible(e)
    ensures Reached(Step(s, e)) && Sized(Step(s, e))
  {
    hide Reached, Step, Possible;
    ReachedNext(s, Step(s, e));
  }

  lemma ReachedLine(s: State, irq: nat, level: nat)
    requires Sized(s) && Reached(s)
    ensures Reached(LineStep(s, irq, level)) && Sized(LineStep(s, irq, level))
  {
    hide Reached, LineStep;
    ReachedNext(s, LineStep(s, irq, level));
  }

  /** Line 0 rises on a new vcpu. */
  lemma FirstRequest() returns (s: State)
    ensures Reached(s) && Sized(s) && s.pc == Idle && s.line == Rest && s.pending == {0} && s.level[1] == 0
    ensures s.field == None
  {
    hide Reached, Logged;
    var none := Log(ZERO, ZERO, ZERO, ZERO);
    var s0 := State(Idle, Rest, 0, false, 0, {}, ZERO, false, None, false, none, Trace([], []), [], None, {}, {});
    InitReached(s0);
    ReachedLine(s0, 0, 1);
    var s1 := LineStep(s0, 0, 1);
    ReachedLine(s1, 0, 1);
    var s2 := LineStep(s1, 0, 1);
    ReachedLine(s2, 0, 1);
    var s3 := LineStep(s2, 0, 1);
    ReachedLine(s3, 0, 1);
    s := LineStep(s3, 0, 1);
  }

  lemma InitReached(s: State)
    requires Init(s)
    ensures Reached(s)
  {
    assert IsRun([s]);
  }

  /** The loop runs up to an entry, with nothing to inject. */
  lemma ToEntry(s0: State) returns (s: State)
    requires Reached(s0) && Sized(s0) && s0.pc == Idle
    ensures Reached(s) && Sized(s) && s.pc == Enter && s.turns == 1
    ensures s.line == s0.line && s.pending == s0.pending && s.level == s0.level && s.field == s0.field
  {
    hide Reached, Logged, Handled;
    var e := Exit(true, PENDING_INTERRUPT, 0, 0, false, 0);
    ReachedStep(s0, e);
    var s1 := Step(s0, e);
    ReachedStep(s1, e);
    var s2 := Step(s1, e);
    ReachedStep(s2, e);
    var s3 := Step(s2, e);
    ReachedStep(s3, e);
    s := Step(s3, e);
  }

  /** The window opens with line 0 latched, and the loop is about to take it. */
  lemma ToClear() returns (s: State)
    ensures Reached(s) && Sized(s) && s.pc == Clear(0) && s.line == Rest && s.pending == {0}
    ensures s.level[1] == 0 && s.field == None
  {
    hide Reached, Logged;
    var e := Exit(true, PENDING_INTERRUPT, 0, 0, false, 0);
    var s0 := FirstRequest();
    var s1 := ToEntry(s0);
    ReachedStep(s1, e);
    var s2 := Step(s1, e);
    ReachedStep(s2, e);
    var s3 := Step(s2, e);
    ReachedStep(s3, e);
    var s4 := Step(s3, e);
    ReachedStep(s4, e);
    s := Step(s4, e);
  }

  /** The two updates do meet in some run, and then a request is lost. */
  lemma LossReached() returns (t: State)
    ensures Reached(t) && Sized(t) && t.log.lost[1] > 0 && 1 !in t.pending
  {
    hide Reached, Step, LineStep;
    var e := Exit(true, PENDING_INTERRUPT, 0, 0, false, 0);
    var s0 := ToClear();
    ReachedLine(s0, 1, 1);
    LineBegins(s0);
    var s := LineStep(s0, 1, 1);
    t := MeetingLoses(s, 0, 1, e);
    ReachedStep(s, e);
    ReachedLine(Step(s, e), 1, 1);
    ReachedLine(LineStep(Step(s, e), 1, 1), 1, 1);
    ReachedStep(LineStep(LineStep(Step(s, e), 1, 1), 1, 1), e);
  }

  /** And in some run a line is brought back while it is being delivered. */
  lemma RepeatReached() returns (t: State)
    ensures Reached(t) && Sized(t) && t.log.extra[0] > 0 && 0 in t.pending && InFlight(t, 0) > 0
  {
    hide Reached, Step, LineStep;
    var e := Exit(true, PENDING_INTERRUPT, 0, 0, false, 0);
    var s0 := ToClear();
    ReachedLine(s0, 1, 1);
    LineBegins(s0);
    var s := LineStep(s0, 1, 1);
    t := MeetingRepeats(s, 0, 1, e);
    ReachedLine(s, 1, 1);
    ReachedStep(LineStep(s, 1, 1), e);
    ReachedStep(Step(LineStep(s, 1, 1), e), e);
    ReachedLine(Step(Step(LineStep(s, 1, 1), e), e), 1, 1);
  }

  lemma LineBegins(s: State)
    requires Sized(s) && s.line == Rest && s.level[1] == 0
    ensures LineStep(s, 1, 1) == s.(line := Raise(1, 1))
  {
  }

  /** Line 0 has been taken, to be injected. */
  lemma ToTaken() returns (s: State)
    ensures Reached(s) && Sized(s) && s.pc.Load? && s.pc.info.Some?
  {
    hide Reached, Logged;
    var e := Exit(true, PENDING_INTERRUPT, 0, 0, false, 0);
    var s0 := ToClear();
    ReachedStep(s0, e);
    var s1 := Step(s0, e);
    ReachedStep(s1, e);
    s := Step(s1, e);
  }

  /** It is written to the VMCS, and the guest is about to be entered. */
  lemma ToInjection() returns (s: State)
    ensures Reached(s) && Sized(s) && s.pc == Enter && s.field.Some?
  {
    hide Reached, Logged;
    var e := Exit(true, PENDING_INTERRUPT, 0, 0, false, 0);
    var s0 := ToTaken();
    ReachedStep(s0, e);
    var s1 := Step(s0, e);
    ReachedStep(s1, e);
    s := Step(s1, e);
  }

  /** An entry that fails leaves its interrupt in the VMCS when KVM_RUN returns. */
  lemma LeftInField() returns (t: State)
    ensures Reached(t) && t.pc == Idle && t.field.Some?
  {
    hide Reached, Logged;
    var e := Exit(false, 0x8000_0021, 0, 7, false, 0);
    var s0 := ToInjection();
    ReachedStep(s0, e);
    var s1 := Step(s0, e);
    ReachedStep(s1, e);
    t := Step(s1, e);
  }
}
