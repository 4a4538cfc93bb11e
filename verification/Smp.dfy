/** The cross-CPU call of the guest: `spin_lock`, `spin_unlock`, `on_cpu` and the handler `ipi`,
    one memory access a step, on any number of CPUs. Memory is sequentially consistent and an
    interrupt that is sent is taken exactly once. The function called does not itself use
    `on_cpu` (it would wait for a lock that is held for its sake). */
module Smp {
  import opened Wrappers

  /** A request to run `f(data)` on a CPU, and its execution there. */
  datatype Call = Call(cpu: nat, f: nat, data: nat)

  /** Where a CPU is in `on_cpu`. */
  datatype Pc =
    | Out
    | Spin(call: Call)
    | Locked(call: Call)
    | RunLocal(call: Call)
    | StoreFunction(call: Call)
    | StoreData(call: Call)
    | Send(call: Call)
    | Wait(call: Call)
    | Reset(call: Call)
    | Unlock(call: Call)

  /** Where it is in the interrupt handler. */
  datatype Handler = Resting | ReadFunction | ReadData(f: nat) | Run(f: nat, data: nat) | SetDone

  datatype State = State(
    v: bool,                     // the lock word
    function_: nat,              // ipi_function
    data: nat,                   // ipi_data
    done: bool,                  // ipi_done
    sent: set<nat>,              // CPUs with an interrupt on its way
    pcs: map<nat, Pc>,
    handlers: map<nat, Handler>,
    // history
    executed: seq<Call>,
    completed: seq<Call>,
    holder: Option<nat>)

  function PcOf(s: State, c: nat): Pc {
    if c in s.pcs then s.pcs[c] else Out
  }

  function HandlerOf(s: State, c: nat): Handler {
    if c in s.handlers then s.handlers[c] else Resting
  }

  ghost predicate Init(s: State) {
    s == State(false, 0, 0, false, {}, map[], map[], [], [], None)
  }

  predicate Critical(pc: Pc) {
    !pc.Out? && !pc.Spin?
  }

  /** CPU `c` starts a call. */
  function Begin(s: State, c: nat, call: Call): State {
    if PcOf(s, c).Out? then s.(pcs := s.pcs[c := Spin(call)]) else s
  }

  /** CPU `c` makes one step of `on_cpu`; it may stay where it is. */
  function Step(s: State, c: nat): State {
    match PcOf(s, c)
    case Out => s
    case Spin(k) => if s.v then s else s.(v := true, holder := Some(c), pcs := s.pcs[c := Locked(k)])
    case Locked(k) => s.(pcs := s.pcs[c := if k.cpu == c then RunLocal(k) else StoreFunction(k)])
    case RunLocal(k) => s.(executed := s.executed + [Call(c, k.f, k.data)], pcs := s.pcs[c := Unlock(k)])
    case StoreFunction(k) => s.(function_ := k.f, pcs := s.pcs[c := StoreData(k)])
    case StoreData(k) => s.(data := k.data, pcs := s.pcs[c := Send(k)])
    case Send(k) => s.(sent := s.sent + {k.cpu}, pcs := s.pcs[c := Wait(k)])
    case Wait(k) => if s.done then s.(pcs := s.pcs[c := Reset(k)]) else s
    case Reset(k) => s.(done := false, pcs := s.pcs[c := Unlock(k)])
    case Unlock(k) => s.(v := false, holder := None, completed := s.completed + [k], pcs := s.pcs[c := Out])
  }

  /** CPU `c` takes an interrupt or makes one step of `ipi`. */
  function Interrupt(s: State, c: nat): State {
    match HandlerOf(s, c)
    case Resting => if c in s.sent then s.(sent := s.sent - {c}, handlers := s.handlers[c := ReadFunction]) else s
    case ReadFunction => s.(handlers := s.handlers[c := ReadData(s.function_)])
    case ReadData(f) => s.(handlers := s.handlers[c := Run(f, s.data)])
    case Run(f, d) => s.(executed := s.executed + [Call(c, f, d)], handlers := s.handlers[c := SetDone])
    case SetDone => s.(done := true, handlers := s.handlers[c := Resting])
  }

  ghost predicate Next(s: State, t: State) {
    || (exists c: nat, call :: t == Begin(s, c, call))
    || (exists c: nat :: t == Step(s, c))
    || (exists c: nat :: t == Interrupt(s, c))
  }

  // ---------- What every step keeps ----------

  /** No interrupt is on its way or being handled. */
  ghost predicate Quiet(s: State) {
    s.sent == {} && forall c | c in s.handlers :: s.handlers[c].Resting?
  }

  /** The only interrupt activity is the handler of CPU `c`, at `h`. */
  ghost predicate Handling(s: State, c: nat, h: Handler) {
    && s.sent == {} && c in s.handlers && s.handlers[c] == h
    && (forall u | u in s.handlers && u != c :: s.handlers[u].Resting?)
  }

  /** The remote call is under way, at one of these points. */
  ghost predicate Remote(s: State, k: Call) {
    && s.function_ == k.f && s.data == k.data
    && (|| (&& s.sent == {k.cpu} && (forall c | c in s.handlers :: s.handlers[c].Resting?)
            && !s.done && s.executed == s.completed)
        || (Handling(s, k.cpu, ReadFunction) && !s.done && s.executed == s.completed)
        || (Handling(s, k.cpu, ReadData(k.f)) && !s.done && s.executed == s.completed)
        || (Handling(s, k.cpu, Run(k.f, k.data)) && !s.done && s.executed == s.completed)
        || (Handling(s, k.cpu, SetDone) && !s.done && s.executed == s.completed + [k])
        || (Quiet(s) && s.done && s.executed == s.completed + [k]))
  }

  /** What the place of the lock holder says about the shared variables. */
  ghost predicate Holding(s: State, c: nat, pc: Pc) {
    match pc
    case Locked(_) => Quiet(s) && !s.done && s.executed == s.completed
    case RunLocal(k) => Quiet(s) && !s.done && s.executed == s.completed && k.cpu == c
    case StoreFunction(_) => Quiet(s) && !s.done && s.executed == s.completed
    case StoreData(k) => Quiet(s) && !s.done && s.executed == s.completed && s.function_ == k.f
    case Send(k) => Quiet(s) && !s.done && s.executed == s.completed && s.function_ == k.f && s.data == k.data
    case Wait(k) => Remote(s, k)
    case Reset(k) => Quiet(s) && s.done && s.executed == s.completed + [k]
    case Unlock(k) => Quiet(s) && !s.done && s.executed == s.completed + [k]
    case _ => false
  }

  ghost predicate Inv(s: State) {
    && (s.v <==> s.holder.Some?)
    && (forall c | c in s.pcs :: Critical(s.pcs[c]) <==> s.holder == Some(c))
    && (if s.holder.Some?
        then s.holder.value in s.pcs && Holding(s, s.holder.value, s.pcs[s.holder.value])
        else Quiet(s) && !s.done && s.executed == s.completed)
  }

  lemma BeginKeeps(s: State, c: nat, call: Call)
    requires Inv(s)
    ensures Inv(Begin(s, c, call))
  {
  }

  lemma StepKeeps(s: State, c: nat)
    requires Inv(s)
    ensures Inv(Step(s, c))
  {
  }

  lemma InterruptKeeps(s: State, c: nat)
    requires Inv(s)
    ensures Inv(Interrupt(s, c))
  {
  }

  ghost predicate IsRun(run: seq<State>) {
    && |run| > 0 && Init(run[0])
    && (forall i | 0 <= i < |run| - 1 :: Next(run[i], run[i + 1]))
  }

  lemma {:induction false} EveryRunKeeps(run: seq<State>)
    requires IsRun(run)
    ensures Inv(run[|run| - 1])
  {
    if |run| > 1 {
      var s, t := run[|run| - 2], run[|run| - 1];
      EveryRunKeeps(run[..|run| - 1]);
      if c: nat, call :| t == Begin(s, c, call) {
        BeginKeeps(s, c, call);
      } else if c: nat :| t == Step(s, c) {
        StepKeeps(s, c);
      } else {
        var c: nat :| t == Interrupt(s, c);
        InterruptKeeps(s, c);
      }
    }
  }

  // ---------- What follows for every run ----------

  /** At most one CPU is between taking and releasing the lock. */
  lemma MutualExclusion(run: seq<State>, c: nat, d: nat)
    requires IsRun(run) && Critical(PcOf(run[|run| - 1], c)) && Critical(PcOf(run[|run| - 1], d))
    ensures c == d
  {
    EveryRunKeeps(run);
  }

  /** Whenever the lock is free, the functions run so far are exactly those of the completed calls,
      in order, each once, on its own CPU and with its own argument; and `ipi_done` is 0. */
  lemma ExactlyOnce(run: seq<State>)
    requires IsRun(run) && !run[|run| - 1].v
    ensures var s := run[|run| - 1]; s.executed == s.completed && !s.done && Quiet(s)
  {
    EveryRunKeeps(run);
  }

  /** Before a call gives the lock back, its function has run, once, and nothing else has. */
  lemma RunBeforeReturn(run: seq<State>, c: nat)
    requires IsRun(run) && PcOf(run[|run| - 1], c).Unlock?
    ensures var s := run[|run| - 1]; s.executed == s.completed + [PcOf(s, c).call] && Quiet(s)
  {
    EveryRunKeeps(run);
  }

  /** A handler at work serves the lock holder's call: its CPU, its function and its argument. */
  lemma HandlerServesHolder(run: seq<State>, c: nat, f: nat, data: nat)
    requires IsRun(run) && HandlerOf(run[|run| - 1], c) == Run(f, data)
    ensures var s := run[|run| - 1];
            && s.holder.Some? && PcOf(s, s.holder.value) == Wait(Call(c, f, data))
            && (forall d: nat | d != c :: HandlerOf(s, d).Resting?)
  {
    EveryRunKeeps(run);
  }

  // ---------- Every call can be made, and completes ----------

  lemma Append(run: seq<State>, t: State)
    requires IsRun(run) && Next(run[|run| - 1], t)
    ensures IsRun(run + [t])
  {
    hide Next;
  }

  lemma ByBegin(run: seq<State>, c: nat, call: Call)
    requires IsRun(run)
    ensures IsRun(run + [Begin(run[|run| - 1], c, call)])
  {
    Append(run, Begin(run[|run| - 1], c, call));
  }

  lemma ByStep(run: seq<State>, c: nat)
    requires IsRun(run)
    ensures IsRun(run + [Step(run[|run| - 1], c)])
  {
    Append(run, Step(run[|run| - 1], c));
  }

  lemma ByInterrupt(run: seq<State>, c: nat)
    requires IsRun(run)
    ensures IsRun(run + [Interrupt(run[|run| - 1], c)])
  {
    Append(run, Interrupt(run[|run| - 1], c));
  }

  /** `longer` goes on from the end of `run`. */
  ghost predicate GoesOn(run: seq<State>, longer: seq<State>) {
    IsRun(longer) && 0 < |run| < |longer| && run <= longer
  }

  /** `c` asks for the call and gets the lock. */
  lemma GetsLock(run: seq<State>, c: nat, call: Call) returns (longer: seq<State>)
    requires IsRun(run) && !run[|run| - 1].v && PcOf(run[|run| - 1], c).Out?
    ensures GoesOn(run, longer) && PcOf(longer[|longer| - 1], c) == Locked(call)
    ensures var s, t := run[|run| - 1], longer[|longer| - 1];
            && t.executed == s.executed && t.completed == s.completed && t.sent == s.sent && t.handlers == s.handlers
            && t.done == s.done
  {
    assert |run| > 0;
    hide IsRun;
    ByBegin(run, c, call);
    longer := run + [Begin(run[|run| - 1], c, call)];
    ByStep(longer, c);
    longer := longer + [Step(longer[|longer| - 1], c)];
  }

  /** The way of a call to the CPU it is made on. */
  lemma LocalCompletes(run: seq<State>, c: nat, call: Call) returns (longer: seq<State>)
    requires IsRun(run) && PcOf(run[|run| - 1], c) == Locked(call) && call.cpu == c
    ensures GoesOn(run, longer) && PcOf(longer[|longer| - 1], c).Out? && !longer[|longer| - 1].v
    ensures longer[|longer| - 1].executed == run[|run| - 1].executed + [call]
    ensures longer[|longer| - 1].completed == run[|run| - 1].completed + [call]
  {
    assert |run| > 0;
    hide IsRun;
    ByStep(run, c);
    longer := run + [Step(run[|run| - 1], c)];
    ByStep(longer, c);
    longer := longer + [Step(longer[|longer| - 1], c)];
    ByStep(longer, c);
    longer := longer + [Step(longer[|longer| - 1], c)];
  }

  /** A call to another CPU, up to the interrupt. */
  lemma Sends(run: seq<State>, c: nat, call: Call) returns (longer: seq<State>)
    requires IsRun(run) && PcOf(run[|run| - 1], c) == Locked(call) && call.cpu != c
    ensures GoesOn(run, longer) && PcOf(longer[|longer| - 1], c) == Wait(call) && call.cpu in longer[|longer| - 1].sent
    ensures var s, t := run[|run| - 1], longer[|longer| - 1];
            && t.function_ == call.f && t.data == call.data && t.handlers == s.handlers
            && t.executed == s.executed && t.completed == s.completed
  {
    assert |run| > 0;
    hide IsRun;
    ByStep(run, c);
    longer := run + [Step(run[|run| - 1], c)];
    ByStep(longer, c);
    longer := longer + [Step(longer[|longer| - 1], c)];
    ByStep(longer, c);
    longer := longer + [Step(longer[|longer| - 1], c)];
    ByStep(longer, c);
    longer := longer + [Step(longer[|longer| - 1], c)];
  }

  /** The target takes it, runs the function with its argument, and says so. */
  lemma Serves(run: seq<State>, c: nat, call: Call) returns (longer: seq<State>)
    requires IsRun(run) && PcOf(run[|run| - 1], c) == Wait(call)
    requires var s := run[|run| - 1];
             && call.cpu in s.sent && HandlerOf(s, call.cpu).Resting? && s.function_ == call.f && s.data == call.data
    ensures GoesOn(run, longer) && PcOf(longer[|longer| - 1], c) == Wait(call) && longer[|longer| - 1].done
    ensures longer[|longer| - 1].executed == run[|run| - 1].executed + [call]
    ensures longer[|longer| - 1].completed == run[|run| - 1].completed
  {
    assert |run| > 0;
    hide IsRun;
    ByInterrupt(run, call.cpu);
    longer := run + [Interrupt(run[|run| - 1], call.cpu)];
    ByInterrupt(longer, call.cpu);
    longer := longer + [Interrupt(longer[|longer| - 1], call.cpu)];
    ByInterrupt(longer, call.cpu);
    longer := longer + [Interrupt(longer[|longer| - 1], call.cpu)];
    ByInterrupt(longer, call.cpu);
    longer := longer + [Interrupt(longer[|longer| - 1], call.cpu)];
    ByInterrupt(longer, call.cpu);
    longer := longer + [Interrupt(longer[|longer| - 1], call.cpu)];
  }

  /** The caller goes on and gives the lock back. */
  lemma Returns(run: seq<State>, c: nat, call: Call) returns (longer: seq<State>)
    requires IsRun(run) && PcOf(run[|run| - 1], c) == Wait(call) && run[|run| - 1].done
    ensures GoesOn(run, longer) && PcOf(longer[|longer| - 1], c).Out? && !longer[|longer| - 1].v
    ensures longer[|longer| - 1].executed == run[|run| - 1].executed
    ensures longer[|longer| - 1].completed == run[|run| - 1].completed + [call]
  {
    assert |run| > 0;
    hide IsRun;
    ByStep(run, c);
    longer := run + [Step(run[|run| - 1], c)];
    ByStep(longer, c);
    longer := longer + [Step(longer[|longer| - 1], c)];
    ByStep(longer, c);
    longer := longer + [Step(longer[|longer| - 1], c)];
  }

  /** Whenever the lock is free, any CPU outside `on_cpu` can make any call, to itself or another,
      and the call completes: exactly that function has then run, on that CPU and with that argument. */
  lemma CallCompletes(run: seq<State>, c: nat, call: Call) returns (longer: seq<State>)
    requires IsRun(run) && !run[|run| - 1].v && PcOf(run[|run| - 1], c).Out?
    ensures GoesOn(run, longer) && PcOf(longer[|longer| - 1], c).Out? && !longer[|longer| - 1].v
    ensures longer[|longer| - 1].executed == run[|run| - 1].executed + [call]
    ensures longer[|longer| - 1].completed == run[|run| - 1].completed + [call]
  {
    ExactlyOnce(run);
    assert HandlerOf(run[|run| - 1], call.cpu).Resting?;
    hide IsRun;
    longer := GetsLock(run, c, call);
    if call.cpu == c {
      longer := LocalCompletes(longer, c, call);
    } else {
      longer := Sends(longer, c, call);
      longer := Serves(longer, c, call);
      longer := Returns(longer, c, call);
    }
  }
}

/** Starting the CPUs: `smp_init` on the first one and `smp_init_entry` on the others. The
    increment of `smp_main_running` is not locked, so it is split into a read and a write; the
    descriptor is written in several stores, and leads nowhere in between. A CPU that has started
    may interrupt others through `on_cpu` at any time. */
module SmpInit {

  /** Where the descriptor leads: `Torn` while it is being written. */
  datatype Entry = InitEntry | IpiEntry | Torn

  /** The first CPU: before `smp_init`, writing the descriptor, at the head of the loop with `i`,
      waiting for CPU `i`, writing the descriptor again, finished. */
  datatype Boot = Start | Opening | Head(i: nat) | Waiting(i: nat) | Closing | Finished

  /** A CPU: before its start, at its increment, in `smp_main`, or where it should not be. */
  datatype Cpu = Asleep | Reading | Writing(value: nat) | Started | Misled

  datatype State = State(
    boot: Boot,
    running: nat,       // smp_main_running
    entry: Entry,
    sent: set<nat>,     // CPUs with an interrupt of `smp_init` on its way
    calls: set<nat>,    // CPUs with an interrupt of `on_cpu` on its way
    cpus: map<nat, Cpu>)

  function CpuOf(s: State, c: nat): Cpu {
    if c in s.cpus then s.cpus[c] else Asleep
  }

  /** Before `smp_init` the vector may lead anywhere; no interrupt is sent yet. */
  ghost predicate Init(s: State) {
    s.boot == Start && s.running == 0 && s.sent == {} && s.calls == {} && s.cpus == map[]
  }

  /** One step of `smp_init` on a machine of `n` CPUs. */
  function BootStep(s: State, n: nat): State {
    match s.boot
    case Start => s.(entry := Torn, boot := Opening)
    case Opening => s.(entry := InitEntry, boot := Head(1))
    case Head(i) => if i < n then s.(sent := s.sent + {i}, boot := Waiting(i)) else s.(entry := Torn, boot := Closing)
    case Waiting(i) => if s.running < i then s else s.(boot := Head(i + 1))
    case Closing => s.(entry := IpiEntry, boot := Finished)
    case Finished => s
  }

  /** One step of CPU `c`. Asleep or in `smp_main` it takes an interrupt of `smp_init`, and is led
      by the descriptor then in force; at its increment interrupts are off. */
  function CpuStep(s: State, c: nat): State {
    match CpuOf(s, c)
    case Reading => s.(cpus := s.cpus[c := Writing(s.running)])
    case Writing(x) => s.(running := x + 1, cpus := s.cpus[c := Started])
    case Misled => s
    case _ =>
      if c in s.sent
      then s.(sent := s.sent - {c}, cpus := s.cpus[c := if s.entry.InitEntry? then Reading else Misled])
      else s
  }

  /** CPU `c`, once started, interrupts another through `on_cpu`. */
  function CallStep(s: State, c: nat, d: nat): State {
    if CpuOf(s, c).Started? && c != d then s.(calls := s.calls + {d}) else s
  }

  /** CPU `d` takes such an interrupt: `ipi_entry` returns to what it interrupted, and
      `smp_init_entry` counts the CPU once more. */
  function TakeCall(s: State, d: nat): State {
    if d !in s.calls || CpuOf(s, d).Reading? || CpuOf(s, d).Writing? || CpuOf(s, d).Misled? then s
    else
      match s.entry
      case IpiEntry => s.(calls := s.calls - {d})
      case InitEntry => s.(calls := s.calls - {d}, cpus := s.cpus[d := Reading])
      case Torn => s.(calls := s.calls - {d}, cpus := s.cpus[d := Misled])
  }

  ghost predicate Next(s: State, t: State, n: nat) {
    || t == BootStep(s, n)
    || (exists c: nat :: t == CpuStep(s, c))
    || (exists c: nat, d: nat :: t == CallStep(s, c, d))
    || (exists d: nat :: t == TakeCall(s, d))
  }

  ghost predicate IsRun(run: seq<State>, n: nat) {
    && |run| > 0 && Init(run[0])
    && (forall i | 0 <= i < |run| - 1 :: Next(run[i], run[i + 1], n))
  }

  /** No CPU calls another before `smp_init` is through. */
  ghost predicate Patient(run: seq<State>) {
    forall i | 0 <= i < |run| :: run[i].calls == {} || run[i].boot.Finished?
  }

  /** CPUs 1 to `k` have started and counted themselves; no other has moved. */
  ghost predicate Counted(s: State, k: nat) {
    && s.running == k && s.sent == {}
    && (forall c: nat :: CpuOf(s, c) == if 1 <= c <= k then Started else Asleep)
  }

  /** CPU `i` is being started: its interrupt is on its way, or it is counting itself. */
  ghost predicate Starting(s: State, i: nat) {
    && i >= 1 && s.running == i - 1
    && (forall c: nat | c != i :: CpuOf(s, c) == if 1 <= c < i then Started else Asleep)
    && (|| (s.sent == {i} && CpuOf(s, i).Asleep?)
        || (s.sent == {} && CpuOf(s, i).Reading?)
        || (s.sent == {} && CpuOf(s, i) == Writing(i - 1)))
  }

  /** CPUs besides the first. */
  function Others(n: nat): nat {
    if n == 0 then 0 else n - 1
  }

  ghost predicate Inv(s: State, n: nat) {
    match s.boot
    case Start => s.calls == {} && Counted(s, 0)
    case Opening => s.calls == {} && Counted(s, 0)
    case Head(i) => s.calls == {} && s.entry == InitEntry && i >= 1 && (i <= n || i == 1) && Counted(s, i - 1)
    case Waiting(i) => s.calls == {} && s.entry == InitEntry && 1 <= i < n && (Starting(s, i) || Counted(s, i))
    case Closing => s.calls == {} && s.entry == Torn && Counted(s, Others(n))
    case Finished => s.entry == IpiEntry && Counted(s, Others(n))
  }

  lemma BootKeeps(s: State, n: nat)
    requires Inv(s, n)
    ensures Inv(BootStep(s, n), n)
  {
    assert forall c: nat :: CpuOf(BootStep(s, n), c) == CpuOf(s, c);
  }

  lemma CpuKeeps(s: State, n: nat, c: nat)
    requires Inv(s, n)
    ensures Inv(CpuStep(s, c), n)
  {
    assert forall d: nat | d != c :: CpuOf(CpuStep(s, c), d) == CpuOf(s, d);
  }

  lemma CallKeeps(s: State, n: nat, c: nat, d: nat)
    requires Inv(s, n)
    ensures CallStep(s, c, d).calls == {} || s.boot.Finished? ==> Inv(CallStep(s, c, d), n)
    ensures Inv(TakeCall(s, d), n)
  {
    assert forall u: nat :: CpuOf(CallStep(s, c, d), u) == CpuOf(s, u);
    assert forall u: nat | u != d :: CpuOf(TakeCall(s, d), u) == CpuOf(s, u);
  }

  lemma NextKeeps(s: State, t: State, n: nat)
    requires Inv(s, n) && Next(s, t, n) && (t.calls == {} || t.boot.Finished?)
    ensures Inv(t, n)
  {
    hide Inv, CpuStep, TakeCall;
    if t == BootStep(s, n) {
      BootKeeps(s, n);
    } else if c: nat :| t == CpuStep(s, c) {
      CpuKeeps(s, n, c);
    } else if c: nat, d: nat :| t == CallStep(s, c, d) {
      CallKeeps(s, n, c, d);
    } else {
      var d: nat :| t == TakeCall(s, d);
      CallKeeps(s, n, d, d);
    }
  }

  lemma {:induction false} EveryRunKeeps(run: seq<State>, n: nat)
    requires IsRun(run, n) && Patient(run)
    ensures Inv(run[|run| - 1], n)
  {
    hide Next;
    if |run| > 1 {
      EveryRunKeeps(run[..|run| - 1], n);
      NextKeeps(run[|run| - 2], run[|run| - 1], n);
    }
  }

  /** Two increments never overlap, and no CPU is led astray. */
  lemma NoOverlap(run: seq<State>, n: nat, c: nat, d: nat)
    requires IsRun(run, n) && Patient(run)
    ensures var s := run[|run| - 1];
            && !CpuOf(s, c).Misled?
            && (c != d && (CpuOf(s, c).Reading? || CpuOf(s, c).Writing?) ==>
                  !CpuOf(s, d).Reading? && !CpuOf(s, d).Writing?)
  {
    EveryRunKeeps(run, n);
  }

  /** The counter is the number of CPUs that have started, those numbered 1 to it, and no CPU is
      where it should not be. */
  ghost predicate Right(s: State) {
    forall c: nat :: (CpuOf(s, c).Started? <==> 1 <= c <= s.running) && !CpuOf(s, c).Misled?
  }

  lemma CounterIsStarted(run: seq<State>, n: nat)
    requires IsRun(run, n) && Patient(run)
    ensures Right(run[|run| - 1])
  {
    EveryRunKeeps(run, n);
  }

  /** The vector is given to `ipi_entry` only when every CPU has started. */
  lemma EntryChangesLast(run: seq<State>, n: nat, c: nat)
    requires IsRun(run, n) && Patient(run) && (run[|run| - 1].boot.Closing? || run[|run| - 1].boot.Finished?)
    requires 1 <= c < n
    ensures CpuOf(run[|run| - 1], c).Started? && run[|run| - 1].running == n - 1
  {
    EveryRunKeeps(run, n);
  }

  // ---------- Calls made too early ----------

  /** A run that goes on from the end of `run` with a call from `c` to `d`. */
  ghost predicate GoesOn(run: seq<State>, longer: seq<State>, n: nat, c: nat, d: nat) {
    && IsRun(longer, n) && 0 < |run| < |longer| && run <= longer
    && longer[|run|] == CallStep(run[|run| - 1], c, d)
  }

  /** However the run goes on, nothing goes wrong. */
  ghost predicate Harmless(run: seq<State>, n: nat, c: nat, d: nat) {
    forall longer | GoesOn(run, longer, n, c, d) :: Right(longer[|longer| - 1])
  }

  /** A CPU that has started can call any other exactly from the moment `smp_init` is through. */
  lemma CallsHarmless(run: seq<State>, n: nat, c: nat, d: nat)
    requires IsRun(run, n) && Patient(run) && CpuOf(run[|run| - 1], c).Started? && d < n && c != d
    ensures Harmless(run, n, c, d) <==> run[|run| - 1].boot.Finished?
  {
    assert |run| > 0;
    hide IsRun, Patient, Right;
    if run[|run| - 1].boot.Finished? {
      forall longer | GoesOn(run, longer, n, c, d)
        ensures Right(longer[|longer| - 1])
      {
        LateIsPatient(run, longer, n, c, d);
        CounterIsStarted(longer, n);
      }
    } else {
      var longer := EarlyGoesWrong(run, n, c, d);
    }
  }

  lemma {:induction false} StaysFinished(run: seq<State>, n: nat, i: nat, j: nat)
    requires IsRun(run, n) && i <= j < |run| && run[i].boot.Finished?
    ensures run[j].boot.Finished?
  {
    if i < j {
      StaysFinished(run, n, i, j - 1);
      assert Next(run[j - 1], run[j - 1 + 1], n);
    }
  }

  lemma LateIsPatient(run: seq<State>, longer: seq<State>, n: nat, c: nat, d: nat)
    requires |run| > 0 && Patient(run) && run[|run| - 1].boot.Finished? && GoesOn(run, longer, n, c, d)
    ensures IsRun(longer, n) && Patient(longer)
  {
    hide IsRun;
    forall i | 0 <= i < |longer|
      ensures longer[i].calls == {} || longer[i].boot.Finished?
    {
      if i < |run| {
        assert longer[i] == run[i];
      } else {
        assert longer[|run| - 1] == run[|run| - 1];
        StaysFinished(longer, n, |run| - 1, i);
      }
    }
  }

  lemma Append(run: seq<State>, t: State, n: nat)
    requires IsRun(run, n) && Next(run[|run| - 1], t, n)
    ensures IsRun(run + [t], n)
  {
    hide Next;
  }

  lemma ByBoot(run: seq<State>, n: nat)
    requires IsRun(run, n)
    ensures IsRun(run + [BootStep(run[|run| - 1], n)], n)
  {
    Append(run, BootStep(run[|run| - 1], n), n);
  }

  lemma ByCpu(run: seq<State>, n: nat, c: nat)
    requires IsRun(run, n)
    ensures IsRun(run + [CpuStep(run[|run| - 1], c)], n)
  {
    Append(run, CpuStep(run[|run| - 1], c), n);
  }

  lemma ByTake(run: seq<State>, n: nat, d: nat)
    requires IsRun(run, n)
    ensures IsRun(run + [TakeCall(run[|run| - 1], d)], n)
  {
    Append(run, TakeCall(run[|run| - 1], d), n);
  }

  lemma ByCall(run: seq<State>, n: nat, c: nat, d: nat)
    requires IsRun(run, n)
    ensures IsRun(run + [CallStep(run[|run| - 1], c, d)], n)
  {
    Append(run, CallStep(run[|run| - 1], c, d), n);
  }

  /** A CPU at its increment makes it, with nothing in between. */
  lemma CountsItself(run: seq<State>, n: nat, d: nat) returns (longer: seq<State>)
    requires IsRun(run, n) && CpuOf(run[|run| - 1], d).Reading?
    ensures IsRun(longer, n) && run <= longer && |longer| > |run|
    ensures var s, t := run[|run| - 1], longer[|longer| - 1];
            t == s.(running := s.running + 1, cpus := s.cpus[d := Writing(s.running)][d := Started])
  {
    assert |run| > 0;
    hide IsRun;
    ByCpu(run, n, d);
    longer := run + [CpuStep(run[|run| - 1], d)];
    ByCpu(longer, n, d);
    longer := longer + [CpuStep(longer[|longer| - 1], d)];
  }

  /** The next CPU in turn has not started, and another makes the increment: the count is wrong. */
  lemma WrongCount(run: seq<State>, n: nat, d: nat) returns (longer: seq<State>)
    requires IsRun(run, n) && CpuOf(run[|run| - 1], d).Reading?
    requires d != run[|run| - 1].running + 1 && !CpuOf(run[|run| - 1], run[|run| - 1].running + 1).Started?
    ensures IsRun(longer, n) && run <= longer && |longer| > |run| && !Right(longer[|longer| - 1])
  {
    assert |run| > 0;
    hide IsRun;
    longer := CountsItself(run, n, d);
    var t := longer[|longer| - 1];
    assert CpuOf(t, t.running) == CpuOf(run[|run| - 1], t.running);
  }

  /** The CPU in turn is already in `smp_main`, and its start-up interrupt is on its way. */
  lemma StartedTwice(run: seq<State>, n: nat, d: nat) returns (longer: seq<State>)
    requires IsRun(run, n)
    requires var s := run[|run| - 1];
             s.entry.InitEntry? && s.running == d && d in s.sent && CpuOf(s, d).Started? && CpuOf(s, d + 1).Asleep?
    ensures IsRun(longer, n) && run <= longer && |longer| > |run| && !Right(longer[|longer| - 1])
  {
    assert |run| > 0;
    hide IsRun, Right;
    ByCpu(run, n, d);
    longer := run + [CpuStep(run[|run| - 1], d)];
    assert CpuOf(longer[|longer| - 1], d).Reading?;
    longer := WrongCount(longer, n, d);
  }

  /** The call finds its target asleep and next in turn: it starts early, and then once more. */
  lemma NextInTurn(run: seq<State>, n: nat, d: nat) returns (longer: seq<State>)
    requires IsRun(run, n) && d < n
    requires var s := run[|run| - 1];
             && s.entry.InitEntry? && d in s.calls && s.running + 1 == d
             && CpuOf(s, d).Asleep? && CpuOf(s, d + 1).Asleep?
             && (s.boot == Head(d) || (s.boot.Waiting? && s.boot.i + 1 == d) || d in s.sent)
    ensures IsRun(longer, n) && run <= longer && |longer| > |run| && !Right(longer[|longer| - 1])
  {
    assert |run| > 0;
    hide IsRun, Right;
    ByTake(run, n, d);
    longer := run + [TakeCall(run[|run| - 1], d)];
    longer := CountsItself(longer, n, d);
    if longer[|longer| - 1].boot.Waiting? && longer[|longer| - 1].boot.i + 1 == d {
      ByBoot(longer, n);
      longer := longer + [BootStep(longer[|longer| - 1], n)];
    }
    if d !in longer[|longer| - 1].sent {
      ByBoot(longer, n);
      longer := longer + [BootStep(longer[|longer| - 1], n)];
    }
    longer := StartedTwice(longer, n, d);
  }

  /** The call comes while its target counts itself: it counts itself again. */
  lemma WhileCounting(run: seq<State>, n: nat, d: nat) returns (longer: seq<State>)
    requires IsRun(run, n)
    requires var s := run[|run| - 1];
             && s.entry.InitEntry? && d in s.calls && s.running + 1 == d && CpuOf(s, d + 1).Asleep?
             && (CpuOf(s, d).Reading? || CpuOf(s, d) == Writing(s.running))
    ensures IsRun(longer, n) && run <= longer && |longer| > |run| && !Right(longer[|longer| - 1])
  {
    assert |run| > 0;
    hide IsRun, Right;
    if CpuOf(run[|run| - 1], d).Reading? {
      longer := CountsItself(run, n, d);
    } else {
      ByCpu(run, n, d);
      longer := run + [CpuStep(run[|run| - 1], d)];
    }
    ByTake(longer, n, d);
    longer := longer + [TakeCall(longer[|longer| - 1], d)];
    longer := WrongCount(longer, n, d);
  }

  /** Before `smp_init` is through, a call to any CPU can go wrong. */
  lemma EarlyGoesWrong(run: seq<State>, n: nat, c: nat, d: nat) returns (longer: seq<State>)
    requires IsRun(run, n) && Patient(run) && CpuOf(run[|run| - 1], c).Started? && d < n && c != d
    requires !run[|run| - 1].boot.Finished?
    ensures GoesOn(run, longer, n, c, d) && !Right(longer[|longer| - 1])
  {
    EveryRunKeeps(run, n);
    var s := run[|run| - 1];
    EarlyState(s, n, c, d);
    hide IsRun, Right, Inv, Patient;
    ByCall(run, n, c, d);
    longer := run + [CallStep(s, c, d)];
    if s.entry.Torn? {
      ByTake(longer, n, d);
      longer := longer + [TakeCall(longer[|longer| - 1], d)];
      assert CpuOf(longer[|longer| - 1], d).Misled?;
      NotRight(longer[|longer| - 1], d);
    } else if d != s.running + 1 {
      ByTake(longer, n, d);
      longer := longer + [TakeCall(longer[|longer| - 1], d)];
      longer := WrongCount(longer, n, d);
    } else if CpuOf(s, d).Asleep? {
      longer := NextInTurn(longer, n, d);
    } else {
      longer := WhileCounting(longer, n, d);
    }
  }

  lemma NotRight(s: State, c: nat)
    requires CpuOf(s, c).Misled?
    ensures !Right(s)
  {
  }

  /** Where the CPUs are when one has started and `smp_init` is not through. */
  lemma EarlyState(s: State, n: nat, c: nat, d: nat)
    requires Inv(s, n) && CpuOf(s, c).Started? && d < n && c != d && !s.boot.Finished?
    ensures s.calls == {} && !s.entry.IpiEntry?
    ensures s.entry.Torn? ==> CpuOf(s, d).Started? || CpuOf(s, d).Asleep?
    ensures !CpuOf(s, s.running + 1).Started? && CpuOf(s, s.running + 2).Asleep?
    ensures d != s.running + 1 ==> CpuOf(s, d).Started? || CpuOf(s, d).Asleep?
    ensures s.entry.InitEntry? && d == s.running + 1 ==>
              && (CpuOf(s, d).Asleep? || CpuOf(s, d).Reading? || CpuOf(s, d) == Writing(s.running))
              && (CpuOf(s, d).Asleep? ==> s.boot == Head(d) || (s.boot.Waiting? && s.boot.i + 1 == d) || d in s.sent)
  {
  }

  /** With two CPUs or more there is a run in which an early call goes wrong. */
  lemma TooEarly(n: nat) returns (longer: seq<State>)
    requires n >= 2
    ensures IsRun(longer, n) && !Right(longer[|longer| - 1])
  {
    var s0 := State(Start, 0, InitEntry, {}, {}, map[]);
    var s1 := BootStep(s0, n);
    var s2 := BootStep(s1, n);
    var s3 := BootStep(s2, n);
    var s4 := CpuStep(s3, 1);
    var s5 := CpuStep(s4, 1);
    var s6 := CpuStep(s5, 1);
    var run := [s0, s1, s2, s3, s4, s5, s6];
    assert CpuOf(s3, 1).Asleep? && CpuOf(s4, 1).Reading? && CpuOf(s6, 1).Started?;
    assert forall i | 0 <= i < |run| - 1 :: Next(run[i], run[i + 1], n);
    longer := EarlyGoesWrong(run, n, 1, 0);
  }

  // ---------- Every start-up can be made ----------

  /** CPU `i` is started and counted, with nothing in between. */
  lemma StartsOne(run: seq<State>, n: nat, i: nat) returns (longer: seq<State>)
    requires IsRun(run, n) && Patient(run) && 1 <= i < n && run[|run| - 1].boot == Head(i)
    ensures IsRun(longer, n) && Patient(longer) && longer[|longer| - 1].boot == Head(i + 1)
  {
    EveryRunKeeps(run, n);
    var s0 := run[|run| - 1];
    assert s0.running == i - 1 && s0.calls == {} && CpuOf(s0, i).Asleep? && s0.entry.InitEntry?;
    hide Inv;
    var s1 := BootStep(s0, n);
    var s2 := CpuStep(s1, i);
    var s3 := CpuStep(s2, i);
    var s4 := CpuStep(s3, i);
    var s5 := BootStep(s4, n);
    assert CpuOf(s2, i).Reading? && CpuOf(s3, i) == Writing(i - 1) && s4.running == i;
    longer := Quietly(run, s1, n);
    longer := Quietly(longer, s2, n);
    longer := Quietly(longer, s3, n);
    longer := Quietly(longer, s4, n);
    longer := Quietly(longer, s5, n);
  }

  lemma Quietly(run: seq<State>, t: State, n: nat) returns (longer: seq<State>)
    requires IsRun(run, n) && Patient(run) && Next(run[|run| - 1], t, n) && (t.calls == {} || t.boot.Finished?)
    ensures IsRun(longer, n) && Patient(longer) && longer[|longer| - 1] == t
  {
    hide Next;
    longer := run + [t];
  }

  lemma {:induction false} StartsUpTo(n: nat, i: nat) returns (run: seq<State>)
    requires 1 <= i && (i <= n || i == 1)
    ensures IsRun(run, n) && Patient(run) && run[|run| - 1].boot == Head(i)
    decreases i
  {
    if i == 1 {
      var s := State(Start, 0, InitEntry, {}, {}, map[]);
      run := Quietly([s], BootStep(s, n), n);
      run := Quietly(run, BootStep(run[|run| - 1], n), n);
    } else {
      run := StartsUpTo(n, i - 1);
      run := StartsOne(run, n, i - 1);
    }
  }

  /** On a machine of any number of CPUs `smp_init` can run to its end, and every CPU is then started. */
  lemma StartsAll(n: nat) returns (run: seq<State>)
    ensures IsRun(run, n) && Patient(run) && run[|run| - 1].boot.Finished?
    ensures var s := run[|run| - 1]; forall c: nat | 1 <= c < n :: CpuOf(s, c).Started?
  {
    run := StartsUpTo(n, if n == 0 then 1 else n);
    EveryRunKeeps(run, n);
    var s := run[|run| - 1];
    assert s.calls == {};
    run := Quietly(run, BootStep(s, n), n);
    run := Quietly(run, BootStep(BootStep(s, n), n), n);
    EveryRunKeeps(run, n);
  }
}
