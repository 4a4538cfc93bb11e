/** Locks and the VMCS, for any number of threads issuing ioctls on any number of processors:
    the lock order of `kvm_dev_ioctl`, `LOAD_VMCS` and `RELEASE_VMCS`, and the launch state the
    processor keeps for each VMCS (section 24.1 of the Intel SDM, volume 3C).

    A thread that holds a spinlock is neither preempted nor moved, so no other thread runs on
    its processor meanwhile. */
module VmcsLocks {
  import opened Wrappers

  /** One of the two locks of a process: the ioctl lock or, for `KVM_IRQ_LINE`, the irq lock. */
  datatype Key = Key(process: nat, irq: bool)

  /** Where a thread is in an ioctl. `vcpu` is what it read from the process state before it
      took the process lock. */
  datatype Pc =
    | Idle
    | WantState(key: Key)
    | HasState(key: Key)
    | Found(key: Key)
    | WantMutex(key: Key, vcpu: Option<nat>)
    | Body(key: Key, vcpu: Option<nat>)
    | Creating(key: Key, v: nat)           // allocated, its VMCS not yet cleared
    | WantSpin(key: Key, v: nat)
    | HasSpin(key: Key, v: nat)
    | Loaded(key: Key, v: nat, ran: bool)  // VMCS current; `ran` once the guest was launched
    | Cleared(key: Key, v: nat)

  datatype Launch = Unknown | Clear | Launched

  datatype State = State(
    pcs: map<nat, Pc>,
    stateLock: Option<nat>,
    mutexes: map<Key, nat>,     // held process locks and their holders
    spins: map<nat, nat>,       // held vcpu spinlocks and their holders
    vcpuOf: map<nat, nat>,      // state->vcpu
    home: map<nat, nat>,        // process a vcpu was created for
    launch: map<nat, Launch>,   // of the VMCS of each vcpu
    current: map<nat, nat>,     // processor to the vcpu whose VMCS is current there
    cpuOf: map<nat, nat>)       // processor a thread with a spinlock runs on

  function PcOf(s: State, t: nat): Pc {
    if t in s.pcs then s.pcs[t] else Idle
  }

  predicate HoldsMutex(pc: Pc) {
    pc.Body? || pc.Creating? || pc.WantSpin? || pc.HasSpin? || pc.Loaded? || pc.Cleared?
  }

  predicate HoldsSpin(pc: Pc) {
    pc.HasSpin? || pc.Loaded? || pc.Cleared?
  }

  ghost predicate Init(s: State) {
    s == State(map[], None, map[], map[], map[], map[], map[], map[], map[])
  }

  /** Thread `t` can be executing on processor `c`. */
  ghost predicate RunsOn(s: State, t: nat, c: nat) {
    && (HoldsSpin(PcOf(s, t)) ==> t in s.cpuOf && s.cpuOf[t] == c)
    && (forall u | u in s.pcs && u != t && HoldsSpin(s.pcs[u]) :: u in s.cpuOf && s.cpuOf[u] != c)
  }

  datatype Act =
    | Call(key: Key) | TakeState | ReleaseState | ReadVcpu | TakeMutex | Create(v: nat) | ClearNew | Begin | TakeSpin
    | Vmptrld | Access | Vmlaunch | Vmfail | Vmclear | Unspin | ReleaseMutex

  /** What thread `t`, on processor `c`, may do next. */
  ghost predicate Enabled(s: State, t: nat, c: nat, a: Act) {
    && RunsOn(s, t, c)
    && var pc := PcOf(s, t);
       match a
       case Call(_) => pc.Idle?
       case TakeState => pc.WantState? && s.stateLock == None
       case ReleaseState => pc.HasState?
       case ReadVcpu => pc.Found?
       case TakeMutex => pc.WantMutex? && pc.key !in s.mutexes
       case Create(v) => pc.Body? && !pc.key.irq && v !in s.home
       case ClearNew => pc.Creating?
       case Begin => pc.Body? && !pc.key.irq && pc.vcpu.Some?
       case TakeSpin => pc.WantSpin? && pc.v !in s.spins
       case Vmptrld => pc.HasSpin?
       case Access => pc.Loaded?
       case Vmlaunch => pc.Loaded? && !pc.ran
       case Vmfail => pc.Loaded? && !pc.ran
       case Vmclear => pc.Loaded?
       case Unspin => pc.Cleared?
       case ReleaseMutex => pc.Body?
  }

  /** Acts that change neither locks nor the launch state: an access, and a launch that fails
      (section 26.1 of the Intel SDM, volume 3C). */
  predicate Still(a: Act) {
    a.Access? || a.Vmfail?
  }

  /** Its effect. `found` tells whether the process state exists. */
  ghost function Do(s: State, t: nat, c: nat, a: Act, found: bool): State
    requires Enabled(s, t, c, a)
  {
    var pc := PcOf(s, t);
    match a
    case Call(key) => s.(pcs := s.pcs[t := WantState(key)])
    case TakeState => s.(pcs := s.pcs[t := HasState(pc.key)], stateLock := Some(t))
    case ReleaseState => s.(pcs := s.pcs[t := if found then Found(pc.key) else Idle], stateLock := None)
    case ReadVcpu =>
      var vcpu := if pc.key.process in s.vcpuOf then Some(s.vcpuOf[pc.key.process]) else None;
      s.(pcs := s.pcs[t := WantMutex(pc.key, vcpu)])
    case TakeMutex => s.(pcs := s.pcs[t := Body(pc.key, pc.vcpu)], mutexes := s.mutexes[pc.key := t])
    case Create(v) =>
      s.(pcs := s.pcs[t := Creating(pc.key, v)], vcpuOf := s.vcpuOf[pc.key.process := v],
         home := s.home[v := pc.key.process], launch := s.launch[v := Unknown])
    case ClearNew => s.(pcs := s.pcs[t := WantSpin(pc.key, pc.v)], launch := s.launch[pc.v := Clear])
    case Begin => s.(pcs := s.pcs[t := WantSpin(pc.key, pc.vcpu.value)])
    case TakeSpin =>
      s.(pcs := s.pcs[t := HasSpin(pc.key, pc.v)], spins := s.spins[pc.v := t], cpuOf := s.cpuOf[t := c])
    case Vmptrld => s.(pcs := s.pcs[t := Loaded(pc.key, pc.v, false)], current := s.current[c := pc.v])
    case Access => s
    case Vmlaunch => s.(pcs := s.pcs[t := Loaded(pc.key, pc.v, true)], launch := s.launch[pc.v := Launched])
    case Vmfail => s
    case Vmclear =>
      s.(pcs := s.pcs[t := Cleared(pc.key, pc.v)], launch := s.launch[pc.v := Clear],
         current := if c in s.current && s.current[c] == pc.v then s.current - {c} else s.current)
    case Unspin => s.(pcs := s.pcs[t := Body(pc.key, Some(pc.v))], spins := s.spins - {pc.v})
    case ReleaseMutex => s.(pcs := s.pcs[t := Idle], mutexes := s.mutexes - {pc.key})
  }

  /** `kvm_dev_close` for the last open of process `p`, which the code assumes not to run with an
      ioctl of that process in progress. */
  ghost predicate CanClose(s: State, p: nat) {
    s.stateLock == None && forall t | t in s.pcs :: s.pcs[t].Idle? || s.pcs[t].key.process != p
  }

  /** The vcpu of the process is freed with its VMCS. */
  ghost function Closed(s: State, p: nat): State {
    if p in s.vcpuOf
    then s.(vcpuOf := s.vcpuOf - {p}, home := s.home - {s.vcpuOf[p]}, launch := s.launch - {s.vcpuOf[p]})
    else s
  }

  // ---------- What every step keeps ----------

  /** A lock is held exactly by the thread whose place in the code says so. */
  ghost predicate StateLock(s: State) {
    && (forall t | t in s.pcs :: s.pcs[t].HasState? <==> s.stateLock == Some(t))
    && (s.stateLock.Some? ==> s.stateLock.value in s.pcs)
  }

  ghost predicate Mutexes(s: State) {
    && (forall t | t in s.pcs && HoldsMutex(s.pcs[t]) :: s.pcs[t].key in s.mutexes && s.mutexes[s.pcs[t].key] == t)
    && (forall k | k in s.mutexes ::
          s.mutexes[k] in s.pcs && HoldsMutex(s.pcs[s.mutexes[k]]) && s.pcs[s.mutexes[k]].key == k)
  }

  ghost predicate Spins(s: State) {
    && (forall t | t in s.pcs && HoldsSpin(s.pcs[t]) :: s.pcs[t].v in s.spins && s.spins[s.pcs[t].v] == t)
    && (forall v | v in s.spins ::
          s.spins[v] in s.pcs && HoldsSpin(s.pcs[s.spins[v]]) && s.pcs[s.spins[v]].v == v)
  }

  /** Threads with a spinlock run on processors of their own. */
  ghost predicate Pinned(s: State) {
    && (forall t | t in s.pcs && HoldsSpin(s.pcs[t]) :: t in s.cpuOf)
    && (forall t, u | t in s.pcs && u in s.pcs && HoldsSpin(s.pcs[t]) && HoldsSpin(s.pcs[u]) && t != u ::
          s.cpuOf[t] != s.cpuOf[u])
  }

  /** A VMCS is current exactly on the processor of the thread that loaded it. */
  ghost predicate Currency(s: State)
    requires Spins(s) && Pinned(s)
  {
    && (forall t | t in s.pcs && s.pcs[t].Loaded? :: s.cpuOf[t] in s.current && s.current[s.cpuOf[t]] == s.pcs[t].v)
    && (forall c | c in s.current ::
          && s.current[c] in s.spins && s.pcs[s.spins[s.current[c]]].Loaded?
          && s.cpuOf[s.spins[s.current[c]]] == c)
  }

  /** A vcpu is used only under the ioctl lock of the process it was created for. */
  ghost predicate Homes(s: State) {
    && s.launch.Keys == s.home.Keys
    && (forall p | p in s.vcpuOf :: s.vcpuOf[p] in s.home && s.home[s.vcpuOf[p]] == p)
    && (forall t | t in s.pcs :: AtHome(s, s.pcs[t]))
  }

  ghost predicate AtHome(s: State, pc: Pc) {
    match pc
    case WantMutex(k, v) => v.Some? ==> v.value in s.home && s.home[v.value] == k.process
    case Body(k, v) => v.Some? ==> v.value in s.home && s.home[v.value] == k.process
    case Creating(k, v) => !k.irq && v in s.home && s.home[v] == k.process
    case WantSpin(k, v) => !k.irq && v in s.home && s.home[v] == k.process
    case HasSpin(k, v) => !k.irq && v in s.home && s.home[v] == k.process
    case Loaded(k, v, _) => !k.irq && v in s.home && s.home[v] == k.process
    case Cleared(k, v) => !k.irq && v in s.home && s.home[v] == k.process
    case _ => true
  }

  /** Outside a session the launch state is "clear", once the VMCS has been initialized. */
  ghost predicate LaunchStates(s: State)
    requires Homes(s)
  {
    forall v | v in s.launch :: LaunchState(s, v)
  }

  ghost predicate LaunchState(s: State, v: nat)
    requires v in s.launch && v in s.home
  {
    match s.launch[v]
    case Clear => Fresh(s, v)
    case Launched => v in s.spins && s.spins[v] in s.pcs && s.pcs[s.spins[v]].Loaded? && s.pcs[s.spins[v]].ran
    case Unknown =>
      var k := Key(s.home[v], false);
      k in s.mutexes && s.mutexes[k] in s.pcs && s.pcs[s.mutexes[k]] == Creating(k, v)
  }

  /** Not launched by whoever has it loaded. */
  ghost predicate Fresh(s: State, v: nat) {
    v in s.spins && s.spins[v] in s.pcs && s.pcs[s.spins[v]].Loaded? ==> !s.pcs[s.spins[v]].ran
  }

  ghost predicate Inv(s: State) {
    StateLock(s) && Mutexes(s) && Spins(s) && Pinned(s) && Currency(s) && Homes(s) && LaunchStates(s)
  }

  /** Acts of a thread that holds no spinlock and takes none. */
  predicate Outside(a: Act) {
    || a.Call? || a.TakeState? || a.ReleaseState? || a.ReadVcpu? || a.TakeMutex?
    || a.Create? || a.ClearNew? || a.Begin? || a.ReleaseMutex?
  }

  lemma StateLockKept(s: State, t: nat, c: nat, a: Act, found: bool)
    requires StateLock(s) && Enabled(s, t, c, a)
    ensures StateLock(Do(s, t, c, a, found))
  {
    hide RunsOn;
  }

  /** A step that neither takes nor releases a process lock. */
  lemma MutexesFrame(s: State, s': State, t: nat, pc: Pc)
    requires Mutexes(s) && s'.mutexes == s.mutexes && s'.pcs == s.pcs[t := pc]
    requires HoldsMutex(pc) == HoldsMutex(PcOf(s, t)) && (HoldsMutex(pc) ==> pc.key == PcOf(s, t).key)
    ensures Mutexes(s')
  {
  }

  lemma MutexTaken(s: State, t: nat, c: nat, found: bool)
    requires Mutexes(s) && Enabled(s, t, c, TakeMutex)
    ensures Mutexes(Do(s, t, c, TakeMutex, found))
  {
    hide RunsOn;
  }

  lemma MutexReleased(s: State, t: nat, c: nat, found: bool)
    requires Mutexes(s) && Enabled(s, t, c, ReleaseMutex)
    ensures Mutexes(Do(s, t, c, ReleaseMutex, found))
  {
    hide RunsOn;
  }

  lemma MutexesSame(s: State, t: nat, c: nat, a: Act, found: bool)
    requires Mutexes(s) && Enabled(s, t, c, a) && !a.TakeMutex? && !a.ReleaseMutex? && !Still(a)
    ensures Mutexes(Do(s, t, c, a, found))
  {
    hide RunsOn, Mutexes;
    var s' := Do(s, t, c, a, found);
    MutexesFrame(s, s', t, s'.pcs[t]);
  }

  lemma MutexesKept(s: State, t: nat, c: nat, a: Act, found: bool)
    requires Mutexes(s) && Enabled(s, t, c, a)
    ensures Mutexes(Do(s, t, c, a, found))
  {
    hide Enabled, Mutexes;
    if a.TakeMutex? {
      MutexTaken(s, t, c, found);
    } else if a.ReleaseMutex? {
      MutexReleased(s, t, c, found);
    } else if !Still(a) {
      MutexesSame(s, t, c, a, found);
    }
  }

  lemma SpinsFrame(s: State, s': State, t: nat, pc: Pc)
    requires Spins(s) && s'.spins == s.spins && s'.pcs == s.pcs[t := pc]
    requires HoldsSpin(pc) == HoldsSpin(PcOf(s, t)) && (HoldsSpin(pc) ==> pc.v == PcOf(s, t).v)
    ensures Spins(s')
  {
  }

  lemma SpinTaken(s: State, t: nat, c: nat, found: bool)
    requires Spins(s) && Enabled(s, t, c, TakeSpin)
    ensures Spins(Do(s, t, c, TakeSpin, found))
  {
    hide RunsOn;
  }

  lemma SpinReleased(s: State, t: nat, c: nat, found: bool)
    requires Spins(s) && Enabled(s, t, c, Unspin)
    ensures Spins(Do(s, t, c, Unspin, found))
  {
    hide RunsOn;
  }

  lemma SpinsSame(s: State, t: nat, c: nat, a: Act, found: bool)
    requires Spins(s) && Enabled(s, t, c, a) && !a.TakeSpin? && !a.Unspin? && !Still(a)
    ensures Spins(Do(s, t, c, a, found))
  {
    hide RunsOn, Spins;
    var s' := Do(s, t, c, a, found);
    SpinsFrame(s, s', t, s'.pcs[t]);
  }

  lemma SpinsKept(s: State, t: nat, c: nat, a: Act, found: bool)
    requires Spins(s) && Enabled(s, t, c, a)
    ensures Spins(Do(s, t, c, a, found))
  {
    hide Enabled, Spins;
    if a.TakeSpin? {
      SpinTaken(s, t, c, found);
    } else if a.Unspin? {
      SpinReleased(s, t, c, found);
    } else if !Still(a) {
      SpinsSame(s, t, c, a, found);
    }
  }

  lemma PinnedFrame(s: State, s': State, t: nat, pc: Pc)
    requires Pinned(s) && s'.cpuOf == s.cpuOf && s'.pcs == s.pcs[t := pc]
    requires HoldsSpin(pc) ==> HoldsSpin(PcOf(s, t))
    ensures Pinned(s')
  {
  }

  lemma PinnedTaken(s: State, t: nat, c: nat, found: bool)
    requires Pinned(s) && Enabled(s, t, c, TakeSpin)
    ensures Pinned(Do(s, t, c, TakeSpin, found))
  {
  }

  lemma PinnedSame(s: State, t: nat, c: nat, a: Act, found: bool)
    requires Pinned(s) && Enabled(s, t, c, a) && !a.TakeSpin? && !Still(a)
    ensures Pinned(Do(s, t, c, a, found))
  {
    hide RunsOn, Pinned;
    var s' := Do(s, t, c, a, found);
    PinnedFrame(s, s', t, s'.pcs[t]);
  }

  lemma PinnedKept(s: State, t: nat, c: nat, a: Act, found: bool)
    requires Pinned(s) && Enabled(s, t, c, a)
    ensures Pinned(Do(s, t, c, a, found))
  {
    hide Enabled, Pinned;
    if a.TakeSpin? {
      PinnedTaken(s, t, c, found);
    } else if !Still(a) {
      PinnedSame(s, t, c, a, found);
    }
  }

  /** A step of a thread that has no VMCS loaded and loads none. */
  lemma CurrencyFrame(s: State, s': State, t: nat, pc: Pc)
    requires Spins(s) && Pinned(s) && Currency(s) && Spins(s') && Pinned(s')
    requires s'.current == s.current && s'.pcs == s.pcs[t := pc] && !pc.Loaded? && !PcOf(s, t).Loaded?
    requires forall u | u in s.pcs && s.pcs[u].Loaded? :: u in s'.cpuOf && s'.cpuOf[u] == s.cpuOf[u]
    requires forall v | v in s.spins && s.pcs[s.spins[v]].Loaded? :: v in s'.spins && s'.spins[v] == s.spins[v]
    ensures Currency(s')
  {
  }

  lemma CurrencyOutside(s: State, t: nat, c: nat, a: Act, found: bool)
    requires Spins(s) && Pinned(s) && Currency(s) && Enabled(s, t, c, a)
    requires Outside(a) || a.TakeSpin? || a.Unspin?
    ensures Spins(Do(s, t, c, a, found)) && Pinned(Do(s, t, c, a, found)) && Currency(Do(s, t, c, a, found))
  {
    hide Currency, RunsOn;
    SpinsKept(s, t, c, a, found);
    PinnedKept(s, t, c, a, found);
    var s' := Do(s, t, c, a, found);
    CurrencyFrame(s, s', t, s'.pcs[t]);
  }

  lemma RunsPinned(s: State, t: nat, c: nat)
    requires RunsOn(s, t, c) && HoldsSpin(PcOf(s, t))
    ensures t in s.cpuOf && s.cpuOf[t] == c
  {
  }

  /** `t`, on a processor of its own, loads a VMCS, launches it or clears it. */
  lemma CurrencyMoves(s: State, s': State, t: nat, c: nat, pc: Pc)
    requires Spins(s) && Pinned(s) && Currency(s) && Spins(s') && Pinned(s')
    requires HoldsSpin(PcOf(s, t)) && t in s.cpuOf && s.cpuOf[t] == c
    requires s'.pcs == s.pcs[t := pc] && HoldsSpin(pc) && pc.v == PcOf(s, t).v && s'.spins == s.spins
    requires s'.cpuOf == s.cpuOf
    requires s'.current == if pc.Loaded? then s.current[c := pc.v] else s.current - {c}
    ensures Currency(s')
  {
    forall u | u in s'.pcs && s'.pcs[u].Loaded?
      ensures s'.cpuOf[u] in s'.current && s'.current[s'.cpuOf[u]] == s'.pcs[u].v
    {
      assert u != t ==> s.cpuOf[u] != c;
    }
  }

  lemma CurrencyLoaded(s: State, t: nat, c: nat, a: Act, found: bool)
    requires Spins(s) && Pinned(s) && Currency(s) && Enabled(s, t, c, a)
    requires a.Vmptrld? || a.Vmlaunch? || a.Vmclear?
    ensures Spins(Do(s, t, c, a, found)) && Pinned(Do(s, t, c, a, found)) && Currency(Do(s, t, c, a, found))
  {
    hide RunsOn, Spins, Pinned, Currency;
    RunsPinned(s, t, c);
    LoadedIsCurrent(s, t);
    SpinsKept(s, t, c, a, found);
    PinnedKept(s, t, c, a, found);
    var s' := Do(s, t, c, a, found);
    CurrencyMoves(s, s', t, c, s'.pcs[t]);
  }

  lemma LoadedIsCurrent(s: State, t: nat)
    requires Spins(s) && Pinned(s) && Currency(s) && HoldsSpin(PcOf(s, t))
    ensures t in s.pcs && t in s.cpuOf
    ensures s.pcs[t].Loaded? ==> s.cpuOf[t] in s.current && s.current[s.cpuOf[t]] == s.pcs[t].v
  {
  }

  lemma CurrencyKept(s: State, t: nat, c: nat, a: Act, found: bool)
    requires Spins(s) && Pinned(s) && Currency(s) && Enabled(s, t, c, a)
    ensures Spins(Do(s, t, c, a, found)) && Pinned(Do(s, t, c, a, found)) && Currency(Do(s, t, c, a, found))
  {
    hide Spins, Pinned, Currency, Enabled;
    if Outside(a) || a.TakeSpin? || a.Unspin? {
      CurrencyOutside(s, t, c, a, found);
    } else if a.Vmptrld? || a.Vmlaunch? || a.Vmclear? {
      CurrencyLoaded(s, t, c, a, found);
    }
  }

  lemma AtHomeKept(s: State, s': State, pc: Pc)
    requires AtHome(s, pc) && (forall v | v in s.home :: v in s'.home && s'.home[v] == s.home[v])
    ensures AtHome(s', pc)
  {
  }

  lemma MovedHome(s: State, t: nat, c: nat, a: Act, found: bool)
    requires Homes(s) && Enabled(s, t, c, a) && !Still(a)
    ensures AtHome(Do(s, t, c, a, found), Do(s, t, c, a, found).pcs[t])
  {
    hide RunsOn;
    assert t in s.pcs ==> AtHome(s, s.pcs[t]);
  }

  lemma VcpuKnown(s: State, t: nat)
    requires Homes(s)
    ensures var pc := PcOf(s, t); pc.Creating? || pc.WantSpin? || HoldsSpin(pc) ==> pc.v in s.home
  {
    assert t in s.pcs ==> AtHome(s, s.pcs[t]);
  }

  /** No step takes a vcpu from its process. */
  lemma HomeStays(s: State, t: nat, c: nat, a: Act, found: bool)
    requires Homes(s) && Enabled(s, t, c, a)
    ensures var s' := Do(s, t, c, a, found); forall v | v in s.home :: v in s'.home && s'.home[v] == s.home[v]
    ensures Do(s, t, c, a, found).launch.Keys == Do(s, t, c, a, found).home.Keys
  {
    hide RunsOn, AtHome;
    VcpuKnown(s, t);
  }

  lemma VcpuStays(s: State, t: nat, c: nat, a: Act, found: bool)
    requires Homes(s) && Enabled(s, t, c, a)
    ensures var s' := Do(s, t, c, a, found);
            forall p | p in s'.vcpuOf :: s'.vcpuOf[p] in s'.home && s'.home[s'.vcpuOf[p]] == p
  {
    hide RunsOn, AtHome;
  }

  lemma OtherPcs(s: State, t: nat, c: nat, a: Act, found: bool, u: nat)
    requires Enabled(s, t, c, a) && u in Do(s, t, c, a, found).pcs && (u != t || Still(a))
    ensures u in s.pcs && Do(s, t, c, a, found).pcs[u] == s.pcs[u]
  {
    hide Enabled, Do;
    OwnPc(s, t, c, a, found);
  }

  lemma HomesKept(s: State, t: nat, c: nat, a: Act, found: bool)
    requires Homes(s) && Enabled(s, t, c, a)
    ensures Homes(Do(s, t, c, a, found))
  {
    hide Enabled, Do, AtHome;
    HomeStays(s, t, c, a, found);
    VcpuStays(s, t, c, a, found);
    var s' := Do(s, t, c, a, found);
    forall u | u in s'.pcs
      ensures AtHome(s', s'.pcs[u])
    {
      if u == t && !Still(a) {
        MovedHome(s, t, c, a, found);
      } else {
        OtherPcs(s, t, c, a, found, u);
        AtHomeKept(s, s', s.pcs[u]);
      }
    }
  }

  /** A step that concerns neither the spinlock of `v` nor its creation. */
  lemma LaunchFrame(s: State, s': State, t: nat, pc: Pc, v: nat)
    requires v in s.launch && v in s.home && LaunchState(s, v)
    requires v in s'.launch && v in s'.home && s'.launch[v] == s.launch[v] && s'.home[v] == s.home[v]
    requires s'.pcs == s.pcs[t := pc] && (v in s'.spins <==> v in s.spins)
    requires v in s.spins ==> s'.spins[v] == s.spins[v] != t
    requires var k := Key(s.home[v], false);
             s.launch[v].Unknown? && k in s.mutexes ==> k in s'.mutexes && s'.mutexes[k] == s.mutexes[k] != t
    ensures LaunchState(s', v)
  {
  }

  /** Nobody else is in the process lock's section while `v` is being created. */
  lemma CreatorAlone(s: State, t: nat, v: nat)
    requires Mutexes(s) && Spins(s) && Homes(s) && t in s.pcs && s.pcs[t].Creating? && s.pcs[t].v == v
    ensures v !in s.spins
  {
  }

  lemma LaunchUnknown(s: State, v: nat)
    requires v in s.launch && v in s.home && LaunchState(s, v) && s.launch[v].Unknown?
    ensures var k := Key(s.home[v], false);
            k in s.mutexes && s.mutexes[k] in s.pcs && s.pcs[s.mutexes[k]] == Creating(k, v)
  {
  }

  /** A lock or unlock by a thread that is not creating `v` leaves its creator alone. */
  lemma CreatorStays(s: State, t: nat, c: nat, a: Act, found: bool, v: nat)
    requires Mutexes(s) && v in s.launch && v in s.home && LaunchState(s, v) && s.launch[v].Unknown?
    requires Enabled(s, t, c, a) && !(PcOf(s, t).Creating? && PcOf(s, t).v == v)
    ensures var k, s' := Key(s.home[v], false), Do(s, t, c, a, found);
            k in s.mutexes && k in s'.mutexes && s'.mutexes[k] == s.mutexes[k] != t
  {
    hide RunsOn, LaunchState;
    LaunchUnknown(s, v);
  }

  /** A step of a thread that is not at `v` leaves its launch state and its spinlock alone. */
  lemma OtherVcpu(s: State, t: nat, c: nat, a: Act, found: bool, v: nat)
    requires Spins(s) && v in s.launch && v in s.home && Enabled(s, t, c, a)
    requires var pc := PcOf(s, t); !((pc.Creating? || pc.WantSpin? || HoldsSpin(pc)) && pc.v == v)
    ensures var s' := Do(s, t, c, a, found);
            && v in s'.launch && v in s'.home && s'.launch[v] == s.launch[v] && s'.home[v] == s.home[v]
            && (v in s'.spins <==> v in s.spins) && (v in s.spins ==> s'.spins[v] == s.spins[v] != t)
  {
    hide RunsOn;
  }

  lemma OwnPc(s: State, t: nat, c: nat, a: Act, found: bool)
    requires Enabled(s, t, c, a)
    ensures var s' := Do(s, t, c, a, found);
            if Still(a) then s' == s else t in s'.pcs && s'.pcs == s.pcs[t := s'.pcs[t]]
  {
    hide RunsOn;
  }

  lemma LaunchStateOther(s: State, t: nat, c: nat, a: Act, found: bool, v: nat)
    requires Mutexes(s) && Spins(s) && v in s.launch && v in s.home && LaunchState(s, v) && Enabled(s, t, c, a)
    requires var pc := PcOf(s, t); !((pc.Creating? || pc.WantSpin? || HoldsSpin(pc)) && pc.v == v)
    ensures v in Do(s, t, c, a, found).launch && v in Do(s, t, c, a, found).home
    ensures LaunchState(Do(s, t, c, a, found), v)
  {
    hide Enabled, Do, LaunchState, Mutexes, Spins;
    OtherVcpu(s, t, c, a, found, v);
    OwnPc(s, t, c, a, found);
    if s.launch[v].Unknown? {
      CreatorStays(s, t, c, a, found, v);
    }
    if !Still(a) {
      var s' := Do(s, t, c, a, found);
      LaunchFrame(s, s', t, s'.pcs[t], v);
    }
  }

  lemma LaunchStateOwn(s: State, t: nat, c: nat, a: Act, found: bool, v: nat)
    requires Spins(s) && v in s.launch && v in s.home && LaunchState(s, v) && !s.launch[v].Unknown?
    requires Enabled(s, t, c, a)
    requires var pc := PcOf(s, t); (pc.WantSpin? || HoldsSpin(pc)) && pc.v == v
    ensures v in Do(s, t, c, a, found).launch && v in Do(s, t, c, a, found).home
    ensures LaunchState(Do(s, t, c, a, found), v)
  {
    hide RunsOn;
  }

  lemma LaunchStateNew(s: State, t: nat, c: nat, a: Act, found: bool, v: nat)
    requires Mutexes(s) && Spins(s) && Homes(s) && v in s.launch && LaunchState(s, v) && Enabled(s, t, c, a)
    requires PcOf(s, t).Creating? && PcOf(s, t).v == v
    ensures v in Do(s, t, c, a, found).launch && v in Do(s, t, c, a, found).home
    ensures LaunchState(Do(s, t, c, a, found), v)
  {
    CreatorAlone(s, t, v);
    hide RunsOn, Mutexes, Spins, AtHome;
  }

  /** A vcpu in use has been initialized. */
  lemma InUseIsKnown(s: State, t: nat, v: nat)
    requires Mutexes(s) && Homes(s) && v in s.launch && LaunchState(s, v) && t in s.pcs
    requires (s.pcs[t].WantSpin? || HoldsSpin(s.pcs[t])) && s.pcs[t].v == v
    ensures !s.launch[v].Unknown?
  {
    assert AtHome(s, s.pcs[t]);
  }

  lemma LaunchStateKept(s: State, t: nat, c: nat, a: Act, found: bool, v: nat)
    requires Mutexes(s) && Spins(s) && Homes(s) && v in s.launch && LaunchState(s, v) && Enabled(s, t, c, a)
    ensures v in Do(s, t, c, a, found).launch && v in Do(s, t, c, a, found).home
    ensures LaunchState(Do(s, t, c, a, found), v)
  {
    hide Mutexes, Spins, LaunchState, Enabled, Do, AtHome;
    var pc := PcOf(s, t);
    if pc.Creating? && pc.v == v {
      LaunchStateNew(s, t, c, a, found, v);
    } else if (pc.WantSpin? || HoldsSpin(pc)) && pc.v == v {
      InUseIsKnown(s, t, v);
      LaunchStateOwn(s, t, c, a, found, v);
    } else {
      LaunchStateOther(s, t, c, a, found, v);
    }
  }

  lemma NewLaunchState(s: State, t: nat, c: nat, v: nat, found: bool)
    requires Mutexes(s) && Spins(s) && Homes(s) && Enabled(s, t, c, Create(v))
    ensures v in Do(s, t, c, Create(v), found).launch && v in Do(s, t, c, Create(v), found).home
    ensures LaunchState(Do(s, t, c, Create(v), found), v)
  {
    hide RunsOn;
  }

  lemma LaunchStatesKept(s: State, t: nat, c: nat, a: Act, found: bool)
    requires Mutexes(s) && Spins(s) && Homes(s) && LaunchStates(s) && Enabled(s, t, c, a)
    ensures Homes(Do(s, t, c, a, found)) && LaunchStates(Do(s, t, c, a, found))
  {
    hide RunsOn, LaunchState, Mutexes, Spins;
    HomesKept(s, t, c, a, found);
    forall v | v in Do(s, t, c, a, found).launch
      ensures LaunchState(Do(s, t, c, a, found), v)
    {
      if v in s.launch {
        LaunchStateKept(s, t, c, a, found, v);
      } else {
        NewLaunchState(s, t, c, v, found);
      }
    }
  }

  lemma StepKeeps(s: State, t: nat, c: nat, a: Act, found: bool)
    requires Inv(s) && Enabled(s, t, c, a)
    ensures Inv(Do(s, t, c, a, found))
  {
    hide StateLock, Mutexes, Spins, Pinned, Currency, Homes, LaunchStates, Do, Enabled;
    StateLockKept(s, t, c, a, found);
    MutexesKept(s, t, c, a, found);
    CurrencyKept(s, t, c, a, found);
    LaunchStatesKept(s, t, c, a, found);
  }

  /** What closing frees is in nobody's hands, and current nowhere. */
  lemma ClosedUnused(s: State, p: nat)
    requires Inv(s) && CanClose(s, p) && p in s.vcpuOf
    ensures s.vcpuOf[p] !in s.spins && forall c | c in s.current :: s.current[c] != s.vcpuOf[p]
  {
    hide LaunchStates;
    var v := s.vcpuOf[p];
    assert v in s.spins ==> AtHome(s, s.pcs[s.spins[v]]);
  }

  lemma CloseLaunchStates(s: State, p: nat)
    requires Homes(s) && LaunchStates(s) && Homes(Closed(s, p))
    ensures LaunchStates(Closed(s, p))
  {
    hide Homes;
    forall v | v in Closed(s, p).launch
      ensures v in Closed(s, p).home && LaunchState(Closed(s, p), v)
    {
      HomesKeys(s);
      assert LaunchState(s, v);
    }
  }

  lemma HomesKeys(s: State)
    requires Homes(s)
    ensures s.launch.Keys == s.home.Keys
  {
  }

  lemma CloseHomes(s: State, p: nat)
    requires Homes(s) && CanClose(s, p)
    ensures Homes(Closed(s, p))
  {
    hide AtHome;
    var s' := Closed(s, p);
    forall t | t in s'.pcs
      ensures AtHome(s', s'.pcs[t])
    {
      CloseAtHome(s, p, s.pcs[t]);
    }
  }

  lemma CloseAtHome(s: State, p: nat, pc: Pc)
    requires Homes(s) && AtHome(s, pc) && (pc.Idle? || pc.key.process != p)
    ensures AtHome(Closed(s, p), pc)
  {
  }

  lemma CloseKeeps(s: State, p: nat)
    requires Inv(s) && CanClose(s, p)
    ensures Inv(Closed(s, p))
  {
    hide LaunchStates, Homes, CanClose;
    CloseHomes(s, p);
    CloseLaunchStates(s, p);
  }

  /** Any thread makes any step it may, or a process closes the device. */
  ghost predicate Next(s: State, s': State) {
    || (exists t, c, a, found :: Enabled(s, t, c, a) && s' == Do(s, t, c, a, found))
    || (exists p :: CanClose(s, p) && s' == Closed(s, p))
  }

  ghost predicate IsRun(run: seq<State>) {
    && |run| > 0 && Init(run[0])
    && (forall i | 0 <= i < |run| - 1 :: Next(run[i], run[i + 1]))
  }

  lemma NextKeeps(s: State, s': State)
    requires Inv(s) && Next(s, s')
    ensures Inv(s')
  {
    hide Inv, Enabled, Do, CanClose, Closed;
    if t, c, a, found :| Enabled(s, t, c, a) && s' == Do(s, t, c, a, found) {
      StepKeeps(s, t, c, a, found);
    } else {
      var p :| CanClose(s, p) && s' == Closed(s, p);
      CloseKeeps(s, p);
    }
  }

  lemma {:induction false} EveryRunKeeps(run: seq<State>)
    requires IsRun(run)
    ensures Inv(run[|run| - 1])
  {
    hide Next;
    if |run| > 1 {
      EveryRunKeeps(run[..|run| - 1]);
      NextKeeps(run[|run| - 2], run[|run| - 1]);
    }
  }

  // ---------- What follows for every run ----------

  /** A VMCS is read and written only by the holder of its vcpu's spinlock, and only while it is
      the current VMCS of the processor doing it; so is it launched, and then it is "clear". */
  lemma VmcsUsedSafely(run: seq<State>, t: nat, c: nat, a: Act)
    requires IsRun(run) && Enabled(run[|run| - 1], t, c, a) && (Still(a) || a.Vmlaunch?)
    ensures var s, pc := run[|run| - 1], PcOf(run[|run| - 1], t);
            && pc.Loaded? && pc.v in s.spins && s.spins[pc.v] == t
            && c in s.current && s.current[c] == pc.v
            && (a.Vmlaunch? || a.Vmfail? ==> pc.v in s.launch && s.launch[pc.v] == Clear)
  {
    EveryRunKeeps(run);
    var s := run[|run| - 1];
    assert AtHome(s, PcOf(s, t));
    assert LaunchState(s, PcOf(s, t).v);
  }

  /** Two threads never have the same VMCS loaded, nor two VMCSs on one processor. */
  lemma OneSessionEach(run: seq<State>, t: nat, u: nat)
    requires IsRun(run) && t != u && PcOf(run[|run| - 1], t).Loaded? && PcOf(run[|run| - 1], u).Loaded?
    ensures var s := run[|run| - 1];
            && t in s.cpuOf && u in s.cpuOf
            && PcOf(s, t).v != PcOf(s, u).v && s.cpuOf[t] != s.cpuOf[u]
  {
    EveryRunKeeps(run);
  }

  /** A thread outside any ioctl has released every lock it took, and left no VMCS current. */
  lemma AllReleased(run: seq<State>, t: nat)
    requires IsRun(run) && PcOf(run[|run| - 1], t).Idle?
    ensures var s := run[|run| - 1];
            && s.stateLock != Some(t)
            && (forall k | k in s.mutexes :: s.mutexes[k] != t)
            && (forall v | v in s.spins :: s.spins[v] != t)
            && (forall c | c in s.current :: s.current[c] in s.spins && s.spins[s.current[c]] != t)
  {
    EveryRunKeeps(run);
  }

  // ---------- Ioctls that go through ----------

  lemma Append(run: seq<State>, s: State)
    requires IsRun(run) && Next(run[|run| - 1], s)
    ensures IsRun(run + [s])
  {
    hide Next;
  }

  lemma RunsStill(s: State, t: nat, c: nat, a: Act)
    requires Enabled(s, t, c, a)
    ensures RunsOn(Do(s, t, c, a, true), t, c)
  {
    assert RunsOn(s, t, c);
    OwnPc(s, t, c, a, true);
    hide RunsOn;
    if !Still(a) {
      RunsFrame(s, Do(s, t, c, a, true), t, c);
    }
  }

  lemma RunsFrame(s: State, s': State, t: nat, c: nat)
    requires RunsOn(s, t, c) && t in s'.pcs && s'.pcs == s.pcs[t := s'.pcs[t]]
    requires s'.cpuOf == s.cpuOf[t := c] || (s'.cpuOf == s.cpuOf && (HoldsSpin(s'.pcs[t]) ==> HoldsSpin(PcOf(s, t))))
    ensures RunsOn(s', t, c)
  {
  }

  ghost predicate GoesOn(run: seq<State>, longer: seq<State>) {
    IsRun(longer) && 0 < |run| < |longer| && run <= longer
  }

  lemma Onward(a: seq<State>, b: seq<State>, c: seq<State>)
    requires GoesOn(a, b) && GoesOn(b, c)
    ensures GoesOn(a, c)
  {
    hide IsRun;
  }

  ghost function Last(run: seq<State>): State
    requires |run| > 0
  {
    run[|run| - 1]
  }

  /** A step is made, and the thread can go on where it runs. */
  lemma By(run: seq<State>, t: nat, c: nat, a: Act) returns (longer: seq<State>)
    requires IsRun(run) && Enabled(Last(run), t, c, a)
    ensures IsRun(longer) && GoesOn(run, longer) && Last(longer) == Do(Last(run), t, c, a, true)
    ensures RunsOn(Last(longer), t, c)
  {
    longer := run + [Do(Last(run), t, c, a, true)];
    RunsStill(Last(run), t, c, a);
    hide Enabled, Do, RunsOn;
    Append(run, Last(longer));
  }

  /** Nothing keeps an ioctl of process `p` by `t` on processor `c` from going ahead. */
  ghost predicate Free(s: State, t: nat, c: nat, p: nat) {
    PcOf(s, t).Idle? && RunsOn(s, t, c) && s.stateLock == None && Key(p, false) !in s.mutexes
  }

  ghost function VcpuOf(s: State, p: nat): Option<nat> {
    if p in s.vcpuOf then Some(s.vcpuOf[p]) else None
  }

  /** The thread looks up the state of its process, under the lock of the list. */
  lemma LooksUp(run: seq<State>, t: nat, c: nat, p: nat) returns (longer: seq<State>)
    requires IsRun(run) && Free(Last(run), t, c, p)
    ensures IsRun(longer) && GoesOn(run, longer) && RunsOn(Last(longer), t, c)
    ensures PcOf(Last(longer), t) == Found(Key(p, false)) && Last(longer) == Last(run).(pcs := Last(longer).pcs)
  {
    assert |run| > 0;
    hide IsRun, RunsOn, GoesOn;
    var called := By(run, t, c, Call(Key(p, false)));
    var locked := By(called, t, c, TakeState);
    longer := By(locked, t, c, ReleaseState);
    Onward(run, called, locked);
    Onward(run, locked, longer);
  }

  lemma SameVcpu(s: State, s': State, p: nat)
    requires s'.vcpuOf == s.vcpuOf
    ensures VcpuOf(s', p) == VcpuOf(s, p)
  {
  }

  /** An ioctl up to its `switch`: the thread has the lock of its process, and its vcpu. */
  lemma Enters(run: seq<State>, t: nat, c: nat, p: nat) returns (longer: seq<State>)
    requires IsRun(run) && Free(Last(run), t, c, p)
    ensures IsRun(longer) && GoesOn(run, longer) && RunsOn(Last(longer), t, c)
    ensures var s, s', k := Last(run), Last(longer), Key(p, false);
            PcOf(s', t) == Body(k, VcpuOf(s, p)) && s' == s.(pcs := s'.pcs, mutexes := s.mutexes[k := t])
  {
    assert |run| > 0;
    hide IsRun, RunsOn, GoesOn;
    var found := LooksUp(run, t, c, p);
    var read := By(found, t, c, ReadVcpu);
    longer := By(read, t, c, TakeMutex);
    Onward(run, found, read);
    Onward(run, read, longer);
  }

  /** From the spinlock to the VMCS. */
  lemma Loads(run: seq<State>, t: nat, c: nat) returns (longer: seq<State>)
    requires IsRun(run) && PcOf(Last(run), t).WantSpin? && RunsOn(Last(run), t, c)
    requires PcOf(Last(run), t).v !in Last(run).spins
    ensures IsRun(longer) && GoesOn(run, longer) && RunsOn(Last(longer), t, c)
    ensures var s, s', v := Last(run), Last(longer), PcOf(Last(run), t).v;
            && PcOf(s', t) == Loaded(PcOf(s, t).key, v, false)
            && s' == s.(pcs := s'.pcs, spins := s.spins[v := t], cpuOf := s'.cpuOf, current := s.current[c := v])
  {
    assert |run| > 0;
    hide IsRun, RunsOn, GoesOn;
    var locked := By(run, t, c, TakeSpin);
    longer := By(locked, t, c, Vmptrld);
    Onward(run, locked, longer);
  }

  /** `t` is out of its ioctl again, and has given back what it took since `s`. */
  ghost predicate Back(s: State, s': State, t: nat, c: nat, k: Key, v: nat) {
    && PcOf(s', t).Idle? && RunsOn(s', t, c) && s'.stateLock == s.stateLock
    && s'.mutexes == s.mutexes - {k} && s'.spins == s.spins - {v}
    && s'.vcpuOf == s.vcpuOf && v in s'.launch && s'.launch[v] == Clear
  }

  /** From a loaded VMCS to the end of the ioctl. */
  lemma Leaves(run: seq<State>, t: nat, c: nat) returns (longer: seq<State>)
    requires IsRun(run) && PcOf(Last(run), t).Loaded? && RunsOn(Last(run), t, c)
    ensures IsRun(longer) && GoesOn(run, longer)
    ensures Back(Last(run), Last(longer), t, c, PcOf(Last(run), t).key, PcOf(Last(run), t).v)
  {
    assert |run| > 0;
    hide IsRun, RunsOn, GoesOn;
    var cleared := By(run, t, c, Vmclear);
    var unspun := By(cleared, t, c, Unspin);
    longer := By(unspun, t, c, ReleaseMutex);
    Onward(run, cleared, unspun);
    Onward(run, unspun, longer);
  }

  /** While the lock of a process is free, so is the spinlock of its vcpu, and of one not yet there. */
  lemma SpinFree(s: State, p: nat, v: nat)
    requires Inv(s) && Key(p, false) !in s.mutexes && (v in s.home ==> s.home[v] == p)
    ensures v !in s.spins
  {
    hide StateLock, Pinned, Currency, LaunchStates;
    assert v in s.spins ==> AtHome(s, s.pcs[s.spins[v]]);
  }

  /** The vcpu is allocated and its VMCS initialized. */
  lemma Creates(run: seq<State>, t: nat, c: nat, v: nat) returns (longer: seq<State>)
    requires IsRun(run) && PcOf(Last(run), t).Body? && !PcOf(Last(run), t).key.irq && RunsOn(Last(run), t, c)
    requires v !in Last(run).home
    ensures IsRun(longer) && GoesOn(run, longer) && RunsOn(Last(longer), t, c)
    ensures var s, s', k := Last(run), Last(longer), PcOf(Last(run), t).key;
            && PcOf(s', t) == WantSpin(k, v) && VcpuOf(s', k.process) == Some(v)
            && s'.stateLock == s.stateLock && s'.mutexes == s.mutexes && s'.spins == s.spins
  {
    assert |run| > 0;
    hide IsRun, RunsOn, GoesOn;
    var created := By(run, t, c, Create(v));
    longer := By(created, t, c, ClearNew);
    Onward(run, created, longer);
  }

  /** Creating a VM goes through, and the process then has the new vcpu. */
  lemma CreateCompletes(run: seq<State>, t: nat, c: nat, p: nat, v: nat) returns (longer: seq<State>)
    requires IsRun(run) && Free(Last(run), t, c, p) && v !in Last(run).home
    ensures IsRun(longer) && GoesOn(run, longer) && Free(Last(longer), t, c, p)
    ensures VcpuOf(Last(longer), p) == Some(v) && v in Last(longer).launch && Last(longer).launch[v] == Clear
  {
    EveryRunKeeps(run);
    SpinFree(Last(run), p, v);
    hide IsRun, Inv, RunsOn, GoesOn, VcpuOf;
    var entered := Enters(run, t, c, p);
    var created := Creates(entered, t, c, v);
    var loaded := Loads(created, t, c);
    longer := Leaves(loaded, t, c);
    SameVcpu(Last(created), Last(longer), p);
    Onward(run, entered, created);
    Onward(run, created, loaded);
    Onward(run, loaded, longer);
  }

  /** The vcpu found is loaded and launched. */
  lemma Launches(run: seq<State>, t: nat, c: nat, k: Key, v: nat) returns (longer: seq<State>)
    requires IsRun(run) && PcOf(Last(run), t) == Body(k, Some(v)) && !k.irq && RunsOn(Last(run), t, c)
    requires v !in Last(run).spins
    ensures IsRun(longer) && GoesOn(run, longer) && RunsOn(Last(longer), t, c)
    ensures var s, m := Last(run), Last(longer);
            && PcOf(m, t) == Loaded(k, v, true) && v in m.launch && m.launch[v] == Launched
            && c in m.current && m.current[c] == v && m.vcpuOf == s.vcpuOf && m.stateLock == s.stateLock
            && m.mutexes == s.mutexes
  {
    assert |run| > 0;
    hide IsRun, RunsOn, GoesOn;
    var begun := By(run, t, c, Begin);
    var loaded := Loads(begun, t, c);
    longer := By(loaded, t, c, Vmlaunch);
    Onward(run, begun, loaded);
    Onward(run, loaded, longer);
  }

  /** Running the guest goes through: the thread finds the vcpu of its process, launches its VMCS
      on its own processor, and leaves it clear with every lock given back. */
  lemma RunCompletes(run: seq<State>, t: nat, c: nat, p: nat) returns (middle: seq<State>, longer: seq<State>)
    requires IsRun(run) && Free(Last(run), t, c, p) && p in Last(run).vcpuOf
    ensures IsRun(middle) && IsRun(longer) && GoesOn(run, middle) && GoesOn(middle, longer)
    ensures var v, m := Last(run).vcpuOf[p], Last(middle);
            && PcOf(m, t) == Loaded(Key(p, false), v, true) && v in m.launch && m.launch[v] == Launched
            && c in m.current && m.current[c] == v
    ensures Free(Last(longer), t, c, p) && Last(longer).vcpuOf == Last(run).vcpuOf
  {
    EveryRunKeeps(run);
    var v := Last(run).vcpuOf[p];
    HomeOf(Last(run), p);
    SpinFree(Last(run), p, v);
    hide IsRun, Inv, RunsOn, GoesOn;
    var entered := Enters(run, t, c, p);
    middle := Launches(entered, t, c, Key(p, false), v);
    Onward(run, entered, middle);
    longer := Leaves(middle, t, c);
  }

  lemma HomeOf(s: State, p: nat)
    requires Inv(s) && p in s.vcpuOf
    ensures s.vcpuOf[p] in s.home && s.home[s.vcpuOf[p]] == p
  {
  }

  /** So a process that creates a VM and runs it launches the VMCS it created. */
  lemma CreatedIsLaunched(run: seq<State>, t: nat, c: nat, p: nat, v: nat) returns (longer: seq<State>)
    requires IsRun(run) && Free(Last(run), t, c, p) && v !in Last(run).home
    ensures IsRun(longer) && GoesOn(run, longer) && PcOf(Last(longer), t) == Loaded(Key(p, false), v, true)
    ensures v in Last(longer).launch && Last(longer).launch[v] == Launched
  {
    assert |run| > 0;
    hide IsRun, Free, GoesOn;
    var created := CreateCompletes(run, t, c, p, v);
    var rest: seq<State>;
    longer, rest := RunCompletes(created, t, c, p);
    Onward(run, created, longer);
  }
}
