/**
 Image admission: a controller that hands out the current gate, and gates that bound how many callers
 run and how many wait.  The channels of a gate are token counters; every channel operation is one
 step, and the steps of any number of callers interleave freely with configuration changes.
 */
module AdmissionGate {

  /** `slots` and `queue` count the tokens in the two channels; the limits are their capacities. */
  datatype Gate = Gate(slots: nat, queue: nat, maxConcurrent: nat, queueLimit: nat)

  datatype Config = Config(maxConcurrent: int, queueLimit: int, timeoutMillis: int)

  /** The key a gate is kept under; a missing limit falls back to the concurrency, a missing timeout to 20 seconds. */
  function Normalized(c: Config): Config {
    Config(c.maxConcurrent,
           if c.queueLimit <= 0 then c.maxConcurrent else c.queueLimit,
           if c.timeoutMillis <= 0 then 20000 else c.timeoutMillis)
  }

  /**
   Where a caller of `acquire` stands.  `Queued` and `Leaving` hold a queue token, `Admitted` both
   kinds, `Entered` and `Running` a slot.
   */
  datatype Phase =
    | Bypassed
    | Picked(gate: nat)
    | Queued(gate: nat)
    | Admitted(gate: nat)
    | Leaving(gate: nat, timedOut: bool)
    | Entered(gate: nat)
    | Running(gate: nat, inflightAtStart: int)
    | Rejected
    | GaveUp(gate: nat, timedOut: bool)
    | Released(gate: nat)

  /** All gates ever made, in order; `current` is the controller's gate, and `key` the configuration it was made for. */
  datatype State = State(gates: seq<Gate>, current: int, key: Config, callers: map<nat, Phase>)

  const INITIAL := State([], -1, Config(0, 0, 0), map[])

  predicate HoldsSlot(p: Phase, gate: nat) { (p.Admitted? || p.Entered? || p.Running?) && p.gate == gate }

  predicate HoldsQueue(p: Phase, gate: nat) { (p.Queued? || p.Admitted? || p.Leaving?) && p.gate == gate }

  function SlotHolders(s: State, gate: nat): set<nat> { set c | c in s.callers && HoldsSlot(s.callers[c], gate) }

  function QueueHolders(s: State, gate: nat): set<nat> { set c | c in s.callers && HoldsQueue(s.callers[c], gate) }

  // --------------------------------------------------------------------------------------------
  // Steps

  datatype Event =
    | Arrive(caller: nat, config: Config)
    | Enqueue(caller: nat)
    | TakeSlot(caller: nat)
    | Stop(caller: nat, timedOut: bool)
    | ReturnQueue(caller: nat)
    | Measure(caller: nat)
    | Release(caller: nat)
    | Snapshot(config: Config)

  /** The controller's critical section: a new gate whenever the configuration differs from the last one seen. */
  function WithGate(s: State, config: Config): State {
    var key := Normalized(config);
    if config.maxConcurrent <= 0 || (s.current >= 0 && s.key == key) then s
    else s.(gates := s.gates + [Gate(0, 0, key.maxConcurrent, key.queueLimit)], current := |s.gates|, key := key)
  }

  function SetCaller(s: State, c: nat, p: Phase): State { s.(callers := s.callers[c := p]) }

  function SetGate(s: State, g: nat, gate: Gate): State
    requires g < |s.gates|
  {
    s.(gates := s.gates[g := gate])
  }

  /** A step that is not enabled (a blocking channel operation, a caller somewhere else) changes nothing. */
  function Step(s: State, e: Event): State {
    match e
    case Arrive(c, config) =>
      if c in s.callers then s
      else
        var s' := WithGate(s, config);
        if config.maxConcurrent <= 0 || s'.current < 0
        then SetCaller(s', c, Bypassed) else SetCaller(s', c, Picked(s'.current))
    case Snapshot(config) => WithGate(s, config)
    case Enqueue(c) =>
      if Enabled(s, e) then
        var g := s.callers[c].gate;
        var gate := s.gates[g];
        if gate.queue < gate.queueLimit
        then SetCaller(SetGate(s, g, gate.(queue := gate.queue + 1)), c, Queued(g))
        else SetCaller(s, c, Rejected)
      else s
    case TakeSlot(c) =>
      if Enabled(s, e) then
        var g := s.callers[c].gate;
        SetCaller(SetGate(s, g, s.gates[g].(slots := s.gates[g].slots + 1)), c, Admitted(g))
      else s
    case Stop(c, timedOut) =>
      if Enabled(s, e) then SetCaller(s, c, Leaving(s.callers[c].gate, timedOut)) else s
    case ReturnQueue(c) =>
      if Enabled(s, e) then
        var p, g := s.callers[c], s.callers[c].gate;
        var s' := SetGate(s, g, s.gates[g].(queue := s.gates[g].queue - 1));
        SetCaller(s', c, if p.Admitted? then Entered(g) else GaveUp(g, p.timedOut))
      else s
    case Measure(c) =>
      if Enabled(s, e) then
        var inflight := s.gates[s.callers[c].gate].slots - 1;
        SetCaller(s, c, Running(s.callers[c].gate, if inflight < 0 then 0 else inflight))
      else s
    case Release(c) =>
      if Enabled(s, e) then
        var g := s.callers[c].gate;
        SetCaller(SetGate(s, g, s.gates[g].(slots := s.gates[g].slots - 1)), c, Released(g))
      else s
  }

  function GateOf(p: Phase): int {
    match p
    case Bypassed => -1
    case Rejected => -1
    case _ => p.gate
  }

  /** When the channel operation behind a step can go through. */
  predicate Enabled(s: State, e: Event) {
    match e
    case Arrive(_, _) => true
    case Snapshot(_) => true
    case _ =>
      e.caller in s.callers && 0 <= GateOf(s.callers[e.caller]) < |s.gates| &&
      var p := s.callers[e.caller];
      var gate := s.gates[GateOf(p)];
      match e
      case Enqueue(_) => p.Picked?
      case TakeSlot(_) => p.Queued? && gate.slots < gate.maxConcurrent
      case Stop(_, _) => p.Queued?
      case ReturnQueue(_) => (p.Admitted? || p.Leaving?) && gate.queue > 0
      case Measure(_) => p.Entered?
      case Release(_) => p.Running? && gate.slots > 0
  }

  function Run(s: State, es: seq<Event>): State
    decreases |es|
  {
    if es == [] then s else Run(Step(s, es[0]), es[1..])
  }

  // --------------------------------------------------------------------------------------------
  // Safety

  ghost predicate GateCounts(s: State, g: nat)
    requires g < |s.gates|
  {
    var gate := s.gates[g];
    && gate.slots == |SlotHolders(s, g)| <= gate.maxConcurrent
    && gate.queue == |QueueHolders(s, g)| <= gate.queueLimit
    && gate.maxConcurrent >= 1 && gate.queueLimit >= 1
  }

  ghost predicate Inv(s: State) {
    && -1 <= s.current < |s.gates|
    && (forall g :: 0 <= g < |s.gates| ==> GateCounts(s, g))
    && (forall c :: c in s.callers ==> GateOf(s.callers[c]) < |s.gates|)
  }

  /** Two configurations ask for the same limits, once a missing queue limit and a missing timeout are filled in. */
  predicate SameLimits(key: Config, c: Config) {
    && key.maxConcurrent == c.maxConcurrent
    && key.queueLimit == (if c.queueLimit > 0 then c.queueLimit else c.maxConcurrent)
    && key.timeoutMillis == (if c.timeoutMillis > 0 then c.timeoutMillis else 20000)
  }

  /** A new gate is made exactly when the limits asked for are not those of the current one; the old gates stay. */
  lemma NewGateIff(s: State, c: Config)
    requires Inv(s) && c.maxConcurrent > 0
    ensures var s' := WithGate(s, c);
            && s'.callers == s.callers && SameLimits(s'.key, c)
            && (s' == s <==> s.current >= 0 && SameLimits(s.key, c))
            && (s' != s ==> && s'.current == |s.gates| && s'.gates[..|s.gates|] == s.gates
                            && |s'.gates| == |s.gates| + 1
                            && s'.gates[|s.gates|] == Gate(0, 0, c.maxConcurrent,
                                   if c.queueLimit > 0 then c.queueLimit else c.maxConcurrent))
  {
  }

  /** A caller is admitted exactly if it is queued and fewer than the limit hold a slot. */
  lemma SlotIsFreeIff(s: State, c: nat)
    requires Inv(s)
    ensures Enabled(s, TakeSlot(c))
            <==> && c in s.callers && s.callers[c].Queued?
                 && 0 <= s.callers[c].gate < |s.gates|
                 && |SlotHolders(s, s.callers[c].gate)| < s.gates[s.callers[c].gate].maxConcurrent
  {
    if c in s.callers && s.callers[c].Queued? && s.callers[c].gate < |s.gates| {
      assert GateCounts(s, s.callers[c].gate);
    }
  }

  /** Where each step leads a caller; it stays at its gate, and nobody else moves. */
  predicate Moves(was: Phase, e: Event, now: Phase) {
    match e
    case Enqueue(_) => was.Picked? && (now == Queued(was.gate) || now.Rejected?)
    case TakeSlot(_) => was.Queued? && now == Admitted(was.gate)
    case Stop(_, timedOut) => was.Queued? && now == Leaving(was.gate, timedOut)
    case ReturnQueue(_) =>
      if was.Admitted? then now == Entered(was.gate) else was.Leaving? && now == GaveUp(was.gate, was.timedOut)
    case Measure(_) => was.Entered? && now.Running? && now.gate == was.gate
    case Release(_) => was.Running? && now == Released(was.gate)
    case _ => false
  }

  lemma StepMoves(s: State, e: Event)
    requires !e.Arrive? && !e.Snapshot?
    ensures if Enabled(s, e)
            then e.caller in s.callers && e.caller in Step(s, e).callers
                 && Moves(s.callers[e.caller], e, Step(s, e).callers[e.caller])
                 && Step(s, e).callers == s.callers[e.caller := Step(s, e).callers[e.caller]]
            else Step(s, e) == s
  {
  }

  /** Moving one caller changes who holds a token by at most that caller. */
  lemma HoldersAfter(s: State, s': State, c: nat, p: Phase, g: nat)
    requires s'.callers == s.callers[c := p]
    ensures SlotHolders(s', g) == if HoldsSlot(p, g) then SlotHolders(s, g) + {c} else SlotHolders(s, g) - {c}
    ensures QueueHolders(s', g) == if HoldsQueue(p, g) then QueueHolders(s, g) + {c} else QueueHolders(s, g) - {c}
  {
  }

  lemma CountsAfterMove(s: State, s': State, c: nat, p: Phase)
    requires Inv(s) && s'.callers == s.callers[c := p] && |s'.gates| >= |s.gates| && GateOf(p) < |s'.gates|
    requires forall g :: 0 <= g < |s.gates| ==>
               var was := c in s.callers && HoldsSlot(s.callers[c], g);
               s'.gates[g].slots == s.gates[g].slots + (if HoldsSlot(p, g) then 1 else 0) - (if was then 1 else 0)
    requires forall g :: 0 <= g < |s.gates| ==>
               var was := c in s.callers && HoldsQueue(s.callers[c], g);
               s'.gates[g].queue == s.gates[g].queue + (if HoldsQueue(p, g) then 1 else 0) - (if was then 1 else 0)
    ensures forall g :: 0 <= g < |s.gates| ==>
              s'.gates[g].slots == |SlotHolders(s', g)| && s'.gates[g].queue == |QueueHolders(s', g)|
  {
    forall g | 0 <= g < |s.gates|
      ensures s'.gates[g].slots == |SlotHolders(s', g)| && s'.gates[g].queue == |QueueHolders(s', g)|
    {
      HoldersAfter(s, s', c, p, g);
      assert GateCounts(s, g);
      SizeAfter(SlotHolders(s, g), c);
      SizeAfter(QueueHolders(s, g), c);
    }
  }

  lemma SizeAfter(holders: set<nat>, c: nat)
    ensures |holders + {c}| == |holders| + if c in holders then 0 else 1
    ensures |holders - {c}| == |holders| - if c in holders then 1 else 0
  {
    if c in holders { assert holders + {c} == holders; } else { assert holders - {c} == holders; }
  }

  lemma WithGateKeepsInv(s: State, config: Config)
    requires Inv(s)
    ensures Inv(WithGate(s, config)) && WithGate(s, config).callers == s.callers
    ensures config.maxConcurrent > 0 ==> WithGate(s, config).current >= 0
    ensures s.gates <= WithGate(s, config).gates
  {
    var s' := WithGate(s, config);
    forall g | 0 <= g < |s'.gates| ensures GateCounts(s', g) {
      assert SlotHolders(s', g) == SlotHolders(s, g) && QueueHolders(s', g) == QueueHolders(s, g);
      if g < |s.gates| {
        assert GateCounts(s, g);
      } else {
        assert SlotHolders(s, g) == {} && QueueHolders(s, g) == {};
      }
    }
  }

  /** One step of anyone keeps every token accounted for and every gate within its capacity. */
  lemma StepKeepsInv(s: State, e: Event)
    requires Inv(s)
    ensures Inv(Step(s, e))
  {
    match e
    case Snapshot(config) => WithGateKeepsInv(s, config);
    case Arrive(c, config) =>
      if c !in s.callers {
        WithGateKeepsInv(s, config);
        MoveKeepsInv(WithGate(s, config), Step(s, e), c, Step(s, e).callers[c]);
      }
    case Enqueue(c) => OwnStepKeepsInv(s, e, c);
    case TakeSlot(c) => OwnStepKeepsInv(s, e, c);
    case Stop(c, _) => OwnStepKeepsInv(s, e, c);
    case ReturnQueue(c) => OwnStepKeepsInv(s, e, c);
    case Measure(c) => OwnStepKeepsInv(s, e, c);
    case Release(c) => OwnStepKeepsInv(s, e, c);
  }

  lemma OwnStepKeepsInv(s: State, e: Event, c: nat)
    requires Inv(s) && !e.Arrive? && !e.Snapshot? && e.caller == c
    ensures Inv(Step(s, e))
  {
    if Enabled(s, e) {
      var g := s.callers[c].gate;
      var s' := Step(s, e);
      assert GateCounts(s, g);
      assert s'.gates == s.gates[g := s'.gates[g]];
      MoveKeepsInv(s, s', c, s'.callers[c]);
    }
  }

  lemma MoveKeepsInv(s: State, s': State, c: nat, p: Phase)
    requires Inv(s) && s'.callers == s.callers[c := p] && |s'.gates| == |s.gates| && GateOf(p) < |s'.gates|
    requires s'.current == s.current
    requires forall g :: 0 <= g < |s.gates| ==>
               var was := c in s.callers && HoldsSlot(s.callers[c], g);
               s'.gates[g].slots == s.gates[g].slots + (if HoldsSlot(p, g) then 1 else 0) - (if was then 1 else 0)
    requires forall g :: 0 <= g < |s.gates| ==>
               var was := c in s.callers && HoldsQueue(s.callers[c], g);
               s'.gates[g].queue == s.gates[g].queue + (if HoldsQueue(p, g) then 1 else 0) - (if was then 1 else 0)
    requires forall g :: 0 <= g < |s.gates| ==>
               s'.gates[g] == s.gates[g]
               || (&& s'.gates[g].maxConcurrent == s.gates[g].maxConcurrent
                   && s'.gates[g].queueLimit == s.gates[g].queueLimit
                   && s'.gates[g].slots <= s'.gates[g].maxConcurrent && s'.gates[g].queue <= s'.gates[g].queueLimit)
    ensures Inv(s')
  {
    CountsAfterMove(s, s', c, p);
    forall g | 0 <= g < |s'.gates| ensures GateCounts(s', g) { assert GateCounts(s, g); }
  }

  lemma {:induction false} RunKeepsInv(s: State, es: seq<Event>)
    requires Inv(s)
    ensures Inv(Run(s, es))
    decreases |es|
  {
    if es != [] {
      StepKeepsInv(s, es[0]);
      RunKeepsInv(Step(s, es[0]), es[1..]);
    }
  }

  /** From the start, whatever callers and configurations do: tokens = holders, within capacity, at every gate. */
  lemma {:induction false} TokensAreHolders(es: seq<Event>, g: nat)
    requires g < |Run(INITIAL, es).gates|
    ensures var s := Run(INITIAL, es);
            && s.gates[g].slots == |SlotHolders(s, g)| <= s.gates[g].maxConcurrent
            && s.gates[g].queue == |QueueHolders(s, g)| <= s.gates[g].queueLimit
  {
    RunKeepsInv(INITIAL, es);
    assert GateCounts(Run(INITIAL, es), g);
  }

  /** No receive of a held token ever blocks, and the clamp on a negative in-flight count is never needed. */
  lemma ReceivesNeverBlock(s: State, c: nat)
    requires Inv(s) && c in s.callers
    ensures var p := s.callers[c];
            && (p.Admitted? || p.Leaving? ==> Enabled(s, ReturnQueue(c)))
            && (p.Running? ==> Enabled(s, Release(c)))
            && (p.Entered? ==> Enabled(s, Measure(c)) && s.gates[p.gate].slots - 1 >= 0)
            && (p.Queued? ==> Enabled(s, Stop(c, true)) && Enabled(s, Stop(c, false)))
  {
    var p := s.callers[c];
    if GateOf(p) >= 0 {
      assert GateCounts(s, p.gate);
      if HoldsQueue(p, p.gate) { HolderIsCounted(QueueHolders(s, p.gate), c); }
      if HoldsSlot(p, p.gate) { HolderIsCounted(SlotHolders(s, p.gate), c); }
    }
  }

  /** The figure a caller starts with: how many others hold a slot of its gate at that moment. */
  lemma MeasureCounts(s: State, c: nat)
    requires Inv(s) && Enabled(s, Measure(c))
    ensures var g := s.callers[c].gate;
            Step(s, Measure(c)).callers[c] == Running(g, |SlotHolders(s, g) - {c}|)
  {
    var g := s.callers[c].gate;
    assert GateCounts(s, g);
    SizeAfter(SlotHolders(s, g), c);
  }

  /** A newcomer picks the current gate, which has the limits it asks for, or passes by if there is no limit. */
  lemma ArrivalPicks(s: State, c: nat, config: Config)
    requires Inv(s) && c !in s.callers
    ensures var s' := Step(s, Arrive(c, config));
            && s'.callers == s.callers[c := s'.callers[c]]
            && (config.maxConcurrent <= 0 ==> s'.callers[c] == Bypassed && s'.gates == s.gates)
            && (config.maxConcurrent > 0 ==> s'.callers[c] == Picked(s'.current) && SameLimits(s'.key, config))
  {
    if config.maxConcurrent > 0 { NewGateIff(s, config); }
  }

  lemma HolderIsCounted(holders: set<nat>, c: nat)
    requires c in holders
    ensures |holders| >= 1
  {
    assert holders == (holders - {c}) + {c};
  }

  /** A caller is turned away if and only if as many callers as the queue admits are in it. */
  lemma RejectedIffQueueFull(s: State, c: nat)
    requires Inv(s) && c in s.callers && s.callers[c].Picked?
    ensures Step(s, Enqueue(c)).callers[c].Rejected?
            <==> |QueueHolders(s, s.callers[c].gate)| == s.gates[s.callers[c].gate].queueLimit
  {
    assert GateCounts(s, s.callers[c].gate);
  }

  /**
   A release gives its slot back to the gate it was taken from, whatever the current gate is by then;
   a second one does nothing.
   */
  lemma ReleaseReturnsToItsGate(s: State, c: nat)
    requires Inv(s) && c in s.callers && s.callers[c].Running?
    ensures var g := s.callers[c].gate;
            var s' := Step(s, Release(c));
            && s'.gates[g].slots + 1 == s.gates[g].slots && s'.gates[g].queue == s.gates[g].queue
            && (forall h :: 0 <= h < |s.gates| && h != g ==> s'.gates[h] == s.gates[h])
            && SlotHolders(s', g) == SlotHolders(s, g) - {c}
            && Step(s', Release(c)) == s'
  {
    ReceivesNeverBlock(s, c);
    HoldersAfter(s, Step(s, Release(c)), c, Released(s.callers[c].gate), s.callers[c].gate);
  }

  predicate SameGate(p: Phase, q: Phase) {
    if p.Bypassed? || p.Rejected? then q == p else q.Rejected? || GateOf(q) == GateOf(p)
  }

  lemma StepKeepsGateOf(s: State, e: Event, c: nat)
    requires c in s.callers
    ensures c in Step(s, e).callers && SameGate(s.callers[c], Step(s, e).callers[c])
  {
  }

  /** Once a caller has picked a gate it never touches another one. */
  lemma {:induction false} CallersKeepTheirGate(s: State, es: seq<Event>, c: nat)
    requires c in s.callers
    ensures c in Run(s, es).callers && SameGate(s.callers[c], Run(s, es).callers[c])
    decreases |es|
  {
    if es != [] {
      StepKeepsGateOf(s, es[0], c);
      CallersKeepTheirGate(Step(s, es[0]), es[1..], c);
    }
  }

  // --------------------------------------------------------------------------------------------
  // Gate swaps

  function AllSlotHolders(s: State): set<nat> {
    set c | c in s.callers && (s.callers[c].Admitted? || s.callers[c].Entered? || s.callers[c].Running?)
  }

  /** The snapshot's in-flight figure never overstates, and is exact if and only if no retired gate has holders. */
  lemma SnapshotInflight(s: State)
    requires Inv(s) && s.current >= 0
    ensures s.gates[s.current].slots <= |AllSlotHolders(s)|
    ensures s.gates[s.current].slots == |AllSlotHolders(s)|
            <==> (forall g :: 0 <= g < |s.gates| && g != s.current ==> SlotHolders(s, g) == {})
  {
    assert GateCounts(s, s.current);
    var here, all := SlotHolders(s, s.current), AllSlotHolders(s);
    var elsewhere := all - here;
    assert all == here + elsewhere;
    assert |all| == |here| + |elsewhere|;
    if elsewhere != {} {
      var c :| c in elsewhere;
      assert c in SlotHolders(s, s.callers[c].gate);
    }
    forall g, c | 0 <= g < |s.gates| && g != s.current && c in SlotHolders(s, g) ensures c in elsewhere {}
  }

  /** Callers that hold a slot of a gate that is no longer the current one. */
  function RetiredHolders(s: State): set<nat>
    requires s.current >= 0
  {
    AllSlotHolders(s) - SlotHolders(s, s.current)
  }

  /** The number running stays within the current limit exactly if the retired gates' holders fit its free slots. */
  lemma WithinLimitIff(s: State)
    requires Inv(s) && s.current >= 0
    ensures |AllSlotHolders(s)| <= s.gates[s.current].maxConcurrent
            <==> |RetiredHolders(s)| <= s.gates[s.current].maxConcurrent - s.gates[s.current].slots
  {
    assert GateCounts(s, s.current);
    assert AllSlotHolders(s) == SlotHolders(s, s.current) + RetiredHolders(s);
    assert |AllSlotHolders(s)| == |SlotHolders(s, s.current)| + |RetiredHolders(s)|;
  }

  /** The limits of these gates together. */
  function Limits(gates: seq<Gate>): nat {
    if gates == [] then 0 else Limits(gates[..|gates| - 1]) + gates[|gates| - 1].maxConcurrent
  }

  function HoldersBelow(s: State, n: nat): set<nat> {
    set c | c in s.callers && exists g :: 0 <= g < n && HoldsSlot(s.callers[c], g)
  }

  lemma HoldersWithinLimits(s: State, n: nat)
    requires Inv(s) && n <= |s.gates|
    ensures |HoldersBelow(s, n)| <= Limits(s.gates[..n])
  {
    if n == 0 {
      assert HoldersBelow(s, n) == {};
    } else {
      HoldersWithinLimits(s, n - 1);
      assert s.gates[..n][..n - 1] == s.gates[..n - 1];
      assert GateCounts(s, n - 1);
      assert HoldersBelow(s, n) == HoldersBelow(s, n - 1) + SlotHolders(s, n - 1);
      assert |HoldersBelow(s, n)| <= |HoldersBelow(s, n - 1)| + |SlotHolders(s, n - 1)|;
    }
  }

  /** In every run at most as many callers run as all gates made so far admit together. */
  lemma {:induction false} RunningWithinAllLimits(es: seq<Event>)
    ensures |AllSlotHolders(Run(INITIAL, es))| <= Limits(Run(INITIAL, es).gates)
  {
    var s := Run(INITIAL, es);
    RunKeepsInv(INITIAL, es);
    HoldersWithinLimits(s, |s.gates|);
    assert s.gates[..|s.gates|] == s.gates;
    forall c | c in AllSlotHolders(s) ensures c in HoldersBelow(s, |s.gates|) {
      assert HoldsSlot(s.callers[c], s.callers[c].gate);
      assert GateOf(s.callers[c]) < |s.gates|;
    }
    Fewer(AllSlotHolders(s), HoldersBelow(s, |s.gates|));
  }

  lemma Fewer(a: set<nat>, b: set<nat>)
    requires a <= b
    ensures |a| <= |b|
  {
    assert b == a + (b - a);
    assert |b| == |a| + |b - a|;
  }

  /** Every configuration that comes up is this one, or one without a limit. */
  predicate Steady(es: seq<Event>, key: Config) { forall k :: 0 <= k < |es| ==> SteadyEvent(es[k], key) }

  predicate SteadyEvent(e: Event, key: Config) {
    e.Arrive? || e.Snapshot? ==> e.config.maxConcurrent <= 0 || Normalized(e.config) == key
  }

  /** No gate, or one, made for this configuration. */
  predicate OneGate(s: State, key: Config) {
    s.gates == [] || (|s.gates| == 1 && s.current == 0 && s.key == key && s.gates[0].maxConcurrent == key.maxConcurrent)
  }

  lemma SteadyKeepsOneGate(s: State, e: Event, key: Config)
    requires Inv(s) && OneGate(s, key) && SteadyEvent(e, key)
    ensures OneGate(Step(s, e), key)
  {
  }

  lemma {:induction false} SteadyRunKeepsOneGate(s: State, es: seq<Event>, key: Config)
    requires Inv(s) && OneGate(s, key) && Steady(es, key)
    ensures OneGate(Run(s, es), key)
    decreases |es|
  {
    if es != [] {
      assert SteadyEvent(es[0], key);
      assert forall k :: 0 <= k < |es[1..]| ==> es[1..][k] == es[k + 1];
      StepKeepsInv(s, es[0]);
      SteadyKeepsOneGate(s, es[0], key);
      SteadyRunKeepsOneGate(Step(s, es[0]), es[1..], key);
    }
  }

  /** So as long as the limits are not changed, never more callers run than the limit says. */
  lemma {:induction false} SteadyRunStaysWithinLimit(es: seq<Event>, key: Config)
    requires Steady(es, key) && key.maxConcurrent >= 0
    ensures |AllSlotHolders(Run(INITIAL, es))| <= key.maxConcurrent
  {
    SteadyRunKeepsOneGate(INITIAL, es, key);
    RunningWithinAllLimits(es);
    var gates := Run(INITIAL, es).gates;
    if gates != [] { assert gates[..0] == []; }
  }

  const ONE := Config(1, 1, 1000)
  const TWO := Config(1, 2, 1000)

  const AFTER_ONE := State([Gate(1, 1, 1, 1)], 0, ONE, map[0 := Admitted(0)])
  const AFTER_TWO := State([Gate(1, 1, 1, 1), Gate(1, 1, 1, 2)], 1, TWO, map[0 := Admitted(0), 1 := Admitted(1)])

  lemma {:induction false} Admits(s: State, c: nat, config: Config, after: State)
    requires Step(Step(Step(s, Arrive(c, config)), Enqueue(c)), TakeSlot(c)) == after
    ensures Run(s, [Arrive(c, config), Enqueue(c), TakeSlot(c)]) == after
  {
    var es := [Arrive(c, config), Enqueue(c), TakeSlot(c)];
    assert es[1..] == [Enqueue(c), TakeSlot(c)] && es[1..][1..] == [TakeSlot(c)] && es[1..][1..][1..] == [];
    assert Run(s, es) == Run(Step(s, es[0]), es[1..]);
    assert Run(Step(s, es[0]), es[1..]) == Run(Step(Step(s, es[0]), es[1]), es[1..][1..]);
  }

  /** A configuration change lets more callers run at once than either configuration allows. */
  lemma SwapAdmitsBeyondEitherLimit()
    ensures var s := Run(Run(INITIAL, [Arrive(0, ONE), Enqueue(0), TakeSlot(0)]),
            [Arrive(1, TWO), Enqueue(1), TakeSlot(1)]);
            && |AllSlotHolders(s)| == 2 && forall g :: 0 <= g < |s.gates| ==> s.gates[g].maxConcurrent == 1
  {
    Admits(INITIAL, 0, ONE, AFTER_ONE);
    Admits(AFTER_ONE, 1, TWO, AFTER_TWO);
    assert AllSlotHolders(AFTER_TWO) == {0, 1};
  }

  // --------------------------------------------------------------------------------------------
  // The calls themselves

  /** `acquire` and its release closure, with everybody else running between any two of their operations. */
  class Controller {
    var state: State

    constructor ()
      ensures state == INITIAL && Inv(state)
    {
      state := INITIAL;
    }

    /** Any steps of other callers, and of the configuration. */
    method OthersRun(caller: nat)
      requires Inv(state)
      modifies this
      ensures Inv(state)
      ensures caller in state.callers <==> caller in old(state.callers)
      ensures caller in state.callers ==> state.callers[caller] == old(state.callers)[caller]
    {
      var n: nat := *;
      while n > 0
        invariant Inv(state)
        invariant caller in state.callers <==> caller in old(state.callers)
        invariant caller in state.callers ==> state.callers[caller] == old(state.callers)[caller]
      {
        var e: Event := *;
        if OfOthers(e, caller) {
          StepKeepsInv(state, e);
          state := Step(state, e);
        }
        n := n - 1;
      }
    }

    predicate OfOthers(e: Event, caller: nat) {
      match e
      case Snapshot(_) => true
      case Arrive(c, _) => c != caller
      case Enqueue(c) => c != caller
      case TakeSlot(c) => c != caller
      case Stop(c, _) => c != caller
      case ReturnQueue(c) => c != caller
      case Measure(c) => c != caller
      case Release(c) => c != caller
    }

    method Perform(e: Event)
      requires Inv(state) && Enabled(state, e)
      modifies this
      ensures Inv(state) && state == Step(old(state), e)
    {
      StepKeepsInv(state, e);
      state := Step(state, e);
    }

    /**
     Every return of `acquire` leaves the caller with a slot of the gate it picked and no queue token,
     or with neither token; no receive in it blocks.
     */
    method Acquire(caller: nat, config: Config) returns (phase: Phase)
      requires Inv(state) && caller !in state.callers
      modifies this
      ensures Inv(state) && caller in state.callers && state.callers[caller] == phase
      ensures phase.Bypassed? || phase.Running? || phase.Rejected? || phase.GaveUp?
      ensures phase.Bypassed? <==> config.maxConcurrent <= 0
      ensures forall g :: !HoldsQueue(phase, g)
      ensures phase.Running? ==> phase.inflightAtStart >= 0 && caller in SlotHolders(state, phase.gate)
      ensures !phase.Running? ==> forall g :: caller !in SlotHolders(state, g)
    {
      WithGateKeepsInv(state, config);
      Perform(Arrive(caller, config));
      if config.maxConcurrent <= 0 { return state.callers[caller]; }
      OthersRun(caller);
      Perform(Enqueue(caller));
      if state.callers[caller].Rejected? { return Rejected; }
      var stopped := Wait(caller);
      OthersRun(caller);
      ReceivesNeverBlock(state, caller);
      Perform(ReturnQueue(caller));
      if stopped { return state.callers[caller]; }
      OthersRun(caller);
      ReceivesNeverBlock(state, caller);
      Perform(Measure(caller));
      phase := state.callers[caller];
    }

    /** The select: a slot, a cancel, or the timer, which ends the wait at the latest. */
    method Wait(caller: nat) returns (stopped: bool)
      requires Inv(state) && caller in state.callers && state.callers[caller].Queued?
      modifies this
      ensures Inv(state) && caller in state.callers
      ensures if stopped then state.callers[caller].Leaving? else state.callers[caller].Admitted?
    {
      var patience: nat := *;
      while patience > 0
        invariant Inv(state) && caller in state.callers && state.callers[caller].Queued?
      {
        OthersRun(caller);
        if * {
          if Enabled(state, TakeSlot(caller)) {
            Perform(TakeSlot(caller));
            return false;
          }
        } else if * {
          ReceivesNeverBlock(state, caller);
          Perform(Stop(caller, false));
          return true;
        }
        patience := patience - 1;
      }
      ReceivesNeverBlock(state, caller);
      Perform(Stop(caller, true));
      stopped := true;
    }

    /** The release closure; its once-guard makes every call after the first do nothing. */
    method ReleaseSlot(caller: nat)
      requires Inv(state) && caller in state.callers
               && (state.callers[caller].Running? || state.callers[caller].Released?)
      modifies this
      ensures Inv(state) && caller in state.callers && state.callers[caller].Released?
      ensures old(state.callers)[caller].Released? ==> state == old(state)
      ensures old(state.callers)[caller].Running? ==> state == Step(old(state), Release(caller))
    {
      if state.callers[caller].Running? {
        ReceivesNeverBlock(state, caller);
        Perform(Release(caller));
      }
    }
  }
}
