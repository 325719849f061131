/** One upstream's reconnecting cell, as an object and as a protocol between any number of
    concurrent resolutions. A connection is identified by its generation. */
module Reconnect {
  import opened Text
  import opened Dns

  datatype Cell = Empty | Live(gen: nat)

  // The regions under the cell's lock, as functions of what the lock guards.

  /** Entering: the live generation if there is one, else one more than any before if a dial
      succeeds. */
  function Acquired(cell: Cell, gen: nat, dialOk: bool): (Cell, nat, Option<nat>) {
    if cell.Live? then (cell, gen, Some(cell.gen))
    else if dialOk then (Live(gen + 1), gen + 1, Some(gen + 1))
    else (Empty, gen, None)
  }

  function Invalidated(cell: Cell, g: nat): Cell {
    if cell == Live(g) then Empty else cell
  }

  // ================================================================ the object

  /** Whether the k-th dial and the send on a generation succeed. */
  datatype Network = Network(dial: nat -> bool, send: nat -> Option<Response>)

  class Upstream {
    var cell: Cell
    var gen: nat

    /** A live connection is the newest one. */
    ghost predicate Valid()
      reads this
    {
      cell.Live? ==> cell.gen == gen && gen >= 1
    }

    constructor ()
      ensures Valid() && cell == Empty && gen == 0
    {
      cell, gen := Empty, 0;
    }

    /** The live connection, or a fresh one if a dial succeeds. */
    method Acquire(dialOk: bool) returns (g: Option<nat>)
      requires Valid()
      modifies this
      ensures Valid()
      ensures (cell, gen, g) == Acquired(old(cell), old(gen), dialOk)
    {
      if cell.Live? {
        return Some(cell.gen);
      }
      if !dialOk {
        return None;
      }
      gen := gen + 1;
      cell := Live(gen);
      return Some(gen);
    }

    /** Drop the connection, unless it was replaced in the meantime. */
    method Invalidate(g: nat)
      requires Valid()
      modifies this
      ensures Valid() && gen == old(gen)
      ensures cell == Invalidated(old(cell), g)
    {
      if cell.Live? && cell.gen == g {
        cell := Empty;
      }
    }

    /** One resolution that nothing interferes with: it sends on the live connection, or on
        the next generation if there is none and the dial succeeds; a send that fails is
        retried once, on a generation dialed for it; and a connection is left behind only
        if it answered. */
    method Resolve(net: Network) returns (r: Option<Response>, used: seq<nat>)
      requires Valid()
      modifies this
      ensures Valid() && |used| <= 2
      ensures |used| == 0 <==> old(cell).Empty? && !net.dial(0)
      ensures |used| > 0 ==> used[0] == if old(cell).Live? then old(gen) else old(gen) + 1
      ensures |used| == 2 <==> |used| > 0 && net.send(used[0]).None? && net.dial(1)
      ensures |used| == 2 ==> used[1] == used[0] + 1
      ensures r == if |used| == 0 then None else net.send(used[|used| - 1])
      ensures cell == if r.Some? then Live(used[|used| - 1]) else Empty
      ensures gen == if |used| == 0 then old(gen) else used[|used| - 1]
    {
      used := [];
      r := None;
      for attempt := 0 to 2
        invariant Valid() && |used| == attempt
        invariant attempt == 0 ==> cell == old(cell) && gen == old(gen)
        invariant attempt > 0 ==> cell == Empty && gen == used[attempt - 1]
        invariant attempt > 0 ==> (old(cell).Live? || net.dial(0)) && used[0] == if old(cell).Live? then old(gen) else old(gen) + 1
        invariant attempt == 2 ==> net.dial(1) && used[1] == used[0] + 1
        invariant forall i :: 0 <= i < |used| ==> net.send(used[i]) == None
      {
        var g := Acquire(net.dial(attempt));
        if g.None? {
          return None, used;
        }
        used := used + [g.value];
        var reply := net.send(g.value);
        if reply.Some? {
          return reply, used;
        }
        Invalidate(g.value);
      }
    }
  }

  /** Failover over the upstreams in order: the first answer that is not SERVFAIL. */
  method ResolveSet(outcomes: seq<Option<Response>>) returns (r: Option<Response>)
    ensures r.Some? ==> exists k :: FirstAnswer(outcomes, k, r.value)
    ensures r.None? <==> forall j :: 0 <= j < |outcomes| ==> Passed(outcomes[j])
  {
    for i := 0 to |outcomes|
      invariant forall j :: 0 <= j < i ==> Passed(outcomes[j])
    {
      if outcomes[i].Some? && outcomes[i].value.rcode != ServFail {
        assert FirstAnswer(outcomes, i, outcomes[i].value);
        return outcomes[i];
      }
    }
    return None;
  }

  /** An upstream that is passed over: a transport error or a SERVFAIL. */
  predicate Passed(outcome: Option<Response>) {
    outcome.None? || outcome.value.rcode == ServFail
  }

  /** Upstream `k` answered, and every earlier one was passed over. */
  ghost predicate FirstAnswer(outcomes: seq<Option<Response>>, k: nat, resp: Response) {
    && k < |outcomes| && outcomes[k] == Some(resp) && resp.rcode != ServFail
    && forall j :: 0 <= j < k ==> Passed(outcomes[j])
  }

  // ================================================================ the protocol

  type TaskId = nat

  /** Where a resolution stands; `attempt` is 1 or 2. A dialing task holds the cell's lock. */
  datatype Pc =
    | Wanting(attempt: nat)
    | Dialing(attempt: nat)
    | Sending(attempt: nat, g: nat)
    | Broken(attempt: nat, g: nat)
    | Answered
    | Failed
    | Cancelled

  /** A resolution and the generations it has sent on, oldest first. */
  datatype Task = Task(pc: Pc, used: seq<nat>)

  /** `dialed` logs the generations of successful dials; `broken` the generations some
      send failed on. */
  datatype State = State(
    cell: Cell,
    gen: nat,
    lock: Option<TaskId>,
    tasks: map<TaskId, Task>,
    dialed: seq<nat>,
    broken: set<nat>)

  datatype Step =
    | Start(t: TaskId)
    | Enter(t: TaskId)
    | DialOk(t: TaskId)
    | DialFail(t: TaskId)
    | Reply(t: TaskId)
    | SendFail(t: TaskId)
    | Invalidate(t: TaskId)
    | Cancel(t: TaskId)

  const INIT := State(Empty, 0, None, map[], [], {})

  predicate Enabled(s: State, a: Step) {
    if a.Start? then a.t !in s.tasks
    else
      && a.t in s.tasks
      && var pc := s.tasks[a.t].pc;
        match a
        case Enter(_) => pc.Wanting? && s.lock.None?
        case DialOk(_) => pc.Dialing?
        case DialFail(_) => pc.Dialing?
        case Reply(_) => pc.Sending?
        case SendFail(_) => pc.Sending?
        case Invalidate(_) => pc.Broken? && s.lock.None?
        case Cancel(_) => pc.Wanting? || pc.Dialing? || pc.Sending? || pc.Broken?
        case Start(_) => true
  }

  function Put(s: State, t: TaskId, task: Task): State {
    s.(tasks := s.tasks[t := task])
  }

  /** Where a task stands once the cell has answered it. */
  function Entered(s: State, t: TaskId, dialOk: bool): State
    requires t in s.tasks && (s.tasks[t].pc.Wanting? || s.tasks[t].pc.Dialing?)
  {
    var k := s.tasks[t];
    var (cell, gen, g) := Acquired(s.cell, s.gen, dialOk);
    Put(s.(cell := cell, gen := gen), t,
      match g case Some(n) => Task(Sending(k.pc.attempt, n), k.used + [n]) case None => k.(pc := Failed))
  }

  function Apply(s: State, a: Step): State
    requires Enabled(s, a)
  {
    match a
    case Start(t) => Put(s, t, Task(Wanting(1), []))
    case Enter(t) =>
      var k := s.tasks[t];
      if s.cell.Empty? then Put(s.(lock := Some(t)), t, k.(pc := Dialing(k.pc.attempt)))
      else Entered(s, t, false)
    case DialOk(t) => Entered(s.(lock := None, dialed := s.dialed + [s.gen + 1]), t, true)
    case DialFail(t) => Entered(s.(lock := None), t, false)
    case Reply(t) => Put(s, t, s.tasks[t].(pc := Answered))
    case SendFail(t) =>
      var k := s.tasks[t];
      Put(s.(broken := s.broken + {k.pc.g}), t, k.(pc := Broken(k.pc.attempt, k.pc.g)))
    case Invalidate(t) =>
      var k := s.tasks[t];
      Put(s.(cell := Invalidated(s.cell, k.pc.g)),
          t, k.(pc := if k.pc.attempt == 1 then Wanting(2) else Failed))
    case Cancel(t) =>
      Put(s.(lock := if s.lock == Some(t) then None else s.lock), t, s.tasks[t].(pc := Cancelled))
  }

  // ---------------------------------------------------------------- invariants

  /** The cell holds the newest generation, dials are numbered 1, 2, ..., and a generation
      is only ever left behind because a send on it failed. */
  ghost predicate CellInv(s: State) {
    && (s.cell.Live? ==> s.cell.gen == s.gen && s.gen >= 1)
    && |s.dialed| == s.gen && (forall i :: 0 <= i < |s.dialed| ==> s.dialed[i] == i + 1)
    && (forall g :: 1 <= g < s.gen ==> g in s.broken)
    && (s.cell.Empty? && s.gen >= 1 ==> s.gen in s.broken)
  }

  /** The lock is held exactly by the dialing task, over an empty cell. */
  ghost predicate LockInv(s: State) {
    && (s.lock.Some? ==> s.cell.Empty? && s.lock.value in s.tasks && s.tasks[s.lock.value].pc.Dialing?)
    && (forall t :: t in s.tasks && s.tasks[t].pc.Dialing? ==> s.lock == Some(t))
  }

  /** What a task has sent on, by where it stands; on its second attempt, the generation
      of its first is no longer in the cell. */
  ghost predicate TaskInv(s: State, k: Task) {
    && |k.used| <= 2
    && (forall i :: 0 <= i < |k.used| ==> 1 <= k.used[i] <= s.gen)
    && (|k.used| == 2 ==> k.used[0] < k.used[1])
    && match k.pc
       case Wanting(n) => (n == 1 && k.used == []) || (n == 2 && |k.used| == 1 && s.cell != Live(k.used[0]))
       case Dialing(n) => (n == 1 && k.used == []) || (n == 2 && |k.used| == 1)
       case Sending(n, g) => (n == 1 || n == 2) && |k.used| == n && k.used[n - 1] == g
       case Broken(n, g) => (n == 1 || n == 2) && |k.used| == n && k.used[n - 1] == g && g in s.broken
       case Answered => |k.used| >= 1
       case Failed => true
       case Cancelled => true
  }

  ghost predicate Inv(s: State) {
    && CellInv(s) && LockInv(s)
    && forall t :: t in s.tasks ==> TaskInv(s, s.tasks[t])
  }

  lemma StepKeepsCell(s: State, a: Step)
    requires Inv(s) && Enabled(s, a)
    ensures CellInv(Apply(s, a))
  {
    hide LockInv;
    assert a.t in s.tasks ==> TaskInv(s, s.tasks[a.t]);
    assert s.lock.Some? ==> s.cell.Empty? by { LockedEmpty(s); }
    assert a.t in s.tasks && s.tasks[a.t].pc.Dialing? ==> s.cell.Empty? by { LockedEmpty(s); }
  }

  lemma LockedEmpty(s: State)
    requires LockInv(s)
    ensures s.lock.Some? ==> s.cell.Empty?
    ensures forall t :: t in s.tasks && s.tasks[t].pc.Dialing? ==> s.cell.Empty?
  {
  }

  lemma StepKeepsLock(s: State, a: Step)
    requires Inv(s) && Enabled(s, a)
    ensures LockInv(Apply(s, a))
  {
    hide CellInv, TaskInv;
  }

  /** What one step can do to the cell, as seen by the other tasks. */
  lemma OtherTaskKept(s: State, s': State, k: Task)
    requires TaskInv(s, k) && s.gen <= s'.gen && s.broken <= s'.broken
    requires s'.cell == s.cell || s'.cell == Empty || s'.cell == Live(s.gen + 1)
    ensures TaskInv(s', k)
  {
  }

  lemma ActingTaskKept(s: State, a: Step)
    requires Inv(s) && Enabled(s, a)
    ensures TaskInv(Apply(s, a), Apply(s, a).tasks[a.t])
  {
    assert a.t in s.tasks ==> TaskInv(s, s.tasks[a.t]);
  }

  lemma StepKeepsTask(s: State, a: Step, t: TaskId)
    requires Inv(s) && Enabled(s, a) && t in Apply(s, a).tasks
    ensures TaskInv(Apply(s, a), Apply(s, a).tasks[t])
  {
    if t == a.t {
      ActingTaskKept(s, a);
    } else {
      assert Apply(s, a).tasks[t] == s.tasks[t];
      hide TaskInv;
      OtherTaskKept(s, Apply(s, a), s.tasks[t]);
    }
  }

  lemma StepKeeps(s: State, a: Step)
    requires Inv(s) && Enabled(s, a)
    ensures Inv(Apply(s, a))
  {
    StepKeepsCell(s, a);
    StepKeepsLock(s, a);
    forall t | t in Apply(s, a).tasks ensures TaskInv(Apply(s, a), Apply(s, a).tasks[t]) {
      StepKeepsTask(s, a, t);
    }
  }

  // ---------------------------------------------------------------- runs

  /** A run: states joined by enabled steps, from the initial state. */
  ghost predicate Run(states: seq<State>, steps: seq<Step>) {
    && |states| == |steps| + 1 && states[0] == INIT
    && forall i :: 0 <= i < |steps| ==> Enabled(states[i], steps[i]) && states[i + 1] == Apply(states[i], steps[i])
  }

  lemma {:induction false} RunInv(states: seq<State>, steps: seq<Step>, i: nat)
    requires Run(states, steps) && i < |states|
    ensures Inv(states[i])
  {
    if i > 0 {
      RunInv(states, steps, i - 1);
      StepKeeps(states[i - 1], steps[i - 1]);
      assert states[i - 1 + 1] == states[i];
    }
  }

  /** In every run: dials are numbered 1, 2, 3, ... without a gap or a repeat, so each
      generation is dialed once; and a redial happens only over a generation that failed,
      so however many resolutions fail on a generation, one dial replaces it. */
  lemma DialedOncePerFailure(states: seq<State>, steps: seq<Step>, i: nat)
    requires Run(states, steps) && i < |states|
    ensures var s := states[i];
      && |s.dialed| == s.gen
      && (forall a, b :: 0 <= a < b < |s.dialed| ==> s.dialed[a] < s.dialed[b])
      && (forall a :: 0 <= a < |s.dialed| - 1 ==> s.dialed[a] in s.broken)
  {
    RunInv(states, steps, i);
  }

  /** In every run: a resolution sends at most twice, and its second send uses a strictly
      newer connection. */
  lemma SecondAttemptIsNewer(states: seq<State>, steps: seq<Step>, i: nat, t: TaskId)
    requires Run(states, steps) && i < |states| && t in states[i].tasks
    ensures var used := states[i].tasks[t].used;
      |used| <= 2 && (|used| == 2 ==> used[0] < used[1])
  {
    RunInv(states, steps, i);
    assert TaskInv(states[i], states[i].tasks[t]);
  }

  /** A second try has its first send behind it, and that failed. */
  lemma FirstSendFailed(states: seq<State>, steps: seq<Step>, i: nat, t: TaskId)
    requires Run(states, steps) && i < |states| && t in states[i].tasks && |states[i].tasks[t].used| == 2
    ensures states[i].tasks[t].used[0] in states[i].broken
  {
    RunInv(states, steps, i);
    assert TaskInv(states[i], states[i].tasks[t]);
  }

  /** Why a resolution failed: both its sends failed, or some dial of its own did. */
  ghost predicate GaveUp(s: State, steps: seq<Step>, i: nat, t: TaskId)
    requires t in s.tasks && i <= |steps|
  {
    || (|s.tasks[t].used| == 2 && s.tasks[t].used[0] in s.broken && s.tasks[t].used[1] in s.broken)
    || (exists j :: 0 <= j < i && steps[j] == DialFail(t))
  }

  /** In every run: a resolution fails only after a retry on a second connection failed as
      well, or because it could not dial. */
  lemma {:induction false} FailsOnlyTwice(states: seq<State>, steps: seq<Step>, i: nat, t: TaskId)
    requires Run(states, steps) && i < |states| && t in states[i].tasks && states[i].tasks[t].pc.Failed?
    ensures GaveUp(states[i], steps, i, t)
  {
    if i > 0 {
      var s, a := states[i - 1], steps[i - 1];
      assert states[i - 1 + 1] == Apply(s, a);
      RunInv(states, steps, i - 1);
      if a.t == t {
        FailedNow(s, a);
        if |states[i].tasks[t].used| == 2 {
          FirstSendFailed(states, steps, i, t);
        }
      } else {
        FailsOnlyTwice(states, steps, i - 1, t);
      }
    }
  }

  /** The steps that end a resolution in failure. */
  lemma FailedNow(s: State, a: Step)
    requires Inv(s) && Enabled(s, a) && Apply(s, a).tasks[a.t].pc.Failed?
    ensures a.DialFail? || (a.Invalidate? && |s.tasks[a.t].used| == 2 && s.tasks[a.t].used[1] in Apply(s, a).broken)
    ensures Apply(s, a).tasks[a.t].used == s.tasks[a.t].used
  {
    assert a.t in s.tasks ==> TaskInv(s, s.tasks[a.t]);
  }

  predicate Over(pc: Pc) { pc.Answered? || pc.Failed? || pc.Cancelled? }

  /** Whatever the network does next, a task can go on: by itself, or when the dial it waits
      for ends, which it always can; and until it is over it can be cancelled. */
  lemma NobodyStuck(states: seq<State>, steps: seq<Step>, i: nat, t: TaskId)
    requires Run(states, steps) && i < |states| && t in states[i].tasks && !Over(states[i].tasks[t].pc)
    ensures var s := states[i];
      && Enabled(s, Cancel(t))
      && (s.tasks[t].pc.Dialing? ==> Enabled(s, DialOk(t)) && Enabled(s, DialFail(t)))
      && (s.tasks[t].pc.Sending? ==> Enabled(s, Reply(t)) && Enabled(s, SendFail(t)))
      && (s.tasks[t].pc.Wanting? && s.lock.None? ==> Enabled(s, Enter(t)))
      && (s.tasks[t].pc.Broken? && s.lock.None? ==> Enabled(s, Invalidate(t)))
      && (s.lock.Some? ==> Enabled(s, DialOk(s.lock.value)) && Enabled(s, DialFail(s.lock.value)))
  {
    RunInv(states, steps, i);
  }

  /** In every run: a live connection is only ever dropped by a resolution whose own send
      on that very connection failed; failures on older ones leave it alone. */
  lemma OnlyItsOwnFailureDrops(states: seq<State>, steps: seq<Step>, i: nat)
    requires Run(states, steps) && i < |steps| && states[i].cell.Live? && states[i + 1].cell != states[i].cell
    ensures states[i + 1].cell == Empty && steps[i].Invalidate?
    ensures var k := states[i].tasks[steps[i].t]; k.pc.Broken? && k.pc.g == states[i].cell.gen
  {
    RunInv(states, steps, i);
    var s, a := states[i], steps[i];
    assert a.t in s.tasks ==> TaskInv(s, s.tasks[a.t]);
  }

  /** Dials are serialized: at most one is in progress, and only while there is no live
      connection to share. */
  lemma OneDialAtATime(states: seq<State>, steps: seq<Step>, i: nat, t: TaskId, u: TaskId)
    requires Run(states, steps) && i < |states|
    requires t in states[i].tasks && states[i].tasks[t].pc.Dialing?
    requires u in states[i].tasks && states[i].tasks[u].pc.Dialing?
    ensures t == u && states[i].cell == Empty
  {
    RunInv(states, steps, i);
  }

  /** The cell changes in the locked regions only, and as they say: entering a live cell or
      ending a dial acquires, invalidating invalidates, and no other step touches it. */
  lemma StepsAreOperations(s: State, a: Step)
    requires Inv(s) && Enabled(s, a)
    ensures var s' := Apply(s, a);
      if (a.Enter? && s.cell.Live?) || a.DialOk? || a.DialFail? then
        (s'.cell, s'.gen, SentOn(s'.tasks[a.t])) == Acquired(s.cell, s.gen, a.DialOk?)
      else s'.gen == s.gen && s'.cell == if a.Invalidate? then Invalidated(s.cell, s.tasks[a.t].pc.g) else s.cell
  {
  }

  /** The generation a task is about to send on. */
  function SentOn(k: Task): Option<nat> {
    if k.pc.Sending? then Some(k.pc.g) else None
  }
}
