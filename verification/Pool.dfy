/**
 * The connections of one pool key: exclusive h1 senders, shared h2 senders, the dial lock held across
 * an await, the live-connection cap and the paused-stream budget. Any number of tasks interleave
 * between any two entries they examine, wait for the lock, are aborted there or mid-connect, and peers
 * close connections at any moment.
 */
module Pool {
  import opened Abi

  datatype Kind = H1 | H2

  datatype Conn = Conn(
    kind: Kind,
    idle: bool,        // h1: the exclusive sender is in its slot
    dead: bool,
    cut: bool,         // the peer is gone: the sender reports closed
    active: nat, paused: nat)

  datatype Task =
    | Out
    | Scan(k: nat, locked: bool)       // about to examine entry k for reuse
    | Peeked(e: nat, locked: bool)     // found entry e eligible, has not taken its sender
    | Waiting                          // queued at the dial lock
    | Tally(k: nat, live: nat)         // counting the live entries under the lock
    | Dialing                          // holds the lock across the connect
    | Pushed(e: nat)                   // holds it, entry e is in the list
    | Leased(e: nat)
    | Dropping(e: nat)                 // the sender is handed back, the count is not

  datatype Pool = Pool(
    conns: seq<Conn>, tasks: seq<Task>,
    bounds: seq<Option<nat>>,    // the connection each request is tied to
    guards: seq<Option<nat>>,    // the connection whose paused budget it holds
    lock: Option<nat>, closed: bool, maxConns: nat, pausedCap: nat)

  /** Steps of one task on its way to a connection and back. */
  datatype TaskStep =
    | Begin | Look | Take | Lock | CountOne | Connected(kind: Kind) | ConnectFailed | TakeOwn | Abort
    | DropSender | DropDone

  datatype PoolStep =
    | Go(i: nat, act: TaskStep)
    | Bind(i: nat) | PauseOn(i: nat) | PauseOff(i: nat)
    | Cut(e: nat) | Kill(e: nat) | Shut

  // ---- one connection -------------------------------------------------------------------------

  /** A leased h1 sender cannot be asked, so its entry does not count as closed. */
  predicate IsClosed(c: Conn) {
    c.dead || (c.cut && (c.kind.H2? || c.idle))
  }

  predicate IsEligible(c: Conn, cap: nat) {
    !IsClosed(c) && c.paused < cap && (c.kind.H2? || c.idle)
  }

  /** Really open, which the pool can only approximate. */
  predicate IsOpen(c: Conn) {
    !c.dead && !c.cut
  }

  predicate CanTake(c: Conn) {
    c.kind.H2? || c.idle
  }

  function WithLease(c: Conn): Conn {
    c.(idle := false, active := c.active + 1)
  }

  /** An h1 sender goes back to its slot unless the peer is gone; a gone peer kills the entry. */
  function GiveBack(c: Conn): Conn {
    if c.cut then c.(dead := true) else if c.kind.H1? then c.(idle := true) else c
  }

  function Dec(n: nat): nat {
    if n == 0 then 0 else n - 1
  }

  function Fresh(kind: Kind): Conn {
    Conn(kind, kind.H1?, false, false, 0, 0)
  }

  /** Whether a connection is counted: as the pool sees it, or as it really is. */
  predicate Counts(c: Conn, seen: bool) {
    if seen then !IsClosed(c) else IsOpen(c)
  }

  function Number(conns: seq<Conn>, seen: bool): nat {
    if conns == [] then 0 else Number(conns[..|conns| - 1], seen) + (if Counts(conns[|conns| - 1], seen) then 1 else 0)
  }

  // ---- steps ----------------------------------------------------------------------------------

  predicate HoldsLock(t: Task) {
    match t
    case Scan(_, locked) => locked
    case Peeked(_, locked) => locked
    case Tally(_, _) => true
    case Dialing => true
    case Pushed(_) => true
    case _ => false
  }

  predicate TaskEnabled(p: Pool, t: Task, act: TaskStep) {
    match act
    case Begin => t.Out? && !p.closed
    case Look => t.Scan?
    case Take => t.Peeked? && t.e < |p.conns|
    case Lock => t.Waiting? && p.lock.None?
    case CountOne => t.Tally?
    case Connected(_) => t.Dialing?
    case ConnectFailed => t.Dialing?
    case TakeOwn => t.Pushed? && t.e < |p.conns|
    case Abort => t.Waiting? || t.Dialing?
    case DropSender => t.Leased? && t.e < |p.conns|
    case DropDone => t.Dropping? && t.e < |p.conns|
  }

  predicate PoolEnabled(p: Pool, step: PoolStep) {
    match step
    case Go(i, act) => i < |p.tasks| && TaskEnabled(p, p.tasks[i], act)
    case Bind(i) => i < |p.tasks| && p.tasks[i].Leased? && |p.bounds| == |p.tasks|
    case PauseOn(i) => i < |p.guards| && |p.bounds| == |p.guards| && In(p.bounds[i], |p.conns|) && In(p.guards[i], |p.conns|)
    case PauseOff(i) => i < |p.guards| && In(p.guards[i], |p.conns|)
    case Cut(e) => e < |p.conns|
    case Kill(e) => e < |p.conns|
    case Shut => true
  }

  predicate In(o: Option<nat>, n: nat) {
    o.Some? ==> o.value < n
  }

  /** Where a request goes next: examine entries in order, queue at the lock, examine again, count, dial. */
  function Moved(p: Pool, t: Task, act: TaskStep): Task
    requires TaskEnabled(p, t, act)
  {
    match act
    case Begin => Scan(0, false)
    case Look =>
      if t.k >= |p.conns| then (if t.locked then Tally(0, 0) else Waiting)
      else if IsEligible(p.conns[t.k], p.pausedCap) then Peeked(t.k, t.locked)
      else Scan(t.k + 1, t.locked)
    case Take => if CanTake(p.conns[t.e]) then Leased(t.e) else Scan(t.e + 1, t.locked)
    case Lock => Scan(0, true)
    case CountOne =>
      if t.k < |p.conns| then Tally(t.k + 1, t.live + if IsClosed(p.conns[t.k]) then 0 else 1)
      else if t.live >= p.maxConns then Out else Dialing
    case Connected(_) => Pushed(|p.conns|)
    case ConnectFailed => Out
    case TakeOwn => if CanTake(p.conns[t.e]) then Leased(t.e) else Out
    case Abort => Out
    case DropSender => Dropping(t.e)
    case DropDone => Out
  }

  function MovedConns(p: Pool, t: Task, act: TaskStep): seq<Conn>
    requires TaskEnabled(p, t, act)
  {
    match act
    case Take => if CanTake(p.conns[t.e]) then p.conns[t.e := WithLease(p.conns[t.e])] else p.conns
    case TakeOwn => if CanTake(p.conns[t.e]) then p.conns[t.e := WithLease(p.conns[t.e])] else p.conns
    case Connected(kind) => p.conns + [Fresh(kind)]
    case DropSender => p.conns[t.e := GiveBack(p.conns[t.e])]
    case DropDone => p.conns[t.e := p.conns[t.e].(active := Dec(p.conns[t.e].active))]
    case _ => p.conns
  }

  function DropGuard(conns: seq<Conn>, g: Option<nat>): seq<Conn>
    requires In(g, |conns|)
  {
    if g.None? then conns else conns[g.value := conns[g.value].(paused := Dec(conns[g.value].paused))]
  }

  function AddGuard(conns: seq<Conn>, g: Option<nat>): seq<Conn>
    requires In(g, |conns|)
  {
    if g.None? then conns else conns[g.value := conns[g.value].(paused := conns[g.value].paused + 1)]
  }

  /** The guard of the dial lock lives exactly as long as its holder's critical section. */
  function Relocked(lock: Option<nat>, i: nat, from: Task, to: Task): Option<nat> {
    if HoldsLock(to) then Some(i) else if HoldsLock(from) then None else lock
  }

  function NextGo(p: Pool, i: nat, act: TaskStep): Pool
    requires i < |p.tasks| && TaskEnabled(p, p.tasks[i], act)
  {
    var t := p.tasks[i];
    var t' := Moved(p, t, act);
    p.(conns := MovedConns(p, t, act), tasks := p.tasks[i := t'], lock := Relocked(p.lock, i, t, t'))
  }

  function PoolNext(p: Pool, step: PoolStep): Pool
    requires PoolEnabled(p, step)
  {
    match step
    case Go(i, act) => NextGo(p, i, act)
    case Bind(i) => p.(bounds := p.bounds[i := Some(p.tasks[i].e)])
    case PauseOn(i) => p.(conns := DropGuard(AddGuard(p.conns, p.bounds[i]), p.guards[i]), guards := p.guards[i := p.bounds[i]])
    case PauseOff(i) => p.(conns := DropGuard(p.conns, p.guards[i]), guards := p.guards[i := None])
    case Cut(e) => p.(conns := p.conns[e := p.conns[e].(cut := true)])
    case Kill(e) => p.(conns := p.conns[e := p.conns[e].(dead := true)])
    case Shut => p.(closed := true)
  }

  ghost predicate PoolCanRun(p: Pool, steps: seq<PoolStep>)
    decreases |steps|
  {
    steps != [] ==> PoolEnabled(p, steps[0]) && PoolCanRun(PoolNext(p, steps[0]), steps[1..])
  }

  ghost function PoolAfter(p: Pool, steps: seq<PoolStep>): Pool
    requires PoolCanRun(p, steps)
    decreases |steps|
  {
    if steps == [] then p else PoolAfter(PoolNext(p, steps[0]), steps[1..])
  }

  function NewPool(tasks: nat, maxConns: nat, pausedCap: nat): Pool {
    Pool([], seq(tasks, _ => Out), seq(tasks, _ => None), seq(tasks, _ => None), None, false, maxConns, pausedCap)
  }
}
