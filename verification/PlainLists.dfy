/** The lists of a scheduler without their representation: turns instead of walked rings, one
    sequence of sleepers in unbounded time instead of two delayed lists of 32-bit times, and
    waiting lists without item values; and how they show in the stores of `TaskLists`. */
module PlainLists {
  import opened Rings
  import opened TaskLists

  /** Tasks that take turns: those that had theirs, the latest last, and those still to come. */
  datatype Turns = Turns(had: seq<Task>, coming: seq<Task>)

  datatype Sleeper = Sleeper(task: Task, due: nat)

  datatype Places = Places(
    ready: imap<nat, Turns>,   // for each priority
    sleeping: seq<Sleeper>,    // in the order in which they will wake
    parked: seq<Task>,         // suspended, the latest last
    ended: seq<Task>           // deleted and not yet freed, the latest last
  )

  datatype Waits = Waits(
    waiting: imap<nat, seq<Task>>,  // for each event, the first to be woken first
    held: seq<Task>                 // woken while the scheduler is suspended, the latest last
  )

  // ---- Operations --------------------------------------------------------------------------

  /** The newcomer comes last, but before the one whose turn it is. */
  function Join(r: Turns, t: Task): Turns {
    if r.had == [] then r.(coming := r.coming + [t])
    else r.(had := r.had[..|r.had| - 1] + [t, r.had[|r.had| - 1]])
  }

  function Everyone(r: Turns): seq<Task> {
    r.had + r.coming
  }

  /** The next one has its turn; when all have had theirs a new round begins. */
  function NextTurn(r: Turns): Turns {
    if r.coming != [] then Turns(r.had + [r.coming[0]], r.coming[1..])
    else if r.had != [] then Turns([r.had[0]], r.had[1..])
    else r
  }

  /** The sleepers but `t`. */
  function Roused(s: seq<Sleeper>, t: Task): seq<Sleeper> {
    if s == [] then []
    else if s[0].task == t then Roused(s[1..], t)
    else [s[0]] + Roused(s[1..], t)
  }

  /** Behind all who are due earlier or at the same time. */
  function Bedded(s: seq<Sleeper>, x: Sleeper): seq<Sleeper> {
    if s == [] || x.due < s[0].due then [x] + s else [s[0]] + Bedded(s[1..], x)
  }

  function PriorityOf(prio: map<Task, nat>, t: Task): nat {
    if t in prio then prio[t] else 0
  }

  /** Behind all of the same or a higher priority. */
  function Queued(s: seq<Task>, prio: map<Task, nat>, t: Task): seq<Task> {
    if s == [] || PriorityOf(prio, t) > PriorityOf(prio, s[0]) then [t] + s else [s[0]] + Queued(s[1..], prio, t)
  }

  /** The tasks of those who are due at time `now`, in order. */
  function DueTasks(s: seq<Sleeper>, now: nat): seq<Task> {
    if s == [] || now < s[0].due then [] else [s[0].task] + DueTasks(s[1..], now)
  }

  ghost function ReadyAt(a: Places, p: nat): Turns {
    if p in a.ready then a.ready[p] else Turns([], [])
  }

  ghost function WaitingFor(a: Waits, q: nat): seq<Task> {
    if q in a.waiting then a.waiting[q] else []
  }

  function TurnsWithout(r: Turns, t: Task): Turns {
    Turns(Without(r.had, t), Without(r.coming, t))
  }

  ghost function ReadyWithout(a: Places, t: Task): imap<nat, Turns> {
    imap p: nat :: TurnsWithout(ReadyAt(a, p), t)
  }

  /** The task leaves the place it is in. */
  ghost function Gone(a: Places, t: Task): Places {
    Places(ReadyWithout(a, t), Roused(a.sleeping, t), Without(a.parked, t), Without(a.ended, t))
  }

  ghost function InTurn(a: Places, t: Task, p: nat): Places {
    a.(ready := a.ready[p := Join(ReadyAt(a, p), t)])
  }

  /** The task waits for nothing any more. */
  ghost function Quit(a: Waits, t: Task): Waits {
    Waits(imap q: nat :: Without(WaitingFor(a, q), t), Without(a.held, t))
  }

  /** Nobody waits for event `q`. */
  function Nobody(q: nat): seq<Task> {
    []
  }

  // ---- Views -------------------------------------------------------------------------------

  function TurnsOf(r: Ring<Task>): Turns {
    if r.index <= |r.items| then Turns(r.items[..r.index], r.items[r.index..]) else Turns(r.items, [])
  }

  function Sleepers(items: seq<Task>, wake: map<Task, nat>, epoch: nat): (s: seq<Sleeper>)
    ensures |s| == |items|
    ensures forall i :: 0 <= i < |s| ==>
              s[i] == Sleeper(items[i], Time(epoch, if items[i] in wake then wake[items[i]] else 0))
  {
    if items == [] then []
    else [Sleeper(items[0], Time(epoch, if items[0] in wake then wake[items[0]] else 0))]
         + Sleepers(items[1..], wake, epoch)
  }

  ghost function ReadyOf(st: Store): imap<nat, Turns> {
    imap p: nat :: TurnsOf(At(st, Ready(p)))
  }

  /** The places the state items of a store are in, when `d` and `o` are the delayed lists. */
  ghost function PlacesOf(st: Store, wake: map<Task, nat>, d: ListId, o: ListId, epoch: nat): Places {
    Places(ReadyOf(st),
           Sleepers(At(st, d).items, wake, epoch) + Sleepers(At(st, o).items, wake, epoch + 1),
           At(st, Suspended).items, At(st, Terminating).items)
  }

  ghost function WaitsOf(ev: Store): Waits {
    Waits(imap q: nat :: At(ev, Event(q)).items, At(ev, PendingReady).items)
  }
}
