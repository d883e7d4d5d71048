/** Recursive mutexes of queue.c: nested takes and gives by the holder, with any steps of other tasks
    in between. */
module RecursiveMutexes {
  import opened Rings
  import opened TaskLists
  import opened Mutexes

  /** `depth` is uxRecursiveCallCount. */
  datatype Recursive = Recursive(s: State, depth: map<Mutex, nat>)

  ghost predicate RecursiveOk(r: Recursive) {
    Core(r.s) && forall m :: m in r.s.wait ==> m in r.depth && (m in r.s.holder <==> r.depth[m] > 0)
  }

  /** xQueueTakeMutexRecursive, up to where it would block: blocking is BlockOn, and a task that
      is woken tries again. */
  function TakeRecursive(r: Recursive, t: Task, m: Mutex): (r': Recursive)
    requires RecursiveOk(r) && Possible(r.s, TakeIt(t, m))
    ensures RecursiveOk(r')
  {
    if m in r.s.holder && r.s.holder[m] == t then r.(depth := r.depth[m := r.depth[m] + 1])
    else if m in r.s.holder then r
    else
      StepCore(r.s, TakeIt(t, m));
      Recursive(Step(r.s, TakeIt(t, m)), r.depth[m := r.depth[m] + 1])
  }

  /** xQueueGiveMutexRecursive */
  function GiveRecursive(r: Recursive, t: Task, m: Mutex): (r': Recursive)
    requires RecursiveOk(r) && t in r.s.base && m in r.s.wait && Running(r.s, t)
    ensures RecursiveOk(r')
  {
    if m !in r.s.holder || r.s.holder[m] != t then r
    else
      var depth := r.depth[m := r.depth[m] - 1];
      if depth[m] > 0 then r.(depth := depth)
      else
        GiveEffect(r.s, t, m);
        Recursive(Step(r.s, GiveIt(t, m)), depth)
  }

  lemma GiveEffect(s: State, t: Task, m: Mutex)
    requires Core(s) && Possible(s, GiveIt(t, m))
    ensures var s' := Step(s, GiveIt(t, m));
            && Core(s') && Running(s', t) && s'.base == s.base
            && s'.wait.Keys == s.wait.Keys && s'.holder == s.holder - {m}
            && t in s.held && t in s'.held && s'.held[t] + 1 == s.held[t]
  {
    hide Core, Holds;
    StepCore(s, GiveIt(t, m));
    HolderHolds(s, m);
  }

  datatype Call =
    | TakeNested(t: Task, m: Mutex)
    | GiveNested(t: Task, m: Mutex)
    | Waiting(e: Event)                // a task blocks, times out or gives up

  ghost predicate CallPossible(r: Recursive, c: Call) {
    match c
    case TakeNested(t, m) => Possible(r.s, TakeIt(t, m))
    case GiveNested(t, m) => t in r.s.base && m in r.s.wait && Running(r.s, t)
    case Waiting(e) => Possible(r.s, e) && !e.TakeIt? && !e.GiveIt?
  }

  function Made(r: Recursive, c: Call): (r': Recursive)
    requires RecursiveOk(r) && CallPossible(r, c)
    ensures RecursiveOk(r')
  {
    match c
    case TakeNested(t, m) => TakeRecursive(r, t, m)
    case GiveNested(t, m) => GiveRecursive(r, t, m)
    case Waiting(e) => WaitingKeepsHolders(r.s, e); r.(s := Step(r.s, e))
  }

  lemma WaitingKeepsHolders(s: State, e: Event)
    requires Core(s) && Possible(s, e) && !e.TakeIt? && !e.GiveIt?
    ensures var s' := Step(s, e); Core(s') && s'.holder == s.holder && s'.wait.Keys == s.wait.Keys
  {
    hide Core, Running, Queued, Holds;
    StepCore(s, e);
    if e.BlockOn? {
      BlockDefined(s, e.t, e.m);
    }
  }

  ghost predicate CallsPossible(r: Recursive, cs: seq<Call>)
    requires RecursiveOk(r)
    decreases |cs|
  {
    cs == [] || (CallPossible(r, cs[0]) && CallsPossible(Made(r, cs[0]), cs[1..]))
  }

  ghost function AllMade(r: Recursive, cs: seq<Call>): (r': Recursive)
    requires RecursiveOk(r) && CallsPossible(r, cs)
    ensures RecursiveOk(r')
    decreases |cs|
  {
    if cs == [] then r else AllMade(Made(r, cs[0]), cs[1..])
  }

  /** The takes of `m` by `t` less the gives. */
  function Net(cs: seq<Call>, t: Task, m: Mutex): int {
    if cs == [] then 0
    else (if cs[0] == TakeNested(t, m) then 1 else if cs[0] == GiveNested(t, m) then -1 else 0) + Net(cs[1..], t, m)
  }

  /** With depth `d` before the calls, no call but the last brings it to zero. */
  ghost predicate StaysNested(d: int, cs: seq<Call>, t: Task, m: Mutex)
    decreases |cs|
  {
    cs == [] || (d > 0 && StaysNested(d + Net(cs[..1], t, m), cs[1..], t, m))
  }

  ghost predicate Depth(r: Recursive, t: Task, m: Mutex, d: int) {
    && m in r.s.wait && m in r.depth && r.depth[m] == d
    && (m in r.s.holder <==> d > 0) && (m in r.s.holder ==> r.s.holder[m] == t)
  }

  lemma CallDepth(r: Recursive, t: Task, m: Mutex, d: int, c: Call)
    requires RecursiveOk(r) && CallPossible(r, c) && Depth(r, t, m, d) && d > 0
    ensures Depth(Made(r, c), t, m, d + Net([c], t, m))
  {
    hide Core, Running;
    if c.GiveNested? && c.m in r.s.holder && r.s.holder[c.m] == c.t && r.depth[c.m] == 1 {
      GiveEffect(r.s, c.t, c.m);
    }
    if c.Waiting? {
      WaitingKeepsHolders(r.s, c.e);
    }
  }

  lemma {:induction false} CallsDepth(r: Recursive, t: Task, m: Mutex, d: int, cs: seq<Call>)
    requires RecursiveOk(r) && CallsPossible(r, cs) && Depth(r, t, m, d) && StaysNested(d, cs, t, m)
    ensures Depth(AllMade(r, cs), t, m, d + Net(cs, t, m))
    decreases |cs|
  {
    hide RecursiveOk, CallPossible, Depth;
    if cs != [] {
      CallDepth(r, t, m, d, cs[0]);
      assert cs[..1] == [cs[0]];
      CallsDepth(Made(r, cs[0]), t, m, d + Net([cs[0]], t, m), cs[1..]);
    }
  }

  /** A task takes a free recursive mutex. Whatever it and all other tasks then do, up to the give
      that makes the gives equal the takes, it keeps the mutex, which counts once among the mutexes
      it holds; and exactly that give frees the mutex. */
  lemma RecursiveMutexBalances(r: Recursive, t: Task, m: Mutex, cs: seq<Call>)
    requires RecursiveOk(r) && Possible(r.s, TakeIt(t, m)) && m !in r.s.holder
    requires CallsPossible(TakeRecursive(r, t, m), cs) && StaysNested(1, cs, t, m)
    ensures var r' := AllMade(TakeRecursive(r, t, m), cs); var d := 1 + Net(cs, t, m);
            && d >= 0 && m in r'.depth && r'.depth[m] == d
            && (m in Holds(r'.s, t) <==> d > 0) && (m in r'.s.holder <==> d > 0)
            && t in r'.s.held && r'.s.held[t] == |Holds(r'.s, t)|
  {
    hide Core, Running, AllMade, CallsPossible;
    var r1 := TakeRecursive(r, t, m);
    CallKeepsTasks(r, TakeNested(t, m));
    CallsDepth(r1, t, m, 1, cs);
    CallsKeepTasks(r1, cs);
    HeldCount(AllMade(r1, cs).s, t);
  }

  lemma HeldCount(s: State, t: Task)
    requires Core(s) && t in s.base
    ensures t in s.held && s.held[t] == |Holds(s, t)|
  {
    assert TaskOk(s, t);
  }

  lemma {:induction false} CallsKeepTasks(r: Recursive, cs: seq<Call>)
    requires RecursiveOk(r) && CallsPossible(r, cs)
    ensures AllMade(r, cs).s.base == r.s.base
    decreases |cs|
  {
    hide RecursiveOk, CallPossible, Made;
    if cs != [] {
      CallKeepsTasks(r, cs[0]);
      CallsKeepTasks(Made(r, cs[0]), cs[1..]);
    }
  }

  lemma CallKeepsTasks(r: Recursive, c: Call)
    requires RecursiveOk(r) && CallPossible(r, c)
    ensures Made(r, c).s.base == r.s.base
  {
    hide Core, Running;
    match c
    case TakeNested(t, m) => StepCore(r.s, TakeIt(t, m));
    case GiveNested(t, m) =>
      if m in r.s.holder && r.s.holder[m] == t {
        StepCore(r.s, GiveIt(t, m));
      }
    case Waiting(e) => StepCore(r.s, e);
  }

  // ---- The outermost calls -------------------------------------------------------------------

  /** What a call does to the mutex itself: the first take takes it, the last give gives it, and those
      between do nothing to it, nor does a give by a task that does not hold it. */
  function Outermost(r: Recursive, c: Call): seq<Event> {
    match c
    case TakeNested(t, m) => if m in r.s.holder then [] else [TakeIt(t, m)]
    case GiveNested(t, m) =>
      if m in r.s.holder && r.s.holder[m] == t && m in r.depth && r.depth[m] == 1 then [GiveIt(t, m)] else []
    case Waiting(e) => [e]
  }

  ghost function AllOutermost(r: Recursive, cs: seq<Call>): seq<Event>
    requires RecursiveOk(r) && CallsPossible(r, cs)
    decreases |cs|
  {
    if cs == [] then [] else Outermost(r, cs[0]) + AllOutermost(Made(r, cs[0]), cs[1..])
  }

  lemma OneRun(s: State, e: Event)
    requires Core(s) && Possible(s, e)
    ensures PossibleRun(s, [e]) && Run(s, [e]) == Step(s, e)
  {
    hide Core, Possible, Step;
    StepCore(s, e);
    assert [e][1..] == [];
  }

  lemma OneOutermost(r: Recursive, c: Call)
    requires RecursiveOk(r) && CallPossible(r, c)
    ensures PossibleRun(r.s, Outermost(r, c)) && Made(r, c).s == Run(r.s, Outermost(r, c))
  {
    hide Core, Running, Step;
    match c
    case TakeNested(t, m) => if m !in r.s.holder { OneRun(r.s, TakeIt(t, m)); }
    case GiveNested(t, m) =>
      if m in r.s.holder && r.s.holder[m] == t && r.depth[m] == 1 { OneRun(r.s, GiveIt(t, m)); }
    case Waiting(e) => OneRun(r.s, e);
  }

  lemma {:induction false} RunBoth(s: State, es: seq<Event>, fs: seq<Event>)
    requires Core(s) && PossibleRun(s, es) && PossibleRun(Run(s, es), fs)
    ensures PossibleRun(s, es + fs) && Run(s, es + fs) == Run(Run(s, es), fs)
    decreases |es|
  {
    hide Core, Possible, Step;
    if es == [] {
      assert es + fs == fs;
    } else {
      StepCore(s, es[0]);
      RunBoth(Step(s, es[0]), es[1..], fs);
      assert (es + fs)[1..] == es[1..] + fs;
    }
  }

  /** Over every sequence of calls, a recursive mutex is the mutex under it with only the outermost takes
      and gives: the same holder, waiters, woken tasks and priorities. */
  lemma {:induction false} RecursiveIsOutermost(r: Recursive, cs: seq<Call>)
    requires RecursiveOk(r) && CallsPossible(r, cs)
    ensures PossibleRun(r.s, AllOutermost(r, cs)) && AllMade(r, cs).s == Run(r.s, AllOutermost(r, cs))
    decreases |cs|
  {
    hide Core, CallPossible, Made, Outermost;
    if cs != [] {
      OneOutermost(r, cs[0]);
      RecursiveIsOutermost(Made(r, cs[0]), cs[1..]);
      RunBoth(r.s, Outermost(r, cs[0]), AllOutermost(Made(r, cs[0]), cs[1..]));
    }
  }
}
