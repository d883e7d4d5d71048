/** The timer daemon of timers.c: two lists of active timers in order of their 32-bit expiry
    times, switched when the tick count is seen to have wrapped, and a queue of commands.
    `epoch` and `due` record the unbounded times that the 32-bit values stand for; no
    decision of the code looks at them. */
module Timers {
  import opened Rings
  import opened SortedLists

  type Timer = nat

  datatype Op = Start | Stop | ChangePeriod | Delete

  /** A message in the command queue. `value` is the 32-bit command time of a start or reset,
      or the new period; the command time is epoch * 2^32 + value. */
  datatype Command = Command(t: Timer, op: Op, value: nat, epoch: nat)

  /** A call of a timer's callback at time `at` for the expiry at time `due`. */
  datatype Call = Call(t: Timer, due: nat, at: nat)

  datatype Daemon = Daemon(
    epoch: nat,                  // wraps seen so far
    last: nat,                   // xLastTime
    current: seq<Timer>,         // pxCurrentTimerList
    overflow: seq<Timer>,        // pxOverflowTimerList
    value: map<Timer, nat>,      // item values: 32-bit expiry times
    due: map<Timer, nat>,        // the unbounded expiry times
    period: map<Timer, nat>,     // xTimerPeriodInTicks
    auto: set<Timer>,            // uxAutoReload
    queue: seq<Command>,         // xTimerQueue
    log: seq<Call>
  )

  function Sampled(d: Daemon): nat {
    Time(d.epoch, d.last)
  }

  // ---- prvInsertTimerInActiveList ------------------------------------------------------------

  datatype Place = ProcessNow | ToCurrent | ToOverflow

  function Decide(expiry: nat, now: nat, command: nat, period: nat): Place
    requires now < WRAP && command < WRAP
  {
    if expiry <= now then (if Minus(now, command) >= period then ProcessNow else ToOverflow)
    else if now < command && expiry >= command then ProcessNow
    else ToCurrent
  }

  /** For a command handled less than 2^32 ticks after its time, the decision made on 32-bit
      values is right in unbounded time: process now if and only if the expiry time has
      passed, and otherwise use the list of the epoch in which the timer expires. */
  lemma PlacementIsRight(ce: nat, c: nat, ne: nat, n: nat, ee: nat, e: nat, p: nat)
    requires c < WRAP && n < WRAP && e < WRAP && 1 <= p < WRAP
    requires Time(ce, c) <= Time(ne, n) < Time(ce, c) + WRAP && Time(ee, e) == Time(ce, c) + p
    ensures Decide(e, n, c, p) == ProcessNow <==> Time(ee, e) <= Time(ne, n)
    ensures Decide(e, n, c, p) == ToCurrent <==> Time(ee, e) > Time(ne, n) && ee == ne
    ensures Decide(e, n, c, p) == ToOverflow <==> Time(ee, e) > Time(ne, n) && ee == ne + 1
  {
    assert ce <= ne <= ce + 1 && ce <= ee <= ce + 1;
  }

  lemma PlusIsTime(ce: nat, c: nat, p: nat)
    requires c < WRAP && p < WRAP
    ensures Plus(c, p) < WRAP && Time(if c + p < WRAP then ce else ce + 1, Plus(c, p)) == Time(ce, c) + p
  {
  }

  // ---- The invariant -------------------------------------------------------------------------

  /** A list is in order of expiry, and its timers expire in tick epoch `epoch`. */
  ghost predicate ListOk(d: Daemon, list: seq<Timer>, epoch: nat) {
    && InOrder(list, d.value)
    && (forall t :: t in list ==>
          && t in d.value && t in d.due && t in d.period
          && d.value[t] < WRAP && d.due[t] == Time(epoch, d.value[t]))
  }

  ghost predicate CommandOk(d: Daemon, c: Command) {
    c.t in d.period && c.value < WRAP && (c.op.ChangePeriod? ==> c.value > 0)
  }

  ghost predicate Basic(d: Daemon) {
    && d.last < WRAP
    && (forall t :: t in d.period ==> 1 <= d.period[t] < WRAP)
    && (forall c :: c in d.queue ==> CommandOk(d, c))
    && (forall x :: x in d.log ==> x.due <= x.at)
  }

  ghost predicate Inv(d: Daemon) {
    && Basic(d)
    && ListOk(d, d.current, d.epoch) && ListOk(d, d.overflow, d.epoch + 1)
    && (forall t :: t in d.current ==> t !in d.overflow)
  }

  /** Timers have been created, and none has been started. */
  function Initial(period: map<Timer, nat>, auto: set<Timer>): Daemon {
    Daemon(0, 0, [], [], map[], map[], period, auto, [], [])
  }

  lemma InitialInv(period: map<Timer, nat>, auto: set<Timer>)
    requires forall t :: t in period ==> 1 <= period[t] < WRAP
    ensures Inv(Initial(period, auto))
  {
  }

  // ---- The functions of timers.c -------------------------------------------------------------

  /** prvInsertTimerInActiveList; `due` is the unbounded expiry time. */
  function Insert(d: Daemon, t: Timer, expiry: nat, now: nat, command: nat, due: nat): (r: (Daemon, bool))
    requires t in d.period && now < WRAP && command < WRAP
    requires (forall x :: x in d.current ==> x in d.value) && (forall x :: x in d.overflow ==> x in d.value)
  {
    var d1 := d.(value := d.value[t := expiry], due := d.due[t := due]);
    match Decide(expiry, now, command, d.period[t])
    case ProcessNow => (d1, true)
    case ToCurrent => (d1.(current := Inserted(d.current, d1.value, t)), false)
    case ToOverflow => (d1.(overflow := Inserted(d.overflow, d1.value, t)), false)
  }

  /** Sending a command to the daemon; the queue has room. */
  function Send(d: Daemon, c: Command): Daemon {
    d.(queue := d.queue + [c])
  }

  function Called(d: Daemon, t: Timer, due: nat, now: nat): Daemon {
    d.(log := d.log + [Call(t, due, now)])
  }

  /** What is left to expire in the list that is being flushed. */
  ghost function Left(list: seq<Timer>, value: map<Timer, nat>): nat
    requires forall t :: t in list ==> t in value && value[t] < WRAP
  {
    if list == [] then 0 else WRAP - value[list[0]] + Left(list[1..], value)
  }

  /** The timer is put back into the current list with item value `v`. */
  function Reload(d: Daemon, t: Timer, v: nat, due: nat): Daemon
    requires forall x :: x in d.current ==> x in d.value
  {
    var value := d.value[t := v];
    d.(value := value, due := d.due[t := due], current := Inserted(d.current, value, t))
  }

  /** One round of the loop of prvSwitchTimerLists. */
  function FlushOne(d: Daemon, now: nat): Daemon
    requires Inv(d) && d.current != []
  {
    var t := d.current[0];
    var e, p := d.value[t], d.period[t];
    var d1 := Called(d, t, d.due[t], now).(current := d.current[1..]);
    if t !in d.auto then d1
    else if Plus(e, p) > e then
      TailInOrder(d.current, d.value);
      Reload(d1, t, Plus(e, p), d.due[t] + p)
    else Send(d1, Command(t, Start, e, d.epoch))
  }

  /** prvSwitchTimerLists up to the exchange of the lists: the timers left in the current list
      have all expired; their callbacks are called and auto-reload timers restarted. */
  function Flush(d: Daemon, now: nat): Daemon
    requires Inv(d) && d.epoch * WRAP + MAX_DELAY < now
    decreases Left(d.current, d.value)
  {
    if d.current == [] then d
    else
      FlushOneKeeps(d, now);
      Flush(FlushOne(d, now), now)
  }

  function Switch(d: Daemon, now: nat): Daemon
    requires Inv(d) && d.epoch * WRAP + MAX_DELAY < now
  {
    var d1 := Flush(d, now);
    d1.(current := d1.overflow, overflow := d1.current, epoch := d1.epoch + 1)
  }

  function Low(now: nat): (low: nat)
    ensures low < WRAP
  {
    now % WRAP
  }

  lemma SplitTime(now: nat)
    ensures now == Time(now / WRAP, Low(now))
  {
  }

  /** The daemon samples the time at least once in every 2^32 ticks. */
  predicate SampleInTime(d: Daemon, now: nat) {
    Sampled(d) <= now < Sampled(d) + WRAP
  }

  /** A sample shows a smaller tick count exactly when the tick count has wrapped. */
  lemma WrapIsSeen(d: Daemon, now: nat)
    requires d.last < WRAP && SampleInTime(d, now)
    ensures Low(now) < d.last ==> now == Time(d.epoch + 1, Low(now)) && d.epoch * WRAP + MAX_DELAY < now
    ensures Low(now) >= d.last ==> now == Time(d.epoch, Low(now))
  {
    SplitTime(now);
    hide Low;
  }

  /** prvSampleTimeNow; the flag says whether the lists were switched. */
  function Sample(d: Daemon, now: nat): (r: (Daemon, bool))
    requires Inv(d) && SampleInTime(d, now)
  {
    WrapIsSeen(d, now);
    if Low(now) < d.last then (Switch(d, now).(last := Low(now)), true) else (d.(last := Low(now)), false)
  }

  /** prvProcessExpiredTimer for the head of the current list, which expired at `e`. */
  function ProcessExpired(d: Daemon, e: nat, now: nat): Daemon
    requires Inv(d) && d.current != [] && e == d.value[d.current[0]]
  {
    var t := d.current[0];
    TailInOrder(d.current, d.value);
    var d1 := d.(current := d.current[1..]);
    if t !in d.auto then Called(d1, t, d.due[t], now)
    else
      var (d2, processNow) := Insert(d1, t, Plus(e, d.period[t]), d.last, e, d.due[t] + d.period[t]);
      var d3 := if processNow then Send(d2, Command(t, Start, e, d.epoch)) else d2;
      Called(d3, t, d.due[t], now)
  }

  /** One round of the daemon before it looks at the command queue: prvGetNextExpireTime and
      prvProcessTimerOrBlockTask. */
  function ProcessTimer(d: Daemon, now: nat): Daemon
    requires Inv(d) && SampleInTime(d, now)
  {
    var wasEmpty := d.current == [];
    var e := if wasEmpty then 0 else d.value[d.current[0]];
    var (d1, switched) := Sample(d, now);
    if !switched && !wasEmpty && e <= Low(now)
    then
      SameLists(d, d1);
      ProcessExpired(d1, e, now)
    else d1
  }

  /** The command part of one round of prvProcessReceivedCommands, after the timer has left
      its list and the time has been sampled. */
  function Execute(d: Daemon, c: Command, now: nat): Daemon
    requires Inv(d) && CommandOk(d, c) && now == Sampled(d)
  {
    match c.op
    case Start =>
      var p := d.period[c.t];
      var due := Time(c.epoch, c.value) + p;
      var (d1, processNow) := Insert(d, c.t, Plus(c.value, p), d.last, c.value, due);
      if !processNow then d1
      else
        var d2 := Called(d1, c.t, due, now);
        if c.t in d.auto
        then Send(d2, Command(c.t, Start, Plus(c.value, p), if c.value + p < WRAP then c.epoch else c.epoch + 1))
        else d2
    case Stop => d
    case Delete => d
    case ChangePeriod =>
      var d1 := d.(period := d.period[c.t := c.value]);
      Insert(d1, c.t, Plus(d.last, c.value), d.last, d.last, now + c.value).0
  }

  function Detach(d: Daemon): Daemon
    requires d.queue != []
  {
    var t := d.queue[0].t;
    d.(queue := d.queue[1..], current := Without(d.current, t), overflow := Without(d.overflow, t))
  }

  /** One round of prvProcessReceivedCommands. */
  function Receive(d: Daemon, now: nat): Daemon
    requires Inv(d) && SampleInTime(d, now) && d.queue != []
  {
    DetachKeeps(d);
    SampleKeeps(Detach(d), now);
    Execute(Sample(Detach(d), now).0, d.queue[0], now)
  }

  // ---- Preservation --------------------------------------------------------------------------

  lemma SameLists(d: Daemon, d1: Daemon)
    requires Inv(d) && d1 == d.(last := d1.last) && d1.last < WRAP
    ensures Inv(d1)
  {
    hide InOrder;
  }

  lemma LoggedInv(d: Daemon, t: Timer, due: nat, now: nat)
    requires Inv(d) && due <= now
    ensures Inv(Called(d, t, due, now))
  {
    hide InOrder;
  }

  lemma SentInv(d: Daemon, c: Command)
    requires Inv(d) && CommandOk(d, c)
    ensures Inv(Send(d, c))
  {
    hide InOrder;
  }

  lemma HeadGone(d: Daemon)
    requires Inv(d) && d.current != []
    ensures Inv(d.(current := d.current[1..])) && d.current[0] !in d.current[1..] && d.current[0] !in d.overflow
    ensures d.current[0] in d.value && d.current[0] in d.due && d.current[0] in d.period && d.value[d.current[0]] < WRAP
    ensures 1 <= d.period[d.current[0]] < WRAP && d.due[d.current[0]] == Time(d.epoch, d.value[d.current[0]])
  {
    TailInOrder(d.current, d.value);
    hide InOrder;
  }

  lemma ListOtherValue(d: Daemon, d1: Daemon, list: seq<Timer>, epoch: nat, t: Timer, v: nat, w: nat)
    requires ListOk(d, list, epoch) && t !in list && d1.period.Keys == d.period.Keys
    requires d1.value == d.value[t := v] && d1.due == d.due[t := w]
    ensures ListOk(d1, list, epoch)
  {
    OtherValue(list, d.value, t, v);
    hide InOrder;
  }

  lemma ListInserted(d: Daemon, list: seq<Timer>, epoch: nat, t: Timer)
    requires ListOk(d, list, epoch) && t !in list && t in d.period && t in d.value && t in d.due
    requires d.value[t] < WRAP && d.due[t] == Time(epoch, d.value[t])
    ensures ListOk(d, Inserted(list, d.value, t), epoch)
    ensures forall x :: x in Inserted(list, d.value, t) <==> x in list || x == t
  {
    InsertedInOrder(list, d.value, t);
    hide InOrder;
  }

  /** A timer that is in no list is given an expiry time and, if it says so, a list. */
  ghost predicate Filed(d: Daemon, d': Daemon, t: Timer, w: nat, listed: bool) {
    && Inv(d') && d' == d.(current := d'.current, overflow := d'.overflow, value := d'.value, due := d.due[t := w])
    && (forall x :: x in d'.current || x in d'.overflow <==> x in d.current || x in d.overflow || (x == t && listed))
    && (forall x :: x != t && x in d.value ==> x in d'.value && d'.value[x] == d.value[x])
  }

  lemma FileNowhere(d: Daemon, t: Timer, v: nat, w: nat)
    requires Inv(d) && t !in d.current && t !in d.overflow
    ensures Filed(d, d.(value := d.value[t := v], due := d.due[t := w]), t, w, false)
  {
    hide InOrder;
    var d1 := d.(value := d.value[t := v], due := d.due[t := w]);
    ListOtherValue(d, d1, d.current, d.epoch, t, v, w);
    ListOtherValue(d, d1, d.overflow, d.epoch + 1, t, v, w);
  }

  lemma FileCurrent(d: Daemon, t: Timer, v: nat, w: nat)
    requires Inv(d) && t !in d.current && t !in d.overflow && t in d.period && v < WRAP && w == Time(d.epoch, v)
    ensures var d' := Reload(d, t, v, w);
            && Filed(d, d', t, w, true) && d'.overflow == d.overflow
            && (forall x :: x in d'.current <==> x in d.current || x == t)
  {
    hide InOrder, Inserted;
    var d1 := d.(value := d.value[t := v], due := d.due[t := w]);
    FileNowhere(d, t, v, w);
    ListInserted(d1, d.current, d.epoch, t);
    SameDaemon(d1, Reload(d, t, v, w));
  }

  lemma FileOverflow(d: Daemon, t: Timer, v: nat, w: nat)
    requires Inv(d) && t !in d.current && t !in d.overflow && t in d.period && v < WRAP && w == Time(d.epoch + 1, v)
    ensures var d1 := d.(value := d.value[t := v], due := d.due[t := w]);
            Filed(d, d1.(overflow := Inserted(d.overflow, d1.value, t)), t, w, true)
  {
    hide Inv, Inserted, Time;
    var d1 := d.(value := d.value[t := v], due := d.due[t := w]);
    FileNowhere(d, t, v, w);
    IntoOverflow(d1, t);
  }

  lemma IntoOverflow(d: Daemon, t: Timer)
    requires Inv(d) && t !in d.current && t !in d.overflow && t in d.period && t in d.value && t in d.due
    requires d.value[t] < WRAP && d.due[t] == Time(d.epoch + 1, d.value[t])
    ensures forall x :: x in d.overflow ==> x in d.value
    ensures var d' := d.(overflow := Inserted(d.overflow, d.value, t));
            Inv(d') && (forall x :: x in d'.overflow <==> x in d.overflow || x == t)
  {
    hide InOrder, Inserted, Time;
    ListInserted(d, d.overflow, d.epoch + 1, t);
    hide ListOk;
    SameDaemon(d, d.(overflow := Inserted(d.overflow, d.value, t)));
  }

  /** What the steps need to know of the invariant. */
  lemma InvBounds(d: Daemon)
    requires Inv(d)
    ensures d.last < WRAP && (forall t :: t in d.period ==> 1 <= d.period[t] < WRAP)
    ensures (forall t :: t in d.current ==> t in d.value) && (forall t :: t in d.overflow ==> t in d.value)
  {
    hide InOrder;
  }

  lemma SameDaemon(d: Daemon, d1: Daemon)
    requires Basic(d) && ListOk(d, d1.current, d.epoch) && ListOk(d, d1.overflow, d.epoch + 1)
    requires forall t :: t in d1.current ==> t !in d1.overflow
    requires d1 == d.(current := d1.current, overflow := d1.overflow)
    ensures Inv(d1)
  {
    hide InOrder;
  }

  /** Inserting a timer that is in no list keeps the lists in order and in their epochs, and
      asks for immediate processing exactly when the expiry time has passed. */
  lemma InsertKeeps(d: Daemon, t: Timer, ce: nat, c: nat)
    requires Inv(d) && t in d.period && t !in d.current && t !in d.overflow && c < WRAP
    requires Time(ce, c) <= Sampled(d) < Time(ce, c) + WRAP
    ensures var due := Time(ce, c) + d.period[t];
            var (d', processNow) := Insert(d, t, Plus(c, d.period[t]), d.last, c, due);
            Filed(d, d', t, due, !processNow) && (processNow <==> due <= Sampled(d))
  {
    hide InOrder, ListOk, Decide, Plus, Time, Filed, Inserted;
    var p := d.period[t];
    DecideInTime(ce, c, d.epoch, d.last, p);
    match Decide(Plus(c, p), d.last, c, p)
    case ProcessNow => FileNowhere(d, t, Plus(c, p), Time(ce, c) + p);
    case ToCurrent => FileCurrent(d, t, Plus(c, p), Time(ce, c) + p);
    case ToOverflow => FileOverflow(d, t, Plus(c, p), Time(ce, c) + p);
  }

  lemma DecideInTime(ce: nat, c: nat, ne: nat, n: nat, p: nat)
    requires c < WRAP && n < WRAP && 1 <= p < WRAP && Time(ce, c) <= Time(ne, n) < Time(ce, c) + WRAP
    ensures Plus(c, p) < WRAP
    ensures Decide(Plus(c, p), n, c, p) == ProcessNow <==> Time(ce, c) + p <= Time(ne, n)
    ensures Decide(Plus(c, p), n, c, p) == ToCurrent ==> Time(ce, c) + p == Time(ne, Plus(c, p))
    ensures Decide(Plus(c, p), n, c, p) == ToOverflow ==> Time(ce, c) + p == Time(ne + 1, Plus(c, p))
  {
    hide Decide;
    var ee := if c + p < WRAP then ce else ce + 1;
    PlusIsTime(ce, c, p);
    PlacementIsRight(ce, c, ne, n, ee, Plus(c, p), p);
  }

  lemma {:induction false} LeftInserted(list: seq<Timer>, value: map<Timer, nat>, t: Timer)
    requires t in value && value[t] < WRAP && forall x :: x in list ==> x in value && value[x] < WRAP
    ensures forall x :: x in Inserted(list, value, t) ==> x in value && value[x] < WRAP
    ensures Left(Inserted(list, value, t), value) == Left(list, value) + WRAP - value[t]
  {
    if list != [] && value[list[0]] <= value[t] {
      LeftInserted(list[1..], value, t);
      assert Inserted(list, value, t)[1..] == Inserted(list[1..], value, t);
    } else {
      assert Inserted(list, value, t)[1..] == list;
    }
  }

  lemma {:induction false} LeftOther(list: seq<Timer>, value: map<Timer, nat>, t: Timer, v: nat)
    requires t !in list && forall x :: x in list ==> x in value && value[x] < WRAP
    ensures Left(list, value[t := v]) == Left(list, value)
  {
    if list != [] {
      LeftOther(list[1..], value, t, v);
    }
  }

  lemma LeftReload(d: Daemon, t: Timer, v: nat, w: nat)
    requires (forall x :: x in d.current ==> x in d.value && d.value[x] < WRAP) && t !in d.current && v < WRAP
    ensures var d' := Reload(d, t, v, w);
            (forall x :: x in d'.current ==> x in d'.value && d'.value[x] < WRAP)
            && Left(d'.current, d'.value) == Left(d.current, d.value) + WRAP - v
  {
    LeftInserted(d.current, d.value[t := v], t);
    LeftOther(d.current, d.value, t, v);
  }

  lemma HeadLeft(d: Daemon, now: nat)
    requires Inv(d) && d.current != [] && d.epoch * WRAP + MAX_DELAY < now
    ensures forall x :: x in d.current ==> x in d.value && d.value[x] < WRAP
    ensures var t := d.current[0]; var e, p := d.value[t], d.period[t];
            && d.due[t] <= now && Left(d.current, d.value) == WRAP - e + Left(d.current[1..], d.value)
            && Plus(e, p) < WRAP && (Plus(e, p) > e ==> d.due[t] + p == Time(d.epoch, Plus(e, p)))
            && forall d1: Daemon :: d1.period == d.period ==> CommandOk(d1, Command(t, Start, e, d.epoch))
  {
    HeadGone(d);
    hide InOrder;
  }

  /** The loop of prvSwitchTimerLists makes progress: what is left to expire falls. */
  lemma FlushOneKeeps(d: Daemon, now: nat)
    requires Inv(d) && d.current != [] && d.epoch * WRAP + MAX_DELAY < now
    ensures Inv(FlushOne(d, now))
    ensures Left(FlushOne(d, now).current, FlushOne(d, now).value) < Left(d.current, d.value)
    ensures FlushOne(d, now) == d.(current := FlushOne(d, now).current, value := FlushOne(d, now).value,
                                   due := FlushOne(d, now).due, queue := FlushOne(d, now).queue,
                                   log := FlushOne(d, now).log)
  {
    hide Inv, Reload, Time, CommandOk, Left;
    HeadGone(d);
    var t := d.current[0];
    var e, p := d.value[t], d.period[t];
    var d1 := d.(current := d.current[1..]);
    HeadLeft(d, now);
    LoggedInv(d1, t, d.due[t], now);
    var d2 := Called(d1, t, d.due[t], now);
    if t in d.auto {
      if Plus(e, p) > e {
        FileCurrent(d2, t, Plus(e, p), d.due[t] + p);
        LeftReload(d2, t, Plus(e, p), d.due[t] + p);
      } else {
        SentInv(d2, Command(t, Start, e, d.epoch));
      }
    }
  }

  lemma {:induction false} FlushKeeps(d: Daemon, now: nat)
    requires Inv(d) && d.epoch * WRAP + MAX_DELAY < now
    ensures var d' := Flush(d, now);
            Inv(d') && d'.current == [] && d'.overflow == d.overflow && d'.epoch == d.epoch && d'.last == d.last
            && d'.period == d.period && d'.auto == d.auto
    decreases Left(d.current, d.value)
  {
    hide Inv, FlushOne;
    if d.current != [] {
      FlushOneKeeps(d, now);
      FlushKeeps(FlushOne(d, now), now);
    }
  }

  lemma SampleKeeps(d: Daemon, now: nat)
    requires Inv(d) && SampleInTime(d, now)
    ensures var d' := Sample(d, now).0;
            Inv(d') && Sampled(d') == now && d'.last == Low(now) && d'.period == d.period && d'.auto == d.auto
    ensures !Sample(d, now).1 ==> Sample(d, now).0 == d.(last := Low(now)) && now == Time(d.epoch, Low(now))
  {
    hide Inv, Flush, Low;
    WrapIsSeen(d, now) by { LastBelow(d); }
    if Low(now) < d.last {
      FlushKeeps(d, now);
      SwitchedInv(Flush(d, now), Sample(d, now).0);
    } else {
      SameLists(d, Sample(d, now).0);
    }
  }

  lemma LastBelow(d: Daemon)
    requires Inv(d)
    ensures d.last < WRAP
  {
  }

  lemma SwitchedInv(d: Daemon, d': Daemon)
    requires Inv(d) && d.current == [] && d'.last < WRAP
    requires d' == d.(current := d.overflow, overflow := d.current, epoch := d.epoch + 1, last := d'.last)
    ensures Inv(d')
  {
  }

  lemma DetachKeeps(d: Daemon)
    requires Inv(d) && d.queue != []
    ensures Inv(Detach(d)) && CommandOk(d, d.queue[0])
    ensures d.queue[0].t !in Detach(d).current && d.queue[0].t !in Detach(d).overflow
  {
    hide ListOk, Without, CommandOk;
    var t := d.queue[0].t;
    ListWithout(d, Detach(d), d.current, d.epoch, t);
    ListWithout(d, Detach(d), d.overflow, d.epoch + 1, t);
    SameCommands(d, Detach(d));
    assert forall c :: c in d.queue[1..] ==> c in d.queue;
  }

  lemma SameCommands(d: Daemon, d': Daemon)
    requires d'.period == d.period
    ensures forall c :: CommandOk(d, c) ==> CommandOk(d', c)
  {
  }

  lemma ListWithout(d: Daemon, d': Daemon, list: seq<Timer>, epoch: nat, t: Timer)
    requires ListOk(d, list, epoch) && d'.value == d.value && d'.due == d.due && d'.period == d.period
    ensures ListOk(d', Without(list, t), epoch) && forall x :: x in Without(list, t) <==> x in list && x != t
  {
    hide InOrder, Without;
    WithoutInOrder(list, d.value, t);
  }

  lemma ProcessExpiredKeeps(d: Daemon, e: nat, now: nat)
    requires Inv(d) && d.current != [] && e == d.value[d.current[0]] && e <= d.last && now == Sampled(d)
    ensures Inv(ProcessExpired(d, e, now)) && Sampled(ProcessExpired(d, e, now)) == now
  {
    hide Inv, Insert;
    HeadGone(d);
    InvBounds(d);
    var t := d.current[0];
    var d1 := d.(current := d.current[1..]);
    InvBounds(d1);
    if t !in d.auto {
      LoggedInv(d1, t, d.due[t], now);
    } else {
      InsertKeeps(d1, t, d.epoch, e);
      var (d2, processNow) := Insert(d1, t, Plus(e, d.period[t]), d.last, e, d.due[t] + d.period[t]);
      if processNow {
        SentInv(d2, Command(t, Start, e, d.epoch));
      }
      LoggedInv(if processNow then Send(d2, Command(t, Start, e, d.epoch)) else d2, t, d.due[t], now);
    }
  }

  lemma ProcessTimerKeeps(d: Daemon, now: nat)
    requires Inv(d) && SampleInTime(d, now)
    ensures Inv(ProcessTimer(d, now)) && Sampled(ProcessTimer(d, now)) == now
  {
    hide InOrder, Sample, ProcessExpired, Low;
    SampleKeeps(d, now);
    var (d1, switched) := Sample(d, now);
    if !switched && d.current != [] && d.value[d.current[0]] <= Low(now) {
      ProcessExpiredKeeps(d1, d.value[d.current[0]], now);
    }
  }

  /** A start command is handled less than 2^32 ticks after its command time. */
  predicate HandledInTime(c: Command, now: nat) {
    c.op.Start? ==> Time(c.epoch, c.value) <= now < Time(c.epoch, c.value) + WRAP
  }

  lemma NewPeriodInv(d: Daemon, t: Timer, p: nat)
    requires Inv(d) && t in d.period && 1 <= p < WRAP
    ensures Inv(d.(period := d.period[t := p]))
  {
    hide InOrder;
  }

  lemma StartKeeps(d: Daemon, c: Command, now: nat)
    requires Inv(d) && CommandOk(d, c) && now == Sampled(d) && HandledInTime(c, now) && c.op.Start?
    requires c.t !in d.current && c.t !in d.overflow
    ensures Inv(Execute(d, c, now)) && Sampled(Execute(d, c, now)) == now
  {
    hide Inv, Insert, Time;
    InvBounds(d);
    InsertKeeps(d, c.t, c.epoch, c.value);
    var due := Time(c.epoch, c.value) + d.period[c.t];
    var (d1, processNow) := Insert(d, c.t, Plus(c.value, d.period[c.t]), d.last, c.value, due);
    if processNow {
      LoggedInv(d1, c.t, due, now);
      if c.t in d.auto {
        SentInv(Called(d1, c.t, due, now), Command(c.t, Start, Plus(c.value, d.period[c.t]),
                if c.value + d.period[c.t] < WRAP then c.epoch else c.epoch + 1));
      }
    }
  }

  lemma ExecuteKeeps(d: Daemon, c: Command, now: nat)
    requires Inv(d) && CommandOk(d, c) && now == Sampled(d) && HandledInTime(c, now)
    requires c.t !in d.current && c.t !in d.overflow
    ensures Inv(Execute(d, c, now)) && Sampled(Execute(d, c, now)) == now
  {
    hide InOrder, Insert;
    match c.op
    case Start => StartKeeps(d, c, now);
    case Stop =>
    case Delete =>
    case ChangePeriod =>
      NewPeriodInv(d, c.t, c.value);
      InsertKeeps(d.(period := d.period[c.t := c.value]), c.t, d.epoch, d.last);
  }

  lemma ReceiveKeeps(d: Daemon, now: nat)
    requires Inv(d) && SampleInTime(d, now) && d.queue != [] && HandledInTime(d.queue[0], now)
    ensures Inv(Receive(d, now)) && Sampled(Receive(d, now)) == now
  {
    hide Inv, Sample, Execute, Low;
    DetachKeeps(d);
    SampleKeeps(Detach(d), now);
    FlushLeavesOut(Detach(d), now, d.queue[0].t);
    ExecuteKeeps(Sample(Detach(d), now).0, d.queue[0], now);
  }

  lemma FlushOneMembers(d: Daemon, now: nat)
    requires Inv(d) && d.current != []
    ensures forall t :: t in FlushOne(d, now).current ==> t in d.current
    ensures forall t :: t in d.current && t != d.current[0] ==> t in FlushOne(d, now).current
    ensures forall t :: t in d.value && t != d.current[0] ==>
              t in FlushOne(d, now).value && FlushOne(d, now).value[t] == d.value[t]
    ensures forall t :: t in d.due && t != d.current[0] ==>
              t in FlushOne(d, now).due && FlushOne(d, now).due[t] == d.due[t]
  {
    HeadGone(d);
    TailInOrder(d.current, d.value);
    hide Inv, InOrder, Reload;
    var t := d.current[0];
    var e, p := d.value[t], d.period[t];
    if t in d.auto && Plus(e, p) > e {
      FlushOneReloads(d, now);
    }
  }

  lemma FlushOneReloads(d: Daemon, now: nat)
    requires Inv(d) && d.current != []
    requires var t := d.current[0]; t in d.auto && Plus(d.value[t], d.period[t]) > d.value[t]
    ensures var t, d' := d.current[0], FlushOne(d, now);
            && (forall x :: x in d'.current <==> x in d.current)
            && d'.due == d.due[t := d.due[t] + d.period[t]] && d'.queue == d.queue && d'.overflow == d.overflow
            && (forall x :: x != t && x in d.value ==> x in d'.value && d'.value[x] == d.value[x])
  {
    HeadGone(d);
    TailInOrder(d.current, d.value);
    hide InOrder, Inserted;
    var t := d.current[0];
    var d1 := d.(current := d.current[1..]);
    FileCurrent(d1, t, Plus(d.value[t], d.period[t]), d.due[t] + d.period[t]);
  }

  /** Switching the lists does not bring back a timer that is in neither. */
  lemma FlushLeavesOut(d: Daemon, now: nat, t: Timer)
    requires Inv(d) && SampleInTime(d, now) && t !in d.current && t !in d.overflow
    ensures t !in Sample(d, now).0.current && t !in Sample(d, now).0.overflow
  {
    WrapIsSeen(d, now);
    hide InOrder, Low;
    if Low(now) < d.last {
      FlushKeeps(d, now);
    }
  }
}
