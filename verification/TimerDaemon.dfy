/** The variables of timers.c and the functions of the daemon that update them in place, each
    proved to compute its function of module Timers. */
module TimerDaemon {
  import opened Rings
  import opened SortedLists
  import opened Timers

  /** A message in xTimerQueue. */
  datatype Message = Message(t: Timer, op: Op, value: nat)

  ghost function Bare(c: Command): Message {
    Message(c.t, c.op, c.value)
  }

  ghost predicate Carries(messages: seq<Message>, queue: seq<Command>) {
    |messages| == |queue| && forall i :: 0 <= i < |queue| ==> messages[i] == Bare(queue[i])
  }

  class TimerDaemon {
    var lastTime: nat
    var currentList: seq<Timer>
    var overflowList: seq<Timer>
    var itemValue: map<Timer, nat>
    var period: map<Timer, nat>
    var autoReload: set<Timer>
    var messages: seq<Message>
    // Records of unbounded time and of the callbacks made.
    ghost var epoch: nat
    ghost var due: map<Timer, nat>
    ghost var log: seq<Call>
    ghost var queue: seq<Command>   // the messages with the epochs of their command times

    ghost function Value(): Daemon
      reads this
    {
      Daemon(epoch, lastTime, currentList, overflowList, itemValue, due, period, autoReload, queue, log)
    }

    ghost predicate Valid()
      reads this
    {
      Inv(Value()) && Carries(messages, queue)
    }

    /** prvCheckForValidListAndQueue and prvInitialiseNewTimer: no timer is started yet. */
    constructor (periods: map<Timer, nat>, auto: set<Timer>)
      requires forall t :: t in periods ==> 1 <= periods[t] < WRAP
      ensures Valid() && Value() == Initial(periods, auto)
    {
      InitialInv(periods, auto);
      lastTime, currentList, overflowList := 0, [], [];
      itemValue, period, autoReload := map[], periods, auto;
      messages := [];
      epoch, due, log, queue := 0, map[], [], [];
    }

    /** prvInsertTimerInActiveList */
    method InsertTimerInActiveList(t: Timer, expiry: nat, now: nat, command: nat, ghost dueTime: nat)
      returns (processNow: bool)
      requires t in period && now < WRAP && command < WRAP
      requires (forall x :: x in currentList ==> x in itemValue) && (forall x :: x in overflowList ==> x in itemValue)
      modifies this`currentList, this`overflowList, this`itemValue, this`due
      ensures (Value(), processNow) == Insert(old(Value()), t, expiry, now, command, dueTime)
    {
      processNow := false;
      itemValue := itemValue[t := expiry];
      due := due[t := dueTime];
      if expiry <= now {
        if Minus(now, command) >= period[t] {
          processNow := true;
        } else {
          overflowList := Inserted(overflowList, itemValue, t);
        }
      } else {
        if now < command && expiry >= command {
          processNow := true;
        } else {
          currentList := Inserted(currentList, itemValue, t);
        }
      }
    }

    /** xTimerGenericCommand, with room in the queue. */
    method SendMessage(m: Message, ghost commandEpoch: nat)
      requires Carries(messages, queue)
      modifies this`messages, this`queue
      ensures Carries(messages, queue)
      ensures Value() == Send(old(Value()), Command(m.t, m.op, m.value, commandEpoch))
    {
      messages := messages + [m];
      queue := queue + [Command(m.t, m.op, m.value, commandEpoch)];
    }

    /** The body of the loop of prvSwitchTimerLists. */
    method ExpireHead(ghost now: nat)
      requires Valid() && currentList != []
      modifies this
      ensures Value() == FlushOne(old(Value()), now) && Carries(messages, queue)
    {
      hide Inv, Inserted;
      HeadGone(Value());
      var t := currentList[0];
      var e := itemValue[t];
      currentList := currentList[1..];
      InvBounds(Value());
      log := log + [Call(t, due[t], now)];
      if t in autoReload {
        var reload := Plus(e, period[t]);
        if reload > e {
          itemValue := itemValue[t := reload];
          due := due[t := due[t] + period[t]];
          currentList := Inserted(currentList, itemValue, t);
        } else {
          SendMessage(Message(t, Start, e), epoch);
        }
      }
    }

    /** prvSwitchTimerLists. The loop ends because the sum of 2^32 - expiry over the current
        list falls in every round. */
    method SwitchTimerLists(ghost now: nat)
      requires Valid() && epoch * WRAP + MAX_DELAY < now
      modifies this
      ensures Value() == Switch(old(Value()), now) && Carries(messages, queue)
    {
      hide InOrder, Left, FlushOne;
      while currentList != []
        invariant Valid() && epoch * WRAP + MAX_DELAY < now
        invariant Flush(Value(), now) == Flush(old(Value()), now)
        decreases Left(currentList, itemValue)
      {
        FlushOneKeeps(Value(), now);
        ExpireHead(now);
      }
      currentList, overflowList := overflowList, currentList;
      epoch := epoch + 1;
    }

    /** prvSampleTimeNow; `timeNow` is what xTaskGetTickCount returns. */
    method SampleTimeNow(timeNow: nat, ghost now: nat) returns (switched: bool)
      requires Valid() && SampleInTime(Value(), now) && timeNow == Low(now)
      modifies this
      ensures (Value(), switched) == Sample(old(Value()), now)
      ensures Valid() && Sampled(Value()) == now
    {
      hide Inv, Switch, Low;
      SampleKeeps(Value(), now);
      WrapInv(Value(), now);
      switched := timeNow < lastTime;
      if switched {
        SwitchTimerLists(now);
      }
      lastTime := timeNow;
    }

    /** prvProcessExpiredTimer */
    method ProcessExpiredTimer(e: nat, ghost now: nat)
      requires Valid() && currentList != [] && e == itemValue[currentList[0]]
      modifies this
      ensures Value() == ProcessExpired(old(Value()), e, now) && Carries(messages, queue)
    {
      hide InOrder, Insert, Carries;
      HeadGone(Value());
      var t := currentList[0];
      ghost var dueTime := due[t];
      currentList := currentList[1..];
      if t in autoReload {
        var processNow := InsertTimerInActiveList(t, Plus(e, period[t]), lastTime, e, dueTime + period[t]);
        if processNow {
          SendMessage(Message(t, Start, e), epoch);
        }
      }
      log := log + [Call(t, dueTime, now)];
    }

    /** prvGetNextExpireTime and prvProcessTimerOrBlockTask */
    method ProcessTimerOrBlock(timeNow: nat, ghost now: nat)
      requires Valid() && SampleInTime(Value(), now) && timeNow == Low(now)
      modifies this
      ensures Value() == ProcessTimer(old(Value()), now) && Valid()
    {
      hide InOrder, Sample, ProcessExpired, Low, Carries;
      ProcessTimerKeeps(Value(), now);
      SampleKeeps(Value(), now);
      var listWasEmpty := currentList == [];
      var nextExpireTime := if listWasEmpty then 0 else itemValue[currentList[0]];
      var switched := SampleTimeNow(timeNow, now);
      if !switched {
        if !listWasEmpty && nextExpireTime <= timeNow {
          ProcessExpiredTimer(nextExpireTime, now);
        }
      }
    }

    /** One round of the loop of prvProcessReceivedCommands. */
    method ProcessReceivedCommand(timeNow: nat, ghost now: nat)
      requires Valid() && SampleInTime(Value(), now) && timeNow == Low(now)
      requires queue != [] && HandledInTime(queue[0], now)
      modifies this
      ensures Value() == Receive(old(Value()), now) && Valid()
    {
      hide InOrder, Sample, Insert, Low;
      ReceiveKeeps(Value(), now);
      DetachKeeps(Value());
      ghost var c := queue[0];
      var m := messages[0];
      messages, queue := messages[1..], queue[1..];
      currentList := Without(currentList, m.t);
      overflowList := Without(overflowList, m.t);
      assert Value() == Detach(old(Value()));
      SampleKeeps(Value(), now);
      var switched := SampleTimeNow(timeNow, now);
      ExecuteCommand(m, c, now);
    }

    method ExecuteCommand(m: Message, ghost c: Command, ghost now: nat)
      requires Valid() && m == Bare(c) && CommandOk(Value(), c) && now == Sampled(Value())
      modifies this
      ensures Value() == Execute(old(Value()), c, now) && Carries(messages, queue)
    {
      hide InOrder, Insert, Carries;
      match m.op
      case Start =>
        var p := period[m.t];
        ghost var dueTime := Time(c.epoch, c.value) + p;
        var processNow := InsertTimerInActiveList(m.t, Plus(m.value, p), lastTime, m.value, dueTime);
        if processNow {
          log := log + [Call(m.t, dueTime, now)];
          if m.t in autoReload {
            SendMessage(Message(m.t, Start, Plus(m.value, p)), if c.value + p < WRAP then c.epoch else c.epoch + 1);
          }
        }
      case Stop =>
      case Delete =>
      case ChangePeriod =>
        period := period[m.t := m.value];
        var ignored := InsertTimerInActiveList(m.t, Plus(lastTime, m.value), lastTime, lastTime, now + m.value);
    }
  }

  lemma WrapInv(d: Daemon, now: nat)
    requires Inv(d) && SampleInTime(d, now)
    ensures Low(now) < d.last ==> d.epoch * WRAP + MAX_DELAY < now
  {
    WrapIsSeen(d, now);
  }
}
