/** The control fields of Queue_t and the critical sections of queue.c that update them,
    each proved to be its step of the protocol. */
module QueueControl {
  import opened TaskLists
  import opened QueueProtocol

  lemma StepKeepsIf(q: Queue, e: Event)
    requires e.Place? ==> CanPlace(q, e.place)
    ensures Inv(q) && Allowed(q, e) ==> Inv(Step(q, e))
  {
    if Inv(q) && Allowed(q, e) {
      StepKeeps(q, e);
    }
  }

  class QueueControl {
    const length: nat
    var messagesWaiting: nat
    var waitingToReceive: seq<Task>
    var waitingToSend: seq<Task>
    var txLock: int
    var rxLock: int
    ghost var receiversWoken: set<Task>
    ghost var sendersWoken: set<Task>
    ghost var phase: Phase

    ghost function Value(): Queue
      reads this
    {
      Queue(length, messagesWaiting, Side(waitingToReceive, receiversWoken, txLock),
            Side(waitingToSend, sendersWoken, rxLock), phase)
    }

    /** xQueueGenericCreate, with an initial count for a semaphore. */
    constructor (length: nat, count: nat)
      requires count <= length
      ensures Value() == Created(length, count) && Inv(Value())
    {
      this.length := length;
      messagesWaiting := count;
      waitingToReceive, waitingToSend := [], [];
      txLock, rxLock := UNLOCKED, UNLOCKED;
      receiversWoken, sendersWoken, phase := {}, {}, Idle;
    }

    method WakeReceiver()
      modifies this`waitingToReceive, this`receiversWoken
      ensures Value() == old(Value()).(rx := WakeOne(old(Value()).rx))
    {
      if waitingToReceive != [] {
        receiversWoken := receiversWoken + {waitingToReceive[0]};
        waitingToReceive := waitingToReceive[1..];
      }
    }

    method WakeSender()
      modifies this`waitingToSend, this`sendersWoken
      ensures Value() == old(Value()).(tx := WakeOne(old(Value()).tx))
    {
      if waitingToSend != [] {
        sendersWoken := sendersWoken + {waitingToSend[0]};
        waitingToSend := waitingToSend[1..];
      }
    }

    /** The first critical section of xQueueGenericSend. */
    method TrySend(ghost t: Task, overwrite: bool) returns (sent: bool)
      modifies this
      ensures Value() == Step(old(Value()), TaskSend(t, overwrite))
      ensures old(Inv(Value()) && Allowed(Value(), TaskSend(t, overwrite))) ==> Inv(Value())
      ensures sent <==> old(messagesWaiting) < length || overwrite
    {
      StepKeepsIf(Value(), TaskSend(t, overwrite));
      sendersWoken := sendersWoken - {t};
      sent := messagesWaiting < length || overwrite;
      if sent {
        if !(overwrite && messagesWaiting > 0) {
          messagesWaiting := messagesWaiting + 1;
        }
        WakeReceiver();
      }
    }

    /** The first critical section of xQueueReceive, xQueueSemaphoreTake and xQueuePeek. */
    method TryReceive(ghost t: Task, peek: bool) returns (received: bool)
      modifies this
      ensures Value() == Step(old(Value()), TaskReceive(t, peek))
      ensures old(Inv(Value()) && Allowed(Value(), TaskReceive(t, peek))) ==> Inv(Value())
      ensures received <==> old(messagesWaiting) > 0
    {
      StepKeepsIf(Value(), TaskReceive(t, peek));
      receiversWoken := receiversWoken - {t};
      received := messagesWaiting > 0;
      if received {
        if peek {
          WakeReceiver();
        } else {
          messagesWaiting := messagesWaiting - 1;
          WakeSender();
        }
      }
    }

    /** prvLockQueue */
    method LockQueue(ghost t: Task, ghost sending: bool)
      modifies this`rxLock, this`txLock, this`phase
      ensures Value() == Step(old(Value()), BeginBlock(t, sending))
      ensures old(Inv(Value()) && Allowed(Value(), BeginBlock(t, sending))) ==> Inv(Value())
    {
      StepKeepsIf(Value(), BeginBlock(t, sending));
      if rxLock == UNLOCKED {
        rxLock := 0;
      }
      if txLock == UNLOCKED {
        txLock := 0;
      }
      phase := Locked(t, sending);
    }

    /** The first critical section of prvUnlockQueue: wake a receiver for each post. */
    method UnlockTxSide()
      modifies this`waitingToReceive, this`receiversWoken, this`txLock, this`phase
      ensures Value() == Step(old(Value()), UnlockTx)
      ensures old(Inv(Value()) && Allowed(Value(), UnlockTx)) ==> Inv(Value())
    {
      StepKeepsIf(Value(), UnlockTx);
      var posts := txLock;
      while posts > 0
        invariant Drain(Side(waitingToReceive, receiversWoken, posts)) == Drain(old(Value()).rx)
        decreases posts
      {
        if waitingToReceive == [] {
          break;
        }
        WakeReceiver();
        posts := posts - 1;
      }
      txLock := UNLOCKED;
      phase := HalfUnlocked;
    }

    /** The second critical section of prvUnlockQueue: wake a sender for each removal. */
    method UnlockRxSide()
      modifies this`waitingToSend, this`sendersWoken, this`rxLock, this`phase
      ensures Value() == Step(old(Value()), UnlockRx)
      ensures old(Inv(Value()) && Allowed(Value(), UnlockRx)) ==> Inv(Value())
    {
      StepKeepsIf(Value(), UnlockRx);
      var removals := rxLock;
      while removals > 0
        invariant Drain(Side(waitingToSend, sendersWoken, removals)) == Drain(old(Value()).tx)
        decreases removals
      {
        if waitingToSend == [] {
          break;
        }
        WakeSender();
        removals := removals - 1;
      }
      rxLock := UNLOCKED;
      phase := Idle;
    }

    /** xQueueGenericSendFromISR and xQueueGiveFromISR */
    method PostFromISR(overwrite: bool) returns (sent: bool)
      modifies this
      ensures Value() == Step(old(Value()), SendFromISR(overwrite))
      ensures old(Inv(Value()) && Allowed(Value(), SendFromISR(overwrite))) ==> Inv(Value())
      ensures sent <==> old(messagesWaiting) < length || overwrite
    {
      StepKeepsIf(Value(), SendFromISR(overwrite));
      sent := messagesWaiting < length || overwrite;
      if sent {
        if !(overwrite && messagesWaiting > 0) {
          messagesWaiting := messagesWaiting + 1;
        }
        if txLock == UNLOCKED {
          WakeReceiver();
        } else {
          txLock := Int8(txLock + 1);
        }
      }
    }

    /** xQueueReceiveFromISR */
    method TakeFromISR() returns (received: bool)
      modifies this
      ensures Value() == Step(old(Value()), ReceiveFromISR)
      ensures old(Inv(Value()) && Allowed(Value(), ReceiveFromISR)) ==> Inv(Value())
      ensures received <==> old(messagesWaiting) > 0
    {
      StepKeepsIf(Value(), ReceiveFromISR);
      received := messagesWaiting > 0;
      if received {
        messagesWaiting := messagesWaiting - 1;
        if rxLock == UNLOCKED {
          WakeSender();
        } else {
          rxLock := Int8(rxLock + 1);
        }
      }
    }

    /** The control part of xQueueGenericReset. */
    method ResetQueue()
      modifies this
      ensures Value() == Reset(old(Value()))
    {
      messagesWaiting := 0;
      rxLock, txLock := UNLOCKED, UNLOCKED;
      WakeSender();
    }
  }
}
