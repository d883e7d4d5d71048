/** The mutex fields of Queue_t and TCB_t, and the functions that change them in place. */
module MutexTable {
  import opened Rings
  import opened TaskLists
  import opened Mutexes

  class MutexTable {
    var basePriority: map<Task, nat>
    var priority: map<Task, nat>
    var mutexesHeld: map<Task, nat>
    var mutexHolder: map<Mutex, Task>
    var waiting: map<Mutex, seq<Task>>
    ghost var since: map<Mutex, set<Task>>
    var inheritanceOccurred: set<Task>

    ghost function Value(): State
      reads this
    {
      State(basePriority, priority, mutexesHeld, mutexHolder, waiting, since, inheritanceOccurred)
    }

    /** All tasks at their base priority and all mutexes free. */
    constructor (base: map<Task, nat>, mutexes: set<Mutex>)
      ensures Value() == NoneTaken(base, mutexes) && Core(Value())
    {
      NoneTakenCore(base, mutexes);
      basePriority, priority := base, base;
      mutexesHeld := map t | t in base :: 0;
      mutexHolder := map[];
      waiting := map m | m in mutexes :: [];
      since := map m | m in mutexes :: {};
      inheritanceOccurred := {};
    }

    /** The mutex part of xQueueSemaphoreTake when the mutex is available. */
    method TakeMutex(t: Task, m: Mutex) returns (taken: bool)
      requires Core(Value()) && Possible(Value(), TakeIt(t, m))
      modifies this`mutexHolder, this`mutexesHeld, this`since
      ensures Value() == Step(old(Value()), TakeIt(t, m)) && Core(Value())
      ensures taken <==> m !in old(mutexHolder)
    {
      hide Core, Running, TaskOk;
      StepCore(Value(), TakeIt(t, m));
      TaskDefined(Value(), t);
      taken := m !in mutexHolder;
      if taken {
        mutexesHeld := mutexesHeld[t := mutexesHeld[t] + 1];
        mutexHolder := mutexHolder[m := t];
        since := since[m := {}];
      }
    }

    /** xTaskPriorityInherit and vTaskPlaceOnEventList, with the scheduler suspended. */
    method BlockOnMutex(t: Task, m: Mutex)
      requires Core(Value()) && Possible(Value(), BlockOn(t, m))
      modifies this`priority, this`waiting, this`since, this`inheritanceOccurred
      ensures Value() == Step(old(Value()), BlockOn(t, m)) && Core(Value())
    {
      hide Core, Running, Holds;
      StepCore(Value(), BlockOn(t, m));
      BlockDefined(Value(), t, m);
      var h := mutexHolder[m];
      var occurred := true;
      if priority[h] < priority[t] {
        priority := priority[h := priority[t]];
      } else {
        occurred := basePriority[h] < priority[t];
      }
      inheritanceOccurred := if occurred then inheritanceOccurred + {t} else inheritanceOccurred - {t};
      waiting := waiting[m := Queued(waiting[m], priority, t)];
      since := since[m := since[m] + {t}];
    }

    /** prvCopyDataToQueue of a mutex (xTaskPriorityDisinherit), then waking the first waiter. */
    method GiveMutex(t: Task, m: Mutex) returns (disinherited: bool)
      requires Core(Value()) && Possible(Value(), GiveIt(t, m))
      modifies this`priority, this`mutexesHeld, this`mutexHolder, this`waiting, this`since
      ensures Value() == Step(old(Value()), GiveIt(t, m)) && Core(Value())
      ensures disinherited <==> priority != old(priority)
    {
      hide Core, Running, TaskOk;
      StepCore(Value(), GiveIt(t, m));
      HolderHolds(Value(), m);
      HeldBase(Value(), t);
      mutexesHeld := mutexesHeld[t := mutexesHeld[t] - 1];
      disinherited := priority[t] != basePriority[t] && mutexesHeld[t] == 0;
      if disinherited {
        priority := priority[t := basePriority[t]];
      }
      mutexHolder := mutexHolder - {m};
      since := since[m := {}];
      if waiting[m] != [] {
        waiting := waiting[m := waiting[m][1..]];
      }
    }

    /** The end of a timed-out xQueueSemaphoreTake (vTaskPriorityDisinheritAfterTimeout). */
    method GiveUpAfterTimeout(t: Task, m: Mutex)
      requires Core(Value()) && Possible(Value(), SettleAfter(t, m))
      modifies this`priority
      ensures Value() == Step(old(Value()), SettleAfter(t, m)) && Core(Value())
    {
      hide Core, Running;
      StepCore(Value(), SettleAfter(t, m));
      MutexDefined(Value(), m);
      if m in mutexHolder && t in inheritanceOccurred {
        var h := mutexHolder[m];
        var highest := if waiting[m] == [] then 0 else priority[waiting[m][0]];
        var toUse := if basePriority[h] < highest then highest else basePriority[h];
        if priority[h] != toUse {
          if mutexesHeld[h] == 1 {
            priority := priority[h := toUse];
          }
        }
      }
    }
  }
}
