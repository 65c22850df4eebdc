/** One unfinished computation per key within a process. */
module SingleFlight {

  /** A task of the event loop: what it computes, whether it is over, whether its completion callback is still to run. */
  datatype Task = Task(key: int, done: bool, callbackDue: bool)

  datatype Loop = Loop(inflight: map<int, nat>, tasks: map<nat, Task>, nextTask: nat)

  /** What happens on the loop; completions and callbacks that are not due are skipped. */
  datatype Event = Call(key: int) | Completes(task: nat) | CallbackRuns(task: nat)

  const EMPTY := Loop(map[], map[], 0)

  predicate Unfinished(l: Loop, t: nat) {
    t in l.tasks && !l.tasks[t].done
  }

  predicate Joinable(l: Loop, key: int) {
    key in l.inflight && Unfinished(l, l.inflight[key])
  }

  function After(l: Loop, e: Event): Loop {
    match e
    case Call(key) =>
      if Joinable(l, key) then l
      else Loop(l.inflight[key := l.nextTask], l.tasks[l.nextTask := Task(key, false, true)], l.nextTask + 1)
    case Completes(t) => if Unfinished(l, t) then l.(tasks := l.tasks[t := l.tasks[t].(done := true)]) else l
    case CallbackRuns(t) =>
      if t in l.tasks && l.tasks[t].done && l.tasks[t].callbackDue then
        l.(tasks := l.tasks[t := l.tasks[t].(callbackDue := false)],
           inflight := if l.tasks[t].key in l.inflight && l.inflight[l.tasks[t].key] == t then l.inflight - {l.tasks[t].key} else l.inflight)
      else l
  }

  function AfterAll(l: Loop, events: seq<Event>): Loop
    decreases events
  {
    if events == [] then l else AfterAll(After(l, events[0]), events[1..])
  }

  /** Every unfinished task is the registered one of its key, and a finished one whose callback has run is not registered. */
  predicate Valid(l: Loop) {
    && (forall k :: k in l.inflight ==> l.inflight[k] in l.tasks && l.tasks[l.inflight[k]].key == k)
    && (forall t :: t in l.tasks ==> t < l.nextTask && (!l.tasks[t].done ==> l.tasks[t].callbackDue))
    && (forall t :: t in l.tasks && (!l.tasks[t].done) ==> l.tasks[t].key in l.inflight && l.inflight[l.tasks[t].key] == t)
    && (forall k :: k in l.inflight ==> l.tasks[l.inflight[k]].callbackDue)
  }

  lemma EventKeepsValid(l: Loop, e: Event)
    requires Valid(l)
    ensures Valid(After(l, e))
  {
  }

  lemma {:induction false} AlwaysValid(l: Loop, events: seq<Event>)
    requires Valid(l)
    ensures Valid(AfterAll(l, events))
    decreases events
  {
    hide Valid, After;
    if events != [] {
      EventKeepsValid(l, events[0]);
      AlwaysValid(After(l, events[0]), events[1..]);
    }
  }

  /** After any calls, completions and callbacks, however late: a key has at most one unfinished task, the registered one. */
  lemma AtMostOnePerKey(events: seq<Event>, t: nat, u: nat)
    requires var l := AfterAll(EMPTY, events); Unfinished(l, t) && Unfinished(l, u) && l.tasks[t].key == l.tasks[u].key
    ensures var l := AfterAll(EMPTY, events); t == u && l.tasks[t].key in l.inflight && l.inflight[l.tasks[t].key] == t
  {
    AlwaysValid(EMPTY, events);
    hide AfterAll;
  }

  /** A registration never outlives its callback: what is registered is a task of that key whose callback is still to run. */
  lemma RegisteredAwaitsItsCallback(events: seq<Event>, key: int)
    requires key in AfterAll(EMPTY, events).inflight
    ensures var l := AfterAll(EMPTY, events);
            l.inflight[key] in l.tasks && l.tasks[l.inflight[key]].key == key && l.tasks[l.inflight[key]].callbackDue
  {
    AlwaysValid(EMPTY, events);
    hide AfterAll;
  }

  class Flights {
    var inflight: map<int, nat>
    var tasks: map<nat, Task>
    var nextTask: nat

    ghost function Abs(): Loop
      reads this
    {
      Loop(inflight, tasks, nextTask)
    }

    constructor ()
      ensures Abs() == EMPTY
    {
      inflight, tasks, nextTask := map[], map[], 0;
    }

    /** `run` up to its await: join the unfinished task of the key, or start one. */
    method Run(key: int) returns (task: nat)
      requires Valid(Abs())
      modifies this
      ensures Valid(Abs()) && Abs() == After(old(Abs()), Call(key))
      ensures Unfinished(Abs(), task) && tasks[task].key == key && inflight[key] == task
      ensures task in old(tasks) <==> exists t :: Unfinished(old(Abs()), t) && old(tasks)[t].key == key
    {
      ghost var before := Abs();
      EventKeepsValid(before, Call(key));
      if key !in inflight || tasks[inflight[key]].done {
        task := nextTask;
        nextTask := nextTask + 1;
        tasks := tasks[task := Task(key, false, true)];
        inflight := inflight[key := task];
      } else {
        task := inflight[key];
        assert Unfinished(before, task);
      }
    }

    /** The computation ends, with a value or an exception; the callback is only scheduled. */
    method Finish(task: nat)
      requires Valid(Abs()) && Unfinished(Abs(), task)
      modifies this`tasks
      ensures Valid(Abs()) && Abs() == After(old(Abs()), Completes(task))
    {
      EventKeepsValid(Abs(), Completes(task));
      tasks := tasks[task := tasks[task].(done := true)];
    }

    /** `_forget`: drop the registration only if it is still this task's own. */
    method Forget(task: nat)
      requires Valid(Abs()) && task in tasks && tasks[task].done && tasks[task].callbackDue
      modifies this`tasks, this`inflight
      ensures Valid(Abs()) && Abs() == After(old(Abs()), CallbackRuns(task))
      ensures forall t :: Unfinished(Abs(), t) ==> inflight[tasks[t].key] == t
      ensures forall k :: k in old(inflight) && old(inflight)[k] != task ==> k in inflight && inflight[k] == old(inflight)[k]
    {
      EventKeepsValid(Abs(), CallbackRuns(task));
      var key := tasks[task].key;
      if key in inflight && inflight[key] == task {
        inflight := inflight - {key};
      }
      tasks := tasks[task := tasks[task].(callbackDue := false)];
    }
  }
}
