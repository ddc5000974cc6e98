/** The events the bot broadcasts and the coordinator posts to its ordered `Events` buffer. */
module Events {

  datatype Event =
    | StartProgressReport(message: string)
    | StopProgressReport(message: string)
    | ResourceProcessed(remainingWorkload: int)
    | RedirectHappenedAtStartUrl(finalUrlAfterRedirects: string)
    | NoMoreWorkToDo
    | WorkflowActivated
    | WorkflowCompleted(message: string)

  /** How many `NoMoreWorkToDo` events a stream holds. */
  function CountNoMoreWorkToDo(es: seq<Event>): (n: nat)
    ensures n <= |es|
    ensures n == 0 <==> NoMoreWorkToDo !in es
  {
    if es == [] then 0
    else CountNoMoreWorkToDo(es[..|es| - 1]) + (if es[|es| - 1] == NoMoreWorkToDo then 1 else 0)
  }

  lemma {:induction false} CountNoMoreWorkToDoConcat(a: seq<Event>, b: seq<Event>)
    ensures CountNoMoreWorkToDo(a + b) == CountNoMoreWorkToDo(a) + CountNoMoreWorkToDo(b)
  {
    if b != [] {
      assert (a + b)[..|a + b| - 1] == a + b[..|b| - 1];
      CountNoMoreWorkToDoConcat(a, b[..|b| - 1]);
    } else {
      assert a + b == a;
    }
  }
}
