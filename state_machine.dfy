/**
 * The transition-table automaton of Helix.Core that both the bot and the coordinator use. StateMachine.cs is
 * not part of this model; its meaning is taken from its call sites: `TryTransitNext(command, action)` looks up
 * `(current state, command)` in the table, here a function that gives the target state of a mapped pair and
 * `None` for any other; on a hit it moves to the mapped state, runs `action` and returns
 * true; on a miss it returns false and leaves the state as it was. Callers here run the action themselves,
 * right after a successful call.
 */
module StateMachines {
  import opened Wrappers

  class StateMachine<S(==), C(==)> {
    const transitions: (S, C) -> Option<S>
    var current: S

    constructor (transitions: (S, C) -> Option<S>, initial: S)
      ensures this.transitions == transitions && current == initial
    {
      this.transitions := transitions;
      current := initial;
    }

    method TryTransitNext(command: C) returns (succeeded: bool)
      modifies this
      ensures succeeded <==> transitions(old(current), command).Some?
      ensures current == if succeeded then transitions(old(current), command).value else old(current)
    {
      var target := transitions(current, command);
      succeeded := target.Some?;
      if succeeded {
        current := target.value;
      }
    }
  }
}
