/** src/dfa.rs: a deterministic automaton whose states are sets of NFA
    states, and the runtime cursor that feeds it one byte at a time. */
module Dfa {

  /** A DFA state: the set of NFA states the automaton may be in. */
  type StateSet = set<int>

  /** `DeterministicFiniteAutomaton`: the transition function is supplied by
      the caller (the subset construction that would build it is not part of
      this model). */
  datatype Automaton = Automaton(
    start: StateSet,
    accept: StateSet,
    transition: (StateSet, bv8) -> StateSet)
  {
    function Trans(state: StateSet, character: bv8): StateSet {
      transition(state, character)
    }

    method GetRuntime() returns (r: Runtime)
      ensures fresh(r) && r.dfa == this && r.curState == start
    {
      r := new Runtime(this);
    }
  }

  /** A state set is accepting when it holds at least one NFA accept state. */
  ghost predicate Meets(states: StateSet, accept: StateSet) {
    exists q :: q in states && q in accept
  }

  /** The state reached from `from` by reading `input` left to right. */
  function Run(dfa: Automaton, from: StateSet, input: seq<bv8>): StateSet
    decreases |input|
  {
    if input == [] then from else Run(dfa, dfa.Trans(from, input[0]), input[1..])
  }

  /** Reading `xs` and then `ys` ends where reading `xs + ys` does. */
  lemma {:induction false} RunConcat(dfa: Automaton, from: StateSet, xs: seq<bv8>, ys: seq<bv8>)
    ensures Run(dfa, from, xs + ys) == Run(dfa, Run(dfa, from, xs), ys)
    decreases |xs|
  {
    if xs == [] {
      assert xs + ys == ys;
    } else {
      assert (xs + ys)[1..] == xs[1..] + ys;
      RunConcat(dfa, dfa.Trans(from, xs[0]), xs[1..], ys);
    }
  }

  /** Reading nothing stays put. */
  lemma RunEmpty(dfa: Automaton, from: StateSet)
    ensures Run(dfa, from, []) == from
  {
  }

  /** The automaton accepts `input` when reading it from the start ends in an
      accepting state set. */
  ghost predicate Accepts(dfa: Automaton, input: seq<bv8>) {
    Meets(Run(dfa, dfa.start, input), dfa.accept)
  }

  /** The empty input is accepted exactly when the start set meets the accept set. */
  lemma AcceptsEmpty(dfa: Automaton)
    ensures Accepts(dfa, []) <==> Meets(dfa.start, dfa.accept)
  {
    RunEmpty(dfa, dfa.start);
  }

  /** `DfaRuntime`: a cursor over a borrowed automaton. */
  class Runtime {
    const dfa: Automaton
    var curState: StateSet

    constructor (dfa: Automaton)
      ensures this.dfa == dfa && curState == dfa.start
    {
      this.dfa := dfa;
      curState := dfa.start;
    }

    /** `do_trantision`: one step of the automaton. */
    method DoTransition(character: bv8)
      modifies this
      ensures curState == dfa.Trans(old(curState), character)
    {
      curState := dfa.Trans(curState, character);
    }

    /** The current state set shares a state with the accept set. */
    function IsAcceptState(): (b: bool)
      reads this
      ensures b <==> Meets(curState, dfa.accept)
    {
      var common := dfa.accept * curState;
      assert (forall q :: q !in common) ==> common == {};
      assert forall q :: q in common <==> q in curState && q in dfa.accept;
      common != {}
    }

    /** Feeds every byte of `input` in order, then asks whether the state
      reached accepts. */
    method DoesAccept(input: seq<bv8>) returns (b: bool)
      modifies this
      ensures curState == Run(dfa, old(curState), input)
      ensures b <==> Meets(curState, dfa.accept)
    {
      for i := 0 to |input|
        invariant curState == Run(dfa, old(curState), input[..i])
      {
        RunConcat(dfa, old(curState), input[..i], [input[i]]);
        assert input[..i + 1] == input[..i] + [input[i]];
        DoTransition(input[i]);
      }
      assert input[..|input|] == input;
      b := IsAcceptState();
    }
  }
}
