/** src/nfa.rs: the state-id allocator, NFA fragments with their transition
    map, and the finished nondeterministic automaton. */
module Nfa {
  import opened Results

  /** State ids are the `i32` values the allocator issues. */
  type StateId = int

  /** The byte a transition reads; `None` is an epsilon move. */
  type Label = Option<bv8>

  /** A transition table as the set of its edges `(from, ch, to)`: the
      relation a map from `(from, ch)` to a set of destinations stands for. */
  type Transitions = set<(StateId, Label, StateId)>

  /** The destinations `(from, ch)` leads to: the table read as a map. */
  function Dest(m: Transitions, from: StateId, ch: Label): (r: set<StateId>)
    ensures forall to :: to in r <==> (from, ch, to) in m
  {
    set e | e in m && e.0 == from && e.1 == ch :: e.2
  }

  /** The table after an epsilon move from every state of `sources` to `to`
      has been added, in whatever order `sources` is visited. */
  function ConnectAll(m: Transitions, sources: set<StateId>, to: StateId): (r: Transitions)
    ensures forall f, l, t :: (f, l, t) in r <==> (f, l, t) in m || (f in sources && l == None && t == to)
  {
    m + set s | s in sources :: (s, None, to)
  }

  /** Connecting no source leaves the table as it was. */
  lemma ConnectAllNone(m: Transitions, to: StateId)
    ensures ConnectAll(m, {}, to) == m
  {
  }

  /** Connecting one more source adds exactly its edge. */
  lemma ConnectAllStep(m: Transitions, done: set<StateId>, s: StateId, to: StateId)
    ensures ConnectAll(m, done + {s}, to) == ConnectAll(m, done, to) + {(s, None, to)}
  {
  }

  /** `NFAFragment`: a partly built automaton. */
  datatype Fragment = Fragment(start: StateId, accepts: set<StateId>, transitions: Transitions) {

    /** Adds the edge `from --ch--> to` and nothing else. */
    function Connect(from: StateId, ch: Label, to: StateId): (r: Fragment)
      ensures r.start == start && r.accepts == accepts
      ensures forall f, l, t :: (f, l, t) in r.transitions <==>
        (f, l, t) in transitions || (f == from && l == ch && t == to)
      ensures Dest(r.transitions, from, ch) == Dest(transitions, from, ch) + {to}
    {
      this.(transitions := transitions + {(from, ch, to)})
    }

    /** This start and these accepts, with the edges of both fragments. */
    function Or(other: Fragment): (r: Fragment)
      ensures r.start == start && r.accepts == accepts
      ensures forall f, l, t :: (f, l, t) in r.transitions <==>
        (f, l, t) in transitions || (f, l, t) in other.transitions
    {
      this.(transitions := transitions + other.transitions)
    }

    /** A copy that keeps the start and the edges but accepts nothing. */
    function NewSkeleton(): (r: Fragment)
      ensures r.start == start && r.transitions == transitions && r.accepts == {}
    {
      Fragment(start, {}, transitions)
    }
  }

  /** Read as maps, `or` unites the destination sets key by key: no
      destination of either fragment is overwritten. */
  lemma OrDest(f: Fragment, g: Fragment, from: StateId, ch: Label)
    ensures Dest(f.Or(g).transitions, from, ch) == Dest(f.transitions, from, ch) + Dest(g.transitions, from, ch)
  {
  }

  /** `NFAFragment::new(start, accepts)`: no transitions yet. */
  function NewFragment(start: StateId, accepts: set<StateId>): Fragment {
    Fragment(start, accepts, {})
  }

  /** Every state the fragment mentions lies in `(lo, hi]`. */
  ghost predicate Within(f: Fragment, lo: int, hi: int) {
    && lo < f.start <= hi
    && (forall a :: a in f.accepts ==> lo < a <= hi)
    && (forall x, l, y :: (x, l, y) in f.transitions ==> lo < x <= hi && lo < y <= hi)
  }

  /** `x` is the start, an accept, or an end of a transition of `f`. */
  ghost predicate Mentions(f: Fragment, x: StateId) {
    || x == f.start
    || x in f.accepts
    || (exists l, y :: (x, l, y) in f.transitions)
    || (exists w, l :: (w, l, x) in f.transitions)
  }

  /** A fragment within a range mentions only states of that range. */
  lemma MentionsWithin(f: Fragment, lo: int, hi: int)
    requires Within(f, lo, hi)
    ensures forall x :: Mentions(f, x) ==> lo < x <= hi
  {
  }

  /** Fragments whose id ranges do not overlap mention no common state, and
      every state of the lower one lies below every state of the upper one. */
  lemma Apart(f1: Fragment, lo1: int, hi1: int, f2: Fragment, lo2: int, hi2: int)
    requires Within(f1, lo1, hi1) && Within(f2, lo2, hi2) && hi1 <= lo2
    ensures forall x, y :: Mentions(f1, x) && Mentions(f2, y) ==> x < y
    ensures forall x :: Mentions(f1, x) ==> !Mentions(f2, x)
  {
  }

  /** The state-id allocator. */
  class Context {
    var stateCount: nat

    constructor ()
      ensures stateCount == 0
    {
      stateCount := 0;
    }

    /** Issues the next id: strictly above every id issued before. */
    method NewState() returns (id: StateId)
      modifies this
      ensures id == old(stateCount) + 1 && stateCount == id
    {
      stateCount := stateCount + 1;
      id := stateCount;
    }
  }

  /** `NondeterministicFiniteAutomaton`: a transition on `None` is an epsilon
      move, and a transition may fail with a message. */
  datatype Automaton = Automaton(
    start: StateId,
    accept: set<StateId>,
    transition: (StateId, Label) -> Result<set<StateId>>)
  {
    function Trans(state: StateId, character: Label): Result<set<StateId>> {
      transition(state, character)
    }
  }
}
