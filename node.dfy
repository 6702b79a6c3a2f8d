/** src/node.rs: the pattern's syntax tree and its Thompson-style assembly
    into an NFA fragment. */
module Nodes {
  import opened Results
  import opened Nfa

  /** `Node::character`, `Node::union`, `Node::concat` and `Node::star` are
      these constructors; `Epsilon` is the empty pattern. */
  datatype Node =
    | Character(character: bv8)
    | Union(operand1: Node, operand2: Node)
    | Concat(operand1: Node, operand2: Node)
    | Star(operand: Node)
    | Epsilon

  /** The union case: a fresh `start` with epsilon moves to both operand
      starts, both operands' transitions, both accept sets. */
  function Alternation(frag1: Fragment, frag2: Fragment, start: StateId): (f: Fragment)
    ensures f.start == start && f.accepts == frag1.accepts + frag2.accepts
    ensures forall x, l, y :: (x, l, y) in f.transitions <==>
      || (x, l, y) in frag1.transitions
      || (x, l, y) in frag2.transitions
      || (x == start && l == None && (y == frag1.start || y == frag2.start))
  {
    var frag := frag1.Or(frag2).Connect(start, None, frag1.start).Connect(start, None, frag2.start);
    frag.(start := start, accepts := frag1.accepts + frag2.accepts)
  }

  /** The concatenation case: the first start, the second accepts, and an
      epsilon move from every first accept to the second start. */
  function Sequence(frag1: Fragment, frag2: Fragment): (f: Fragment)
    ensures f.start == frag1.start && f.accepts == frag2.accepts
    ensures forall x, l, y :: (x, l, y) in f.transitions <==>
      || (x, l, y) in frag1.transitions
      || (x, l, y) in frag2.transitions
      || (x in frag1.accepts && l == None && y == frag2.start)
  {
    Fragment(frag1.start, frag2.accepts, ConnectAll(frag1.Or(frag2).transitions, frag1.accepts, frag2.start))
  }

  /** The star case: a fresh accepting `start` with an epsilon move into the
      operand, and an epsilon move from every operand accept back to its start. */
  function Loop(orig: Fragment, start: StateId): (f: Fragment)
    ensures f.start == start && f.accepts == orig.accepts + {start}
    ensures forall x, l, y :: (x, l, y) in f.transitions <==>
      || (x, l, y) in orig.transitions
      || (x in orig.accepts && l == None && y == orig.start)
      || (x == start && l == None && y == orig.start)
  {
    var looped := Fragment(start, {}, ConnectAll(orig.transitions, orig.accepts, orig.start));
    looped.Connect(start, None, orig.start).(accepts := orig.accepts + {start})
  }

  /** An assembled fragment and the allocator's counter after assembling it. */
  datatype Built = Built(frag: Fragment, next: nat)

  /** The fragment `assemble` builds for `node` when the allocator's counter
      stands at `count`, and the counter afterwards: assembling always
      issues at least one id. */
  function Build(node: Node, count: nat): (r: Built)
    ensures count < r.next
  {
    match node
    case Character(c) =>
      var s1, s2 := count + 1, count + 2;
      Built(NewFragment(s1, {s2}).Connect(s1, Some(c), s2), s2)
    case Union(a, b) =>
      var r1 := Build(a, count);
      var r2 := Build(b, r1.next);
      Built(Alternation(r1.frag, r2.frag, r2.next + 1), r2.next + 1)
    case Concat(a, b) =>
      var r1 := Build(a, count);
      var r2 := Build(b, r1.next);
      Built(Sequence(r1.frag, r2.frag), r2.next)
    case Star(a) =>
      var r1 := Build(a, count);
      Built(Loop(r1.frag, r1.next + 1), r1.next + 1)
    case Epsilon =>
      var s := count + 1;
      Built(NewFragment(s, {s}), s)
  }

  /** A union of fragments over adjacent ranges, with the next id as its
      start, stays within the joined range. */
  lemma AlternationWithin(frag1: Fragment, frag2: Fragment, lo: int, mid: int, hi: int)
    requires Within(frag1, lo, mid) && Within(frag2, mid, hi)
    ensures Within(Alternation(frag1, frag2, hi + 1), lo, hi + 1)
  {
  }

  /** A concatenation of fragments over adjacent ranges stays within the
      joined range. */
  lemma SequenceWithin(frag1: Fragment, frag2: Fragment, lo: int, mid: int, hi: int)
    requires Within(frag1, lo, mid) && Within(frag2, mid, hi)
    ensures Within(Sequence(frag1, frag2), lo, hi)
  {
  }

  /** A loop around a fragment, with the next id as its start, stays within
      the widened range. */
  lemma LoopWithin(orig: Fragment, lo: int, hi: int)
    requires Within(orig, lo, hi)
    ensures Within(Loop(orig, hi + 1), lo, hi + 1)
  {
  }

  /** Every state of an assembled fragment is one of the ids issued while
      assembling it, so fragments assembled one after another share no state. */
  lemma {:induction false} BuildWithin(node: Node, count: nat)
    ensures Within(Build(node, count).frag, count, Build(node, count).next)
  {
    match node
    case Character(c) =>
    case Union(a, b) =>
      var r1 := Build(a, count);
      BuildWithin(a, count);
      BuildWithin(b, r1.next);
      AlternationWithin(r1.frag, Build(b, r1.next).frag, count, r1.next, Build(b, r1.next).next);
    case Concat(a, b) =>
      var r1 := Build(a, count);
      BuildWithin(a, count);
      BuildWithin(b, r1.next);
      SequenceWithin(r1.frag, Build(b, r1.next).frag, count, r1.next, Build(b, r1.next).next);
    case Star(a) =>
      BuildWithin(a, count);
      LoopWithin(Build(a, count).frag, count, Build(a, count).next);
    case Epsilon =>
  }

  /** A character fragment: two distinct fresh states and the single edge
      between them reading the character. */
  lemma BuildCharacter(c: bv8, count: nat)
    ensures var r := Build(Character(c), count);
      && r.frag.start == count + 1 && r.frag.accepts == {count + 2} && r.next == count + 2
      && r.frag.start !in r.frag.accepts
      && r.frag.transitions == {(r.frag.start, Some(c), count + 2)}
  {
  }

  /** A union fragment: its operands share no state, a fresh start above
      every operand state leads to both operand starts, either operand's
      accepts accept, and no operand edge is lost. */
  lemma {:induction false} BuildUnion(a: Node, b: Node, count: nat)
    ensures var r1 := Build(a, count); var r2 := Build(b, r1.next); var r := Build(Union(a, b), count);
      && (forall x :: Mentions(r1.frag, x) ==> !Mentions(r2.frag, x))
      && r.frag.start == r.next == r2.next + 1
      && (forall x :: Mentions(r1.frag, x) || Mentions(r2.frag, x) ==> x < r.frag.start)
      && (r.frag.start, None, r1.frag.start) in r.frag.transitions
      && (r.frag.start, None, r2.frag.start) in r.frag.transitions
      && r.frag.accepts == r1.frag.accepts + r2.frag.accepts
      && r1.frag.transitions + r2.frag.transitions <= r.frag.transitions
  {
    var r1 := Build(a, count);
    var r2 := Build(b, r1.next);
    BuildWithin(a, count);
    BuildWithin(b, r1.next);
    MentionsWithin(r1.frag, count, r1.next);
    MentionsWithin(r2.frag, r1.next, r2.next);
    Apart(r1.frag, count, r1.next, r2.frag, r1.next, r2.next);
  }

  /** A concatenation fragment: its operands share no state, it starts where
      the first does, accepts where the second does, every accept of the
      first leads to the start of the second, and no operand edge is lost. */
  lemma {:induction false} BuildConcat(a: Node, b: Node, count: nat)
    ensures var r1 := Build(a, count); var r2 := Build(b, r1.next); var r := Build(Concat(a, b), count);
      && (forall x :: Mentions(r1.frag, x) ==> !Mentions(r2.frag, x))
      && r.next == r2.next
      && r.frag.start == r1.frag.start && r.frag.accepts == r2.frag.accepts
      && (forall s :: s in r1.frag.accepts ==> (s, None, r2.frag.start) in r.frag.transitions)
      && r1.frag.transitions + r2.frag.transitions <= r.frag.transitions
  {
    var r1 := Build(a, count);
    var r2 := Build(b, r1.next);
    BuildWithin(a, count);
    BuildWithin(b, r1.next);
    Apart(r1.frag, count, r1.next, r2.frag, r1.next, r2.next);
  }

  /** A star fragment: a fresh start above every operand state accepts and
      leads to the operand start, every operand accept leads back to the
      operand start, and no operand edge is lost. */
  lemma {:induction false} BuildStar(a: Node, count: nat)
    ensures var r1 := Build(a, count); var r := Build(Star(a), count);
      && r.frag.start == r.next == r1.next + 1
      && (forall x :: Mentions(r1.frag, x) ==> x < r.frag.start)
      && (r.frag.start, None, r1.frag.start) in r.frag.transitions
      && (forall s :: s in r1.frag.accepts ==> (s, None, r1.frag.start) in r.frag.transitions)
      && r.frag.accepts == r1.frag.accepts + {r.frag.start}
      && r1.frag.transitions <= r.frag.transitions
  {
    var r1 := Build(a, count);
    BuildWithin(a, count);
    forall x | Mentions(r1.frag, x) ensures x < r1.next + 1 {
    }
  }

  /** The `for state in accepts { frag.connect(state, None, to) }` loops of
      the concatenation and star cases: one epsilon move per source, in
      whatever order the set is iterated. */
  method ConnectEach(frag: Fragment, sources: set<StateId>, to: StateId) returns (r: Fragment)
    ensures r == frag.(transitions := ConnectAll(frag.transitions, sources, to))
  {
    r := frag;
    ConnectAllNone(frag.transitions, to);
    var pending := sources;
    while pending != {}
      invariant pending <= sources
      invariant r == frag.(transitions := ConnectAll(frag.transitions, sources - pending, to))
      decreases pending
    {
      assert (forall y :: y !in pending) ==> pending == {};
      var state :| state in pending;
      ConnectAllStep(frag.transitions, sources - pending, state, to);
      assert sources - (pending - {state}) == (sources - pending) + {state};
      r := r.Connect(state, None, to);
      pending := pending - {state};
    }
    assert sources - pending == sources;
  }

  /** `Node::assemble`: consumes `node`, drawing fresh ids from `context`. */
  method Assemble(node: Node, context: Context) returns (frag: Fragment)
    modifies context
    decreases node
    ensures Built(frag, context.stateCount) == Build(node, old(context.stateCount))
  {
    match node
    case Character(c) =>
      var s1 := context.NewState();
      var s2 := context.NewState();
      frag := NewFragment(s1, {s2});
      frag := frag.Connect(s1, Some(c), s2);
    case Union(operand1, operand2) =>
      var frag1 := Assemble(operand1, context);
      var frag2 := Assemble(operand2, context);
      frag := frag1.Or(frag2);
      var start := context.NewState();
      frag := frag.Connect(start, None, frag1.start);
      frag := frag.Connect(start, None, frag2.start);
      frag := frag.(start := start, accepts := frag1.accepts + frag2.accepts);
      assert frag == Alternation(frag1, frag2, start);
    case Concat(operand1, operand2) =>
      var frag1 := Assemble(operand1, context);
      var frag2 := Assemble(operand2, context);
      frag := frag1.Or(frag2);
      frag := ConnectEach(frag, frag1.accepts, frag2.start);
      frag := frag.(start := frag1.start, accepts := frag2.accepts);
      assert frag == Sequence(frag1, frag2);
    case Star(operand) =>
      var fragOrig := Assemble(operand, context);
      frag := fragOrig.NewSkeleton();
      var start := context.NewState();
      frag := frag.(start := start);
      frag := ConnectEach(frag, fragOrig.accepts, fragOrig.start);
      frag := frag.Connect(start, None, fragOrig.start);
      frag := frag.(accepts := fragOrig.accepts + {start});
      assert frag == Loop(fragOrig, start);
    case Epsilon =>
      var s := context.NewState();
      frag := NewFragment(s, {s});
  }
}
