/** The recursive-descent parser of src/parser.rs, for the grammar

      expression -> subexpr EOF
      subexpr    -> seq '|' subexpr | seq
      seq        -> subseq | ''
      subseq     -> star subseq | star
      star       -> factor '*' | factor
      factor     -> '(' subexpr ')' | CHARACTER

    Each grammar function is first given as a pure function of the parser
    state (the lookahead token and the unread pattern); the `Parser` class
    then does the same work in place and is proved to agree with it. */
module Parsing {
  import opened Results
  import opened Lexing
  import opened Nodes

  const SyntaxError: string := "syntax error"

  /** What the parser knows: the lookahead token and the pattern not yet scanned. */
  datatype ParserState = ParserState(look: Token, rest: seq<bv8>)

  /** The state a parser starts in: `Parser::new` puts a placeholder in `look`. */
  function Initial(pattern: seq<bv8>): ParserState {
    ParserState(Token(0x00, Initialize), pattern)
  }

  /** The result of a grammar function and the state it leaves behind. */
  datatype Step<+T> = Step(result: Result<T>, state: ParserState)

  /** The outcome of moving or matching and the state it leaves behind. */
  datatype Moved = Moved(outcome: Outcome, state: ParserState)

  /** Input still to be consumed: two per unread byte, one more while the
      lookahead is not EOF. Every scan of a byte lowers it. */
  function Measure(s: ParserState): nat {
    2 * |s.rest| + (if s.look.kind == EOF then 0 else 1)
  }

  /** The lexer is at end of input once it has produced EOF. */
  predicate Synced(s: ParserState) {
    s.look.kind == EOF ==> s.rest == []
  }

  predicate StartsFactor(k: TokenKind) {
    k == LParen || k == Literal
  }

  /** `move_parser`: scans the next token into `look`. */
  function MoveStep(s: ParserState): (r: Moved)
    ensures Measure(r.state) <= Measure(s)
    ensures s.look.kind != EOF ==> Measure(r.state) < Measure(s)
    ensures Synced(r.state)
    ensures r.outcome.Pass? <==> s.rest != [Backslash]
    ensures r.outcome.Pass? ==> r.state.look == Lex(s.rest).token.value && r.state.rest == Lex(s.rest).rest
    ensures r.outcome.Fail? ==> r.state == ParserState(s.look, [])
  {
    var scanned := Lex(s.rest);
    match scanned.token
    case Ok(tok) => Moved(Pass, ParserState(tok, scanned.rest))
    case Err(msg) => Moved(Fail(msg), ParserState(s.look, scanned.rest))
  }

  /** `match_parse(tag)`: checks the lookahead and only then moves on. */
  function MatchStep(s: ParserState, tag: TokenKind): (r: Moved)
    ensures s.look.kind != tag ==> r == Moved(Fail(SyntaxError), s)
    ensures s.look.kind == tag ==> r == MoveStep(s)
  {
    if s.look.kind != tag then Moved(Fail(SyntaxError), s) else MoveStep(s)
  }

  /** `factor -> '(' subexpr ')' | CHARACTER` */
  function ParseFactor(s: ParserState): (r: Step<Node>)
    decreases Measure(s), 0
    ensures Measure(r.state) <= Measure(s)
    ensures r.result.Ok? ==> Measure(r.state) < Measure(s)
    ensures Synced(s) ==> Synced(r.state)
    // no other token can start a factor: failure, and nothing consumed
    ensures !StartsFactor(s.look.kind) ==> r == Step(Err(SyntaxError), s)
    ensures s.look.kind == Literal ==>
      (r.result.Ok? <==> s.rest != [Backslash]) &&
      (r.result.Ok? ==> r.result.value == Character(s.look.value))
    // a bracketed factor is read exactly when `(` moves on, the subexpression
    // after it is read and stops at a `)` that moves on too; its value is the
    // subexpression's and reading resumes after the `)`
    ensures s.look.kind == LParen ==>
      var inner := ParseSubexpr(MoveStep(s).state);
      (r.result.Ok? <==>
        MoveStep(s).outcome.Pass? && inner.result.Ok? &&
        inner.state.look.kind == RParen && inner.state.rest != [Backslash]) &&
      (r.result.Ok? ==> r == Step(inner.result, MoveStep(inner.state).state))
  {
    if s.look.kind == LParen then
      var open := MatchStep(s, LParen);
      if open.outcome.Fail? then Step(Err(open.outcome.msg), open.state)
      else
        var inner := ParseSubexpr(open.state);
        if inner.result.Err? then Step(Err(inner.result.msg), inner.state)
        else
          var close := MatchStep(inner.state, RParen);
          if close.outcome.Fail? then Step(Err(close.outcome.msg), close.state)
          else Step(Ok(inner.result.value), close.state)
    else
      var node := Character(s.look.value);
      var lit := MatchStep(s, Literal);
      if lit.outcome.Fail? then Step(Err(lit.outcome.msg), lit.state)
      else Step(Ok(node), lit.state)
  }

  /** `star -> factor '*' | factor` */
  function ParseStar(s: ParserState): (r: Step<Node>)
    decreases Measure(s), 1
    ensures Measure(r.state) <= Measure(s)
    ensures r.result.Ok? ==> Measure(r.state) < Measure(s)
    ensures Synced(s) ==> Synced(r.state)
    ensures !StartsFactor(s.look.kind) ==> r == Step(Err(SyntaxError), s)
  {
    var factor := ParseFactor(s);
    if factor.result.Err? then factor
    else if factor.state.look.kind == OpeStar then
      var star := MatchStep(factor.state, OpeStar);
      if star.outcome.Fail? then Step(Err(star.outcome.msg), star.state)
      else Step(Ok(Star(factor.result.value)), star.state)
    else factor
  }

  /** `subseq -> star subseq | star`: a right-nested concatenation. */
  function ParseSubseq(s: ParserState): (r: Step<Node>)
    decreases Measure(s), 2
    ensures Measure(r.state) <= Measure(s)
    ensures r.result.Ok? ==> Measure(r.state) < Measure(s)
    ensures Synced(s) ==> Synced(r.state)
    ensures !StartsFactor(s.look.kind) ==> r == Step(Err(SyntaxError), s)
    // it stops only where no further factor can start
    ensures r.result.Ok? ==> !StartsFactor(r.state.look.kind)
  {
    var first := ParseStar(s);
    if first.result.Err? then first
    else if StartsFactor(first.state.look.kind) then
      var others := ParseSubseq(first.state);
      if others.result.Err? then others
      else Step(Ok(Concat(first.result.value, others.result.value)), others.state)
    else first
  }

  /** `seq -> subseq | ''`: the empty alternative consumes nothing. */
  function ParseSeq(s: ParserState): (r: Step<Node>)
    decreases Measure(s), 3
    ensures Measure(r.state) <= Measure(s)
    ensures Synced(s) ==> Synced(r.state)
    ensures !StartsFactor(s.look.kind) ==> r == Step(Ok(Epsilon), s)
    ensures r.result.Ok? ==> !StartsFactor(r.state.look.kind)
  {
    if StartsFactor(s.look.kind) then ParseSubseq(s)
    else Step(Ok(Epsilon), s)
  }

  /** `subexpr -> seq '|' subexpr | seq`: a right-nested union. */
  function ParseSubexpr(s: ParserState): (r: Step<Node>)
    decreases Measure(s), 4
    ensures Measure(r.state) <= Measure(s)
    ensures Synced(s) ==> Synced(r.state)
    // it stops only where neither a factor nor another alternative can start
    ensures r.result.Ok? ==> !StartsFactor(r.state.look.kind) && r.state.look.kind != OpeUnion
  {
    var left := ParseSeq(s);
    if left.result.Err? then left
    else if left.state.look.kind == OpeUnion then
      var bar := MatchStep(left.state, OpeUnion);
      if bar.outcome.Fail? then Step(Err(bar.outcome.msg), bar.state)
      else
        var right := ParseSubexpr(bar.state);
        if right.result.Err? then right
        else Step(Ok(Union(left.result.value, right.result.value)), right.state)
    else left
  }

  /** `expression -> subexpr EOF`, after scanning the first token. */
  function ParseExpression(s: ParserState): (r: Step<Node>)
    // success means the whole pattern was read, up to and including EOF
    ensures r.result.Ok? ==> r.state == ParserState(Token(EofValue, EOF), [])
    ensures Measure(r.state) <= Measure(s)
  {
    var first := MoveStep(s);
    if first.outcome.Fail? then Step(Err(first.outcome.msg), first.state)
    else
      var body := ParseSubexpr(first.state);
      if body.result.Err? then body
      else
        var end := MatchStep(body.state, EOF);
        if end.outcome.Fail? then Step(Err(end.outcome.msg), end.state)
        else Step(Ok(body.result.value), end.state)
  }

  /** Parsing a whole pattern with a freshly made parser. */
  function Parse(pattern: seq<bv8>): Step<Node> {
    ParseExpression(Initial(pattern))
  }

  /** `expression` as src/parser.rs writes it: the grammar starts on the
      placeholder token `Parser::new` put in `look`, with no scan first. */
  function ParseExpressionUnprimed(s: ParserState): (r: Step<Node>)
    ensures Measure(r.state) <= Measure(s)
  {
    var body := ParseSubexpr(s);
    if body.result.Err? then body
    else
      var end := MatchStep(body.state, EOF);
      if end.outcome.Fail? then Step(Err(end.outcome.msg), end.state)
      else Step(Ok(body.result.value), end.state)
  }

  /** Without that first scan every pattern is rejected: the placeholder
      starts no factor, so the empty alternative is taken, and the
      placeholder is then not the EOF that `expression` demands. */
  lemma UnprimedRejects(pattern: seq<bv8>)
    ensures ParseExpressionUnprimed(Initial(pattern)) == Step(Err(SyntaxError), Initial(pattern))
  {
    var s := Initial(pattern);
    assert ParseSeq(s) == Step(Ok(Epsilon), s);
    assert ParseSubexpr(s) == Step(Ok(Epsilon), s);
  }

  /** The grammar level a node is printed at without parentheses: 0 for a
      union (and the empty pattern), 1 for a concatenation, 2 for a star,
      3 for a literal. Levels bind tighter as they grow. */
  function Prec(n: Node): nat {
    match n
    case Union(_, _) => 0
    case Epsilon => 0
    case Concat(_, _) => 1
    case Star(_) => 2
    case Character(_) => 3
  }

  /** A pattern for `n` read at grammar level `level` (0 subexpr, 1 subseq,
      2 star, 3 factor): parentheses only where the node binds more loosely
      than the level, operators written bare, and the left operand of a
      union or concatenation bracketed when it is itself one, since both
      nest to the right. Special literal bytes are escaped. */
  function Print(n: Node, level: nat): seq<bv8>
    decreases n, level
  {
    if Prec(n) < level then [Open] + Print(n, 0) + [Close]
    else
      match n
      case Character(c) => Spell(Token(c, Literal))
      case Epsilon => []
      case Union(a, b) => Print(a, 1) + [Bar] + Print(b, 0)
      case Concat(a, b) => Print(a, 2) + Print(b, 1)
      case Star(a) => Print(a, 3) + [Asterisk]
  }

  /** The state right after the first token of `u` has been scanned. */
  function Primed(u: seq<bv8>): ParserState {
    MoveStep(Initial(u)).state
  }

  /** Moving on scans the first token of the unread pattern. */
  lemma MovePrimed(s: ParserState)
    requires s.rest != [Backslash]
    ensures MoveStep(s) == Moved(Pass, Primed(s.rest))
  {
  }

  /** An unescaped byte is scanned on its own. */
  lemma PrimedByte(b: bv8, t: seq<bv8>)
    requires b != Backslash
    ensures Primed([b] + t) == ParserState(Token(b, OperatorKind(b)), t)
  {
    assert ([b] + t)[1..] == t;
  }

  /** The rules of the grammar, one lemma per alternative: what each grammar
      function returns once its parts are known. */
  lemma RuleFactorParen(s: ParserState, inner: ParserState, n: Node, after: ParserState, next: ParserState)
    requires s.look.kind == LParen && MatchStep(s, LParen) == Moved(Pass, inner)
    requires ParseSubexpr(inner) == Step(Ok(n), after)
    requires MatchStep(after, RParen) == Moved(Pass, next)
    ensures ParseFactor(s) == Step(Ok(n), next)
  {
  }

  lemma RuleStarPlain(s: ParserState, n: Node, after: ParserState)
    requires ParseFactor(s) == Step(Ok(n), after) && after.look.kind != OpeStar
    ensures ParseStar(s) == Step(Ok(n), after)
  {
  }

  lemma RuleStarRepeated(s: ParserState, n: Node, mid: ParserState, after: ParserState)
    requires ParseFactor(s) == Step(Ok(n), mid) && mid.look.kind == OpeStar
    requires MatchStep(mid, OpeStar) == Moved(Pass, after)
    ensures ParseStar(s) == Step(Ok(Star(n)), after)
  {
  }

  lemma RuleSubseqLast(s: ParserState, n: Node, after: ParserState)
    requires ParseStar(s) == Step(Ok(n), after) && !StartsFactor(after.look.kind)
    ensures ParseSubseq(s) == Step(Ok(n), after)
  {
  }

  lemma RuleSubseqMore(s: ParserState, n1: Node, mid: ParserState, n2: Node, after: ParserState)
    requires ParseStar(s) == Step(Ok(n1), mid) && StartsFactor(mid.look.kind)
    requires ParseSubseq(mid) == Step(Ok(n2), after)
    ensures ParseSubseq(s) == Step(Ok(Concat(n1, n2)), after)
  {
  }

  lemma RuleSubexprLast(s: ParserState, n: Node, after: ParserState)
    requires StartsFactor(s.look.kind)
    requires ParseSubseq(s) == Step(Ok(n), after) && after.look.kind != OpeUnion
    ensures ParseSubexpr(s) == Step(Ok(n), after)
  {
  }

  lemma RuleSubexprMore(s: ParserState, n1: Node, mid: ParserState, mid2: ParserState, n2: Node, after: ParserState)
    requires StartsFactor(s.look.kind)
    requires ParseSubseq(s) == Step(Ok(n1), mid) && mid.look.kind == OpeUnion
    requires MatchStep(mid, OpeUnion) == Moved(Pass, mid2)
    requires ParseSubexpr(mid2) == Step(Ok(n2), after)
    ensures ParseSubexpr(s) == Step(Ok(Union(n1, n2)), after)
  {
  }

  /** The grammar function that reads level `level`. */
  function ParseAt(level: nat, s: ParserState): Step<Node> {
    if level == 0 then ParseSubexpr(s)
    else if level == 1 then ParseSubseq(s)
    else if level == 2 then ParseStar(s)
    else ParseFactor(s)
  }

  /** Lookahead kinds at which the grammar functions of level `level` and
      below all stop. */
  predicate Stops(level: nat, k: TokenKind) {
    && (level <= 2 ==> k != OpeStar)
    && (level <= 1 ==> !StartsFactor(k))
    && (level == 0 ==> k != OpeUnion)
  }

  /** A node read at a tighter level is read unchanged at a looser one, when
      what follows stops the looser level too. */
  lemma {:induction false} Climb(from: nat, level: nat, s: ParserState, n: Node, after: ParserState)
    requires level <= from <= 3 && StartsFactor(s.look.kind)
    requires ParseAt(from, s) == Step(Ok(n), after) && Stops(level, after.look.kind)
    ensures ParseAt(level, s) == Step(Ok(n), after)
    decreases from
  {
    if level < from {
      if from == 3 {
        RuleStarPlain(s, n, after);
      } else if from == 2 {
        RuleSubseqLast(s, n, after);
      } else {
        RuleSubexprLast(s, n, after);
      }
      Climb(from - 1, level, s, n, after);
    }
  }

  /** What may follow a printed subexpression: the end of the pattern or `)`. */
  predicate Closing(t: seq<bv8>) {
    t == [] || t[0] == Close
  }

  lemma PrimedClosing(t: seq<bv8>)
    requires Closing(t)
    ensures t != [Backslash]
    ensures Primed(t).look.kind == EOF || Primed(t).look.kind == RParen
  {
    if t != [] {
      PrimedByte(Close, t[1..]);
      assert [Close] + t[1..] == t;
    }
  }

  /** What may follow a node printed at level `level`: for a subexpression
      the end or `)`, for a sequence also `|`, for a star anything but `*`,
      for a factor anything that scans. */
  predicate Follows(level: nat, t: seq<bv8>) {
    if level == 0 then Closing(t)
    else if level == 1 then t == [] || t[0] == Close || t[0] == Bar
    else if level == 2 then t == [] || (t[0] != Asterisk && t != [Backslash])
    else t != [Backslash]
  }

  /** What follows a printed node stops the grammar function that read it. */
  lemma FollowsStops(level: nat, t: seq<bv8>)
    requires Follows(level, t)
    ensures t != [Backslash] && Stops(level, Primed(t).look.kind)
  {
    if t != [] && t[0] != Backslash {
      PrimedByte(t[0], t[1..]);
      assert [t[0]] + t[1..] == t;
    }
  }

  /** `u` starts with the spelling of a factor: `(`, an escape, or an
      unescaped literal byte. */
  predicate FactorStart(u: seq<bv8>) {
    u != [] && (u[0] == Open || !IsSpecial(u[0]) || (u[0] == Backslash && |u| >= 2))
  }

  /** Whatever follows, a factor's spelling scans to a token that starts a
      factor, and may follow a star. */
  lemma FactorStartPrimed(u: seq<bv8>, t: seq<bv8>)
    requires FactorStart(u)
    ensures Follows(2, u + t) && StartsFactor(Primed(u + t).look.kind)
  {
    var v := u + t;
    assert v[0] == u[0];
    if u[0] != Backslash {
      PrimedByte(v[0], v[1..]);
      assert [v[0]] + v[1..] == v;
    } else {
      assert v[1] == u[1];
    }
  }

  /** Every print starts a factor, except the empty pattern printed bare. */
  lemma {:induction false} PrintStart(n: Node, level: nat)
    requires level >= 1 || n != Epsilon
    ensures FactorStart(Print(n, level))
    decreases n
  {
    if Prec(n) < level {
    } else {
      match n
      case Character(c) =>
      case Union(a, b) =>
        PrintStart(a, 1);
        assert Print(n, level)[0] == Print(a, 1)[0];
      case Concat(a, b) =>
        PrintStart(a, 2);
        assert Print(n, level)[0] == Print(a, 2)[0];
      case Star(a) =>
        PrintStart(a, 3);
        assert Print(n, level)[0] == Print(a, 3)[0];
    }
  }

  /** A node printed at a level it binds at least as tightly as is written
      without parentheses, operator by operator. */
  lemma PrintBare(n: Node, level: nat, t: seq<bv8>)
    requires level <= Prec(n)
    ensures n.Star? ==> Print(n, level) + t == Print(n.operand, 3) + ([Asterisk] + t)
    ensures n.Concat? ==> Print(n, level) + t == Print(n.operand1, 2) + (Print(n.operand2, 1) + t)
    ensures n.Union? ==> Print(n, level) + t == Print(n.operand1, 1) + ([Bar] + (Print(n.operand2, 0) + t))
  {
  }

  /** Printing at a level and parsing at that level gives the node back,
      whatever legally follows, and reading stops right before it. */
  lemma {:induction false} PrintRound(n: Node, level: nat, t: seq<bv8>)
    requires level <= 3 && Follows(level, t)
    ensures ParseAt(level, Primed(Print(n, level) + t)) == Step(Ok(n), Primed(t))
    decreases n, level, 1
  {
    if Prec(n) < level {
      RoundParen(n, level, t);
    } else {
      match n
      case Character(c) => RoundCharacter(c, level, t);
      case Epsilon => RoundEpsilon(t);
      case Star(a) =>
        PrintBare(n, level, t);
        RoundStar(a, level, t);
      case Concat(a, b) =>
        PrintBare(n, level, t);
        RoundConcat(a, b, level, t);
      case Union(a, b) =>
        PrintBare(n, level, t);
        RoundUnion(a, b, t);
    }
  }

  /** The cases of `PrintRound`, one lemma per shape of tree. */
  lemma RoundEpsilon(t: seq<bv8>)
    requires Closing(t)
    ensures ParseAt(0, Primed(Print(Epsilon, 0) + t)) == Step(Ok(Epsilon), Primed(t))
  {
    assert Print(Epsilon, 0) + t == t;
    PrimedClosing(t);
  }

  lemma RoundParen(n: Node, level: nat, t: seq<bv8>)
    requires 1 <= level <= 3 && Follows(level, t) && Prec(n) < level
    ensures ParseAt(level, Primed(Print(n, level) + t)) == Step(Ok(n), Primed(t))
    decreases n, level, 0
  {
    var s := Primed([Open] + Print(n, 0) + [Close] + t);
    FollowsStops(level, t);
    EnterBracketed(Print(n, 0), t);
    PrintRound(n, 0, [Close] + t);
    GroupExit(t);
    RuleFactorParen(s, Primed(Print(n, 0) + ([Close] + t)), n, Primed([Close] + t), Primed(t));
    Climb(3, level, s, n, Primed(t));
  }

  lemma RoundCharacter(c: bv8, level: nat, t: seq<bv8>)
    requires level <= 3 && Follows(level, t)
    ensures ParseAt(level, Primed(Print(Character(c), level) + t)) == Step(Ok(Character(c)), Primed(t))
  {
    var s := Primed(Spell(Token(c, Literal)) + t);
    LexSpelling(Token(c, Literal), t);
    assert s == ParserState(Token(c, Literal), t);
    FollowsStops(level, t);
    MovePrimed(s);
    Climb(3, level, s, Character(c), Primed(t));
  }

  lemma RoundStar(a: Node, level: nat, t: seq<bv8>)
    requires level <= 2 && Follows(level, t)
    ensures ParseAt(level, Primed(Print(a, 3) + ([Asterisk] + t))) == Step(Ok(Star(a)), Primed(t))
    decreases Star(a), level, 0
  {
    var pa := Print(a, 3);
    var u := [Asterisk] + t;
    PrintStart(a, 3);
    FactorStartPrimed(pa, u);
    PrintRound(a, 3, u);
    FollowsStops(level, t);
    PrimedByte(Asterisk, t);
    MovePrimed(Primed(u));
    RuleStarRepeated(Primed(pa + u), a, Primed(u), Primed(t));
    Climb(2, level, Primed(pa + u), Star(a), Primed(t));
  }

  lemma RoundConcat(a: Node, b: Node, level: nat, t: seq<bv8>)
    requires level <= 1 && Follows(level, t)
    ensures ParseAt(level, Primed(Print(a, 2) + (Print(b, 1) + t))) == Step(Ok(Concat(a, b)), Primed(t))
    decreases Concat(a, b), level, 0
  {
    var pa, pb := Print(a, 2), Print(b, 1);
    PrintStart(a, 2);
    PrintStart(b, 1);
    FactorStartPrimed(pb, t);
    PrintRound(a, 2, pb + t);
    PrintRound(b, 1, t);
    ConcatRead(pa, pb, t, a, b, level);
  }

  /** Two printed operands in a row, each read back, read as their
      concatenation. */
  lemma ConcatRead(pa: seq<bv8>, pb: seq<bv8>, t: seq<bv8>, a: Node, b: Node, level: nat)
    requires level <= 1 && Follows(level, t) && FactorStart(pa) && FactorStart(pb)
    requires ParseAt(2, Primed(pa + (pb + t))) == Step(Ok(a), Primed(pb + t))
    requires ParseAt(1, Primed(pb + t)) == Step(Ok(b), Primed(t))
    ensures ParseAt(level, Primed(pa + (pb + t))) == Step(Ok(Concat(a, b)), Primed(t))
  {
    ConcatScan(pa, pb, t);
    FollowsStops(level, t);
    ConcatGlue(Primed(pa + (pb + t)), a, Primed(pb + t), b, Primed(t), level);
  }

  /** Two printed factors in a row scan as two factor starts. */
  lemma ConcatScan(pa: seq<bv8>, pb: seq<bv8>, t: seq<bv8>)
    requires FactorStart(pa) && FactorStart(pb)
    ensures Follows(2, pb + t) && StartsFactor(Primed(pb + t).look.kind)
    ensures StartsFactor(Primed(pa + (pb + t)).look.kind)
  {
    FactorStartPrimed(pb, t);
    FactorStartPrimed(pa, pb + t);
  }

  /** A star followed by a sequence reads as their concatenation. */
  lemma ConcatGlue(s: ParserState, a: Node, mid: ParserState, b: Node, after: ParserState, level: nat)
    requires level <= 1 && StartsFactor(s.look.kind) && StartsFactor(mid.look.kind)
    requires ParseStar(s) == Step(Ok(a), mid) && ParseSubseq(mid) == Step(Ok(b), after)
    requires Stops(level, after.look.kind)
    ensures ParseAt(level, s) == Step(Ok(Concat(a, b)), after)
  {
    RuleSubseqMore(s, a, mid, b, after);
    Climb(1, level, s, Concat(a, b), after);
  }

  lemma RoundUnion(a: Node, b: Node, t: seq<bv8>)
    requires Closing(t)
    ensures ParseAt(0, Primed(Print(a, 1) + ([Bar] + (Print(b, 0) + t)))) == Step(Ok(Union(a, b)), Primed(t))
    decreases Union(a, b), 0, 0
  {
    var pa, pb := Print(a, 1), Print(b, 0);
    PrintStart(a, 1);
    UnionRight(b, t);
    PrintRound(a, 1, [Bar] + (pb + t));
    PrintRound(b, 0, t);
    UnionRead(pa, pb, t, a, b);
  }

  /** Two printed operands around a `|`, each read back, read as their union. */
  lemma UnionRead(pa: seq<bv8>, pb: seq<bv8>, t: seq<bv8>, a: Node, b: Node)
    requires FactorStart(pa) && pb + t != [Backslash]
    requires ParseAt(1, Primed(pa + ([Bar] + (pb + t)))) == Step(Ok(a), Primed([Bar] + (pb + t)))
    requires ParseAt(0, Primed(pb + t)) == Step(Ok(b), Primed(t))
    ensures ParseAt(0, Primed(pa + ([Bar] + (pb + t)))) == Step(Ok(Union(a, b)), Primed(t))
  {
    UnionScan(pa, pb, t);
    RuleSubexprMore(Primed(pa + ([Bar] + (pb + t))), a, Primed([Bar] + (pb + t)), Primed(pb + t), b, Primed(t));
  }

  /** A printed factor, `|`, and a right operand scan as a factor start, then
      a `|` that matches and moves on to the right operand. */
  lemma UnionScan(pa: seq<bv8>, pb: seq<bv8>, t: seq<bv8>)
    requires FactorStart(pa) && pb + t != [Backslash]
    ensures StartsFactor(Primed(pa + ([Bar] + (pb + t))).look.kind)
    ensures Primed([Bar] + (pb + t)).look.kind == OpeUnion
    ensures MatchStep(Primed([Bar] + (pb + t)), OpeUnion) == Moved(Pass, Primed(pb + t))
  {
    FactorStartPrimed(pa, [Bar] + (pb + t));
    PrimedByte(Bar, pb + t);
    MovePrimed(Primed([Bar] + (pb + t)));
  }

  /** The right operand of a printed union, and what follows it, is never a
      lone backslash. */
  lemma UnionRight(b: Node, t: seq<bv8>)
    requires Closing(t)
    ensures Print(b, 0) + t != [Backslash]
  {
    if b == Epsilon {
      assert Print(b, 0) + t == t;
      PrimedClosing(t);
    } else {
      PrintStart(b, 0);
      FactorStartPrimed(Print(b, 0), t);
    }
  }

  lemma PrimedBracketed(body: seq<bv8>, u: seq<bv8>)
    ensures Primed([Open] + body + [Close] + u) == ParserState(Token(Open, LParen), body + [Close] + u)
  {
    assert [Open] + body + [Close] + u == [Open] + (body + [Close] + u);
    PrimedByte(Open, body + [Close] + u);
  }

  /** Matching the `(` of a bracketed pattern leaves its body and `)` to be read. */
  lemma EnterBracketed(body: seq<bv8>, u: seq<bv8>)
    ensures var s := Primed([Open] + body + [Close] + u);
      s.look.kind == LParen && MatchStep(s, LParen) == Moved(Pass, Primed(body + ([Close] + u)))
  {
    var s := Primed([Open] + body + [Close] + u);
    PrimedBracketed(body, u);
    assert body + [Close] + u == body + ([Close] + u);
    assert s.rest[|body|] == Close;
    MovePrimed(s);
  }

  /** Matching a `)` moves on to what follows it. */
  lemma GroupExit(u: seq<bv8>)
    requires u != [Backslash]
    ensures Closing([Close] + u)
    ensures MatchStep(Primed([Close] + u), RParen) == Moved(Pass, Primed(u))
  {
    var s := ParserState(Token(Close, RParen), u);
    PrimedByte(Close, u);
    MovePrimed(s);
    assert ([Close] + u)[0] == Close;
  }

  /** Parsing inverts printing: every syntax tree, printed with only the
      parentheses its precedence and right nesting require, parses back to
      itself, and the parse reads the whole pattern. */
  lemma ParsePrint(n: Node)
    ensures Parse(Print(n, 0)) == Step(Ok(n), ParserState(Token(EofValue, EOF), []))
  {
    assert Print(n, 0) + [] == Print(n, 0);
    PrintRound(n, 0, []);
  }

  /** `Parser`: the lexer it owns and the lookahead token, advanced in place. */
  class Parser {
    const lexer: Lexer
    var look: Token

    /** The parser's state in the terms of the grammar functions above. */
    ghost function State(): ParserState
      reads this, lexer
    {
      ParserState(look, lexer.Remaining())
    }

    constructor (lexer: Lexer)
      ensures this.lexer == lexer
      ensures State() == Initial(lexer.Remaining())
    {
      this.lexer := lexer;
      look := Token(0x00, Initialize);
    }

    method MoveParser() returns (o: Outcome)
      modifies this, lexer
      ensures Moved(o, State()) == MoveStep(old(State()))
    {
      var scanned := lexer.Scan();
      match scanned
      case Ok(tok) =>
        look := tok;
        o := Pass;
      case Err(msg) =>
        o := Fail(msg);
    }

    method MatchParse(tag: TokenKind) returns (o: Outcome)
      modifies this, lexer
      ensures Moved(o, State()) == MatchStep(old(State()), tag)
    {
      if look.kind != tag {
        return Fail(SyntaxError);
      }
      o := MoveParser();
    }

    method Factor() returns (r: Result<Node>)
      modifies this, lexer
      decreases Measure(State()), 0
      ensures Step(r, State()) == ParseFactor(old(State()))
    {
      if look.kind == LParen {
        :- MatchParse(LParen);
        var node :- Subexpr();
        :- MatchParse(RParen);
        return Ok(node);
      } else {
        var node := Character(look.value);
        :- MatchParse(Literal);
        return Ok(node);
      }
    }

    method Star() returns (r: Result<Node>)
      modifies this, lexer
      decreases Measure(State()), 1
      ensures Step(r, State()) == ParseStar(old(State()))
    {
      var node :- Factor();
      if look.kind == OpeStar {
        :- MatchParse(OpeStar);
        node := Nodes.Star(node);
      }
      return Ok(node);
    }

    method Subseq() returns (r: Result<Node>)
      modifies this, lexer
      decreases Measure(State()), 2
      ensures Step(r, State()) == ParseSubseq(old(State()))
    {
      var node1 :- Star();
      if StartsFactor(look.kind) {
        var node2 :- Subseq();
        return Ok(Concat(node1, node2));
      }
      return Ok(node1);
    }

    method Seq() returns (r: Result<Node>)
      modifies this, lexer
      decreases Measure(State()), 3
      ensures Step(r, State()) == ParseSeq(old(State()))
    {
      if StartsFactor(look.kind) {
        r := Subseq();
      } else {
        r := Ok(Epsilon);
      }
    }

    method Subexpr() returns (r: Result<Node>)
      modifies this, lexer
      decreases Measure(State()), 4
      ensures Step(r, State()) == ParseSubexpr(old(State()))
    {
      var node :- Seq();
      if look.kind == OpeUnion {
        :- MatchParse(OpeUnion);
        var node2 :- Subexpr();
        return Ok(Union(node, node2));
      }
      return Ok(node);
    }

    method Expression() returns (r: Result<Node>)
      modifies this, lexer
      ensures Step(r, State()) == ParseExpression(old(State()))
    {
      var primed := MoveParser();
      if primed.Fail? {
        return Err(primed.msg);
      }
      var node :- Subexpr();
      :- MatchParse(EOF);
      return Ok(node);
    }
  }
}
