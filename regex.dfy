/** src/regex.rs: the front door, compiling a pattern and matching input. */
module Regex {
  import opened Results
  import opened Lexing
  import opened Nodes
  import opened Parsing
  import opened Dfa

  /** The front half of `Regex::new`: a lexer over the pattern, a parser over
      the lexer, and `expression`. */
  method Compile(pattern: seq<bv8>) returns (r: Result<Node>)
    ensures r == Parse(pattern).result
    ensures forall n :: pattern == Print(n, 0) ==> r == Ok(n)
  {
    var lexer := new Lexer(pattern);
    var parser := new Parser(lexer);
    r := parser.Expression();
    forall n | pattern == Print(n, 0) ensures r == Ok(n) {
      ParsePrint(n);
    }
  }

  /** `Regex::matches`: a fresh runtime fed the whole input. */
  method Matches(dfa: Automaton, input: seq<bv8>) returns (b: bool)
    ensures b <==> Accepts(dfa, input)
  {
    var runtime := dfa.GetRuntime();
    b := runtime.DoesAccept(input);
  }

  const A: bv8 := 0x61
  const B: bv8 := 0x62
  const C: bv8 := 0x63

  /** `a|b` is the union of two literals. */
  lemma ParseUnionExample()
    ensures Parse([A, Bar, B]).result == Ok(Union(Character(A), Character(B)))
  {
    var s1 := ParserState(Token(A, Literal), [Bar, B]);
    var s2 := ParserState(Token(Bar, OpeUnion), [B]);
    var s3 := ParserState(Token(B, Literal), []);
    var end := ParserState(Token(EofValue, EOF), []);
    assert [A, Bar, B][1..] == [Bar, B];
    assert MoveStep(Initial([A, Bar, B])) == Moved(Pass, s1);
    assert ParseFactor(s1) == Step(Ok(Character(A)), s2) by {
      assert [Bar, B][1..] == [B];
    }
    RuleStarPlain(s1, Character(A), s2);
    RuleSubseqLast(s1, Character(A), s2);
    assert MatchStep(s2, OpeUnion) == Moved(Pass, s3) by {
      assert [B][1..] == [];
    }
    assert ParseFactor(s3) == Step(Ok(Character(B)), end);
    Climb(3, 0, s3, Character(B), end);
    RuleSubexprMore(s1, Character(A), s2, s3, Character(B), end);
  }

  /** The empty pattern is the empty alternative, and an escaped `*` is a
      literal star. */
  lemma ParsePrintedExamples()
    ensures Parse([]).result == Ok(Epsilon)
    ensures Parse([Backslash, Asterisk]).result == Ok(Character(Asterisk))
  {
    ParsePrint(Epsilon);
    ParsePrint(Character(Asterisk));
  }

  /** A plain letter prints as itself at every level. */
  lemma PrintLetter(c: bv8, level: nat)
    requires (c == A || c == B || c == C) && level <= 3
    ensures Print(Character(c), level) == [c]
  {
  }

  /** `*` binds tighter than concatenation: `ab*` stars only `b`. */
  lemma ParseStarPrecedenceExample()
    ensures Parse([A, B, Asterisk]).result == Ok(Concat(Character(A), Star(Character(B))))
  {
    var n := Concat(Character(A), Star(Character(B)));
    PrintLetter(A, 2);
    PrintLetter(B, 3);
    assert Print(n, 0) == [A] + Print(Star(Character(B)), 1);
    assert Print(n, 0) == [A, B, Asterisk];
    ParsePrint(n);
  }

  /** Concatenation binds tighter than `|`: `ab|c` is `ab` or `c`. */
  lemma ParseUnionPrecedenceExample()
    ensures Parse([A, B, Bar, C]).result == Ok(Union(Concat(Character(A), Character(B)), Character(C)))
  {
    var n := Union(Concat(Character(A), Character(B)), Character(C));
    PrintLetter(A, 2);
    PrintLetter(B, 1);
    PrintLetter(C, 0);
    assert Print(n, 0) == Print(Concat(Character(A), Character(B)), 1) + [Bar] + [C];
    assert Print(n, 0) == [A, B, Bar, C];
    ParsePrint(n);
  }

  /** Concatenation nests to the right: `abc` is `a` then `bc`. */
  lemma ParseConcatNestingExample()
    ensures Parse([A, B, C]).result == Ok(Concat(Character(A), Concat(Character(B), Character(C))))
  {
    var n := Concat(Character(A), Concat(Character(B), Character(C)));
    PrintLetter(A, 2);
    PrintLetter(B, 2);
    PrintLetter(C, 1);
    assert Print(n, 0) == [A] + Print(Concat(Character(B), Character(C)), 1);
    assert Print(n, 0) == [A, B, C];
    ParsePrint(n);
  }

  /** `|` nests to the right: `a|b|c` is `a` or `b|c`. */
  lemma ParseUnionNestingExample()
    ensures Parse([A, Bar, B, Bar, C]).result == Ok(Union(Character(A), Union(Character(B), Character(C))))
  {
    var n := Union(Character(A), Union(Character(B), Character(C)));
    PrintLetter(A, 1);
    PrintLetter(B, 1);
    PrintLetter(C, 0);
    assert Print(n, 0) == [A] + [Bar] + Print(Union(Character(B), Character(C)), 0);
    assert Print(n, 0) == [A, Bar, B, Bar, C];
    ParsePrint(n);
  }

  /** Grouping to the left takes parentheses: `(ab)c`. */
  lemma ParseLeftGroupExample()
    ensures Parse([Open, A, B, Close, C]).result == Ok(Concat(Concat(Character(A), Character(B)), Character(C)))
  {
    var n := Concat(Concat(Character(A), Character(B)), Character(C));
    PrintLetter(A, 2);
    PrintLetter(B, 1);
    PrintLetter(C, 1);
    assert Print(Concat(Character(A), Character(B)), 2) == [Open, A, B, Close] by {
      assert Print(Concat(Character(A), Character(B)), 0) == [A, B];
    }
    assert Print(n, 0) == [Open, A, B, Close] + [C];
    assert Print(n, 0) == [Open, A, B, Close, C];
    ParsePrint(n);
  }

  /** `a|` is `a` or nothing: an alternative may be empty. */
  lemma ParseEmptyAlternativeExample()
    ensures Parse([A, Bar]).result == Ok(Union(Character(A), Epsilon))
  {
    var s1 := ParserState(Token(A, Literal), [Bar]);
    var s2 := ParserState(Token(Bar, OpeUnion), []);
    var end := ParserState(Token(EofValue, EOF), []);
    assert [A, Bar][1..] == [Bar];
    assert MoveStep(Initial([A, Bar])) == Moved(Pass, s1);
    assert ParseFactor(s1) == Step(Ok(Character(A)), s2) by {
      assert [Bar][1..] == [];
    }
    RuleStarPlain(s1, Character(A), s2);
    RuleSubseqLast(s1, Character(A), s2);
    assert MatchStep(s2, OpeUnion) == Moved(Pass, end);
    assert ParseSubexpr(end) == Step(Ok(Epsilon), end) by {
      assert ParseSeq(end) == Step(Ok(Epsilon), end);
    }
    RuleSubexprMore(s1, Character(A), s2, end, Epsilon, end);
  }

  /** Only one `*` may follow a factor: `a**` is rejected. */
  lemma ParseDoubleStarExample()
    ensures Parse([A, Asterisk, Asterisk]).result == Err(SyntaxError)
  {
    var s1 := ParserState(Token(A, Literal), [Asterisk, Asterisk]);
    var s2 := ParserState(Token(Asterisk, OpeStar), [Asterisk]);
    var s3 := ParserState(Token(Asterisk, OpeStar), []);
    assert [A, Asterisk, Asterisk][1..] == [Asterisk, Asterisk];
    assert MoveStep(Initial([A, Asterisk, Asterisk])) == Moved(Pass, s1);
    assert ParseFactor(s1) == Step(Ok(Character(A)), s2) by {
      assert [Asterisk, Asterisk][1..] == [Asterisk];
    }
    assert MatchStep(s2, OpeStar) == Moved(Pass, s3) by {
      assert [Asterisk][1..] == [];
    }
    RuleStarRepeated(s1, Character(A), s2, s3);
    RuleSubseqLast(s1, Star(Character(A)), s3);
    RuleSubexprLast(s1, Star(Character(A)), s3);
  }

  /** An unclosed parenthesis is rejected. */
  lemma ParseUnclosedExample()
    ensures Parse([Open, A]).result == Err(SyntaxError)
  {
    var s1 := ParserState(Token(Open, LParen), [A]);
    var s2 := ParserState(Token(A, Literal), []);
    var end := ParserState(Token(EofValue, EOF), []);
    assert [Open, A][1..] == [A];
    assert MoveStep(Initial([Open, A])) == Moved(Pass, s1);
    assert MatchStep(s1, LParen) == Moved(Pass, s2) by {
      assert [A][1..] == [];
    }
    assert ParseFactor(s2) == Step(Ok(Character(A)), end);
    Climb(3, 0, s2, Character(A), end);
    assert ParseFactor(s1) == Step(Err(SyntaxError), end);
    assert ParseSubexpr(s1) == Step(Err(SyntaxError), end) by {
      assert ParseStar(s1) == Step(Err(SyntaxError), end);
      assert ParseSubseq(s1) == Step(Err(SyntaxError), end);
    }
  }
}
