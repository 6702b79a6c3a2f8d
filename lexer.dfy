/** The tokenizer of src/lexer.rs: a pattern is a sequence of bytes, read
    left to right, one token per `Scan`. */
module Lexing {
  import opened Results

  datatype TokenKind = Literal | OpeUnion | OpeStar | LParen | RParen | EOF | Initialize

  /** `Token::new(value, kind)` is this constructor. */
  datatype Token = Token(value: bv8, kind: TokenKind)

  const Backslash: bv8 := 0x5C
  const Bar: bv8 := 0x7C
  const Asterisk: bv8 := 0x2A
  const Open: bv8 := 0x28
  const Close: bv8 := 0x29

  /** The value carried by the end-of-input token. */
  const EofValue: bv8 := 0xFF

  const UnterminatedEscape: string := "unterminated escape"

  /** The kind of the token a single unescaped byte stands for. */
  function OperatorKind(b: bv8): TokenKind {
    if b == Bar then OpeUnion
    else if b == Asterisk then OpeStar
    else if b == Open then LParen
    else if b == Close then RParen
    else Literal
  }

  /** Bytes that must be escaped to be read as a literal. */
  predicate IsSpecial(b: bv8) {
    b == Backslash || OperatorKind(b) != Literal
  }

  /** One scan: the token and the unread rest of the pattern. */
  datatype Scanned = Scanned(token: Result<Token>, rest: seq<bv8>)

  /** What one call of `scan` does to the unread pattern `rest`. */
  function Lex(rest: seq<bv8>): (r: Scanned)
    // end of input, and only end of input, yields EOF carrying 0xff and consumes nothing
    ensures (r.token.Ok? && r.token.value.kind == EOF) <==> rest == []
    ensures rest == [] ==> r == Scanned(Ok(Token(EofValue, EOF)), [])
    // the only failure is a `\` with nothing after it
    ensures r.token.Err? <==> rest == [Backslash]
    // the lexer never produces the parser's initial placeholder kind
    ensures r.token.Ok? ==> r.token.value.kind != Initialize
    // a non-EOF scan consumes one byte, or two for an escape, from the front
    ensures rest != [] ==> 1 <= |rest| - |r.rest| <= 2 && r.rest == rest[|rest| - |r.rest|..]
    ensures |rest| - |r.rest| == 2 ==> rest[0] == Backslash && r.token == Ok(Token(rest[1], Literal))
  {
    if rest == [] then Scanned(Ok(Token(EofValue, EOF)), [])
    else if rest[0] == Backslash then
      if |rest| == 1 then Scanned(Err(UnterminatedEscape), [])
      else Scanned(Ok(Token(rest[1], Literal)), rest[2..])
    else Scanned(Ok(Token(rest[0], OperatorKind(rest[0]))), rest[1..])
  }

  /** Tokens the lexer can produce for some input other than the empty one:
      an operator token carries its own byte. */
  predicate Spellable(tok: Token) {
    match tok.kind
    case Literal => true
    case OpeUnion => tok.value == Bar
    case OpeStar => tok.value == Asterisk
    case LParen => tok.value == Open
    case RParen => tok.value == Close
    case EOF => false
    case Initialize => false
  }

  /** The canonical spelling of a token: special bytes are escaped when literal. */
  function Spell(tok: Token): seq<bv8>
    requires Spellable(tok)
  {
    if tok.kind == Literal && IsSpecial(tok.value) then [Backslash, tok.value] else [tok.value]
  }

  /** Lexing inverts spelling: every producible token is read back from its
      spelling, whatever follows it. */
  lemma LexSpelling(tok: Token, t: seq<bv8>)
    requires Spellable(tok)
    ensures Lex(Spell(tok) + t) == Scanned(Ok(tok), t)
  {
    var s := Spell(tok) + t;
    if |Spell(tok)| == 2 {
      assert s[2..] == t;
    } else {
      assert s[1..] == t;
    }
  }

  /** A `\` makes the byte after it a literal, whatever that byte is. */
  lemma LexEscape(b: bv8, t: seq<bv8>)
    ensures Lex([Backslash, b] + t) == Scanned(Ok(Token(b, Literal)), t)
  {
    assert ([Backslash, b] + t)[2..] == t;
  }

  /** `chars().rev().collect()` */
  function Reverse(s: seq<bv8>): (r: seq<bv8>)
    ensures |r| == |s|
    ensures forall i :: 0 <= i < |s| ==> r[i] == s[|s| - 1 - i]
  {
    if s == [] then [] else Reverse(s[1..]) + [s[0]]
  }

  lemma ReverseInvolution(s: seq<bv8>)
    ensures Reverse(Reverse(s)) == s
  {
  }

  /** Popping the last byte of a reversed buffer reads the first byte of the
      text it stands for. */
  lemma {:induction false} ReversePop(s: seq<bv8>)
    requires s != []
    ensures Reverse(s)[0] == s[|s| - 1]
    ensures Reverse(s)[1..] == Reverse(s[..|s| - 1])
  {
    var a, b := Reverse(s)[1..], Reverse(s[..|s| - 1]);
    assert |a| == |b|;
    forall i | 0 <= i < |a| ensures a[i] == b[i] {
      assert a[i] == Reverse(s)[i + 1];
    }
  }

  class Lexer {
    /** The unread pattern, reversed: the next byte is the last element. */
    var stringList: seq<bv8>

    /** The unread pattern in reading order. */
    function Remaining(): seq<bv8>
      reads this
    {
      Reverse(stringList)
    }

    constructor (pattern: seq<bv8>)
      ensures Remaining() == pattern
    {
      stringList := Reverse(pattern);
      ReverseInvolution(pattern);
    }

    method Scan() returns (r: Result<Token>)
      modifies this
      ensures Scanned(r, Remaining()) == Lex(old(Remaining()))
    {
      if |stringList| == 0 {
        return Ok(Token(EofValue, EOF));
      }
      ReversePop(stringList);
      var c := stringList[|stringList| - 1];
      stringList := stringList[..|stringList| - 1];
      if c == Backslash {
        if |stringList| == 0 {
          return Err(UnterminatedEscape);
        }
        ReversePop(stringList);
        var e := stringList[|stringList| - 1];
        stringList := stringList[..|stringList| - 1];
        return Ok(Token(e, Literal));
      }
      return Ok(Token(c, OperatorKind(c)));
    }
  }
}
