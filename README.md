# A byte-level regex engine: lexer, parser, Thompson construction, DFA runtime

This project models, in Dafny, the pattern-compilation pipeline of a small
regex engine written in Rust. Its parts are:

- **Lexer.** It turns a pattern into tokens. `\` escapes the next byte.
  `|`, `*`, `(` and `)` are operators, and every other byte is a literal.
- **Recursive-descent parser.** It implements the grammar
  `expression -> subexpr EOF`, `subexpr -> seq '|' subexpr | seq`,
  `seq -> subseq | ''`, `subseq -> star subseq | star`,
  `star -> factor '*' | factor` and `factor -> '(' subexpr ')' | CHARACTER`.
  It keeps one token of lookahead.
- **Thompson-style assembly.** It turns the syntax tree into an NFA fragment.
  Fresh state ids come from a shared counter.
- **DFA runtime.** It feeds input bytes one at a time to a deterministic
  automaton whose states are sets of NFA states. It accepts when the state
  reached shares a state with the accept set.

Modules, one per source file, plus `Results` for the shared `Option` and `Result` types:

| module | file | content |
|---|---|---|
| `Results` | results.dfy | `Option`, `Result` (Rust's `Result<T, String>`) and `Outcome` (`Result<(), String>`), usable with `:-` as Rust's `?` |
| `Lexing` | lexer.dfy | `Token`, `TokenKind`, the pure scanning function `Lex` and the `Lexer` class with its reversed buffer |
| `Parsing` | parser.dfy | the grammar as pure functions of a `ParserState` (lookahead and unread pattern), the `Parser` class proved equal to them, and the printer `Print`, which writes only the parentheses precedence needs, that parsing inverts |
| `Nfa` | nfa.dfy | state ids, fragments whose transition table is a set of edges, the `Context` allocator and the NFA record |
| `Nodes` | node.dfy | the syntax tree, the specification `Build` of assembly, and the method `Assemble` proved equal to it |
| `Dfa` | dfa.dfy | the DFA record, the fold `Run`, and the `Runtime` class |
| `Regex` | regex.dfy | `Regex::new` up to the syntax tree, `Regex::matches`, and worked parse examples |

Each stateful part follows the same pattern. The `Lexer`, `Parser`, `Context`
and `Runtime` classes update their fields in place, as the Rust structs do.
Each method's postcondition ties the new state to a pure function of the old
one: `Lex`, the `Parse*` functions, `Build` and `Run`. The properties are then
proved about those functions.

Transition tables are modelled as sets of edges `(from, label, to)`. A label
is `Some(byte)`, or `None` for an epsilon move. The Rust source leaves the
fragment's `map` field without a type and does not show `connect`, `or` or
`new_skelton`. In the model:

- `Dest` reads the edge set as the map from `(from, label)` to its set of
  destinations.
- `connect` inserts one destination into that set.
- `or` unites two maps key by key (`OrDest`).
- `new_skelton` keeps the edges and drops the accepts.

## Model

| member | source | states |
|---|---|---|
| Lexing.Lex | src/lexer.rs:39-56 | End of input, and only end of input, gives EOF with value 0xff and consumes nothing, so scanning again gives EOF again. The only failure is a `\` with nothing after it. Every other scan consumes one byte, or two for an escape, from the front. A two-byte scan is an escape and yields the escaped byte as a literal. The placeholder kind is never produced |
| Lexing.LexSpelling | src/lexer.rs:45-52 | Every token the lexer can produce is read back from its canonical spelling, whatever follows: operators from their own byte, and literals from the byte or from `\` and the byte when the byte is special |
| Lexing.LexEscape | src/lexer.rs:45-47 | `\` followed by any byte yields that byte as a literal and consumes both |
| Lexing.Reverse | src/lexer.rs:35 | The buffer holds the pattern back to front: same length, and position `i` holds byte `n-1-i` |
| Lexing.ReverseInvolution | src/lexer.rs:35 | Reversing twice gives back the pattern, so the buffer stands for exactly the pattern given |
| Lexing.ReversePop | src/lexer.rs:40 | Popping the last byte of the reversed buffer yields the first unread byte, and what remains is the reversal of the rest |
| Lexing.Lexer.constructor | src/lexer.rs:33-37 | A new lexer has the whole pattern unread, in reading order |
| Lexing.Lexer.Scan | src/lexer.rs:39-56 | One in-place scan returns the token `Lex` gives for the unread pattern and leaves exactly `Lex`'s rest unread |
| Parsing.MoveStep | src/parser.rs:32-34 | Moving on scans the next token into `look`. It fails only on a lone trailing `\`. It never increases the consumed-input measure, and it lowers it unless `look` was EOF. Once EOF is seen the input is exhausted |
| Parsing.MatchStep | src/parser.rs:25-31 | A mismatched lookahead fails with "syntax error" and changes nothing. A matching lookahead moves on |
| Parsing.ParseFactor | src/parser.rs:42-53 | A factor never increases the measure, and a successful one strictly lowers it. A lookahead other than `(` or a literal fails without consuming. A literal gives `Character` of its byte, and fails only on a dangling `\`. A `(` gives a factor exactly when it moves on, the subexpression after it is read, and that subexpression stops at a `)` that also moves on. The node is the subexpression's, and reading resumes after the `)` |
| Parsing.ParseStar | src/parser.rs:55-62 | Same measure bounds as a factor. A lookahead that cannot start a factor fails without consuming |
| Parsing.ParseSubseq | src/parser.rs:72-81 | Same measure bounds. On success it stops only where no further factor can start, so the concatenation is maximal |
| Parsing.ParseSeq | src/parser.rs:64-70 | When no factor can start, it yields the empty alternative and consumes nothing. On success no factor can start where it stops |
| Parsing.ParseSubexpr | src/parser.rs:83-91 | On success it stops where neither a factor nor a bar can start, so unions and concatenations are maximal |
| Parsing.ParseExpression | src/parser.rs:93-98 | Success means the whole pattern was read: the state is EOF with nothing unread |
| Parsing.ParseExpressionUnprimed | src/parser.rs:93-98 | `expression` as written, without the first scan, never increases the measure |
| Parsing.UnprimedRejects | src/parser.rs:93-98 | As written, `expression` rejects every pattern with "syntax error" (see Findings) |
| Parsing.Climb | src/parser.rs:55-91 | A tree read by a tighter grammar function (factor, then star, then sequence) is read unchanged by each looser one, as long as the next token also stops the looser one: no `*`, no factor start, no bar |
| Parsing.PrintRound | src/parser.rs:42-91 | Print a tree for any grammar level, with parentheses only where precedence or right nesting needs them, then parse it at that level. The result is the tree itself, whatever may legally follow, and reading stops right before what follows. So `*` binds tighter than concatenation, concatenation binds tighter than bar, and both binary operators nest to the right |
| Parsing.ParsePrint | src/parser.rs:36-41 | Parsing inverts printing: `Parse(Print(n, 0))` succeeds with `n` and reads the whole pattern |
| Parsing.Parser.constructor | src/parser.rs:18-23 | A new parser owns the lexer, with the placeholder token in `look` and the whole pattern unread |
| Parsing.Parser.MoveParser | src/parser.rs:32-34 | The in-place move does what `MoveStep` does to the parser state |
| Parsing.Parser.MatchParse | src/parser.rs:25-31 | The in-place match does what `MatchStep` does, including leaving everything unchanged on a mismatch |
| Parsing.Parser.Factor | src/parser.rs:42-53 | Result and final state are those of `ParseFactor` on the state before the call |
| Parsing.Parser.Star | src/parser.rs:55-62 | Result and final state are those of `ParseStar` |
| Parsing.Parser.Subseq | src/parser.rs:72-81 | Result and final state are those of `ParseSubseq` |
| Parsing.Parser.Seq | src/parser.rs:64-70 | Result and final state are those of `ParseSeq` |
| Parsing.Parser.Subexpr | src/parser.rs:83-91 | Result and final state are those of `ParseSubexpr` |
| Parsing.Parser.Expression | src/parser.rs:93-98 | Result and final state are those of `ParseExpression`, so success means the whole pattern was consumed |
| Nfa.Dest | src/nfa.rs:23-27 | The destinations of `(from, label)` are exactly the targets of that key's edges |
| Nfa.ConnectAll | src/node.rs:128-130 | After the loop over the accepts, the table holds the old edges and one epsilon edge from each source to the target, and nothing else |
| Nfa.ConnectAllStep | src/node.rs:128-130 | Connecting one more source adds exactly its edge, whatever order the sources are visited in |
| Nfa.Fragment.Connect | src/node.rs:69 | Exactly the one edge is added, and start and accepts are kept. Read as a map, the key's destination set gains the target |
| Nfa.Fragment.Or | src/node.rs:98 | The merge keeps this start and these accepts and holds exactly the edges of both fragments |
| Nfa.OrDest | src/node.rs:98 | Read as maps, the merge unites destination sets key by key, so no destination is overwritten |
| Nfa.Fragment.NewSkeleton | src/node.rs:153 | The skeleton keeps the start and every edge and accepts nothing |
| Nfa.Apart | src/node.rs:96-97 | Fragments assembled over disjoint id ranges share no state, and every state of the earlier one is below every state of the later one |
| Nfa.Context.constructor | src/nfa.rs:33-37 | The counter starts at 0 |
| Nfa.Context.NewState | src/nfa.rs:39-42 | The id issued is the old count plus one, at least 1, and the counter is left at it, so successive ids strictly increase |
| Nodes.Alternation | src/node.rs:96-108 | The union fragment has the given start and both accept sets. Its edges are exactly both operands' edges plus epsilon edges from the start to both operand starts |
| Nodes.Sequence | src/node.rs:124-135 | The concatenation fragment starts where the first operand does and accepts where the second does. Its edges are exactly both operands' edges plus an epsilon edge from every first accept to the second start |
| Nodes.Loop | src/node.rs:152-165 | The star fragment has the new start, which also accepts. Its edges are exactly the operand's edges, an epsilon edge from every operand accept back to the operand start, and one from the new start to the operand start |
| Nodes.Build | src/node.rs:52-167 | Assembling always issues at least one fresh id |
| Nodes.BuildWithin | src/node.rs:52-167 | Every state of an assembled fragment (start, accepts, both ends of every edge) is an id issued during that assembly |
| Nodes.BuildCharacter | src/node.rs:63-72 | Two fresh distinct states. The start is the first, the accepts are exactly the second, and the only edge is first to second on the character |
| Nodes.BuildUnion | src/node.rs:92-108 | The operands share no state. The new start is above all of them and has epsilon edges to both operand starts. Accepts are the union of both. No operand edge is lost |
| Nodes.BuildConcat | src/node.rs:120-135 | The operands share no state. Start is the first operand's and accepts are the second's. Every first accept has an epsilon edge to the second start. No operand edge is lost |
| Nodes.BuildStar | src/node.rs:149-165 | The new start is above every operand state, accepts, and has an epsilon edge to the operand start. Every operand accept has an epsilon edge back to the operand start. No operand edge is lost |
| Nodes.ConnectEach | src/node.rs:128-130 | The loop over a set of sources adds exactly one epsilon edge per source, whatever order the set is visited in |
| Nodes.Assemble | src/node.rs:52-167 | The in-place assembly returns `Build`'s fragment and leaves the counter where `Build` says, so all the `Build*` lemmas hold of it |
| Dfa.Automaton.GetRuntime | src/dfa.rs:20-22 | A new runtime borrows this automaton and stands at its start set |
| Dfa.RunConcat | src/dfa.rs:60-65 | Feeding `xs` and then `ys` ends where feeding `xs + ys` does |
| Dfa.RunEmpty | src/dfa.rs:60-65 | Feeding nothing stays put |
| Dfa.AcceptsEmpty | src/dfa.rs:37-43 | The empty input is accepted exactly when the start set meets the accept set |
| Dfa.Runtime.constructor | src/dfa.rs:37-43 | The runtime stands at the automaton's start set |
| Dfa.Runtime.DoTransition | src/dfa.rs:45-48 | One step replaces the current set by the transition of it on the byte. The automaton is unchanged |
| Dfa.Runtime.IsAcceptState | src/dfa.rs:56-58 | True exactly when the current set and the accept set share a state |
| Dfa.Runtime.DoesAccept | src/dfa.rs:60-67 | The current set ends as the left fold of the transition over the whole input from where it stood, and the answer is whether that set meets the accept set |
| Regex.Compile | src/regex.rs:13-16 | Compiling a pattern gives exactly the parse result. Every printed syntax tree compiles back to itself |
| Regex.Matches | src/regex.rs:24-27 | A fresh runtime fed the input answers exactly whether the automaton accepts it |
| Regex.ParseUnionExample | src/parser.rs:83-91 | The three-byte pattern `a`, bar, `b` parses as the union of the two literals |
| Regex.ParsePrintedExamples | src/parser.rs:64-70 | The empty pattern parses as the empty alternative, and `\*` as the literal `*` |
| Regex.ParseStarPrecedenceExample | src/parser.rs:55-81 | `ab*` parses as `a` followed by the star of `b` |
| Regex.ParseUnionPrecedenceExample | src/parser.rs:72-91 | `ab`, bar, `c` parses as the union of `ab` and `c` |
| Regex.ParseConcatNestingExample | src/parser.rs:72-81 | `abc` parses as `a` concatenated with `bc` |
| Regex.ParseUnionNestingExample | src/parser.rs:83-91 | `a`, bar, `b`, bar, `c` parses as the union of `a` with the union of `b` and `c` |
| Regex.ParseLeftGroupExample | src/parser.rs:42-47 | `(ab)c` parses as `ab` concatenated with `c` |
| Regex.ParseEmptyAlternativeExample | src/parser.rs:64-70 | The two-byte pattern `a`, bar parses as `a` or nothing: a union arm may be empty |
| Regex.ParseDoubleStarExample | src/parser.rs:55-62 | `a**` is rejected: one `*` per factor |
| Regex.ParseUnclosedExample | src/parser.rs:43-47 | `(a` is rejected |

## Left out

- Subset construction and epsilon closure (`nfa2dfa`, called at src/regex.rs:19) are not part of this model. The DFA's transition function is a parameter, and `Regex.Compile` stops at the syntax tree.
- The NFA record (`NondeterministicFiniteAutomaton::new`/`trans`, src/nfa.rs:3-21) is the datatype `Nfa.Automaton`, and the DFA record (`DeterministicFiniteAutomaton::new`/`trans`, src/dfa.rs:12-18, 24-26) is the datatype `Dfa.Automaton`. Each constructor stores its three fields and each `Trans` applies the stored function. `NFAFragment::new` (src/node.rs:68) is `Nfa.NewFragment`, which only builds a fragment with no edges. None of these has a contract beyond that.
- `println!` tracing in `does_accept` (src/dfa.rs:62,64) is console output and is left out.
- src/main.rs (a console driver) and the empty `enum Node` and `NodeKind` declarations at src/parser.rs:2-10 are not modelled.
- The pattern is a sequence of bytes. The `char`-to-`u8` truncation at src/lexer.rs:44 is not modelled, and neither is any text encoding.
- `HashSet` is modelled as a Dafny `set`. Hashing and iteration order are not modelled; `Nodes.ConnectEach` visits sources in an arbitrary order, and its result does not depend on it.
- Nfa.Context.NewState: the counter is an unbounded `nat`. Wrap-around of the Rust `i32` counter after 2^31 - 1 ids is not modelled.
- Lexing.Lex: a `\` at the end of the pattern panics in the source (`unwrap` at src/lexer.rs:46). The model returns an error instead and leaves the buffer empty. `Parsing.Parser.MoveParser` therefore returns an `Outcome`, while `move_parser` returns nothing.
- Parsing.ParseSeq: the source calls `subexpr` where the grammar says `subseq` (src/parser.rs:66). That would recurse forever on the same state. The model calls `subseq`.
- Parsing.ParseSeq: the source returns a bare `Character(0x00)` for the empty alternative (src/parser.rs:68). That is not a `Result`, and it would match a NUL byte. The model returns `Ok(Epsilon)`. `Nodes.Assemble` gives `Epsilon` one fresh state that is both start and accept, with no edges; node.rs has no such case.
- Parsing.ParseFactor: the source discards the result of `match_parse(CHACTER)` (src/parser.rs:50). The grammar only calls `factor` when the lookahead starts a factor, so that tag check cannot fail. The only failure left is the dangling `\`, which the model propagates. Called on any other lookahead, the model fails where the source would return `Character(look.value)`.
- Parsing.ParseStar: `node` is reassigned although it is immutable (src/parser.rs:59). The model reassigns it.
- Parsing.ParseSubexpr: the union node is bound to a shadowing `let` and dropped (src/parser.rs:88). The model returns it.
- Parsing.ParseExpression: the source has no return value (src/parser.rs:93-98) and never scans a first token. The model returns the node and scans the first token before parsing; see Findings.
- The `Assemble` trait at src/node.rs:3-5 has no implementation in the source and is not modelled. `Node::assemble` is `Nodes.Assemble`.

## Findings

| source | as written | input that shows it | evidently intended | confidence | as-written member | corrected member |
|---|---|---|---|---|---|---|
| src/parser.rs:93-95 | `expression` runs `subexpr` straight away, on the placeholder token that `Parser::new` stores in `look` (src/parser.rs:21). No token is ever scanned first, so `seq` takes the empty alternative and `match_parse(EOF)` then fails | any pattern, e.g. `a` or the empty pattern | scan the first token, then parse `subexpr EOF` | high; not executed | Parsing.UnprimedRejects | Parsing.ParsePrint |
