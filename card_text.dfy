/**
 * The card-text tokenizer of src/utils/card-text-parser.ts: a scanner with
 * four states (text, var, num, em) that cuts a description into tokens.
 * `$` opens a variable name, a minus sign or digit opens a number, and `*`
 * opens and closes emphasis.  `ScanFrom` is the scanner as a function;
 * `ParseCardText` is the loop, proved to compute it.
 */
module CardText {

  datatype TokenType = Text | Var | Num | Em

  datatype Token = Token(kind: TokenType, value: string)

  /** The scanner's variables: `start`, `end`, `state`, the tokens so far, and the positions skipped. */
  datatype Scan = Scan(start: nat, end: nat, mode: TokenType, tokens: seq<Token>, skipped: seq<nat>)

  predicate IsLower(c: char)
  {
    'a' <= c <= 'z'
  }

  predicate IsDigit(c: char)
  {
    '0' <= c <= '9'
  }

  /** `src.slice(start, end)`: clamped to the string, empty when `start >= end`. */
  function Slice(src: string, start: nat, end: nat): (r: string)
    ensures start <= end <= |src| ==> r == src[start..end]
    ensures start <= |src| <= end ==> r == src[start..]
    ensures |src| <= start ==> r == ""
  {
    if start >= end || start >= |src| then ""
    else if end <= |src| then src[start..end]
    else src[start..]
  }

  /** `chomp()`: a nonempty pending slice becomes a token of the current state. */
  function Chomped(src: string, sc: Scan): Scan
  {
    if sc.start != sc.end then
      sc.(tokens := sc.tokens + [Token(sc.mode, Slice(src, sc.start, sc.end))], start := sc.end)
    else sc
  }

  /** The body of the `for` loop, for the character at `end` (before `end++`). */
  function StepChar(src: string, sc: Scan): Scan
    requires sc.end < |src|
  {
    var c := src[sc.end];
    if sc.mode == Text && c == '$' then
      var s1 := Chomped(src, sc);
      s1.(mode := Var, start := s1.start + 1, skipped := sc.skipped + [sc.end])
    else if sc.mode == Var && !IsLower(c) then
      Chomped(src, sc).(mode := Text)
    else if sc.mode == Text && (c == '-' || IsDigit(c)) then
      Chomped(src, sc).(mode := Num)
    else if sc.mode == Num && !IsDigit(c) then
      Chomped(src, sc).(mode := Text)
    else if sc.mode == Text && c == '*' then
      var s1 := Chomped(src, sc);
      s1.(mode := Em, start := s1.start + 1, skipped := sc.skipped + [sc.end])
    else if sc.mode == Em && c == '*' then
      var s1 := Chomped(src, sc);
      s1.(start := sc.end + 1, end := sc.end + 1, mode := Text, skipped := sc.skipped + [sc.end])
    else sc
  }

  /** The loop's next state: the body, then `end++`. */
  function Next(src: string, sc: Scan): Scan
    requires sc.end < |src|
  {
    var s1 := StepChar(src, sc);
    s1.(end := s1.end + 1)
  }

  /** The scanner from `sc` to the end of the input, including the final `chomp()`. */
  function ScanFrom(src: string, sc: Scan): Scan
    decreases if sc.end < |src| then |src| - sc.end else 0
  {
    if sc.end < |src| then ScanFrom(src, Next(src, sc))
    else Chomped(src, sc)
  }

  function Scanned(src: string): Scan
  {
    ScanFrom(src, Scan(0, 0, Text, [], []))
  }

  /** What `parseCardText` returns. */
  function Tokenize(src: string): seq<Token>
  {
    Scanned(src).tokens
  }

  /** `chomp()` on the loop's variables. */
  method Chomp(src: string, start: nat, end: nat, mode: TokenType, tokens: seq<Token>)
    returns (start': nat, tokens': seq<Token>)
    ensures start != end ==> start' == end && tokens' == tokens + [Token(mode, Slice(src, start, end))]
    ensures start == end ==> start' == start && tokens' == tokens
  {
    start', tokens' := start, tokens;
    if start != end {
      tokens' := tokens + [Token(mode, Slice(src, start, end))];
      start' := end;
    }
  }

  /** `parseCardText`. */
  method ParseCardText(src: string) returns (tokens: seq<Token>)
    ensures tokens == Tokenize(src)
  {
    tokens := [];
    var start: nat := 0;
    var end: nat := 0;
    var state := Text;
    ghost var skipped: seq<nat> := [];
    while end < |src|
      invariant ScanFrom(src, Scan(start, end, state, tokens, skipped)) == Scanned(src)
      decreases |src| - end
    {
      ghost var before := Scan(start, end, state, tokens, skipped);
      var c := src[end];
      if state == Text && c == '$' {
        start, tokens := Chomp(src, start, end, state, tokens);
        state := Var;
        start := start + 1; // the `$` belongs to no token
        skipped := skipped + [end];
      } else if state == Var && (c < 'a' || c > 'z') {
        start, tokens := Chomp(src, start, end, state, tokens);
        state := Text;
      } else if state == Text && (c == '-' || ('0' <= c <= '9')) {
        start, tokens := Chomp(src, start, end, state, tokens);
        state := Num;
      } else if state == Num && (c < '0' || c > '9') {
        start, tokens := Chomp(src, start, end, state, tokens);
        state := Text;
      } else if state == Text && c == '*' {
        start, tokens := Chomp(src, start, end, state, tokens);
        state := Em;
        start := start + 1; // the opening `*` belongs to no token
        skipped := skipped + [end];
      } else if state == Em && c == '*' {
        start, tokens := Chomp(src, start, end, state, tokens);
        skipped := skipped + [end];
        end := end + 1;
        start := end;
        state := Text;
      }
      assert Scan(start, end, state, tokens, skipped) == StepChar(src, before);
      end := end + 1;
    }
    start, tokens := Chomp(src, start, end, state, tokens);
  }

  // ---------------------------------------------------------------------
  // What the tokens contain

  /** What a token of each kind may hold (its emptiness is stated apart). */
  predicate TokenOk(t: Token)
  {
    match t.kind
    case Text => true
    case Var => forall k :: 0 <= k < |t.value| ==> IsLower(t.value[k])
    case Num => |t.value| > 0 && (t.value[0] == '-' || IsDigit(t.value[0]))
                && forall k :: 1 <= k < |t.value| ==> IsDigit(t.value[k])
    case Em => forall k :: 0 <= k < |t.value| ==> t.value[k] != '*'
  }

  /** The token values joined in order. */
  function Concat(tokens: seq<Token>): string
  {
    if tokens == [] then "" else Concat(tokens[..|tokens| - 1]) + tokens[|tokens| - 1].value
  }

  /** The first `n` characters of `src` without those at the `skipped` positions. */
  function Kept(src: string, n: nat, skipped: seq<nat>): string
    requires n <= |src|
  {
    if n == 0 then "" else Kept(src, n - 1, skipped) + (if n - 1 in skipped then "" else [src[n - 1]])
  }

  /** How far into the input the scanner has read. */
  function Reached(src: string, sc: Scan): nat
  {
    if sc.end < |src| then sc.end else |src|
  }

  /** The slice the next `chomp()` would emit. */
  function Pending(src: string, sc: Scan): string
  {
    Slice(src, sc.start, sc.end)
  }

  /** The last recorded position. */
  function Last(s: seq<nat>): nat
    requires |s| > 0
  {
    s[|s| - 1]
  }

  /**
   * The scanner's invariant: the tokens so far are well formed and
   * nonempty, the pending slice suits the current state, the skipped
   * positions are `$` or `*` before `start`, and the tokens followed by the
   * pending slice are the input read so far without the skipped positions.
   * An open emphasis starts right after the `*` recorded last, and `end`
   * lies past the input exactly when the last character was skipped and
   * left the scanner in text: a closing `*`.
   */
  ghost predicate Good(src: string, sc: Scan)
  {
    && Shape(src, sc)
    && (forall i :: 0 <= i < |sc.tokens| ==> TokenOk(sc.tokens[i]) && sc.tokens[i].value != "")
    && (forall p :: p in sc.skipped ==> p < sc.start && p < |src| && src[p] in {'$', '*'})
    && TokenOk(Token(sc.mode, Pending(src, sc)))
    && Concat(sc.tokens) + Pending(src, sc) == Kept(src, Reached(src, sc), sc.skipped)
  }

  /** Where `start` and `end` may be, and what the positions around them hold. */
  ghost predicate Shape(src: string, sc: Scan)
  {
    && sc.start <= sc.end <= |src| + 1 && sc.start <= |src|
    && (sc.end == |src| + 1 ==> sc.start == |src| && sc.mode == Text && |src| > 0 && src[|src| - 1] == '*' && |src| - 1 in sc.skipped)
    && (sc.mode == Em ==> |sc.skipped| > 0 && sc.start == Last(sc.skipped) + 1 && src[Last(sc.skipped)] == '*')
    && (sc.mode == Text && sc.end <= |src| && |src| > 0 ==> sc.start < |src|)
  }

  /** One turn of the loop keeps the shape. */
  lemma StepShape(src: string, sc: Scan)
    requires Shape(src, sc) && sc.end < |src|
    ensures Shape(src, Next(src, sc))
  {
    var e := sc.end;
    var c := src[e];
    if Switches(sc.mode, c) && sc.mode == Text && c in {'$', '*'} {
      var s1 := Chomped(src, sc);
      assert Next(src, sc) == Scan(e + 1, e + 1, if c == '$' then Var else Em, s1.tokens, sc.skipped + [e]);
    } else if Switches(sc.mode, c) && sc.mode == Em {
      var s1 := Chomped(src, sc);
      assert Next(src, sc) == Scan(e + 1, e + 2, Text, s1.tokens, sc.skipped + [e]);
    }
  }

  lemma ConcatAppend(tokens: seq<Token>, t: Token)
    ensures Concat(tokens + [t]) == Concat(tokens) + t.value
  {
    assert (tokens + [t])[..|tokens|] == tokens;
  }

  /** Recording a position at or after `n` does not change what the first `n` characters keep. */
  lemma {:induction false} KeptIgnoresLater(src: string, n: nat, skipped: seq<nat>, p: nat)
    requires n <= |src| && n <= p
    ensures Kept(src, n, skipped + [p]) == Kept(src, n, skipped)
  {
    if n > 0 {
      KeptIgnoresLater(src, n - 1, skipped, p);
    }
  }

  /** A `chomp()` at a position inside the input: the pending slice moves into the tokens. */
  lemma ChompMoves(src: string, sc: Scan)
    requires Good(src, sc) && sc.end < |src|
    ensures var s1 := Chomped(src, sc);
      && s1.start == sc.end && s1.end == sc.end && s1.mode == sc.mode && s1.skipped == sc.skipped
      && Concat(s1.tokens) == Concat(sc.tokens) + Pending(src, sc)
      && forall i :: 0 <= i < |s1.tokens| ==> TokenOk(s1.tokens[i]) && s1.tokens[i].value != ""
  {
    if sc.start != sc.end {
      ConcatAppend(sc.tokens, Token(sc.mode, Pending(src, sc)));
    }
  }

  /** Whether the character at `end` makes the scanner call `chomp()`. */
  predicate Switches(mode: TokenType, c: char)
  {
    (mode == Text && (c == '$' || c == '*' || c == '-' || IsDigit(c)))
    || (mode == Var && !IsLower(c)) || (mode == Num && !IsDigit(c)) || (mode == Em && c == '*')
  }

  /** A character that switches nothing joins the pending slice. */
  lemma StepExtends(src: string, sc: Scan)
    requires Good(src, sc) && sc.end < |src| && !Switches(sc.mode, src[sc.end])
    ensures Good(src, Next(src, sc))
  {
    StepShape(src, sc);
    var e := sc.end;
    var c := src[e];
    var next := Next(src, sc);
    assert next == sc.(end := e + 1);
    assert Pending(src, next) == Pending(src, sc) + [c];
    assert Kept(src, e + 1, sc.skipped) == Kept(src, e, sc.skipped) + [c];
  }

  /** A `$` or an opening `*` in text ends the text and is skipped. */
  lemma StepOpens(src: string, sc: Scan)
    requires Good(src, sc) && sc.end < |src| && sc.mode == Text && src[sc.end] in {'$', '*'}
    ensures Good(src, Next(src, sc))
  {
    StepShape(src, sc);
    var e := sc.end;
    ChompMoves(src, sc);
    var next := Next(src, sc);
    assert next.start == e + 1 && next.end == e + 1 && next.skipped == sc.skipped + [e];
    KeptIgnoresLater(src, e, sc.skipped, e);
    assert Kept(src, e + 1, next.skipped) == Kept(src, e, sc.skipped);
    assert Pending(src, next) == "";
  }

  /** A closing `*` ends the emphasis and is skipped; the character after it is taken unexamined. */
  lemma StepCloses(src: string, sc: Scan)
    requires Good(src, sc) && sc.end < |src| && sc.mode == Em && src[sc.end] == '*'
    ensures Good(src, Next(src, sc))
  {
    StepShape(src, sc);
    var e := sc.end;
    ChompMoves(src, sc);
    var next := Next(src, sc);
    assert next.start == e + 1 && next.end == e + 2 && next.mode == Text && next.skipped == sc.skipped + [e];
    KeptIgnoresLater(src, e, sc.skipped, e);
    assert Kept(src, e + 1, next.skipped) == Kept(src, e, sc.skipped);
    if e + 1 < |src| {
      assert Pending(src, next) == [src[e + 1]];
      assert !(e + 1 in next.skipped);
      assert Kept(src, e + 2, next.skipped) == Kept(src, e + 1, next.skipped) + [src[e + 1]];
    } else {
      assert Pending(src, next) == "";
    }
  }

  /** A character that ends a var or num, or opens a num, starts the next slice. */
  lemma StepRestarts(src: string, sc: Scan)
    requires Good(src, sc) && sc.end < |src| && Switches(sc.mode, src[sc.end])
    requires !(sc.mode == Text && src[sc.end] in {'$', '*'}) && sc.mode != Em
    ensures Good(src, Next(src, sc))
  {
    StepShape(src, sc);
    var e := sc.end;
    var c := src[e];
    ChompMoves(src, sc);
    var next := Next(src, sc);
    assert next.start == e && next.end == e + 1 && next.skipped == sc.skipped;
    assert next.mode == (if sc.mode == Text then Num else Text);
    assert Pending(src, next) == [c];
    assert !(e in sc.skipped);
    assert Kept(src, e + 1, sc.skipped) == Kept(src, e, sc.skipped) + [c];
  }

  /** One turn of the loop keeps the invariant. */
  lemma StepGood(src: string, sc: Scan)
    requires Good(src, sc) && sc.end < |src|
    ensures Good(src, Next(src, sc))
  {
    var c := src[sc.end];
    if !Switches(sc.mode, c) {
      StepExtends(src, sc);
    } else if sc.mode == Text && c in {'$', '*'} {
      StepOpens(src, sc);
    } else if sc.mode == Em {
      StepCloses(src, sc);
    } else {
      StepRestarts(src, sc);
    }
  }

  /**
   * What the finished scanner promises: every token well formed; only a
   * final text token after a closing `*` at the end may be empty, and such a
   * star always leaves one; an emphasis still open at the end holds the rest
   * of the input after its `*`; and the tokens joined are the input without
   * the skipped `$`/`*` positions.
   */
  ghost predicate Outcome(src: string, r: Scan)
  {
    && (forall i :: 0 <= i < |r.tokens| ==> TokenOk(r.tokens[i]))
    && (forall i :: 0 <= i < |r.tokens| && r.tokens[i].value == "" ==>
          i == |r.tokens| - 1 && r.tokens[i].kind == Text && r.end == |src| + 1)
    && (r.end == |src| + 1 ==>
          && |src| > 0 && src[|src| - 1] == '*' && |src| - 1 in r.skipped && r.mode == Text
          && |r.tokens| > 0 && r.tokens[|r.tokens| - 1] == Token(Text, ""))
    && (|src| > 0 && |src| - 1 in r.skipped && r.mode == Text ==> r.end == |src| + 1)
    && (r.mode == Em ==>
          && |r.skipped| > 0 && Last(r.skipped) < |src| && src[Last(r.skipped)] == '*'
          && (forall k :: Last(r.skipped) < k < |src| ==> src[k] != '*')
          && (Last(r.skipped) + 1 < |src| ==>
                |r.tokens| > 0 && r.tokens[|r.tokens| - 1] == Token(Em, src[Last(r.skipped) + 1..])))
    && Concat(r.tokens) == Kept(src, |src|, r.skipped)
    && (forall p :: p in r.skipped ==> p < |src| && src[p] in {'$', '*'})
  }

  /** The final `chomp()`. */
  lemma FinishGood(src: string, sc: Scan)
    requires Good(src, sc) && sc.end >= |src|
    ensures Outcome(src, Chomped(src, sc))
  {
    var r := Chomped(src, sc);
    if sc.start != sc.end {
      ConcatAppend(sc.tokens, Token(sc.mode, Pending(src, sc)));
      assert r.tokens[|r.tokens| - 1] == Token(sc.mode, Pending(src, sc));
    }
    if sc.mode == Em {
      var p := Last(sc.skipped);
      assert sc.end == |src| && sc.start == p + 1;
      forall k | p < k < |src|
        ensures src[k] != '*'
      {
        assert Pending(src, sc)[k - (p + 1)] == src[k];
      }
    }
  }

  /** The scanner run to the end from a state satisfying the invariant. */
  lemma {:induction false} ScanFromGood(src: string, sc: Scan)
    requires Good(src, sc)
    ensures Outcome(src, ScanFrom(src, sc))
    decreases if sc.end < |src| then |src| - sc.end else 0
  {
    if sc.end < |src| {
      StepGood(src, sc);
      ScanFromGood(src, Next(src, sc));
    } else {
      FinishGood(src, sc);
    }
  }

  lemma TokenizeGood(src: string)
    ensures Outcome(src, Scanned(src))
  {
    assert Good(src, Scan(0, 0, Text, [], []));
    ScanFromGood(src, Scan(0, 0, Text, [], []));
  }

  /** Every var token is a nonempty run of the letters a to z. */
  lemma VarTokensAreLowercase(src: string, t: Token)
    requires t in Tokenize(src) && t.kind == Var
    ensures |t.value| > 0 && forall k :: 0 <= k < |t.value| ==> 'a' <= t.value[k] <= 'z'
  {
    TokenizeGood(src);
  }

  /** Every num token starts with a minus sign or a digit, and is digits after that. */
  lemma NumTokensAreNumerals(src: string, t: Token)
    requires t in Tokenize(src) && t.kind == Num
    ensures |t.value| > 0 && (t.value[0] == '-' || '0' <= t.value[0] <= '9')
    ensures forall k :: 1 <= k < |t.value| ==> '0' <= t.value[k] <= '9'
  {
    TokenizeGood(src);
  }

  /** No em token holds a star. */
  lemma EmTokensHaveNoStar(src: string, t: Token)
    requires t in Tokenize(src) && t.kind == Em
    ensures '*' !in t.value
  {
    TokenizeGood(src);
  }

  /**
   * The token values joined in order are the input with the skipped
   * characters taken out, and each skipped character is a `$` or `*` that
   * switched the scanner's state.
   */
  lemma ConcatenationErasesSwitches(src: string)
    ensures Concat(Tokenize(src)) == Kept(src, |src|, Scanned(src).skipped)
    ensures forall p :: p in Scanned(src).skipped ==> p < |src| && src[p] in {'$', '*'}
  {
    TokenizeGood(src);
  }

  /**
   * The last character is a `*` that closed an emphasis: it was skipped
   * and left the scanner in text (a skipped `$` leaves it in a var, an
   * opening `*` in an emphasis).
   */
  ghost predicate ClosedAtEnd(src: string)
  {
    |src| > 0 && src[|src| - 1] == '*' && |src| - 1 in Scanned(src).skipped && Scanned(src).mode == Text
  }

  /**
   * `chomp()` emits nothing for an empty slice, with one exception: a
   * closing `*` as the last character leaves a final empty text token.
   */
  lemma EmptyTokenOnlyAfterClosingStar(src: string, i: int)
    requires 0 <= i < |Tokenize(src)| && Tokenize(src)[i].value == ""
    ensures i == |Tokenize(src)| - 1 && Tokenize(src)[i].kind == Text
    ensures ClosedAtEnd(src)
  {
    TokenizeGood(src);
  }

  /** Conversely, a closing `*` as the last character always leaves that empty text token. */
  lemma ClosingStarLeavesEmptyText(src: string)
    requires ClosedAtEnd(src)
    ensures |Tokenize(src)| > 0 && Tokenize(src)[|Tokenize(src)| - 1] == Token(Text, "")
  {
    TokenizeGood(src);
  }

  /**
   * An emphasis still open at the end runs from just after its `*` (the
   * last skipped position) to the end of the input, holds no `*`, and is
   * the final token; when that `*` is the last character it adds nothing.
   */
  lemma UnclosedEmphasisRunsToEnd(src: string)
    requires Scanned(src).mode == Em
    ensures var r := Scanned(src);
      && |r.skipped| > 0 && Last(r.skipped) < |src| && src[Last(r.skipped)] == '*'
      && (forall k :: Last(r.skipped) < k < |src| ==> src[k] != '*')
      && (Last(r.skipped) + 1 < |src| ==>
            |r.tokens| > 0 && r.tokens[|r.tokens| - 1] == Token(Em, src[Last(r.skipped) + 1..]))
      && (Last(r.skipped) + 1 == |src| ==> Concat(r.tokens) == Kept(src, |src| - 1, r.skipped))
  {
    TokenizeGood(src);
  }

  /** "*hi*": the emphasis, then the empty text token left by the closing star at the end. */
  lemma ClosingStarAtEnd()
    ensures Tokenize("*hi*") == [Token(Em, "hi"), Token(Text, "")]
  {
    var src := "*hi*";
    var s0 := Scan(0, 0, Text, [], []);
    var s1 := Scan(1, 1, Em, [], [0]);
    assert Next(src, s0) == s1;
    var s2 := Scan(1, 2, Em, [], [0]);
    assert Next(src, s1) == s2;
    var s3 := Scan(1, 3, Em, [], [0]);
    assert Next(src, s2) == s3;
    var s4 := Scan(4, 5, Text, [Token(Em, "hi")], [0, 3]);
    assert Slice(src, 1, 3) == "hi";
    assert Next(src, s3) == s4;
    assert Slice(src, 4, 5) == "";
    assert ScanFrom(src, s4) == Chomped(src, s4);
  }

  /** "*a*$b": the character after a closing star is copied unexamined, so `$b` is text. */
  lemma AfterClosingStarUnexamined()
    ensures Tokenize("*a*$b") == [Token(Em, "a"), Token(Text, "$b")]
  {
    var src := "*a*$b";
    var s0 := Scan(0, 0, Text, [], []);
    var s1 := Scan(1, 1, Em, [], [0]);
    assert Next(src, s0) == s1;
    var s2 := Scan(1, 2, Em, [], [0]);
    assert Next(src, s1) == s2;
    var s3 := Scan(3, 4, Text, [Token(Em, "a")], [0, 2]);
    assert Slice(src, 1, 2) == "a";
    assert Next(src, s2) == s3;
    var s4 := Scan(3, 5, Text, [Token(Em, "a")], [0, 2]);
    assert Next(src, s3) == s4;
    assert Slice(src, 3, 5) == "$b";
    assert ScanFrom(src, s4) == Chomped(src, s4);
  }

  /** "$a$b": the `$` that ends a var is not examined again, so it begins a text token. */
  lemma EndOfVarUnexamined()
    ensures Tokenize("$a$b") == [Token(Var, "a"), Token(Text, "$b")]
  {
    var src := "$a$b";
    var s0 := Scan(0, 0, Text, [], []);
    var s1 := Scan(1, 1, Var, [], [0]);
    assert Next(src, s0) == s1;
    var s2 := Scan(1, 2, Var, [], [0]);
    assert Next(src, s1) == s2;
    var s3 := Scan(2, 3, Text, [Token(Var, "a")], [0]);
    assert Slice(src, 1, 2) == "a";
    assert Next(src, s2) == s3;
    var s4 := Scan(2, 4, Text, [Token(Var, "a")], [0]);
    assert Next(src, s3) == s4;
    assert Slice(src, 2, 4) == "$b";
    assert ScanFrom(src, s4) == Chomped(src, s4);
  }

  /** "*ab": an emphasis that is never closed runs to the end of the input. */
  lemma UnterminatedEmphasis()
    ensures Tokenize("*ab") == [Token(Em, "ab")]
  {
    var src := "*ab";
    var s0 := Scan(0, 0, Text, [], []);
    var s1 := Scan(1, 1, Em, [], [0]);
    assert Next(src, s0) == s1;
    var s2 := Scan(1, 2, Em, [], [0]);
    assert Next(src, s1) == s2;
    var s3 := Scan(1, 3, Em, [], [0]);
    assert Next(src, s2) == s3;
    assert Slice(src, 1, 3) == "ab";
    assert ScanFrom(src, s3) == Chomped(src, s3);
  }
}
