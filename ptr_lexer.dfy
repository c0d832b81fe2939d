/** `PTR.lexer` (src/core/PTR.ts): a pattern string becomes a sequence of
    tokens that always ends in `END`, or one of the lexer's errors. */
module PtrLexer {
  import opened Wrappers
  import Numify
  import opened PtrEscape

  datatype TokenType = OPEN | CLOSE | PATTERN | NAME | CHAR | ESCAPED_CHAR | MODIFIER | END

  /** A lexer token: its type, the offset where it starts and its text. */
  datatype LexToken = LexToken(kind: TokenType, index: nat, value: string)

  /** The `TypeError`s of the lexer and the parser, with the offsets they report. */
  datatype PtrError =
    | MissingParameterName(at: nat)
    | PatternStartsWithQuestionMark(at: nat)
    | CapturingGroupNotAllowed(at: nat)
    | UnbalancedPattern(at: nat)
    | MissingPattern(at: nat)
    | UnexpectedToken(found: TokenType, at: nat, expected: TokenType)

  /** `0-9`, `A-Z`, `a-z` or `_`, tested on the character code as the source does. */
  predicate IsNameChar(c: char)
  {
    var code := c as int;
    Numify.InRanges(code, 48, 57) || Numify.InRanges(code, 65, 90) ||
    Numify.InRanges(code, 97, 122) || Numify.Is(code, 95)
  }

  /** Where the run of name characters starting at `j` ends. */
  function NameEnd(str: string, j: nat): (k: nat)
    requires j <= |str|
    ensures j <= k <= |str|
    ensures forall m :: j <= m < k ==> IsNameChar(str[m])
    ensures k == |str| || !IsNameChar(str[k])
    decreases |str| - j
  {
    if j < |str| && IsNameChar(str[j]) then NameEnd(str, j + 1) else j
  }

  /** The scan of a `(` group from offset `j` with nesting `count` and the
      pattern text read so far.  It stops after the `)` that brings `count` to
      0 or at the end of the input.  An escaped pair is copied as it is; past
      the end the source reads `undefined`, which it appends as text.  A nested
      `(` is always an error, because the source tests whether the `(` itself
      is `?`. */
  function ScanGroup(str: string, j: nat, count: int, pattern: string): (r: Result<(nat, int, string), PtrError>)
    requires j <= |str| + 1
    ensures r.Ok? ==> j <= r.value.0 <= |str| + 1
    ensures r.Ok? && r.value.1 == 0 && count != 0 ==> r.value.0 <= |str|
    decreases |str| + 1 - j
  {
    if j >= |str| then Ok((j, count, pattern))
    else if str[j] == '\\' then
      var next := if j + 1 < |str| then [str[j + 1]] else "undefined";
      ScanGroup(str, j + 2, count, pattern + [str[j]] + next)
    else if str[j] == ')' then
      if count - 1 == 0 then Ok((j + 1, 0, pattern))
      else ScanGroup(str, j + 1, count - 1, pattern + [str[j]])
    else if str[j] == '(' then
      Err(CapturingGroupNotAllowed(j))
    else
      ScanGroup(str, j + 1, count, pattern + [str[j]])
  }

  /** Puts `t` in front of a successful token list. */
  function Prepend(t: LexToken, r: Result<seq<LexToken>, PtrError>): Result<seq<LexToken>, PtrError>
  {
    match r
    case Ok(ts) => Ok([t] + ts)
    case Err(e) => Err(e)
  }

  /** Puts `ts` in front of a successful token list. */
  function PrependAll(ts: seq<LexToken>, r: Result<seq<LexToken>, PtrError>): Result<seq<LexToken>, PtrError>
  {
    match r
    case Ok(rest) => Ok(ts + rest)
    case Err(e) => Err(e)
  }

  /** One round of the lexer's loop at offset `i`: the token it pushes and the
      offset it continues from.  After a backslash that ends the input the
      source's offset is `|str| + 1` and the escaped value is `undefined`,
      written here as "" (the parser treats both as absent). */
  function NextToken(str: string, i: nat): (r: Result<(LexToken, nat), PtrError>)
    requires i < |str|
    ensures r.Ok? ==> var (t, next) := r.value;
      t.index == i && t.kind != END && i < next <= |str| + 1 &&
      (next == |str| + 1 ==> t == LexToken(ESCAPED_CHAR, |str| - 1, ""))
  {
    var c := str[i];
    if c == '*' || c == '+' || c == '?' then
      Ok((LexToken(MODIFIER, i, [c]), i + 1))
    else if c == '\\' then
      var v := if i + 1 < |str| then [str[i + 1]] else "";
      Ok((LexToken(ESCAPED_CHAR, i, v), i + 2))
    else if c == '{' then
      Ok((LexToken(OPEN, i, [c]), i + 1))
    else if c == '}' then
      Ok((LexToken(CLOSE, i, [c]), i + 1))
    else if c == ':' then
      var j := NameEnd(str, i + 1);
      if j == i + 1 then Err(MissingParameterName(i))
      else Ok((LexToken(NAME, i, str[i + 1..j]), j))
    else if c == '(' then
      if i + 1 < |str| && str[i + 1] == '?' then Err(PatternStartsWithQuestionMark(i + 1))
      else
        match ScanGroup(str, i + 1, 1, "")
        case Err(e) => Err(e)
        case Ok((j, count, pattern)) =>
          if count != 0 then Err(UnbalancedPattern(i))
          else if pattern == "" then Err(MissingPattern(i))
          else Ok((LexToken(PATTERN, i, pattern), j))
    else
      Ok((LexToken(CHAR, i, [c]), i + 1))
  }

  /** The tokens the lexer produces from offset `i` on. */
  function LexFrom(str: string, i: nat): Result<seq<LexToken>, PtrError>
    requires i <= |str| + 1
    decreases |str| + 1 - i
  {
    if i >= |str| then Ok([LexToken(END, i, "")])
    else
      match NextToken(str, i)
      case Err(e) => Err(e)
      case Ok((t, next)) => Prepend(t, LexFrom(str, next))
  }

  /** `PTR.lexer(str)`. */
  function Lex(str: string): Result<seq<LexToken>, PtrError>
  {
    LexFrom(str, 0)
  }

  /** The lexer's `while` loop, pushing onto `tokens`. */
  method Lexer(str: string) returns (r: Result<seq<LexToken>, PtrError>)
    ensures r == Lex(str)
  {
    var tokens: seq<LexToken> := [];
    var i: nat := 0;
    assert Lex(str).Ok? ==> [] + Lex(str).value == Lex(str).value;
    while i < |str|
      invariant i <= |str| + 1
      invariant Lex(str) == PrependAll(tokens, LexFrom(str, i))
      decreases |str| + 1 - i
    {
      var c := str[i];
      var t: LexToken;
      var next: nat;
      if c == '*' || c == '+' || c == '?' {
        t, next := LexToken(MODIFIER, i, [c]), i + 1;
      } else if c == '\\' {
        var v := if i + 1 < |str| then [str[i + 1]] else "";
        t, next := LexToken(ESCAPED_CHAR, i, v), i + 2;
      } else if c == '{' {
        t, next := LexToken(OPEN, i, [c]), i + 1;
      } else if c == '}' {
        t, next := LexToken(CLOSE, i, [c]), i + 1;
      } else if c == ':' {
        var name, j := ReadName(str, i);
        if name == "" {
          return Err(MissingParameterName(i));
        }
        t, next := LexToken(NAME, i, name), j;
      } else if c == '(' {
        if i + 1 < |str| && str[i + 1] == '?' {
          return Err(PatternStartsWithQuestionMark(i + 1));
        }
        var scan := ReadGroup(str, i);
        if scan.Err? {
          return Err(scan.error);
        }
        var (j, count, pattern) := scan.value;
        if count != 0 {
          return Err(UnbalancedPattern(i));
        }
        if pattern == "" {
          return Err(MissingPattern(i));
        }
        t, next := LexToken(PATTERN, i, pattern), j;
      } else {
        t, next := LexToken(CHAR, i, [c]), i + 1;
      }
      assert NextToken(str, i) == Ok((t, next));
      PrependAllStep(tokens, t, LexFrom(str, next));
      tokens := tokens + [t];
      i := next;
    }
    tokens := tokens + [LexToken(END, i, "")];
    r := Ok(tokens);
  }

  /** The inner loop of the `:` case: the run of name characters after offset `i`. */
  method ReadName(str: string, i: nat) returns (name: string, j: nat)
    requires i < |str|
    ensures j == NameEnd(str, i + 1) && name == str[i + 1..j]
  {
    name := "";
    j := i + 1;
    while j < |str|
      invariant i + 1 <= j <= |str|
      invariant name == str[i + 1..j]
      invariant NameEnd(str, i + 1) == NameEnd(str, j)
    {
      if IsNameChar(str[j]) {
        name := name + [str[j]];
        j := j + 1;
        continue;
      }
      break;
    }
  }

  /** The inner loop of the `(` case, started just after the `(` at offset `i`. */
  method ReadGroup(str: string, i: nat) returns (r: Result<(nat, int, string), PtrError>)
    requires i < |str|
    ensures r == ScanGroup(str, i + 1, 1, "")
  {
    var count := 1;
    var pattern := "";
    var j := i + 1;
    while j < |str|
      invariant i + 1 <= j <= |str| + 1
      invariant ScanGroup(str, i + 1, 1, "") == ScanGroup(str, j, count, pattern)
      decreases |str| + 1 - j
    {
      if str[j] == '\\' {
        var next := if j + 1 < |str| then [str[j + 1]] else "undefined";
        pattern := pattern + [str[j]] + next;
        j := j + 2;
        continue;
      }
      if str[j] == ')' {
        count := count - 1;
        if count == 0 {
          j := j + 1;
          assert ScanGroup(str, i + 1, 1, "") == Ok((j, count, pattern));
          break;
        }
      } else if str[j] == '(' {
        // the source increments `count`, then tests whether this `(` is `?`
        count := count + 1;
        return Err(CapturingGroupNotAllowed(j));
      }
      pattern := pattern + [str[j]];
      j := j + 1;
    }
    r := Ok((j, count, pattern));
  }

  lemma PrependAllStep(ts: seq<LexToken>, t: LexToken, r: Result<seq<LexToken>, PtrError>)
    ensures PrependAll(ts, Prepend(t, r)) == PrependAll(ts + [t], r)
  {
    if r.Ok? {
      assert ts + ([t] + r.value) == (ts + [t]) + r.value;
    }
  }

  // ---------------------------------------------------------------------------
  // Properties of the token list

  /** One `END` token, and it is the last. */
  predicate EndsOnce(ts: seq<LexToken>)
  {
    |ts| >= 1 && ts[|ts| - 1].kind == END &&
    forall k :: 0 <= k < |ts| - 1 ==> ts[k].kind != END
  }

  /** The offsets of the tokens strictly increase. */
  predicate Increasing(ts: seq<LexToken>)
  {
    forall a, b :: 0 <= a < b < |ts| ==> ts[a].index < ts[b].index
  }

  /** The lexer's output ends with exactly one `END` token; the offsets
      strictly increase, and the `END` offset is the input length, or one more
      when the input ends in a dangling backslash (then the token before is an
      empty `ESCAPED_CHAR` at the last offset). */
  lemma {:induction false} LexShape(str: string, i: nat)
    requires i <= |str|
    ensures LexFrom(str, i).Ok? ==>
      var ts := LexFrom(str, i).value;
      && EndsOnce(ts) && Increasing(ts)
      && ts[0].index == i && ts[|ts| - 1].value == ""
      && (forall k :: 0 <= k < |ts| - 1 ==> ts[k].index < |str|)
      && (ts[|ts| - 1].index == |str| ||
          (ts[|ts| - 1].index == |str| + 1 && |ts| >= 2 &&
           ts[|ts| - 2] == LexToken(ESCAPED_CHAR, |str| - 1, "")))
    decreases |str| - i
  {
    if i < |str| && NextToken(str, i).Ok? {
      var (t, next) := NextToken(str, i).value;
      if next <= |str| {
        LexShape(str, next);
        if LexFrom(str, next).Ok? {
          var rest := LexFrom(str, next).value;
          var ts := [t] + rest;
          assert LexFrom(str, i) == Ok(ts);
          forall a, b | 0 <= a < b < |ts| ensures ts[a].index < ts[b].index {
            if a == 0 {
              assert ts[b] == rest[b - 1];
              if b > 1 {
                assert rest[0].index < rest[b - 1].index;
              }
            } else {
              assert ts[a] == rest[a - 1] && ts[b] == rest[b - 1];
            }
          }
        }
      } else {
        assert LexFrom(str, next) == Ok([LexToken(END, next, "")]);
      }
    }
  }

  /** What each token's text is, as the lexer builds it. */
  predicate TokenOk(t: LexToken)
  {
    match t.kind
    case PATTERN => t.value != "" && t.value[0] != '?' && Plain(t.value)
    case MODIFIER => t.value == "*" || t.value == "+" || t.value == "?"
    case NAME => t.value != "" && forall k :: 0 <= k < |t.value| ==> IsNameChar(t.value[k])
    case CHAR => |t.value| == 1
    case ESCAPED_CHAR => |t.value| <= 1
    case OPEN => t.value == "{"
    case CLOSE => t.value == "}"
    case END => t.value == ""
  }

  /** A group scan that closes reads exactly the text up to its `)`, escaped
      pairs included, and that text has no unescaped parenthesis. */
  lemma {:induction false} ScanClosed(str: string, j: nat, p: string)
    requires j <= |str| + 1
    ensures var r := ScanGroup(str, j, 1, p);
      r.Ok? && r.value.1 == 0 ==>
        j < r.value.0 && str[r.value.0 - 1] == ')' &&
        r.value.2 == p + str[j..r.value.0 - 1] && Plain(str[j..r.value.0 - 1])
    decreases |str| + 1 - j
  {
    if j < |str| && str[j] != ')' && str[j] != '(' {
      var w := if str[j] == '\\' then 2 else 1;
      if j + w <= |str| {
        var p2 := p + str[j..j + w];
        assert ScanGroup(str, j, 1, p) == ScanGroup(str, j + w, 1, p2) by {
          if w == 2 {
            assert p2 == p + [str[j]] + [str[j + 1]];
          } else {
            assert p2 == p + [str[j]];
          }
        }
        ScanClosed(str, j + w, p2);
        var r := ScanGroup(str, j + w, 1, p2);
        if r.Ok? && r.value.1 == 0 {
          var e := r.value.0 - 1;
          assert p2 + str[j + w..e] == p + str[j..e] by {
            assert str[j..e] == str[j..j + w] + str[j + w..e];
          }
          assert Plain(str[j..e]) by {
            assert str[j..e][w..] == str[j + w..e];
          }
        }
      }
    }
  }

  /** Every token the lexer emits has the text `TokenOk` describes. */
  lemma {:induction false} LexTokensOk(str: string, i: nat)
    requires i <= |str| + 1
    ensures LexFrom(str, i).Ok? ==> forall k :: 0 <= k < |LexFrom(str, i).value| ==> TokenOk(LexFrom(str, i).value[k])
    decreases |str| + 1 - i
  {
    if i < |str| && NextToken(str, i).Ok? {
      var (t, next) := NextToken(str, i).value;
      LexTokensOk(str, next);
      if str[i] == '(' {
        ScanClosed(str, i + 1, "");
        assert t.value == str[i + 1..next - 1];
      }
      if str[i] == ':' {
        assert t.value == str[i + 1..next];
      }
      assert TokenOk(t);
    }
  }

  /** `:` followed by no name character is "Missing parameter name"; otherwise
      the `NAME` text is the longest run of name characters after the `:`
      (see `NameEnd`) and lexing resumes right after it. */
  lemma LexName(str: string, i: nat)
    requires i < |str| && str[i] == ':'
    ensures var j := NameEnd(str, i + 1);
      (j == i + 1 ==> LexFrom(str, i) == Err(MissingParameterName(i))) &&
      (j > i + 1 ==> LexFrom(str, i) == Prepend(LexToken(NAME, i, str[i + 1..j]), LexFrom(str, j)))
  {
  }

  /** Until the first unescaped parenthesis the group scan just copies text. */
  lemma {:induction false} ScanReaches(str: string, j: nat, k: nat, p: string)
    requires j <= k <= |str| && Plain(str[j..k])
    ensures ScanGroup(str, j, 1, p) == ScanGroup(str, k, 1, p + str[j..k])
    decreases k - j
  {
    if j == k {
      assert p + str[j..k] == p;
    } else if str[j] == '\\' {
      assert str[j..k][2..] == str[j + 2..k];
      ScanReaches(str, j + 2, k, p + [str[j]] + [str[j + 1]]);
      assert p + [str[j]] + [str[j + 1]] + str[j + 2..k] == p + str[j..k];
    } else {
      assert str[j..k][1..] == str[j + 1..k];
      ScanReaches(str, j + 1, k, p + [str[j]]);
      assert p + [str[j]] + str[j + 1..k] == p + str[j..k];
    }
  }

  /** A group scan that meets no unescaped parenthesis runs to the end of the
      input with the depth still 1. */
  lemma {:induction false} ScanRunsOut(str: string, j: nat, p: string)
    requires j <= |str| && PlainToEnd(str[j..])
    ensures ScanGroup(str, j, 1, p).Ok? && ScanGroup(str, j, 1, p).value.1 == 1
    decreases |str| - j
  {
    if j < |str| {
      if str[j] == '\\' {
        if j + 1 < |str| {
          assert str[j..][2..] == str[j + 2..];
          ScanRunsOut(str, j + 2, p + [str[j]] + [str[j + 1]]);
        }
      } else {
        assert str[j..][1..] == str[j + 1..];
        ScanRunsOut(str, j + 1, p + [str[j]]);
      }
    }
  }

  /** A `(` group, where `k` is the first unescaped parenthesis after it:
      a nested `(` is always an error, an empty `()` is "Missing pattern",
      and otherwise the `PATTERN` text is everything between the parentheses,
      escaped pairs kept as they are. */
  lemma LexGroup(str: string, i: nat, k: nat)
    requires i < |str| && str[i] == '(' && !(i + 1 < |str| && str[i + 1] == '?')
    requires i + 1 <= k < |str| && Plain(str[i + 1..k]) && (str[k] == '(' || str[k] == ')')
    ensures str[k] == '(' ==> LexFrom(str, i) == Err(CapturingGroupNotAllowed(k))
    ensures str[k] == ')' && k == i + 1 ==> LexFrom(str, i) == Err(MissingPattern(i))
    ensures str[k] == ')' && k > i + 1 ==>
      LexFrom(str, i) == Prepend(LexToken(PATTERN, i, str[i + 1..k]), LexFrom(str, k + 1))
  {
    ScanReaches(str, i + 1, k, "");
    assert "" + str[i + 1..k] == str[i + 1..k];
  }

  /** A `(` group that is never closed is "Unbalanced pattern"; one whose
      first character is `?` is refused first. */
  lemma LexGroupUnbalanced(str: string, i: nat)
    requires i < |str| && str[i] == '('
    ensures i + 1 < |str| && str[i + 1] == '?' ==> LexFrom(str, i) == Err(PatternStartsWithQuestionMark(i + 1))
    ensures !(i + 1 < |str| && str[i + 1] == '?') && PlainToEnd(str[i + 1..]) ==>
      LexFrom(str, i) == Err(UnbalancedPattern(i))
  {
    if !(i + 1 < |str| && str[i + 1] == '?') && PlainToEnd(str[i + 1..]) {
      ScanRunsOut(str, i + 1, "");
    }
  }

  /** `"*"` lexes as a lone `MODIFIER`. */
  lemma LexStar()
    ensures Lex("*") == Ok([LexToken(MODIFIER, 0, "*"), LexToken(END, 1, "")])
  {
    var m := LexToken(MODIFIER, 0, "*");
    var e := LexToken(END, 1, "");
    assert NextToken("*", 0) == Ok((m, 1));
    assert LexFrom("*", 0) == Prepend(m, LexFrom("*", 1));
    assert [m] + [e] == [m, e];
  }
}
