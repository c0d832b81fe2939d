/** `PTR.parse` (src/core/PTR.ts): the lexer's tokens become literal texts
    and parameter keys, read with one token of lookahead. */
module PtrParser {
  import opened Wrappers
  import Strify
  import opened PtrEscape
  import opened PtrLexer

  /** A key's name: the declared identifier, or a number for unnamed groups. */
  datatype KeyName = Named(text: string) | Numbered(n: nat)

  /** The `Key` interface: a parameter descriptor. */
  datatype Key = Key(name: KeyName, prefix: string, suffix: string, pattern: string, modifier: string)

  /** `Token = string | Key`: literal text or a parameter. */
  datatype Token = Text(text: string) | Param(key: Key)

  /** The `ParseOptions` interface; `None` is an absent field. */
  datatype ParseOptions = ParseOptions(delimiter: Option<string>, prefixes: Option<string>)

  /** JavaScript truthiness of a consumed token value (`undefined` is `None`). */
  predicate Truthy(v: Option<string>)
  {
    v.Some? && v.value != ""
  }

  /** `v || ""`. */
  function OrEmpty(v: Option<string>): string
  {
    if Truthy(v) then v.value else ""
  }

  /** ``[^${escape(delimiter || "/#?")}]+?``, the pattern of a key without one. */
  function DefaultPattern(delimiter: Option<string>): (r: string)
    ensures |r| > 0 && r[0] == '[' && Plain(r)
  {
    var d := if delimiter.Some? && delimiter.value != "" then delimiter.value else "/#?";
    EscapePlain(d);
    PlainAppend("[^" + Escape(d), "]+?");
    PlainAppend("[^", Escape(d));
    "[^" + Escape(d) + "]+?"
  }

  /** `prefixes = "./"` when absent. */
  function Prefixes(options: ParseOptions): string
  {
    if options.prefixes.Some? then options.prefixes.value else "./"
  }

  /** The token list of a successful lex: one `END`, and it is last. */
  predicate ValidStream(ts: seq<LexToken>)
  {
    EndsOnce(ts)
  }

  /** `tryConsume(type)`: the value of the next token and the position after
      it when the token has that type; nothing and the same position otherwise. */
  function TryConsume(ts: seq<LexToken>, i: nat, kind: TokenType): (r: (Option<string>, nat))
    requires i <= |ts|
    ensures r.1 == i || (r.1 == i + 1 && r.0.Some?)
    ensures ValidStream(ts) && i < |ts| && kind != END ==> r.1 < |ts|
  {
    if i < |ts| && ts[i].kind == kind then (Some(ts[i].value), i + 1) else (None, i)
  }

  /** `mustConsume(type)`: the position after the next token, or "Unexpected
      <type> at <index>, expected <type>". */
  function MustConsume(ts: seq<LexToken>, i: nat, kind: TokenType): (r: Result<nat, PtrError>)
    requires i < |ts|
    ensures r.Ok? <==> ts[i].kind == kind
    ensures r.Ok? ==> r.value == i + 1
    ensures r.Err? ==> r.error == UnexpectedToken(ts[i].kind, ts[i].index, kind)
  {
    if ts[i].kind == kind then Ok(i + 1) else Err(UnexpectedToken(ts[i].kind, ts[i].index, kind))
  }

  /** A token `consumeText` takes: a `CHAR` or `ESCAPED_CHAR` with a value. */
  predicate IsText(t: LexToken)
  {
    (t.kind == CHAR || t.kind == ESCAPED_CHAR) && t.value != ""
  }

  /** No `CHAR` token from `i` on has an empty value (the lexer gives every
      `CHAR` one character). */
  predicate CharsFilled(ts: seq<LexToken>, i: nat)
  {
    forall j :: i <= j < |ts| && ts[j].kind == CHAR ==> ts[j].value != ""
  }

  /** The end of the run of text tokens that starts at `i`. */
  function TextEnd(ts: seq<LexToken>, i: nat): (e: nat)
    requires ValidStream(ts) && i < |ts|
    ensures i <= e < |ts| && !IsText(ts[e])
    ensures forall j :: i <= j < e ==> IsText(ts[j])
    decreases |ts| - i
  {
    if IsText(ts[i]) then TextEnd(ts, i + 1) else i
  }

  /** The values of `ts[i..e]`, joined in order. */
  function TextOf(ts: seq<LexToken>, i: nat, e: nat): string
    requires i <= e <= |ts|
    decreases e - i
  {
    if i == e then "" else ts[i].value + TextOf(ts, i + 1, e)
  }

  /** `consumeText()`: joins the values of consecutive `CHAR`/`ESCAPED_CHAR`
      tokens, stopping at the first other token or empty value.  On a lexed
      stream the text is `acc` followed by the values of the whole run of
      text tokens, and the position is the end of the run, or one past it
      when the run stops at an empty `ESCAPED_CHAR` (a dangling backslash),
      which `tryConsume` still consumes. */
  function ConsumeText(ts: seq<LexToken>, i: nat, acc: string): (r: (string, nat))
    requires ValidStream(ts) && i < |ts|
    ensures i <= r.1 < |ts|
    ensures CharsFilled(ts, i) ==>
      var e := TextEnd(ts, i);
      r.0 == acc + TextOf(ts, i, e) && r.1 == (if ts[e].kind == ESCAPED_CHAR then e + 1 else e)
    decreases |ts| - i
  {
    var (c, i1) := TryConsume(ts, i, CHAR);
    var (v, i2) := if Truthy(c) then (c, i1) else TryConsume(ts, i1, ESCAPED_CHAR);
    if Truthy(v) then
      var r := ConsumeText(ts, i2, acc + v.value);
      assert CharsFilled(ts, i) ==> IsText(ts[i]) && i2 == i + 1 && v.value == ts[i].value && CharsFilled(ts, i2);
      TextRunStep(ts, i, acc);
      r
    else
      (acc, i2)
  }

  /** A text token at `i` belongs to the run from `i + 1`, and its value
      comes first. */
  lemma TextRunStep(ts: seq<LexToken>, i: nat, acc: string)
    requires ValidStream(ts) && i < |ts|
    ensures IsText(ts[i]) ==> (i + 1 < |ts| && TextEnd(ts, i) == TextEnd(ts, i + 1) &&
      acc + TextOf(ts, i, TextEnd(ts, i)) == (acc + ts[i].value) + TextOf(ts, i + 1, TextEnd(ts, i)))
  {
    if IsText(ts[i]) {
      var e := TextEnd(ts, i);
      Strify.Assoc(acc, ts[i].value, TextOf(ts, i + 1, e));
    }
  }

  /** The variables the parser's closures share. */
  datatype ParseState = ParseState(i: nat, key: nat, path: string, result: seq<Token>)

  /** The `if (name || pattern)` branch: the preceding `CHAR` becomes the
      prefix when it is one of `prefixes`, else it joins the pending text;
      the pending text is flushed and the key pushed. */
  function KeyStep(ts: seq<LexToken>, prefixes: string, defaultPattern: string, st: ParseState,
                   ch: Option<string>, name: Option<string>, pattern: Option<string>, i: nat): (r: ParseState)
    requires ValidStream(ts) && i < |ts|
    ensures i <= r.i < |ts|
  {
    var prefix0 := OrEmpty(ch);
    var inPrefixes := Strify.Contain(prefixes, prefix0);
    var path := if inPrefixes then st.path else st.path + prefix0;
    var prefix := if inPrefixes then prefix0 else "";
    var flushed := if path != "" then st.result + [Text(path)] else st.result;
    var keyName := if Truthy(name) then Named(name.value) else Numbered(st.key);
    var key := if Truthy(name) then st.key else st.key + 1;
    var (modifier, i1) := TryConsume(ts, i, MODIFIER);
    var k := Key(keyName, prefix, "", if Truthy(pattern) then pattern.value else defaultPattern, OrEmpty(modifier));
    ParseState(i1, key, "", flushed + [Param(k)])
  }

  /** The key `KeyStep` pushes: the `CHAR` before it is its prefix exactly
      when `prefixes` contains it, and otherwise ends the flushed text; an
      unnamed key takes the next number; a key without a pattern gets the
      default one. */
  lemma KeyStepShape(ts: seq<LexToken>, prefixes: string, defaultPattern: string, st: ParseState,
                     ch: Option<string>, name: Option<string>, pattern: Option<string>, i: nat)
    requires ValidStream(ts) && i < |ts|
    ensures var r := KeyStep(ts, prefixes, defaultPattern, st, ch, name, pattern, i);
      var c := OrEmpty(ch);
      var text := if Strify.Contain(prefixes, c) then st.path else st.path + c;
      && r.path == ""
      && r.result == (if text != "" then st.result + [Text(text)] else st.result) + [r.result[|r.result| - 1]]
      && r.result[|r.result| - 1].Param?
      && var k := r.result[|r.result| - 1].key;
      && (k.prefix == if Strify.Contain(prefixes, c) then c else "")
      && k.suffix == ""
      && (k.pattern == if Truthy(pattern) then pattern.value else defaultPattern)
      && (Truthy(name) ==> k.name == Named(name.value) && r.key == st.key)
      && (!Truthy(name) ==> k.name == Numbered(st.key) && r.key == st.key + 1)
  {
  }

  /** The `if (open)` branch: prefix text, optional name, optional pattern,
      suffix text, a required `CLOSE` and an optional modifier. */
  function GroupStep(ts: seq<LexToken>, defaultPattern: string, key: nat, flushed: seq<Token>, i: nat): (r: Result<ParseState, PtrError>)
    requires ValidStream(ts) && i < |ts|
    ensures r.Ok? ==> i < r.value.i < |ts|
  {
    var (prefix, i1) := ConsumeText(ts, i, "");
    var (name, i2) := TryConsume(ts, i1, NAME);
    var (pattern, i3) := TryConsume(ts, i2, PATTERN);
    var (suffix, i4) := ConsumeText(ts, i3, "");
    match MustConsume(ts, i4, CLOSE)
    case Err(e) => Err(e)
    case Ok(i5) =>
      var nameS := OrEmpty(name);
      var patS := OrEmpty(pattern);
      var keyName := if nameS != "" then Named(nameS) else if patS != "" then Numbered(key) else Named("");
      var key' := if nameS == "" && patS != "" then key + 1 else key;
      var (modifier, i6) := TryConsume(ts, i5, MODIFIER);
      var k := Key(keyName, prefix, suffix, if nameS != "" && patS == "" then defaultPattern else patS, OrEmpty(modifier));
      Ok(ParseState(i6, key', "", flushed + [Param(k)]))
  }

  /** One round of the parser's `while` loop. */
  function Step(ts: seq<LexToken>, prefixes: string, defaultPattern: string, st: ParseState): (r: Result<ParseState, PtrError>)
    requires ValidStream(ts) && st.i < |ts|
    ensures r.Ok? ==> st.i < r.value.i <= |ts|
  {
    var (ch, i1) := TryConsume(ts, st.i, CHAR);
    var (name, i2) := TryConsume(ts, i1, NAME);
    var (pattern, i3) := TryConsume(ts, i2, PATTERN);
    if Truthy(name) || Truthy(pattern) then
      Ok(KeyStep(ts, prefixes, defaultPattern, st, ch, name, pattern, i3))
    else
      var (value, i4) := if Truthy(ch) then (ch, i3) else TryConsume(ts, i3, ESCAPED_CHAR);
      if Truthy(value) then
        Ok(ParseState(i4, st.key, st.path + value.value, st.result))
      else
        var flushed := if st.path != "" then st.result + [Text(st.path)] else st.result;
        var (open, i5) := TryConsume(ts, i4, OPEN);
        if Truthy(open) then
          GroupStep(ts, defaultPattern, st.key, flushed, i5)
        else
          match MustConsume(ts, i5, END)
          case Err(e) => Err(e)
          case Ok(i6) => Ok(ParseState(i6, st.key, "", flushed))
  }

  /** The parser's loop from state `st` to the end of the tokens. */
  function ParseFrom(ts: seq<LexToken>, prefixes: string, defaultPattern: string, st: ParseState): Result<seq<Token>, PtrError>
    requires ValidStream(ts) && st.i <= |ts|
    decreases |ts| - st.i
  {
    if st.i >= |ts| then Ok(st.result)
    else
      match Step(ts, prefixes, defaultPattern, st)
      case Err(e) => Err(e)
      case Ok(st') => ParseFrom(ts, prefixes, defaultPattern, st')
  }

  /** The parser over a token list. */
  function ParseTokens(ts: seq<LexToken>, options: ParseOptions): Result<seq<Token>, PtrError>
    requires ValidStream(ts)
  {
    ParseFrom(ts, Prefixes(options), DefaultPattern(options.delimiter), ParseState(0, 0, "", []))
  }

  /** `PTR.parse(str, options)`. */
  function Parse(str: string, options: ParseOptions): Result<seq<Token>, PtrError>
  {
    match Lex(str)
    case Err(e) => Err(e)
    case Ok(ts) =>
      LexShape(str, 0);
      ParseTokens(ts, options)
  }

  /** The closure `consumeText` with its `while` loop. */
  method ReadText(ts: seq<LexToken>, i0: nat) returns (text: string, i: nat)
    requires ValidStream(ts) && i0 < |ts|
    ensures (text, i) == ConsumeText(ts, i0, "")
  {
    text, i := "", i0;
    while true
      invariant i0 <= i < |ts|
      invariant ConsumeText(ts, i0, "") == ConsumeText(ts, i, text)
      decreases |ts| - i
    {
      var c := TryConsume(ts, i, CHAR);
      var value := c.0;
      i := c.1;
      if !Truthy(value) {
        var e := TryConsume(ts, i, ESCAPED_CHAR);
        value := e.0;
        i := e.1;
      }
      if !Truthy(value) {
        return;
      }
      text := text + value.value;
    }
  }

  /** The body of the `if (name || pattern)` branch. */
  method PushKey(ts: seq<LexToken>, prefixes: string, defaultPattern: string, st: ParseState,
                 ch: Option<string>, name: Option<string>, pattern: Option<string>, i0: nat) returns (r: ParseState)
    requires ValidStream(ts) && i0 < |ts|
    ensures r == KeyStep(ts, prefixes, defaultPattern, st, ch, name, pattern, i0)
  {
    var prefix := OrEmpty(ch);
    var path, result, key := st.path, st.result, st.key;
    if !Strify.Contain(prefixes, prefix) {
      path := path + prefix;
      prefix := "";
    }
    if path != "" {
      result := result + [Text(path)];
      path := "";
    }
    var keyName: KeyName;
    if Truthy(name) {
      keyName := Named(name.value);
    } else {
      keyName := Numbered(key);
      key := key + 1;
    }
    var m := TryConsume(ts, i0, MODIFIER);
    result := result + [Param(Key(keyName, prefix, "", if Truthy(pattern) then pattern.value else defaultPattern, OrEmpty(m.0)))];
    r := ParseState(m.1, key, path, result);
  }

  /** The body of the `if (open)` branch. */
  method PushGroup(ts: seq<LexToken>, defaultPattern: string, key0: nat, result0: seq<Token>, i0: nat) returns (r: Result<ParseState, PtrError>)
    requires ValidStream(ts) && i0 < |ts|
    ensures r == GroupStep(ts, defaultPattern, key0, result0, i0)
  {
    var prefix, suffix, i;
    prefix, i := ReadText(ts, i0);
    var nm := TryConsume(ts, i, NAME);
    var pt := TryConsume(ts, nm.1, PATTERN);
    suffix, i := ReadText(ts, pt.1);
    var closed := MustConsume(ts, i, CLOSE);
    if closed.Err? {
      return Err(closed.error);
    }
    i := closed.value;
    var key := key0;
    var nameS, patS := OrEmpty(nm.0), OrEmpty(pt.0);
    var keyName: KeyName;
    if nameS != "" {
      keyName := Named(nameS);
    } else if patS != "" {
      keyName := Numbered(key);
      key := key + 1;
    } else {
      keyName := Named("");
    }
    var m := TryConsume(ts, i, MODIFIER);
    var k := Key(keyName, prefix, suffix, if nameS != "" && patS == "" then defaultPattern else patS, OrEmpty(m.0));
    r := Ok(ParseState(m.1, key, "", result0 + [Param(k)]));
  }

  /** `PTR.parse` as the source runs it: a `while` loop over the tokens that
      updates `i`, `key`, `path` and `result`. */
  method Parser(str: string, options: ParseOptions) returns (r: Result<seq<Token>, PtrError>)
    ensures r == Parse(str, options)
  {
    var lexed := Lexer(str);
    if lexed.Err? {
      return Err(lexed.error);
    }
    var tokens := lexed.value;
    LexShape(str, 0);
    var prefixes := Prefixes(options);
    var defaultPattern := DefaultPattern(options.delimiter);
    var result: seq<Token> := [];
    var key: nat := 0;
    var i: nat := 0;
    var path := "";
    while i < |tokens|
      invariant i <= |tokens|
      invariant Parse(str, options) == ParseFrom(tokens, prefixes, defaultPattern, ParseState(i, key, path, result))
      decreases |tokens| - i
    {
      var st := ParseState(i, key, path, result);
      var c := TryConsume(tokens, i, CHAR);
      var n := TryConsume(tokens, c.1, NAME);
      var p := TryConsume(tokens, n.1, PATTERN);
      var ch, name, pattern := c.0, n.0, p.0;
      i := p.1;
      if Truthy(name) || Truthy(pattern) {
        var next := PushKey(tokens, prefixes, defaultPattern, st, ch, name, pattern, i);
        i, key, path, result := next.i, next.key, next.path, next.result;
        assert Step(tokens, prefixes, defaultPattern, st) == Ok(next);
        continue;
      }
      var value := ch;
      if !Truthy(ch) {
        var e := TryConsume(tokens, i, ESCAPED_CHAR);
        value := e.0;
        i := e.1;
      }
      if Truthy(value) {
        path := path + value.value;
        assert Step(tokens, prefixes, defaultPattern, st) == Ok(ParseState(i, key, path, result));
        continue;
      }
      if path != "" {
        result := result + [Text(path)];
        path := "";
      }
      var o := TryConsume(tokens, i, OPEN);
      i := o.1;
      if Truthy(o.0) {
        var g := PushGroup(tokens, defaultPattern, key, result, i);
        assert Step(tokens, prefixes, defaultPattern, st) == g;
        if g.Err? {
          return Err(g.error);
        }
        i, key, path, result := g.value.i, g.value.key, g.value.path, g.value.result;
        continue;
      }
      var ended := MustConsume(tokens, i, END);
      assert Step(tokens, prefixes, defaultPattern, st) == if ended.Err? then Err(ended.error) else Ok(ParseState(i + 1, key, path, result));
      if ended.Err? {
        return Err(ended.error);
      }
      i := ended.value;
    }
    r := Ok(result);
  }

  // ---------------------------------------------------------------------
  // Properties of the token list

  /** Literal text is never empty and two texts are never adjacent: the
      parser gathers consecutive characters into one `path`. */
  predicate Segmented(result: seq<Token>)
  {
    (forall k :: 0 <= k < |result| && result[k].Text? ==> result[k].text != "") &&
    (forall k :: 0 <= k < |result| - 1 ==> result[k].Param? || result[k + 1].Param?)
  }

  /** Between rounds: the result is segmented and, before the end, does
      not finish with text (the pending text lives in `path`). */
  predicate Resting(ts: seq<LexToken>, st: ParseState)
  {
    Segmented(st.result) && (st.i < |ts| ==> |st.result| == 0 || st.result[|st.result| - 1].Param?)
  }

  lemma FlushSegmented(result: seq<Token>, path: string, t: Token)
    requires Segmented(result) && (|result| == 0 || result[|result| - 1].Param?) && t.Param?
    ensures Segmented((if path != "" then result + [Text(path)] else result) + [t])
  {
  }

  lemma KeyStepResting(ts: seq<LexToken>, prefixes: string, dp: string, st: ParseState,
                       ch: Option<string>, name: Option<string>, pattern: Option<string>, i: nat)
    requires ValidStream(ts) && i < |ts|
    requires Segmented(st.result) && (|st.result| == 0 || st.result[|st.result| - 1].Param?)
    ensures Resting(ts, KeyStep(ts, prefixes, dp, st, ch, name, pattern, i))
  {
    KeyStepShape(ts, prefixes, dp, st, ch, name, pattern, i);
    var r := KeyStep(ts, prefixes, dp, st, ch, name, pattern, i);
    var c := OrEmpty(ch);
    var text := if Strify.Contain(prefixes, c) then st.path else st.path + c;
    FlushSegmented(st.result, text, r.result[|r.result| - 1]);
  }

  lemma GroupStepResting(ts: seq<LexToken>, dp: string, key: nat, result: seq<Token>, path: string, i: nat)
    requires ValidStream(ts) && i < |ts|
    requires Segmented(result) && (|result| == 0 || result[|result| - 1].Param?)
    ensures var r := GroupStep(ts, dp, key, if path != "" then result + [Text(path)] else result, i);
      r.Ok? ==> Resting(ts, r.value)
  {
    var flushed := if path != "" then result + [Text(path)] else result;
    var r := GroupStep(ts, dp, key, flushed, i);
    if r.Ok? {
      assert r.value.result == flushed + [r.value.result[|r.value.result| - 1]];
      FlushSegmented(result, path, r.value.result[|r.value.result| - 1]);
    }
  }

  lemma StepResting(ts: seq<LexToken>, prefixes: string, dp: string, st: ParseState)
    requires ValidStream(ts) && st.i < |ts| && Resting(ts, st)
    requires Step(ts, prefixes, dp, st).Ok?
    ensures Resting(ts, Step(ts, prefixes, dp, st).value)
  {
    var (ch, i1) := TryConsume(ts, st.i, CHAR);
    var (name, i2) := TryConsume(ts, i1, NAME);
    var (pattern, i3) := TryConsume(ts, i2, PATTERN);
    if Truthy(name) || Truthy(pattern) {
      KeyStepResting(ts, prefixes, dp, st, ch, name, pattern, i3);
    } else {
      var (value, i4) := if Truthy(ch) then (ch, i3) else TryConsume(ts, i3, ESCAPED_CHAR);
      if !Truthy(value) {
        var (open, i5) := TryConsume(ts, i4, OPEN);
        if Truthy(open) {
          GroupStepResting(ts, dp, st.key, st.result, st.path, i5);
        }
      }
    }
  }

  lemma {:induction false} ParseFromSegmented(ts: seq<LexToken>, prefixes: string, dp: string, st: ParseState)
    requires ValidStream(ts) && st.i <= |ts| && Resting(ts, st)
    ensures ParseFrom(ts, prefixes, dp, st).Ok? ==> Segmented(ParseFrom(ts, prefixes, dp, st).value)
    decreases |ts| - st.i
  {
    if st.i < |ts| && Step(ts, prefixes, dp, st).Ok? {
      StepResting(ts, prefixes, dp, st);
      ParseFromSegmented(ts, prefixes, dp, Step(ts, prefixes, dp, st).value);
    }
  }

  /** Every parsed path alternates non-empty texts and keys. */
  lemma ParseSegmented(str: string, options: ParseOptions)
    ensures Parse(str, options).Ok? ==> Segmented(Parse(str, options).value)
  {
    if Lex(str).Ok? {
      LexShape(str, 0);
      ParseFromSegmented(Lex(str).value, Prefixes(options), DefaultPattern(options.delimiter), ParseState(0, 0, "", []));
    }
  }

  /** The numbers given to unnamed keys, in order. */
  function Numbers(result: seq<Token>): seq<nat>
  {
    if |result| == 0 then []
    else
      var last := result[|result| - 1];
      Numbers(result[..|result| - 1]) + (if last.Param? && last.key.name.Numbered? then [last.key.name.n] else [])
  }

  /** 0, 1, ..., n - 1. */
  function Iota(n: nat): (r: seq<nat>)
    ensures |r| == n && forall k :: 0 <= k < n ==> r[k] == k
  {
    if n == 0 then [] else Iota(n - 1) + [n - 1]
  }

  lemma NumbersPush(result: seq<Token>, path: string, t: Token)
    ensures Numbers((if path != "" then result + [Text(path)] else result) + [t])
         == Numbers(result) + (if t.Param? && t.key.name.Numbered? then [t.key.name.n] else [])
  {
    var flushed := if path != "" then result + [Text(path)] else result;
    assert (flushed + [t])[..|flushed|] == flushed;
    if path != "" {
      assert flushed[..|result|] == result;
    }
  }

  lemma NumbersFlush(result: seq<Token>, path: string)
    ensures Numbers(if path != "" then result + [Text(path)] else result) == Numbers(result)
  {
    if path != "" {
      assert (result + [Text(path)])[..|result|] == result;
    }
  }

  lemma KeyStepNumbers(ts: seq<LexToken>, prefixes: string, dp: string, st: ParseState,
                       ch: Option<string>, name: Option<string>, pattern: Option<string>, i: nat)
    requires ValidStream(ts) && i < |ts| && Numbers(st.result) == Iota(st.key)
    ensures var r := KeyStep(ts, prefixes, dp, st, ch, name, pattern, i); Numbers(r.result) == Iota(r.key)
  {
    var r := KeyStep(ts, prefixes, dp, st, ch, name, pattern, i);
    var prefix0 := OrEmpty(ch);
    var path := if Strify.Contain(prefixes, prefix0) then st.path else st.path + prefix0;
    NumbersPush(st.result, path, r.result[|r.result| - 1]);
  }

  lemma GroupStepNumbers(ts: seq<LexToken>, dp: string, key: nat, flushed: seq<Token>, i: nat)
    requires ValidStream(ts) && i < |ts| && Numbers(flushed) == Iota(key)
    ensures var r := GroupStep(ts, dp, key, flushed, i); r.Ok? ==> Numbers(r.value.result) == Iota(r.value.key)
  {
    var r := GroupStep(ts, dp, key, flushed, i);
    if r.Ok? {
      NumbersPush(flushed, "", r.value.result[|r.value.result| - 1]);
    }
  }

  lemma StepNumbers(ts: seq<LexToken>, prefixes: string, dp: string, st: ParseState)
    requires ValidStream(ts) && st.i < |ts| && Numbers(st.result) == Iota(st.key)
    requires Step(ts, prefixes, dp, st).Ok?
    ensures Numbers(Step(ts, prefixes, dp, st).value.result) == Iota(Step(ts, prefixes, dp, st).value.key)
  {
    var (ch, i1) := TryConsume(ts, st.i, CHAR);
    var (name, i2) := TryConsume(ts, i1, NAME);
    var (pattern, i3) := TryConsume(ts, i2, PATTERN);
    if Truthy(name) || Truthy(pattern) {
      KeyStepNumbers(ts, prefixes, dp, st, ch, name, pattern, i3);
    } else {
      var (value, i4) := if Truthy(ch) then (ch, i3) else TryConsume(ts, i3, ESCAPED_CHAR);
      if !Truthy(value) {
        var (open, i5) := TryConsume(ts, i4, OPEN);
        var flushed := if st.path != "" then st.result + [Text(st.path)] else st.result;
        NumbersFlush(st.result, st.path);
        if Truthy(open) {
          GroupStepNumbers(ts, dp, st.key, flushed, i5);
        }
      }
    }
  }

  lemma {:induction false} ParseFromNumbers(ts: seq<LexToken>, prefixes: string, dp: string, st: ParseState)
    requires ValidStream(ts) && st.i <= |ts| && Numbers(st.result) == Iota(st.key)
    ensures ParseFrom(ts, prefixes, dp, st).Ok? ==>
      var r := ParseFrom(ts, prefixes, dp, st).value; Numbers(r) == Iota(|Numbers(r)|)
    decreases |ts| - st.i
  {
    if st.i < |ts| && Step(ts, prefixes, dp, st).Ok? {
      StepNumbers(ts, prefixes, dp, st);
      ParseFromNumbers(ts, prefixes, dp, Step(ts, prefixes, dp, st).value);
    }
  }

  /** Unnamed keys are numbered 0, 1, 2, ... in order of appearance. */
  lemma ParseNumbering(str: string, options: ParseOptions)
    ensures Parse(str, options).Ok? ==>
      var r := Parse(str, options).value; Numbers(r) == Iota(|Numbers(r)|)
  {
    if Lex(str).Ok? {
      LexShape(str, 0);
      ParseFromNumbers(Lex(str).value, Prefixes(options), DefaultPattern(options.delimiter), ParseState(0, 0, "", []));
    }
  }

  /** What a key out of the parser looks like: a key has a pattern unless
      it is the nameless, patternless group `{...}`; its pattern never
      starts with `?` nor holds a bare group; its name is an identifier;
      its modifier is one of `*`, `+`, `?` or none. */
  predicate KeyOk(k: Key)
  {
    (k.pattern == "" <==> k.name == Named("")) &&
    (k.pattern != "" ==> k.pattern[0] != '?' && Plain(k.pattern)) &&
    (k.name.Named? ==> forall j :: 0 <= j < |k.name.text| ==> IsNameChar(k.name.text[j])) &&
    (k.modifier == "" || k.modifier == "*" || k.modifier == "+" || k.modifier == "?")
  }

  predicate KeysOk(result: seq<Token>)
  {
    forall k :: 0 <= k < |result| && result[k].Param? ==> KeyOk(result[k].key)
  }

  predicate StreamOk(ts: seq<LexToken>)
  {
    ValidStream(ts) && forall k :: 0 <= k < |ts| ==> TokenOk(ts[k])
  }

  lemma TryConsumeOk(ts: seq<LexToken>, i: nat, kind: TokenType)
    requires StreamOk(ts) && i <= |ts|
    ensures var (v, _) := TryConsume(ts, i, kind); v.Some? ==> TokenOk(LexToken(kind, 0, v.value))
  {
  }

  lemma KeyStepKeysOk(ts: seq<LexToken>, prefixes: string, dp: string, st: ParseState,
                      ch: Option<string>, name: Option<string>, pattern: Option<string>, i: nat)
    requires StreamOk(ts) && i < |ts| && KeysOk(st.result)
    requires dp != "" && dp[0] != '?' && Plain(dp)
    requires name.Some? ==> TokenOk(LexToken(NAME, 0, name.value))
    requires pattern.Some? ==> TokenOk(LexToken(PATTERN, 0, pattern.value))
    requires Truthy(name) || Truthy(pattern)
    ensures KeysOk(KeyStep(ts, prefixes, dp, st, ch, name, pattern, i).result)
  {
    TryConsumeOk(ts, i, MODIFIER);
  }

  lemma GroupStepKeysOk(ts: seq<LexToken>, dp: string, key: nat, flushed: seq<Token>, i: nat)
    requires StreamOk(ts) && i < |ts| && KeysOk(flushed)
    requires dp != "" && dp[0] != '?' && Plain(dp)
    ensures var r := GroupStep(ts, dp, key, flushed, i); r.Ok? ==> KeysOk(r.value.result)
  {
    var (prefix, j1) := ConsumeText(ts, i, "");
    var (nm, j2) := TryConsume(ts, j1, NAME);
    var (pt, j3) := TryConsume(ts, j2, PATTERN);
    var (suffix, j4) := ConsumeText(ts, j3, "");
    var r := GroupStep(ts, dp, key, flushed, i);
    if r.Ok? {
      TryConsumeOk(ts, j1, NAME);
      TryConsumeOk(ts, j2, PATTERN);
      TryConsumeOk(ts, j4 + 1, MODIFIER);
      var k := r.value.result[|r.value.result| - 1].key;
      assert r.value.result == flushed + [Param(k)];
      assert KeyOk(k);
      AppendKeyOk(flushed, k);
    }
  }

  /** Appending a well-formed key keeps every key well formed. */
  lemma AppendKeyOk(result: seq<Token>, k: Key)
    requires KeysOk(result) && KeyOk(k)
    ensures KeysOk(result + [Param(k)])
  {
    var r := result + [Param(k)];
    forall j | 0 <= j < |r| && r[j].Param?
      ensures KeyOk(r[j].key)
    {
      if j < |result| {
        assert r[j] == result[j];
      }
    }
  }

  /** Flushing literal text adds no key. */
  lemma FlushKeysOk(result: seq<Token>, path: string)
    requires KeysOk(result)
    ensures KeysOk(if path != "" then result + [Text(path)] else result)
  {
    var flushed := if path != "" then result + [Text(path)] else result;
    forall k | 0 <= k < |flushed| && flushed[k].Param?
      ensures KeyOk(flushed[k].key)
    {
      assert flushed[k] == result[k];
    }
  }

  lemma StepKeysOk(ts: seq<LexToken>, prefixes: string, dp: string, st: ParseState)
    requires StreamOk(ts) && st.i < |ts| && KeysOk(st.result)
    requires dp != "" && dp[0] != '?' && Plain(dp)
    requires Step(ts, prefixes, dp, st).Ok?
    ensures KeysOk(Step(ts, prefixes, dp, st).value.result)
  {
    var (ch, i1) := TryConsume(ts, st.i, CHAR);
    var (name, i2) := TryConsume(ts, i1, NAME);
    var (pattern, i3) := TryConsume(ts, i2, PATTERN);
    TryConsumeOk(ts, i1, NAME);
    TryConsumeOk(ts, i2, PATTERN);
    if Truthy(name) || Truthy(pattern) {
      assert Step(ts, prefixes, dp, st) == Ok(KeyStep(ts, prefixes, dp, st, ch, name, pattern, i3));
      KeyStepKeysOk(ts, prefixes, dp, st, ch, name, pattern, i3);
    } else {
      var (value, i4) := if Truthy(ch) then (ch, i3) else TryConsume(ts, i3, ESCAPED_CHAR);
      var flushed := if st.path != "" then st.result + [Text(st.path)] else st.result;
      FlushKeysOk(st.result, st.path);
      if Truthy(value) {
        assert Step(ts, prefixes, dp, st).value.result == st.result;
      } else {
        var (open, i5) := TryConsume(ts, i4, OPEN);
        if Truthy(open) {
          assert Step(ts, prefixes, dp, st) == GroupStep(ts, dp, st.key, flushed, i5);
          GroupStepKeysOk(ts, dp, st.key, flushed, i5);
        } else {
          assert Step(ts, prefixes, dp, st).value.result == flushed;
        }
      }
    }
  }

  lemma {:induction false} ParseFromKeysOk(ts: seq<LexToken>, prefixes: string, dp: string, st: ParseState)
    requires StreamOk(ts) && st.i <= |ts| && KeysOk(st.result)
    requires dp != "" && dp[0] != '?' && Plain(dp)
    ensures ParseFrom(ts, prefixes, dp, st).Ok? ==> KeysOk(ParseFrom(ts, prefixes, dp, st).value)
    decreases |ts| - st.i
  {
    if st.i < |ts| && Step(ts, prefixes, dp, st).Ok? {
      StepKeysOk(ts, prefixes, dp, st);
      ParseFromKeysOk(ts, prefixes, dp, Step(ts, prefixes, dp, st).value);
    }
  }

  /** Every key the parser produces is well formed (see `KeyOk`). */
  lemma ParseKeysOk(str: string, options: ParseOptions)
    ensures Parse(str, options).Ok? ==> KeysOk(Parse(str, options).value)
  {
    if Lex(str).Ok? {
      LexShape(str, 0);
      LexTokensOk(str, 0);
      ParseFromKeysOk(Lex(str).value, Prefixes(options), DefaultPattern(options.delimiter), ParseState(0, 0, "", []));
    }
  }

  /** `"*"` is not a path: a modifier can only follow a parameter, so the
      parser stops at "Unexpected MODIFIER at 0, expected END". */
  lemma ParseStar(options: ParseOptions)
    ensures Parse("*", options) == Err(UnexpectedToken(MODIFIER, 0, END))
  {
    LexStar();
    var ts := [LexToken(MODIFIER, 0, "*"), LexToken(END, 1, "")];
    assert Step(ts, Prefixes(options), DefaultPattern(options.delimiter), ParseState(0, 0, "", []))
        == Err(UnexpectedToken(MODIFIER, 0, END));
  }
}
