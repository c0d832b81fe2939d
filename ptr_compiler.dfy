/** `PTR.tokensToRegex`, `stringToRegex`, `arrayToRegex` and `pathToRegex`
    (src/core/PTR.ts): a token list becomes the source text of a regular
    expression, and every key with a pattern becomes one capturing group. */
module PtrCompiler {
  import opened Wrappers
  import Strify
  import opened PtrEscape
  import opened PtrLexer
  import opened PtrParser

  /** `TokensToRegexpOptions & ParseOptions`.  The booleans hold the
      source's defaults when the field is absent; `None` is an absent
      string field. */
  datatype Options = Options(
    sensitive: bool, strict: bool, start: bool, end: bool,
    delimiter: Option<string>, endsWith: Option<string>, prefixes: Option<string>,
    encode: string -> string)

  /** `{}`: every field absent. */
  function DefaultOptions(): (o: Options)
    ensures !o.sensitive && !o.strict && o.start && o.end
    ensures o.delimiter == None && o.endsWith == None && o.prefixes == None
    ensures forall s :: o.encode(s) == s
  {
    Options(false, false, true, true, None, None, None, s => s)
  }

  /** A compiled `RegExp`: its source text and its flags. */
  datatype Regex = Regex(source: string, flags: string)

  /** `PTR.flags`: case-insensitive unless `sensitive`. */
  function Flags(options: Options): (r: string)
    ensures r == "" <==> options.sensitive
    ensures r != "" ==> r == "i"
  {
    if options.sensitive then "" else "i"
  }

  /** The `delimiter` of `tokensToRegex`: "/#?" only when absent. */
  function Delimiter(options: Options): string
  {
    if options.delimiter.Some? then options.delimiter.value else "/#?"
  }

  /** The `endsWith` of `tokensToRegex`: "" when absent. */
  function EndsWith(options: Options): string
  {
    if options.endsWith.Some? then options.endsWith.value else ""
  }

  /** `delimiterRe`: a character class of the delimiters. */
  function DelimiterRe(options: Options): string
  {
    "[" + Escape(Delimiter(options)) + "]"
  }

  /** `endsWithRe`: a character class of `endsWith`, or the end of input. */
  function EndsWithRe(options: Options): string
  {
    "[" + Escape(EndsWith(options)) + "]|$"
  }

  /** `(?:x)`. */
  function NonCapturing(x: string): string
  {
    "(?:" + x + ")"
  }

  /** `(x)`. */
  function Capturing(x: string): string
  {
    "(" + x + ")"
  }

  /** `(?=x)`. */
  function Lookahead(x: string): string
  {
    "(?=" + x + ")"
  }

  /** The regular expression text of one token: escaped text, or the group
      of a key (capturing when the key has a pattern; repeated with its
      prefix and suffix between repetitions when the modifier is `+` or `*`). */
  function TokenSource(t: Token, encode: string -> string): string
  {
    match t
    case Text(s) => Escape(encode(s))
    case Param(k) =>
      var prefix := Escape(encode(k.prefix));
      var suffix := Escape(encode(k.suffix));
      if k.pattern != "" then
        if prefix != "" || suffix != "" then
          if Strify.In(k.modifier, ["+", "*"]) then
            var mod := if Strify.Is(k.modifier, "*") then "?" else "";
            NonCapturing(prefix + Capturing(NonCapturing(k.pattern) + NonCapturing(suffix + prefix + NonCapturing(k.pattern)) + "*") + suffix) + mod
          else
            NonCapturing(prefix + Capturing(k.pattern) + suffix) + k.modifier
        else if Strify.In(k.modifier, ["+", "*"]) then
          Capturing(NonCapturing(k.pattern) + k.modifier)
        else
          Capturing(k.pattern) + k.modifier
      else
        NonCapturing(prefix + suffix) + k.modifier
  }

  /** `route` after the first `n` tokens: `^` when `start`, then the text
      of each token in turn. */
  function RouteUpTo(tokens: seq<Token>, n: nat, options: Options): string
    requires n <= |tokens|
  {
    if n == 0 then (if options.start then "^" else "")
    else RouteUpTo(tokens, n - 1, options) + TokenSource(tokens[n - 1], options.encode)
  }

  /** A key with a pattern: one capturing group. */
  predicate HasPattern(t: Token)
  {
    t.Param? && t.key.pattern != ""
  }

  /** The keys with a pattern among the first `n` tokens, in order. */
  function KeysUpTo(tokens: seq<Token>, n: nat): seq<Key>
    requires n <= |tokens|
  {
    if n == 0 then []
    else KeysUpTo(tokens, n - 1) + (if HasPattern(tokens[n - 1]) then [tokens[n - 1].key] else [])
  }

  /** The keys `tokensToRegex` pushes: those with a pattern, in order. */
  function KeyTokens(tokens: seq<Token>): seq<Key>
  {
    KeysUpTo(tokens, |tokens|)
  }

  /** The pushed keys are exactly the key tokens with a pattern. */
  lemma {:induction false} KeysUpToMembers(tokens: seq<Token>, n: nat)
    requires n <= |tokens|
    ensures forall k :: k in KeysUpTo(tokens, n) <==>
      (exists j :: 0 <= j < n && tokens[j] == Param(k) && k.pattern != "")
  {
    if n > 0 {
      KeysUpToMembers(tokens, n - 1);
      forall k | (exists j :: 0 <= j < n && tokens[j] == Param(k) && k.pattern != "")
        ensures k in KeysUpTo(tokens, n)
      {
        var j :| 0 <= j < n && tokens[j] == Param(k) && k.pattern != "";
        if j == n - 1 {
          assert HasPattern(tokens[n - 1]);
        }
      }
    }
  }

  /** `isEndDelimited`: no tokens, or a last text token whose last character
      is in `delimiterRe`.  For an empty last text the source looks up
      `undefined`, which `indexOf` reads as the text "undefined". */
  predicate EndDelimited(tokens: seq<Token>, delimiterRe: string)
  {
    if |tokens| == 0 then true
    else
      match tokens[|tokens| - 1]
      case Text(s) => Strify.Contain(delimiterRe, if s == "" then "undefined" else [s[|s| - 1]])
      case Param(_) => false
  }

  /** What `tokensToRegex` appends after the tokens. */
  function EndSource(tokens: seq<Token>, options: Options): string
  {
    var delimiterRe := DelimiterRe(options);
    var endsWithRe := EndsWithRe(options);
    if options.end then
      (if !options.strict then delimiterRe + "?" else "") +
      (if !Truthy(options.endsWith) then "$" else Lookahead(endsWithRe))
    else
      (if !options.strict then NonCapturing(delimiterRe + Lookahead(endsWithRe)) + "?" else "") +
      (if !EndDelimited(tokens, delimiterRe) then Lookahead(delimiterRe + "|" + endsWithRe) else "")
  }

  /** The `route` text `tokensToRegex` builds. */
  function RouteSource(tokens: seq<Token>, options: Options): string
  {
    RouteUpTo(tokens, |tokens|, options) + EndSource(tokens, options)
  }

  /** `if (keys) keys.push(...)`: appends to a key list that is present. */
  function AddKeys(keys: Option<seq<Key>>, added: seq<Key>): (r: Option<seq<Key>>)
    ensures r.Some? <==> keys.Some?
    ensures r.Some? ==> (|r.value| == |keys.value| + |added| &&
      r.value[..|keys.value|] == keys.value && r.value[|keys.value|..] == added)
  {
    if keys.Some? then Some(keys.value + added) else None
  }

  /** `PTR.tokensToRegex(tokens, keys, options)`: a `for` loop that appends
      each token's text to `route` and pushes each key with a pattern. */
  method TokensToRegex(tokens: seq<Token>, keys: Option<seq<Key>>, options: Options)
    returns (regex: Regex, keysOut: Option<seq<Key>>)
    ensures regex == Regex(RouteSource(tokens, options), Flags(options))
    ensures keysOut == AddKeys(keys, KeyTokens(tokens))
  {
    var route := if options.start then "^" else "";
    keysOut := keys;
    assert keys.Some? ==> keys.value + [] == keys.value;
    for n := 0 to |tokens|
      invariant route == RouteUpTo(tokens, n, options)
      invariant keys.Some? <==> keysOut.Some?
      invariant keys.Some? ==> keysOut.value == keys.value + KeysUpTo(tokens, n)
    {
      var token := tokens[n];
      route := route + TokenSource(token, options.encode);
      if HasPattern(token) && keysOut.Some? {
        SeqAssoc(keys.value, KeysUpTo(tokens, n), [token.key]);
        keysOut := Some(keysOut.value + [token.key]);
      } else if !HasPattern(token) {
        assert KeysUpTo(tokens, n + 1) == KeysUpTo(tokens, n) + [];
      }
    }
    route := route + EndSource(tokens, options);
    regex := Regex(route, Flags(options));
  }

  lemma SeqAssoc<T>(a: seq<T>, b: seq<T>, c: seq<T>)
    ensures a + (b + c) == a + b + c
  {
  }

  lemma SeqSuffix<T>(a: seq<T>, b: seq<T>)
    ensures |a + b| >= |b| && (a + b)[|a + b| - |b|..] == b
  {
  }

  /** The parse options inside the compile options. */
  function ParseOptionsOf(options: Options): ParseOptions
  {
    ParseOptions(options.delimiter, options.prefixes)
  }

  /** `PTR.stringToRegex(path, keys, options)`. */
  function StringRegex(path: string, keys: Option<seq<Key>>, options: Options): Result<(Regex, Option<seq<Key>>), PtrError>
  {
    match Parse(path, ParseOptionsOf(options))
    case Err(e) => Err(e)
    case Ok(tokens) => Ok((Regex(RouteSource(tokens, options), Flags(options)), AddKeys(keys, KeyTokens(tokens))))
  }

  method StringToRegex(path: string, keys: Option<seq<Key>>, options: Options)
    returns (r: Result<(Regex, Option<seq<Key>>), PtrError>)
    ensures r == StringRegex(path, keys, options)
  {
    var tokens := Parser(path, ParseOptionsOf(options));
    if tokens.Err? {
      return Err(tokens.error);
    }
    var regex, keysOut := TokensToRegex(tokens.value, keys, options);
    r := Ok((regex, keysOut));
  }

  /** One element of `paths.map(...)`: compiles `path` with the keys so far
      and appends its `source`; an earlier error stays. */
  function ArrayStep(prev: Result<(seq<string>, Option<seq<Key>>), PtrError>, path: string, options: Options): Result<(seq<string>, Option<seq<Key>>), PtrError>
  {
    match prev
    case Err(e) => Err(e)
    case Ok((parts, keys')) =>
      match StringRegex(path, keys', options)
      case Err(e) => Err(e)
      case Ok((re, keys'')) => Ok((parts + [re.source], keys''))
  }

  /** The `source` of the regular expressions of the first `n` elements,
      with the keys threaded from one element to the next. */
  function ArrayParts(paths: seq<string>, n: nat, keys: Option<seq<Key>>, options: Options): Result<(seq<string>, Option<seq<Key>>), PtrError>
    requires n <= |paths|
  {
    if n == 0 then Ok(([], keys)) else ArrayStep(ArrayParts(paths, n - 1, keys, options), paths[n - 1], options)
  }

  /** A path that fails to compile fails the whole array. */
  lemma {:induction false} ArrayPartsErr(paths: seq<string>, n: nat, m: nat, keys: Option<seq<Key>>, options: Options)
    requires n <= m <= |paths| && ArrayParts(paths, n, keys, options).Err?
    ensures ArrayParts(paths, m, keys, options) == Err(ArrayParts(paths, n, keys, options).error)
    decreases m - n
  {
    if n < m {
      ArrayPartsErr(paths, n, m - 1, keys, options);
      assert ArrayParts(paths, m, keys, options) == ArrayStep(ArrayParts(paths, m - 1, keys, options), paths[m - 1], options);
    }
  }

  /** `PTR.arrayToRegex(paths, keys, options)`: the alternatives in one
      non-capturing group. */
  function ArrayRegex(paths: seq<string>, keys: Option<seq<Key>>, options: Options): Result<(Regex, Option<seq<Key>>), PtrError>
  {
    match ArrayParts(paths, |paths|, keys, options)
    case Err(e) => Err(e)
    case Ok((parts, keys')) => Ok((Regex("(?:" + Strify.JoinWith(parts, "|") + ")", Flags(options)), keys'))
  }

  /** One more element that compiles appends its `source`. */
  lemma ArrayPartsOk(paths: seq<string>, n: nat, keys: Option<seq<Key>>, options: Options,
                     parts: seq<string>, keysNow: Option<seq<Key>>, re: Regex, keysNext: Option<seq<Key>>)
    requires n < |paths| && ArrayParts(paths, n, keys, options) == Ok((parts, keysNow))
    requires StringRegex(paths[n], keysNow, options) == Ok((re, keysNext))
    ensures ArrayParts(paths, n + 1, keys, options) == Ok((parts + [re.source], keysNext))
  {
    assert ArrayParts(paths, n + 1, keys, options) == ArrayStep(Ok((parts, keysNow)), paths[n], options);
  }

  /** One more element that fails to compile fails the whole array. */
  lemma ArrayPartsFail(paths: seq<string>, n: nat, keys: Option<seq<Key>>, options: Options,
                       parts: seq<string>, keysNow: Option<seq<Key>>, e: PtrError)
    requires n < |paths| && ArrayParts(paths, n, keys, options) == Ok((parts, keysNow))
    requires StringRegex(paths[n], keysNow, options) == Err(e)
    ensures ArrayRegex(paths, keys, options) == Err(e)
  {
    assert ArrayParts(paths, n + 1, keys, options) == Err(e) by {
      assert ArrayParts(paths, n + 1, keys, options) == ArrayStep(Ok((parts, keysNow)), paths[n], options);
    }
    ArrayPartsErr(paths, n + 1, |paths|, keys, options);
  }

  /** The `paths.map(...)` of `arrayToRegex`, then the join. */
  method ArrayToRegex(paths: seq<string>, keys: Option<seq<Key>>, options: Options)
    returns (r: Result<(Regex, Option<seq<Key>>), PtrError>)
    ensures r == ArrayRegex(paths, keys, options)
  {
    var parts: seq<string> := [];
    var keysNow := keys;
    for n := 0 to |paths|
      invariant ArrayParts(paths, n, keys, options) == Ok((parts, keysNow))
    {
      var re := StringToRegex(paths[n], keysNow, options);
      if re.Err? {
        ArrayPartsFail(paths, n, keys, options, parts, keysNow, re.error);
        return Err(re.error);
      }
      ArrayPartsOk(paths, n, keys, options, parts, keysNow, re.value.0, re.value.1);
      parts := parts + [re.value.0.source];
      keysNow := re.value.1;
    }
    r := Ok((Regex("(?:" + Strify.JoinWith(parts, "|") + ")", Flags(options)), keysNow));
  }

  /** `Path` without its `RegExp` forms. */
  datatype Path = Str(path: string) | Arr(paths: seq<string>)

  /** `PTR.pathToRegex(path, keys, options)`. */
  function PathRegex(path: Path, keys: Option<seq<Key>>, options: Options): Result<(Regex, Option<seq<Key>>), PtrError>
  {
    match path
    case Str(s) => StringRegex(s, keys, options)
    case Arr(ps) => ArrayRegex(ps, keys, options)
  }

  method PathToRegex(path: Path, keys: Option<seq<Key>>, options: Options)
    returns (r: Result<(Regex, Option<seq<Key>>), PtrError>)
    ensures r == PathRegex(path, keys, options)
  {
    match path {
      case Str(s) =>
        r := StringToRegex(s, keys, options);
      case Arr(ps) =>
        r := ArrayToRegex(ps, keys, options);
    }
  }

  // ---------------------------------------------------------------------
  // Capturing groups

  lemma NonCapturingCaptures(x: string)
    requires Whole(x)
    ensures Whole(NonCapturing(x)) && Captures(NonCapturing(x)) == Captures(x)
  {
    CapturesAppend(x, ")");
    CapturesAppend("(?:", x + ")");
    assert NonCapturing(x) == "(?:" + (x + ")");
  }

  lemma LookaheadCaptures(x: string)
    requires Whole(x)
    ensures Whole(Lookahead(x)) && Captures(Lookahead(x)) == Captures(x)
  {
    CapturesAppend(x, ")");
    CapturesAppend("(?=", x + ")");
    assert Lookahead(x) == "(?=" + (x + ")");
  }

  lemma CapturingCaptures(x: string)
    requires Whole(x) && (x == "" || x[0] != '?')
    ensures Whole(Capturing(x)) && Captures(Capturing(x)) == 1 + Captures(x)
  {
    CapturesAppend(x, ")");
    var r := Capturing(x);
    assert r[1..] == x + ")";
    assert r[0] == '(' && r[1] != '?';
  }

  /** Plain text is whole and captures nothing. */
  lemma Plain0(s: string)
    requires Plain(s)
    ensures Whole(s) && Captures(s) == 0
  {
    PlainWhole(s);
  }

  /** Concatenation of whole texts. */
  lemma Cat(a: string, b: string)
    requires Whole(a) && Whole(b)
    ensures Whole(a + b) && Captures(a + b) == Captures(a) + Captures(b)
  {
    CapturesAppend(a, b);
  }

  /** What a key needs for its group to hold exactly one capture: a
      pattern with no unescaped parenthesis that does not start with `?`,
      and a modifier of the same kind.  Every key out of `parse` has it. */
  predicate TokenRegexOk(t: Token)
  {
    t.Param? ==>
      (t.key.pattern == "" || t.key.pattern[0] != '?') && Plain(t.key.pattern) && Plain(t.key.modifier) &&
      Tidy(t.key.modifier)
  }

  lemma RepeatedCaptures(prefix: string, suffix: string, pattern: string, mod: string)
    requires Whole(prefix) && Captures(prefix) == 0 && Whole(suffix) && Captures(suffix) == 0
    requires Whole(pattern) && Captures(pattern) == 0 && Whole(mod) && Captures(mod) == 0
    ensures var r := NonCapturing(prefix + Capturing(NonCapturing(pattern) + NonCapturing(suffix + prefix + NonCapturing(pattern)) + "*") + suffix) + mod;
      Whole(r) && Captures(r) == 1
  {
    NonCapturingCaptures(pattern);
    var p := NonCapturing(pattern);
    Cat(suffix, prefix);
    Cat(suffix + prefix, p);
    NonCapturingCaptures(suffix + prefix + p);
    var rest := NonCapturing(suffix + prefix + p);
    Cat(p, rest);
    Cat(p + rest, "*");
    var inner := p + rest + "*";
    CapturingCaptures(inner);
    Cat(prefix, Capturing(inner));
    Cat(prefix + Capturing(inner), suffix);
    NonCapturingCaptures(prefix + Capturing(inner) + suffix);
    Cat(NonCapturing(prefix + Capturing(inner) + suffix), mod);
  }

  lemma AffixedCaptures(prefix: string, suffix: string, pattern: string, mod: string)
    requires Whole(prefix) && Captures(prefix) == 0 && Whole(suffix) && Captures(suffix) == 0
    requires Whole(pattern) && Captures(pattern) == 0 && Whole(mod) && Captures(mod) == 0
    requires pattern == "" || pattern[0] != '?'
    ensures var r := NonCapturing(prefix + Capturing(pattern) + suffix) + mod;
      Whole(r) && Captures(r) == 1
  {
    CapturingCaptures(pattern);
    Cat(prefix, Capturing(pattern));
    Cat(prefix + Capturing(pattern), suffix);
    NonCapturingCaptures(prefix + Capturing(pattern) + suffix);
    Cat(NonCapturing(prefix + Capturing(pattern) + suffix), mod);
  }

  lemma BareCaptures(pattern: string, mod: string, repeated: bool)
    requires Whole(pattern) && Captures(pattern) == 0 && Whole(mod) && Captures(mod) == 0
    requires pattern == "" || pattern[0] != '?'
    ensures var r := if repeated then Capturing(NonCapturing(pattern) + mod) else Capturing(pattern) + mod;
      Whole(r) && Captures(r) == 1
  {
    if repeated {
      NonCapturingCaptures(pattern);
      Cat(NonCapturing(pattern), mod);
      CapturingCaptures(NonCapturing(pattern) + mod);
    } else {
      CapturingCaptures(pattern);
      Cat(Capturing(pattern), mod);
    }
  }

  lemma EmptyCaptures(prefix: string, suffix: string, mod: string)
    requires Whole(prefix) && Captures(prefix) == 0 && Whole(suffix) && Captures(suffix) == 0
    requires Whole(mod) && Captures(mod) == 0
    ensures var r := NonCapturing(prefix + suffix) + mod;
      Whole(r) && Captures(r) == 0
  {
    Cat(prefix, suffix);
    NonCapturingCaptures(prefix + suffix);
    Cat(NonCapturing(prefix + suffix), mod);
  }

  /** The text of a token is whole, and it captures once when the token is
      a key with a pattern and never otherwise. */
  lemma TokenCaptures(t: Token, encode: string -> string)
    requires TokenRegexOk(t)
    ensures Whole(TokenSource(t, encode))
    ensures Captures(TokenSource(t, encode)) == if HasPattern(t) then 1 else 0
  {
    match t {
      case Text(s) =>
        EscapePlain(encode(s));
        Plain0(Escape(encode(s)));
      case Param(k) =>
        var prefix := Escape(encode(k.prefix));
        var suffix := Escape(encode(k.suffix));
        EscapePlain(encode(k.prefix));
        EscapePlain(encode(k.suffix));
        Plain0(prefix);
        Plain0(suffix);
        Plain0(k.pattern);
        Plain0(k.modifier);
        assert Whole("?") && Whole("") && Captures("?") == 0 && Captures("") == 0;
        if k.pattern != "" {
          if prefix != "" || suffix != "" {
            if Strify.In(k.modifier, ["+", "*"]) {
              RepeatedCaptures(prefix, suffix, k.pattern, if Strify.Is(k.modifier, "*") then "?" else "");
            } else {
              AffixedCaptures(prefix, suffix, k.pattern, k.modifier);
            }
          } else {
            BareCaptures(k.pattern, k.modifier, Strify.In(k.modifier, ["+", "*"]));
          }
        } else {
          EmptyCaptures(prefix, suffix, k.modifier);
        }
    }
  }

  lemma {:induction false} RouteUpToCaptures(tokens: seq<Token>, n: nat, options: Options)
    requires n <= |tokens| && forall k :: 0 <= k < |tokens| ==> TokenRegexOk(tokens[k])
    ensures Whole(RouteUpTo(tokens, n, options)) && Captures(RouteUpTo(tokens, n, options)) == |KeysUpTo(tokens, n)|
  {
    if n == 0 {
      assert Whole("^") && Captures("^") == 0;
    } else {
      RouteUpToCaptures(tokens, n - 1, options);
      TokenCaptures(tokens[n - 1], options.encode);
      Cat(RouteUpTo(tokens, n - 1, options), TokenSource(tokens[n - 1], options.encode));
    }
  }

  /** What follows the tokens holds no capturing group. */
  lemma DelimiterReWhole(options: Options)
    ensures Whole(DelimiterRe(options)) && Captures(DelimiterRe(options)) == 0
  {
    EscapePlain(Delimiter(options));
    PlainAppend("[", Escape(Delimiter(options)));
    PlainAppend("[" + Escape(Delimiter(options)), "]");
    Plain0(DelimiterRe(options));
  }

  lemma EndsWithReWhole(options: Options)
    ensures Whole(EndsWithRe(options)) && Captures(EndsWithRe(options)) == 0
  {
    EscapePlain(EndsWith(options));
    PlainAppend("[", Escape(EndsWith(options)));
    assert Plain("]|$");
    PlainAppend("[" + Escape(EndsWith(options)), "]|$");
    Plain0(EndsWithRe(options));
  }

  lemma EndCaptures(tokens: seq<Token>, options: Options)
    ensures Whole(EndSource(tokens, options)) && Captures(EndSource(tokens, options)) == 0
  {
    var d := DelimiterRe(options);
    var e := EndsWithRe(options);
    DelimiterReWhole(options);
    EndsWithReWhole(options);
    assert Whole("?") && Whole("") && Captures("?") == 0 by {
      Plain0("?");
      Plain0("");
    }
    var a := if options.end then (if !options.strict then d + "?" else "")
             else (if !options.strict then NonCapturing(d + Lookahead(e)) + "?" else "");
    var b := if options.end then (if !Truthy(options.endsWith) then "$" else Lookahead(e))
             else (if !EndDelimited(tokens, d) then Lookahead(d + "|" + e) else "");
    assert Whole(a) && Captures(a) == 0 by {
      if options.end {
        Cat(d, "?");
      } else {
        LookaheadCaptures(e);
        Cat(d, Lookahead(e));
        NonCapturingCaptures(d + Lookahead(e));
        Cat(NonCapturing(d + Lookahead(e)), "?");
      }
    }
    assert Whole(b) && Captures(b) == 0 by {
      if options.end {
        Plain0("$");
        LookaheadCaptures(e);
      } else {
        Plain0("|");
        Cat(d, "|");
        Cat(d + "|", e);
        LookaheadCaptures(d + "|" + e);
      }
    }
    Cat(a, b);
  }

  /** The route of a token list captures once per key with a pattern: the
      i-th group of a match is the i-th key `tokensToRegex` pushes. */
  lemma RouteCaptures(tokens: seq<Token>, options: Options)
    requires forall k :: 0 <= k < |tokens| ==> TokenRegexOk(tokens[k])
    ensures Whole(RouteSource(tokens, options))
    ensures Captures(RouteSource(tokens, options)) == |KeyTokens(tokens)|
  {
    RouteUpToCaptures(tokens, |tokens|, options);
    EndCaptures(tokens, options);
    Cat(RouteUpTo(tokens, |tokens|, options), EndSource(tokens, options));
  }

  /** Tokens out of `parse` meet what `RouteCaptures` needs. */
  lemma ParsedTokensOk(str: string, options: ParseOptions)
    ensures Parse(str, options).Ok? ==>
      var ts := Parse(str, options).value; forall k :: 0 <= k < |ts| ==> TokenRegexOk(ts[k])
  {
    ParseKeysOk(str, options);
    assert Plain("") && Plain("*") && Plain("+") && Plain("?");
    assert Tidy("") && Tidy("*") && Tidy("+") && Tidy("?");
  }

  /** `stringToRegex` pushes exactly one key per capturing group. */
  lemma StringCaptures(path: string, keys: Option<seq<Key>>, options: Options)
    ensures var r := StringRegex(path, keys, options);
      r.Ok? ==> (Whole(r.value.0.source) && (r.value.1.Some? <==> keys.Some?) &&
        (keys.Some? ==> |r.value.1.value| == |keys.value| + Captures(r.value.0.source)))
  {
    var po := ParseOptionsOf(options);
    if Parse(path, po).Ok? {
      ParsedTokensOk(path, po);
      RouteCaptures(Parse(path, po).value, options);
    }
  }

  lemma JoinCaptures(parts: seq<string>, p: string)
    requires Whole(Strify.JoinWith(parts, "|")) && Whole(p)
    ensures Whole(Strify.JoinWith(parts + [p], "|"))
    ensures Captures(Strify.JoinWith(parts + [p], "|")) == Captures(Strify.JoinWith(parts, "|")) + Captures(p)
  {
    if |parts| == 0 {
      assert parts + [p] == [p];
    } else {
      Strify.JoinWithSnoc(parts, p, "|");
      assert Whole("|") && Captures("|") == 0;
      Cat(Strify.JoinWith(parts, "|"), "|");
      Cat(Strify.JoinWith(parts, "|") + "|", p);
    }
  }

  /** After `n` paths: `n` parts, whose alternation is whole and has one
      capturing group per key added to `keys`. */
  predicate Counted(r: Result<(seq<string>, Option<seq<Key>>), PtrError>, n: nat, keys: Option<seq<Key>>)
  {
    r.Ok? ==> (|r.value.0| == n && Whole(Strify.JoinWith(r.value.0, "|")) && (r.value.1.Some? <==> keys.Some?) &&
      (keys.Some? ==> |r.value.1.value| == |keys.value| + Captures(Strify.JoinWith(r.value.0, "|"))))
  }

  lemma ArrayStepCaptures(prev: Result<(seq<string>, Option<seq<Key>>), PtrError>, path: string, n: nat,
                          keys: Option<seq<Key>>, options: Options)
    requires Counted(prev, n, keys)
    ensures Counted(ArrayStep(prev, path, options), n + 1, keys)
  {
    if prev.Ok? {
      var parts := prev.value.0;
      var here := StringRegex(path, prev.value.1, options);
      StringCaptures(path, prev.value.1, options);
      if here.Ok? {
        JoinCaptures(parts, here.value.0.source);
      }
    }
  }

  lemma {:induction false} ArrayPartsCaptures(paths: seq<string>, n: nat, keys: Option<seq<Key>>, options: Options)
    requires n <= |paths|
    ensures Counted(ArrayParts(paths, n, keys, options), n, keys)
  {
    if n > 0 {
      ArrayPartsCaptures(paths, n - 1, keys, options);
      ArrayStepCaptures(ArrayParts(paths, n - 1, keys, options), paths[n - 1], n - 1, keys, options);
    }
  }

  /** `arrayToRegex` pushes exactly one key per capturing group of the
      alternation. */
  lemma ArrayCaptures(paths: seq<string>, keys: Option<seq<Key>>, options: Options)
    ensures var r := ArrayRegex(paths, keys, options);
      r.Ok? ==> (Whole(r.value.0.source) && (r.value.1.Some? <==> keys.Some?) &&
        (keys.Some? ==> |r.value.1.value| == |keys.value| + Captures(r.value.0.source)))
  {
    ArrayPartsCaptures(paths, |paths|, keys, options);
    var r := ArrayParts(paths, |paths|, keys, options);
    if r.Ok? {
      NonCapturingCaptures(Strify.JoinWith(r.value.0, "|"));
    }
  }

  /** `pathToRegex` pushes exactly one key per capturing group, so a match
      of its expression has one entry per key after the whole match. */
  lemma PathCaptures(path: Path, keys: Option<seq<Key>>, options: Options)
    ensures var r := PathRegex(path, keys, options);
      r.Ok? ==> (Whole(r.value.0.source) && (r.value.1.Some? <==> keys.Some?) &&
        (keys.Some? ==> |r.value.1.value| == |keys.value| + Captures(r.value.0.source)))
  {
    match path {
      case Str(s) => StringCaptures(s, keys, options);
      case Arr(ps) => ArrayCaptures(ps, keys, options);
    }
  }

  // ---------------------------------------------------------------------
  // Capturing groups as the engine reads them, character classes included

  /** A key whose custom pattern closes its classes and keeps parentheses
      out of them (the default pattern does). */
  predicate PatternTidy(t: Token)
  {
    t.Param? ==> Tidy(t.key.pattern)
  }

  lemma TidyCat(a: string, b: string)
    requires Tidy(a) && Tidy(b)
    ensures Tidy(a + b)
  {
    TidyAppend(a, b, false, false, false);
  }

  lemma WrapTidy(x: string)
    requires Tidy(x)
    ensures Tidy(NonCapturing(x)) && Tidy(Capturing(x)) && Tidy(Lookahead(x))
  {
    assert Tidy("(?:") && Tidy("(") && Tidy("(?=") && Tidy(")");
    TidyCat(x, ")");
    TidyCat("(?:", x + ")");
    TidyCat("(", x + ")");
    TidyCat("(?=", x + ")");
    assert NonCapturing(x) == "(?:" + (x + ")");
    assert Capturing(x) == "(" + (x + ")");
    assert Lookahead(x) == "(?=" + (x + ")");
  }

  /** The text of a token with a tidy pattern is tidy. */
  lemma TokenTidy(t: Token, encode: string -> string)
    requires TokenRegexOk(t) && PatternTidy(t)
    ensures Tidy(TokenSource(t, encode))
  {
    match t {
      case Text(s) => EscapeTidy(encode(s), false);
      case Param(k) =>
        var prefix := Escape(encode(k.prefix));
        var suffix := Escape(encode(k.suffix));
        EscapeTidy(encode(k.prefix), false);
        EscapeTidy(encode(k.suffix), false);
        assert Tidy("?") && Tidy("") && Tidy("*");
        var p, m := k.pattern, k.modifier;
        WrapTidy(p);
        if p != "" {
          if prefix != "" || suffix != "" {
            if Strify.In(m, ["+", "*"]) {
              var np := NonCapturing(p);
              TidyCat(suffix, prefix);
              TidyCat(suffix + prefix, np);
              WrapTidy(suffix + prefix + np);
              var rest := NonCapturing(suffix + prefix + np);
              TidyCat(np, rest);
              TidyCat(np + rest, "*");
              WrapTidy(np + rest + "*");
              var inner := Capturing(np + rest + "*");
              TidyCat(prefix, inner);
              TidyCat(prefix + inner, suffix);
              WrapTidy(prefix + inner + suffix);
              TidyCat(NonCapturing(prefix + inner + suffix), if Strify.Is(m, "*") then "?" else "");
            } else {
              TidyCat(prefix, Capturing(p));
              TidyCat(prefix + Capturing(p), suffix);
              WrapTidy(prefix + Capturing(p) + suffix);
              TidyCat(NonCapturing(prefix + Capturing(p) + suffix), m);
            }
          } else if Strify.In(m, ["+", "*"]) {
            TidyCat(NonCapturing(p), m);
            WrapTidy(NonCapturing(p) + m);
          } else {
            TidyCat(Capturing(p), m);
          }
        } else {
          TidyCat(prefix, suffix);
          WrapTidy(prefix + suffix);
          TidyCat(NonCapturing(prefix + suffix), m);
        }
    }
  }

  lemma {:induction false} RouteUpToTidy(tokens: seq<Token>, n: nat, options: Options)
    requires n <= |tokens|
    requires forall k :: 0 <= k < |tokens| ==> TokenRegexOk(tokens[k]) && PatternTidy(tokens[k])
    ensures Tidy(RouteUpTo(tokens, n, options))
  {
    if n == 0 {
      assert Tidy("^") && Tidy("");
    } else {
      RouteUpToTidy(tokens, n - 1, options);
      TokenTidy(tokens[n - 1], options.encode);
      TidyCat(RouteUpTo(tokens, n - 1, options), TokenSource(tokens[n - 1], options.encode));
    }
  }

  /** The delimiter and `endsWith` classes are closed and hold escaped text only. */
  lemma ClassesTidy(options: Options)
    ensures Tidy(DelimiterRe(options)) && Tidy(EndsWithRe(options))
  {
    var d, w := Escape(Delimiter(options)), Escape(EndsWith(options));
    EscapeTidy(Delimiter(options), true);
    EscapeTidy(EndsWith(options), true);
    assert TidyIn("[", false, true) && TidyIn("]", true, false) && TidyIn("]|$", true, false);
    TidyAppend("[", d, false, true, true);
    TidyAppend("[" + d, "]", false, true, false);
    TidyAppend("[", w, false, true, true);
    TidyAppend("[" + w, "]|$", false, true, false);
  }

  lemma EndTidy(tokens: seq<Token>, options: Options)
    ensures Tidy(EndSource(tokens, options))
  {
    var d := DelimiterRe(options);
    var e := EndsWithRe(options);
    ClassesTidy(options);
    assert Tidy("?") && Tidy("") && Tidy("$") && Tidy("|");
    WrapTidy(e);
    var a := if options.end then (if !options.strict then d + "?" else "")
             else (if !options.strict then NonCapturing(d + Lookahead(e)) + "?" else "");
    var b := if options.end then (if !Truthy(options.endsWith) then "$" else Lookahead(e))
             else (if !EndDelimited(tokens, d) then Lookahead(d + "|" + e) else "");
    assert Tidy(a) by {
      if options.end {
        TidyCat(d, "?");
      } else {
        TidyCat(d, Lookahead(e));
        WrapTidy(d + Lookahead(e));
        TidyCat(NonCapturing(d + Lookahead(e)), "?");
      }
    }
    assert Tidy(b) by {
      if !options.end {
        TidyCat(d, "|");
        TidyCat(d + "|", e);
        WrapTidy(d + "|" + e);
      }
    }
    TidyCat(a, b);
  }

  /** The route of tokens whose patterns are tidy is tidy. */
  lemma RouteTidy(tokens: seq<Token>, options: Options)
    requires forall k :: 0 <= k < |tokens| ==> TokenRegexOk(tokens[k]) && PatternTidy(tokens[k])
    ensures Tidy(RouteSource(tokens, options))
  {
    RouteUpToTidy(tokens, |tokens|, options);
    EndTidy(tokens, options);
    TidyCat(RouteUpTo(tokens, |tokens|, options), EndSource(tokens, options));
  }

  /** Every custom pattern of `path` is tidy (or `path` does not parse). */
  predicate PatternsTidy(path: string, options: Options)
  {
    var ts := Parse(path, ParseOptionsOf(options));
    ts.Ok? ==> forall k :: 0 <= k < |ts.value| ==> PatternTidy(ts.value[k])
  }

  lemma StringTidy(path: string, keys: Option<seq<Key>>, options: Options)
    requires PatternsTidy(path, options)
    ensures var r := StringRegex(path, keys, options); r.Ok? ==> Tidy(r.value.0.source)
  {
    var po := ParseOptionsOf(options);
    if Parse(path, po).Ok? {
      ParsedTokensOk(path, po);
      RouteTidy(Parse(path, po).value, options);
    }
  }

  /** After `n` tidy paths the alternation of the parts is tidy. */
  predicate JoinTidy(r: Result<(seq<string>, Option<seq<Key>>), PtrError>)
  {
    r.Ok? ==> Tidy(Strify.JoinWith(r.value.0, "|"))
  }

  lemma ArrayStepTidy(prev: Result<(seq<string>, Option<seq<Key>>), PtrError>, path: string, options: Options)
    requires JoinTidy(prev) && PatternsTidy(path, options)
    ensures JoinTidy(ArrayStep(prev, path, options))
  {
    if prev.Ok? {
      var parts := prev.value.0;
      var here := StringRegex(path, prev.value.1, options);
      StringTidy(path, prev.value.1, options);
      if here.Ok? {
        var p := here.value.0.source;
        if |parts| == 0 {
          assert parts + [p] == [p];
        } else {
          Strify.JoinWithSnoc(parts, p, "|");
          assert Tidy("|");
          TidyCat(Strify.JoinWith(parts, "|"), "|");
          TidyCat(Strify.JoinWith(parts, "|") + "|", p);
        }
      }
    }
  }

  lemma {:induction false} ArrayPartsTidy(paths: seq<string>, n: nat, keys: Option<seq<Key>>, options: Options)
    requires n <= |paths| && forall i :: 0 <= i < |paths| ==> PatternsTidy(paths[i], options)
    ensures JoinTidy(ArrayParts(paths, n, keys, options))
  {
    if n == 0 {
      assert Tidy("");
    } else {
      ArrayPartsTidy(paths, n - 1, keys, options);
      ArrayStepTidy(ArrayParts(paths, n - 1, keys, options), paths[n - 1], options);
    }
  }

  /** Every custom pattern of the path, or of each element of the array, is tidy. */
  predicate PathTidy(path: Path, options: Options)
  {
    match path
    case Str(s) => PatternsTidy(s, options)
    case Arr(ps) => forall i :: 0 <= i < |ps| ==> PatternsTidy(ps[i], options)
  }

  lemma PathTidySource(path: Path, keys: Option<seq<Key>>, options: Options)
    requires PathTidy(path, options)
    ensures var r := PathRegex(path, keys, options); r.Ok? ==> Tidy(r.value.0.source)
  {
    match path {
      case Str(s) => StringTidy(s, keys, options);
      case Arr(ps) =>
        ArrayPartsTidy(ps, |ps|, keys, options);
        var r := ArrayParts(ps, |ps|, keys, options);
        if r.Ok? {
          WrapTidy(Strify.JoinWith(r.value.0, "|"));
        }
    }
  }

  /** `pathToRegex` pushes at least one key per capturing group the engine
      sees, and exactly one when every custom pattern is tidy: then the i-th
      group of a match is the i-th key pushed.  A pattern that leaves a class
      open can hide later groups inside it. */
  lemma PathGroups(path: Path, keys: Option<seq<Key>>, options: Options)
    ensures var r := PathRegex(path, keys, options);
      r.Ok? ==> ((r.value.1.Some? <==> keys.Some?) &&
        (keys.Some? ==> |keys.value| + Groups(r.value.0.source) <= |r.value.1.value|))
    ensures var r := PathRegex(path, keys, options);
      r.Ok? && keys.Some? && PathTidy(path, options) ==>
        |r.value.1.value| == |keys.value| + Groups(r.value.0.source)
  {
    PathCaptures(path, keys, options);
    var r := PathRegex(path, keys, options);
    if r.Ok? {
      GroupsAtMost(r.value.0.source, false);
      if PathTidy(path, options) {
        PathTidySource(path, keys, options);
        TidyGroups(r.value.0.source, false, false);
      }
    }
  }

  // ---------------------------------------------------------------------
  // Anchoring

  /** Text that does not start with `^`. */
  predicate NoCaret(x: string)
  {
    |x| == 0 || x[0] != '^'
  }

  lemma NoCaretCat(a: string, b: string)
    requires NoCaret(a) && NoCaret(b)
    ensures NoCaret(a + b)
  {
    if |a| == 0 {
      assert a + b == b;
    } else {
      assert (a + b)[0] == a[0];
    }
  }

  lemma EscapeNoCaret(s: string)
    ensures NoCaret(Escape(s))
  {
    if |s| > 0 {
      assert Escape(s)[0] == (if IsSpecial(s[0]) then '\\' else s[0]);
    }
  }

  lemma TokenNoCaret(t: Token, encode: string -> string)
    ensures NoCaret(TokenSource(t, encode))
  {
    match t {
      case Text(s) => EscapeNoCaret(encode(s));
      case Param(k) =>
    }
  }

  lemma {:induction false} RouteUpToNoCaret(tokens: seq<Token>, n: nat, options: Options)
    requires n <= |tokens| && !options.start
    ensures NoCaret(RouteUpTo(tokens, n, options))
  {
    if n > 0 {
      RouteUpToNoCaret(tokens, n - 1, options);
      TokenNoCaret(tokens[n - 1], options.encode);
      NoCaretCat(RouteUpTo(tokens, n - 1, options), TokenSource(tokens[n - 1], options.encode));
    }
  }

  /** The route is anchored at the start of the input exactly when `start`. */
  lemma RouteAnchored(tokens: seq<Token>, options: Options)
    ensures var r := RouteSource(tokens, options); options.start <==> (|r| > 0 && r[0] == '^')
  {
    var r := RouteSource(tokens, options);
    if options.start {
      assert RouteUpTo(tokens, 0, options) == "^";
      PrefixFirst(tokens, |tokens|, options);
      assert r[0] == RouteUpTo(tokens, |tokens|, options)[0];
    } else {
      RouteUpToNoCaret(tokens, |tokens|, options);
      var end := EndSource(tokens, options);
      assert NoCaret(end);
      NoCaretCat(RouteUpTo(tokens, |tokens|, options), end);
    }
  }

  lemma {:induction false} PrefixFirst(tokens: seq<Token>, n: nat, options: Options)
    requires n <= |tokens| && options.start
    ensures |RouteUpTo(tokens, n, options)| > 0 && RouteUpTo(tokens, n, options)[0] == '^'
  {
    if n > 0 {
      PrefixFirst(tokens, n - 1, options);
    }
  }
  /** With `end`, the route finishes with the optional trailing delimiter
      unless `strict`, and then with `$` exactly when `endsWith` is unset,
      otherwise with a lookahead for `endsWithRe`. */
  lemma RouteEnd(tokens: seq<Token>, options: Options)
    requires options.end
    ensures var r := RouteSource(tokens, options);
      |r| > 0 && (r[|r| - 1] == '$' <==> !Truthy(options.endsWith))
    ensures var r := RouteSource(tokens, options); var t := Lookahead(EndsWithRe(options));
      Truthy(options.endsWith) ==> |r| >= |t| && r[|r| - |t|..] == t
    ensures var e := EndSource(tokens, options); var d := DelimiterRe(options) + "?";
      !options.strict <==> (|e| >= |d| && e[..|d|] == d)
  {
    var e := EndSource(tokens, options);
    var d := DelimiterRe(options) + "?";
    var tail := if !Truthy(options.endsWith) then "$" else Lookahead(EndsWithRe(options));
    var mid := if !options.strict then d else "";
    assert e == mid + tail;
    var r := RouteSource(tokens, options);
    var u := RouteUpTo(tokens, |tokens|, options);
    assert r == (u + mid) + tail by {
      SeqAssoc(u, mid, tail);
    }
    SeqSuffix(u + mid, tail);
    if options.strict {
      assert e == tail;
      if |e| >= |d| {
        assert e[0] != d[0];
      }
    } else {
      assert e[..|d|] == d;
    }
  }
}
