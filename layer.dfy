/** `RouteLayer` (src/core/Layer.ts): one route of the router, a compiled
    path with its keys and the parameters of the last match. */
module Layer {
  import opened Wrappers
  import opened PtrEscape
  import opened PtrLexer
  import opened PtrParser
  import opened PtrCompiler

  /** The `URIError` that `decode` rethrows, with the fields it sets. */
  datatype DecodeError = DecodeError(message: string, status: int, statusCode: int)

  /** `RouteLayer.decode(value)`.  `decodeURIComponent` is given as a
      function; `None` stands for the `URIError` it throws on a malformed
      escape.  A value that is not a string (`undefined`) or is empty is
      returned as it is. */
  function Decode(value: Option<string>, decodeURIComponent: string -> Option<string>): (r: Result<Option<string>, DecodeError>)
    ensures value.None? || value == Some("") ==> r == Ok(value)
    ensures value.Some? && value.value != "" ==>
      (r.Ok? <==> decodeURIComponent(value.value).Some?) &&
      (r.Ok? ==> r.value == decodeURIComponent(value.value))
    ensures r.Err? ==> r.error == DecodeError("Failed to decode param '" + value.value + "'", 400, 400)
  {
    if value.None? || value.value == "" then Ok(value)
    else
      match decodeURIComponent(value.value)
      case None => Err(DecodeError("Failed to decode param '" + value.value + "'", 400, 400))
      case Some(d) => Ok(Some(d))
  }

  /** The decimal text of a number, as a property name. */
  function Decimal(n: nat): string
  {
    if n < 10 then [('0' as int + n) as char] else Decimal(n / 10) + [('0' as int + n % 10) as char]
  }

  /** The property `params[key.name]` sets: a number is written in decimal. */
  function PropName(name: KeyName): string
  {
    match name
    case Named(s) => s
    case Numbered(n) => Decimal(n)
  }

  type Params = map<string, Option<string>>

  /** The parameters after the first `n` groups of a match: each group is
      decoded, and its value is stored under its key's name unless it is
      `undefined` and the name is already set.  A decoding error stops the
      loop and leaves the parameters filled so far. */
  function Fill(keys: seq<Key>, groups: seq<Option<string>>, dec: string -> Option<string>, n: nat): Result<Params, (DecodeError, Params)>
    requires n <= |groups| <= |keys|
  {
    if n == 0 then Ok(map[])
    else
      match Fill(keys, groups, dec, n - 1)
      case Err(x) => Err(x)
      case Ok(p) =>
        var prop := PropName(keys[n - 1].name);
        match Decode(groups[n - 1], dec)
        case Err(e) => Err((e, p))
        case Ok(val) => Ok(if val.Some? || prop !in p then p[prop := val] else p)
  }

  /** The state a call of `match` leaves: what it returns (or throws), and
      the new `params` and `path`. */
  datatype Outcome = Outcome(result: Result<bool, DecodeError>, params: Option<Params>, path: Option<string>)

  /** What `regex.exec` returns: `null`, or the whole match and one entry
      per capturing group. */
  predicate ExecShape(execResult: Option<seq<Option<string>>>, groups: nat)
  {
    execResult.Some? ==> |execResult.value| == groups + 1 && execResult.value[0].Some?
  }

  /** What the loop of `match` needs of an `exec` result: the whole match,
      and a key for every entry after it. */
  predicate ExecFits(execResult: Option<seq<Option<string>>>, keyCount: nat)
  {
    execResult.Some? ==> 1 <= |execResult.value| <= keyCount + 1 && execResult.value[0].Some?
  }

  class RouteLayer {
    const keys: seq<Key>
    const regex: Regex
    const handlerName: string
    const name: string
    var params: Option<Params>
    var path: Option<string>
    const fastStar: bool
    const fastSlash: bool

    /** A key for every capturing group of the compiled expression (one
        per unescaped `(` not followed by `?`; classes can hide some). */
    predicate Valid()
    {
      Groups(regex.source) <= |keys| == Captures(regex.source)
    }

    /** `new RouteLayer(pathname, handler, options)`, for a path that
        compiles; the path is compiled with `{}`, whatever `options` says,
        and only `options.end` is read, for `fastSlash`. */
    constructor(pathname: Path, handlerName: string, endOption: Option<bool>)
      requires PathRegex(pathname, Some([]), DefaultOptions()).Ok?
      ensures var (re, ks) := PathRegex(pathname, Some([]), DefaultOptions()).value;
        regex == re && ks == Some(keys)
      ensures name == if handlerName != "" then handlerName else "<anonymous>"
      ensures params == None && path == None
      ensures fastStar <==> pathname == Str("*")
      ensures fastSlash <==> pathname == Str("/") && endOption == Some(false)
      ensures Valid()
      ensures PathTidy(pathname, DefaultOptions()) ==> Groups(regex.source) == |keys|
    {
      var compiled := PathToRegex(pathname, Some([]), DefaultOptions());
      PathCaptures(pathname, Some([]), DefaultOptions());
      PathGroups(pathname, Some([]), DefaultOptions());
      regex := compiled.value.0;
      keys := compiled.value.1.value;
      this.handlerName := handlerName;
      name := if handlerName != "" then handlerName else "<anonymous>";
      params := None;
      path := None;
      fastStar := pathname == Str("*");
      fastSlash := pathname == Str("/") && endOption == Some(false);
    }

    /** What `match(path)` does, given what `regex.exec(path)` returns and
        the state before the call. */
    function MatchOutcome(oldParams: Option<Params>, oldPath: Option<string>, path: Option<string>,
                          execResult: Option<seq<Option<string>>>, dec: string -> Option<string>): Outcome
      reads this
      requires ExecFits(execResult, |keys|)
    {
      if path.Some? && fastSlash then Outcome(Ok(true), Some(map[]), Some(""))
      else if path.Some? && fastStar then
        match Decode(path, dec)
        case Err(e) => Outcome(Err(e), oldParams, oldPath)
        case Ok(v) => Outcome(Ok(true), Some(map["0" := v]), path)
      else if path.None? || execResult.None? then Outcome(Ok(false), None, None)
      else
        var m := execResult.value;
        match Fill(keys, m[1..], dec, |m| - 1)
        case Ok(p) => Outcome(Ok(true), Some(p), m[0])
        case Err((e, p)) => Outcome(Err(e), Some(p), m[0])
    }

    /** `match(path)`; `execResult` is what `this.regex.exec(path)` returns. */
    method Match(path: Option<string>, execResult: Option<seq<Option<string>>>, dec: string -> Option<string>)
      returns (r: Result<bool, DecodeError>)
      requires Valid() && ExecShape(execResult, Groups(regex.source))
      modifies this
      ensures Outcome(r, params, this.path) == MatchOutcome(old(params), old(this.path), path, execResult, dec)
    {
      if path.Some? {
        if fastSlash {
          params := Some(map[]);
          this.path := Some("");
          return Ok(true);
        }
        if fastStar {
          var v := Decode(path, dec);
          if v.Err? {
            return Err(v.error);
          }
          params := Some(map["0" := v.value]);
          this.path := path;
          return Ok(true);
        }
      }
      if path.None? || execResult.None? {
        params := None;
        this.path := None;
        return Ok(false);
      }
      var m := execResult.value;
      params := Some(map[]);
      this.path := m[0];
      var p: Params := map[];
      for i := 1 to |m|
        invariant Fill(keys, m[1..], dec, i - 1) == Ok(p)
        invariant params == Some(p) && this.path == m[0]
      {
        var key := keys[i - 1];
        var prop := PropName(key.name);
        var val := Decode(m[i], dec);
        assert m[1..][i - 1] == m[i];
        if val.Err? {
          assert Fill(keys, m[1..], dec, i) == Err((val.error, p));
          FillErr(keys, m[1..], dec, i, |m| - 1);
          return Err(val.error);
        }
        if val.value.Some? || prop !in p {
          p := p[prop := val.value];
          params := Some(p);
        }
      }
      r := Ok(true);
    }

    /** `handle(path, req, res)`: `match` runs once for the log and once
        more to decide whether the handler runs.  `Ok(true)` means the
        handler is called. */
    method Handle(path: Option<string>, execResult: Option<seq<Option<string>>>, dec: string -> Option<string>)
      returns (invoked: Result<bool, DecodeError>)
      requires Valid() && ExecShape(execResult, Groups(regex.source))
      modifies this
      ensures var first := MatchOutcome(old(params), old(this.path), path, execResult, dec);
        Outcome(invoked, params, this.path) ==
          if first.result.Err? then first else MatchOutcome(first.params, first.path, path, execResult, dec)
    {
      var logged := Match(path, execResult, dec);
      if logged.Err? {
        return logged;
      }
      invoked := Match(path, execResult, dec);
    }

    /** A second `match` with the same input after one that returned
        leaves the same state and returns the same value: so `handle`
        calls the handler exactly when one `match` succeeds. */
    lemma MatchTwice(oldParams: Option<Params>, oldPath: Option<string>, path: Option<string>,
                     execResult: Option<seq<Option<string>>>, dec: string -> Option<string>)
      requires ExecFits(execResult, |keys|)
      ensures var first := MatchOutcome(oldParams, oldPath, path, execResult, dec);
        first.result.Ok? ==> MatchOutcome(first.params, first.path, path, execResult, dec) == first
    {
    }
  }

  /** `new RouteLayer("*", ...)` throws: with `{}` options `"*"` does not
      compile, so no layer has `fastStar` set. */
  lemma FastStarUnreachable()
    ensures PathRegex(Str("*"), Some([]), DefaultOptions()) == Err(UnexpectedToken(MODIFIER, 0, END))
  {
    ParseStar(ParseOptionsOf(DefaultOptions()));
  }

  /** Why `new RouteLayer(...)` throws: the compiler's `TypeError`, or the
      `SyntaxError` of `new RegExp` for a route text the engine rejects. */
  datatype LayerError = CompileError(error: PtrError) | RegExpSyntaxError(source: string, flags: string)

  /** `new RouteLayer(pathname, handler, options)` with its error paths.
      Which texts `new RegExp` accepts is given as `regExpAccepts`. */
  method NewRouteLayer(pathname: Path, handlerName: string, endOption: Option<bool>,
                       regExpAccepts: (string, string) -> bool)
    returns (r: Result<RouteLayer, LayerError>)
    ensures var c := PathRegex(pathname, Some([]), DefaultOptions());
      r.Err? <==> (c.Err? || !regExpAccepts(c.value.0.source, c.value.0.flags))
    ensures var c := PathRegex(pathname, Some([]), DefaultOptions());
      c.Err? ==> r.Err? && r.error == CompileError(c.error)
    ensures var c := PathRegex(pathname, Some([]), DefaultOptions());
      c.Ok? && r.Err? ==> r.error == RegExpSyntaxError(c.value.0.source, c.value.0.flags)
    ensures var c := PathRegex(pathname, Some([]), DefaultOptions());
      r.Ok? ==> fresh(r.value) && r.value.Valid() && r.value.regex == c.value.0 && c.value.1 == Some(r.value.keys)
    ensures r.Ok? ==> !r.value.fastStar && r.value.params == None && r.value.path == None
    ensures r.Ok? ==> (r.value.fastSlash <==> pathname == Str("/") && endOption == Some(false))
  {
    var compiled := PathToRegex(pathname, Some([]), DefaultOptions());
    if compiled.Err? {
      return Err(CompileError(compiled.error));
    }
    var re := compiled.value.0;
    if !regExpAccepts(re.source, re.flags) {
      return Err(RegExpSyntaxError(re.source, re.flags));
    }
    FastStarUnreachable();
    var layer := new RouteLayer(pathname, handlerName, endOption);
    r := Ok(layer);
  }

  /** A decoding error in one of the first `n` groups stays an error. */
  lemma {:induction false} FillErr(keys: seq<Key>, groups: seq<Option<string>>, dec: string -> Option<string>, n: nat, m: nat)
    requires n <= m <= |groups| <= |keys| && Fill(keys, groups, dec, n).Err?
    ensures Fill(keys, groups, dec, m) == Fill(keys, groups, dec, n)
    decreases m - n
  {
    if n < m {
      FillErr(keys, groups, dec, n, m - 1);
    }
  }

  /** The reference reading of the parameters, scanning backwards: the
      last group for `prop` whose decoded value is defined, else
      `undefined`. */
  function LastDefined(keys: seq<Key>, groups: seq<Option<string>>, dec: string -> Option<string>, n: nat, prop: string): Option<string>
    requires n <= |groups| <= |keys|
  {
    if n == 0 then None
    else
      var d := Decode(groups[n - 1], dec);
      if PropName(keys[n - 1].name) == prop && d.Ok? && d.value.Some? then d.value
      else LastDefined(keys, groups, dec, n - 1, prop)
  }

  lemma {:induction false} LastDefinedAbsent(keys: seq<Key>, groups: seq<Option<string>>, dec: string -> Option<string>, n: nat, prop: string)
    requires n <= |groups| <= |keys|
    requires forall j :: 0 <= j < n ==> PropName(keys[j].name) != prop
    ensures LastDefined(keys, groups, dec, n, prop) == None
  {
    if n > 0 {
      LastDefinedAbsent(keys, groups, dec, n - 1, prop);
    }
  }

  /** The forward loop of `match` agrees with the backward reading: every
      key name is present, with the value of its last defined group, or
      `undefined` when none of its groups is defined; and the loop fails
      exactly when some group fails to decode, with the first such error. */
  lemma {:induction false} FillSemantics(keys: seq<Key>, groups: seq<Option<string>>, dec: string -> Option<string>, n: nat)
    requires n <= |groups| <= |keys|
    ensures Fill(keys, groups, dec, n).Ok? <==> forall j :: 0 <= j < n ==> Decode(groups[j], dec).Ok?
    ensures Fill(keys, groups, dec, n).Err? ==>
      exists j :: (0 <= j < n && Decode(groups[j], dec).Err? &&
        Fill(keys, groups, dec, n).error.0 == Decode(groups[j], dec).error &&
        forall k :: 0 <= k < j ==> Decode(groups[k], dec).Ok?)
    ensures Fill(keys, groups, dec, n).Ok? ==> forall prop ::
      (prop in Fill(keys, groups, dec, n).value <==> exists j :: 0 <= j < n && PropName(keys[j].name) == prop)
    ensures Fill(keys, groups, dec, n).Ok? ==> forall prop :: prop in Fill(keys, groups, dec, n).value ==>
      Fill(keys, groups, dec, n).value[prop] == LastDefined(keys, groups, dec, n, prop)
  {
    if n > 0 {
      FillSemantics(keys, groups, dec, n - 1);
      var prev := Fill(keys, groups, dec, n - 1);
      if prev.Ok? {
        var p := prev.value;
        var prop' := PropName(keys[n - 1].name);
        var d := Decode(groups[n - 1], dec);
        if d.Ok? {
          var p' := Fill(keys, groups, dec, n).value;
          forall prop | prop in p'
            ensures p'[prop] == LastDefined(keys, groups, dec, n, prop)
          {
            if prop == prop' && d.value.None? && prop' !in p {
              LastDefinedAbsent(keys, groups, dec, n - 1, prop);
            }
          }
        }
      }
    }
  }
}
