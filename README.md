# Route compiler, route layer and response envelope of next14-base

This project models, in Dafny, the routing core of the `next14-base`
server template. It also proves properties of that model.

- **`PTR`** is a port of the `path-to-regexp` algorithm. It has four stages:
  - a character lexer;
  - a one-token-lookahead parser that produces literal texts and parameter keys;
  - a generator that builds the regular-expression source text, its flags and the ordered key list;
  - the `escape`/`flags` helpers.
- **`RouteLayer`** compiles one route. Its `match` fills a parameter dictionary from the groups of a regular-expression match.
- **`Response`** is the builder of the `{ error, data }` API envelope. It keeps an HTTP status and an error with traces.
- **The helpers** are `strify` (string equality, membership, substring, `%s` substitution, `ucfirst`), `numify` (range tests) and `arrify.flatten`.

Modules follow the source files. Each module below is one Dafny file.

| module | file | source |
|---|---|---|
| `Wrappers` | `wrappers.dfy` | `Option` and `Result` |
| `Numify` | `numify.dfy` | `src/helpers/numify.ts` |
| `Strify` | `strify.dfy` | `src/helpers/strify.ts` |
| `Arrify` | `arrify.dfy` | `src/helpers/arrify.ts` |
| `PtrEscape` | `ptr_escape.dfy` | `escape`, plus the vocabulary for counting capturing groups in regular-expression text |
| `PtrLexer` | `ptr_lexer.dfy` | `PTR.lexer` |
| `PtrParser` | `ptr_parser.dfy` | `PTR.parse` |
| `PtrCompiler` | `ptr_compiler.dfy` | `flags`, `tokensToRegex`, `stringToRegex`, `arrayToRegex`, `pathToRegex` |
| `Layer` | `layer.dfy` | `src/core/Layer.ts` |
| `Response` | `response.dfy` | `src/core/Response.ts` |

Where the source works by updating state step by step, the model is a Dafny `method` with a loop. Each such method is proved equal to a pure reference function, and the properties are lemmas about that function. This applies to:

- the lexer's `while` loop;
- the parser's loop with its closures `tryConsume`, `mustConsume` and `consumeText`;
- the `for` loop of `tokensToRegex`;
- `arrayToRegex`'s `map`;
- the `for` loop of `match`;
- `$flatten` pushing into a shared array.

Objects whose fields change become classes:

- `Layer.RouteLayer` (`params`, `path`);
- `Response.Response` (`_status`, `_error`);
- `Arrify.FlatArray`, the array `$flatten` pushes into.

Thrown errors become `Err` values of a `Result`:

- `TypeError`s from the lexer and parser become `PtrLexer.PtrError`;
- the decoding `URIError` becomes `Layer.DecodeError`.

JavaScript `undefined` is `None`. A key name that is a number is `PtrParser.Numbered`. `params[prop]` with a number converts it to decimal.

The central result about the compiler relates the pushed keys to the capturing groups of the expression. Two counts of groups are used:

- `PtrEscape.Captures` counts unescaped `(` not followed by `?`, without reading character classes;
- `PtrEscape.Groups` is the count a regular-expression engine sees: a `(` inside a class `[...]` is an ordinary character.

`PtrCompiler.PathCaptures` proves that `keys` grows by exactly `Captures` of the generated source. `PtrCompiler.PathGroups` proves that `keys` grows by at least `Groups` of the source, and by exactly `Groups` when every custom pattern is tidy, that is, closes its classes and keeps parentheses out of them (`PtrEscape.Tidy`). The default pattern is tidy. A pattern that leaves a class open can hide the groups after it. For example, the keys of `([):id(])` are written as `([)(])`, which has two parentheses but one group (`PtrEscape.ClassHidesGroup`).

`RouteLayer.match` reads `keys[i - 1]` for each group `i` of an `exec` result. So it needs no more groups than keys, which `RouteLayer.Valid` states and every constructed layer meets.

Points where the model follows the code literally:

- **Dangling backslash (`PTR.ts:68`).** A trailing backslash reads `str[i]` past the end. The lexer then emits `ESCAPED_CHAR` with the value `undefined`, modelled as `""`. Its `END` token sits at `str.length + 1`, so the `END` index equals `str.length` except in this case (`PtrLexer.LexShape`). Inside a group (`PTR.ts:124`) the pattern text gets the string `"undefined"`. The scan then runs out with depth 1, which raises "Unbalanced pattern".
- **Nested groups (`PTR.ts:136`).** The nested-group test `!strify.is(str[j], "?")` looks at the `(` itself, so any nested `(` is "Capturing groups are not allowed" (`PtrLexer.LexGroup`).
- **`isEndDelimited` (`PTR.ts:311`).** It searches the class text `[...]` (`delimiterRe`). It does not search the delimiter set. For an empty last text, `endToken[-1]` is `undefined`, and `indexOf(undefined)` searches the text `"undefined"` (`PtrCompiler.EndDelimited`).
- **`RouteLayer` options (`Layer.ts:24`).** The constructor compiles with `{}`, whatever options it is given. Only `options.end` is read, for `fastSlash`.
- **`"*"` is not a route.** The lexer makes `MODIFIER` of it, and the parser stops at "Unexpected MODIFIER at 0, expected END". So `new RouteLayer("*")` throws and `fastStar` is never set on a constructed layer (`Layer.FastStarUnreachable`, `Layer.NewRouteLayer`). The fast-star branch of `match` is still modelled as written.

## Model

| member | source | states |
|---|---|---|
| `Numify.Swap` | src/helpers/numify.ts:2-7 | the add/subtract exchange returns the two numbers in the other order |
| `Numify.Is` | src/helpers/numify.ts:8-10 | true exactly when the numbers are equal |
| `Numify.InRange` | src/helpers/numify.ts:11-17 | strictly between the two bounds, taken in either order |
| `Numify.InRangeLeft` | src/helpers/numify.ts:18-20 | equal to the first bound or strictly between; for ordered bounds this is the half-open `[min, max)` |
| `Numify.InRangeRight` | src/helpers/numify.ts:21-23 | equal to the second bound or strictly between; for ordered bounds this is `(min, max]` |
| `Numify.InRanges` | src/helpers/numify.ts:24-26 | inclusive between the bounds, taken in either order |
| `Numify.InRangeSymmetric` | src/helpers/numify.ts:11-26 | `inRange` and `inRanges` give the same answer when the bounds are swapped |
| `Strify.Is` | src/helpers/strify.ts:2-4 | true exactly when the strings are equal |
| `Strify.In` | src/helpers/strify.ts:5-7 | true exactly when some element of the list equals the value |
| `Strify.Contain` | src/helpers/strify.ts:8-10 | true exactly when `find` occurs at some offset of `source` |
| `Strify.ContainEmpty` | src/helpers/strify.ts:8-10 | the empty string is contained in every string |
| `Strify.ArgText` | src/helpers/strify.ts:17 | the i-th argument when there is one, `""` once they run out |
| `Strify.SubstituteNoPlaceholder` | src/helpers/strify.ts:15-18 | text without `%s` is returned unchanged |
| `Strify.SubstituteFirst` | src/helpers/strify.ts:15-18 | the first `%s` takes the current argument and the rest of the text continues with the next one; the surrounding text is kept |
| `Strify.PlaceholdersFirst` | src/helpers/strify.ts:15-18 | that first `%s` is one placeholder: the count of the whole text is one more than the count of the rest |
| `Strify.ParseStringInterleaves` | src/helpers/strify.ts:15-18 | for text made of `%s`-free pieces joined by `%s`, the result is the pieces interleaved with the arguments in turn (`""` when missing), in order |
| `Strify.ParseStringExtraArgs` | src/helpers/strify.ts:15-18 | arguments beyond the number of placeholders do not change the result |
| `Strify.ToLower` | src/helpers/strify.ts:33 | each character mapped to its ASCII lower case, length kept |
| `Strify.Ucfirst` | src/helpers/strify.ts:24-37 | same length; the first character is upper-cased; the rest is kept, or lower-cased when `lowerRemain`; `""` gives `""` |
| `Arrify.FlatArray.Push` | src/helpers/arrify.ts:21 | appends one item and changes nothing else |
| `Arrify.FlattenInto` | src/helpers/arrify.ts:11-24 | `$flatten` appends exactly the leaves of the input, depth first and left to right, after the entries already in `result` |
| `Arrify.Flatten` | src/helpers/arrify.ts:27-31 | `flatten` returns the leaves of the input in depth-first order |
| `Arrify.LeavesSplit` | src/helpers/arrify.ts:11-24 | flattening a concatenation is the concatenation of the flattenings |
| `Arrify.LeavesLength` | src/helpers/arrify.ts:11-24 | the result length is the number of non-array leaves |
| `Arrify.LeavesMembers` | src/helpers/arrify.ts:11-24 | a value is in the result exactly when it occurs as a leaf at some depth |
| `Arrify.FlattenFlat` | src/helpers/arrify.ts:11-31 | on an array with no nested arrays, `flatten` returns its elements unchanged |
| `Arrify.FlattenIdempotent` | src/helpers/arrify.ts:11-31 | the result has no nested arrays, and flattening it again changes nothing |
| `PtrEscape.EscapeRoundTrip` | src/core/PTR.ts:51-53 | `escape` puts a backslash before each special character and nothing else: removing those backslashes gives the input back, and the length grows by the number of special characters |
| `PtrEscape.EscapeOfUnescape` | src/core/PTR.ts:51-53 | every well-escaped text is the escape of its unescaping |
| `PtrEscape.EscapeIdentity` | src/core/PTR.ts:51-53 | text without special characters is left unchanged |
| `PtrEscape.EscapePlain` | src/core/PTR.ts:51-53 | escaped text opens no group |
| `PtrEscape.CapturesAppend` | src/core/PTR.ts:281-297 | the parenthesis count is additive over concatenation after a complete piece |
| `PtrEscape.GroupsAtMost` | src/core/PTR.ts:281-297 | a character class can only hide groups: the engine's count never exceeds the parenthesis count |
| `PtrEscape.TidyGroups` | src/core/PTR.ts:281-297 | in tidy text the engine's count equals the parenthesis count |
| `PtrEscape.EscapeTidy` | src/core/PTR.ts:51-53 | escaped text reads the same inside and outside a character class and leaves the reading state unchanged |
| `PtrEscape.ClassHidesGroup` | src/core/PTR.ts:122-142 | the group text `([)(])`, written for two keys with patterns `[` and `]`, which the lexer accepts, has two parentheses but one group, and is not tidy |
| `PtrCompiler.Flags` | src/core/PTR.ts:47-49 | `""` exactly when `sensitive`, otherwise `"i"` |
| `PtrLexer.NameEnd` | src/core/PTR.ts:84-104 | the name scan stops at the first character outside `[0-9A-Za-z_]`, or at the end of the input |
| `PtrLexer.ScanGroup` | src/core/PTR.ts:122-142 | the group scan stays within the input plus the one-past-end read of a dangling backslash; a scan that closes its group stays within the input |
| `PtrLexer.NextToken` | src/core/PTR.ts:59-153 | each round emits one non-`END` token at the current offset and moves forward; only a dangling backslash moves past the end |
| `PtrLexer.Lexer` | src/core/PTR.ts:55-158 | the `while` loop returns the reference token list, or the first error |
| `PtrLexer.ReadName` | src/core/PTR.ts:83-104 | the inner loop reads the longest run of name characters after `:` |
| `PtrLexer.ReadGroup` | src/core/PTR.ts:114-142 | the inner loop computes the reference group scan |
| `PtrLexer.LexShape` | src/core/PTR.ts:55-158 | a successful lex ends with exactly one `END` token with an empty value; token indices strictly increase; the `END` index is `str.length`, except after a dangling backslash, where it is one more |
| `PtrLexer.LexTokensOk` | src/core/PTR.ts:55-158 | every token has the value its type demands: a pattern is non-empty, does not start with `?` and opens no group; a name is a non-empty identifier; a modifier is `*`, `+` or `?` |
| `PtrLexer.LexName` | src/core/PTR.ts:82-111 | `:` with no name character after it is "Missing parameter name"; otherwise `NAME` is the maximal run and lexing resumes right after it |
| `PtrLexer.ScanClosed` | src/core/PTR.ts:122-147 | a closed group's pattern is exactly the text between the parentheses, escaped pairs kept verbatim, and contains no unescaped parenthesis |
| `PtrLexer.LexGroup` | src/core/PTR.ts:113-150 | any nested `(` is "Capturing groups are not allowed"; `()` is "Missing pattern"; otherwise `PATTERN` holds the text between the parentheses and lexing resumes after the `)` |
| `PtrLexer.LexGroupUnbalanced` | src/core/PTR.ts:118-144 | `(?` is "Pattern cannot start with ?"; a group whose depth never returns to 0 is "Unbalanced pattern" |
| `PtrLexer.LexStar` | src/core/PTR.ts:62-65 | `"*"` lexes as one `MODIFIER` and `END` |
| `PtrParser.DefaultPattern` | src/core/PTR.ts:163 | the default pattern is a character class (`[^…]+?`) that opens no group |
| `PtrParser.TryConsume` | src/core/PTR.ts:169-171 | either consumes the next token and returns its value, or returns nothing and stays; never consumes the final `END` when another type is asked for |
| `PtrParser.MustConsume` | src/core/PTR.ts:173-178 | succeeds exactly when the next token has the type; otherwise "Unexpected <type> at <index>, expected <type>" |
| `PtrParser.ConsumeText` | src/core/PTR.ts:180-187 | on lexed tokens, returns the accumulated text followed by the values of the whole run of non-empty `CHAR`/`ESCAPED_CHAR` tokens, in order; stops at the first other token, or just after it when that is an empty `ESCAPED_CHAR`; never passes the final `END` |
| `PtrParser.ReadText` | src/core/PTR.ts:180-187 | the `while` loop computes the reference `consumeText` |
| `PtrParser.KeyStepShape` | src/core/PTR.ts:194-214 | the preceding `CHAR` becomes the key's prefix exactly when `prefixes` contains it, and otherwise ends the flushed text; the pending text is flushed before the key; an unnamed key takes the next number; a key without a pattern gets the default one |
| `PtrParser.PushKey` | src/core/PTR.ts:194-214 | the key branch updates `path`, `result`, `key` and `i` as the reference step does |
| `PtrParser.PushGroup` | src/core/PTR.ts:228-245 | the group branch updates the state as the reference step does, or raises the `CLOSE` error |
| `PtrParser.Step` | src/core/PTR.ts:189-248 | each round of the loop makes progress |
| `PtrParser.Parser` | src/core/PTR.ts:160-251 | the whole parser returns the reference token list, or the first lexer or parser error |
| `PtrParser.ParseSegmented` | src/core/PTR.ts:189-226 | no literal text in the result is empty, and no two literal texts are adjacent |
| `PtrParser.ParseNumbering` | src/core/PTR.ts:208-238 | unnamed keys are numbered 0, 1, 2, … in order of appearance |
| `PtrParser.ParseKeysOk` | src/core/PTR.ts:207-243 | every key has a pattern, except the `{…}` group with neither name nor pattern, whose name and pattern are both `""`; patterns do not start with `?` and open no group; names are identifiers; modifiers are `*`, `+`, `?` or `""` |
| `PtrParser.ParseStar` | src/core/PTR.ts:173-247 | `parse("*")` fails with "Unexpected MODIFIER at 0, expected END" |
| `PtrCompiler.DefaultOptions` | src/core/Layer.ts:24 | `{}`: not sensitive, not strict, start and end, no delimiter, `endsWith` or prefixes, identity encode |
| `PtrCompiler.AddKeys` | src/core/PTR.ts:276 | present keys keep their old entries and get the new ones after them; absent keys stay absent |
| `PtrCompiler.TokensToRegex` | src/core/PTR.ts:253-324 | the `for` loop builds the reference route text and flags, and pushes exactly the key tokens with a pattern, in order |
| `PtrCompiler.KeysUpToMembers` | src/core/PTR.ts:275-276 | a key is pushed exactly when it is a key token with a non-empty pattern |
| `PtrCompiler.StringToRegex` | src/core/PTR.ts:350-352 | parses, then compiles the tokens; a parse error propagates |
| `PtrCompiler.ArrayToRegex` | src/core/PTR.ts:354-357 | compiles each path in turn, threading the keys, and joins the sources as alternatives inside one non-capturing group; the first error propagates |
| `PtrCompiler.ArrayPartsErr` | src/core/PTR.ts:355 | once one path fails, the whole array fails with that error |
| `PtrCompiler.PathToRegex` | src/core/PTR.ts:359-369 | dispatches strings and arrays |
| `PtrCompiler.TokenCaptures` | src/core/PTR.ts:268-298 | each token's text ends its own reading (no dangling backslash or open parenthesis) and has one group parenthesis for a key with a pattern, none otherwise |
| `PtrCompiler.RouteUpToCaptures` | src/core/PTR.ts:265-300 | after n tokens, the route has as many group parentheses as keys pushed so far |
| `PtrCompiler.EndCaptures` | src/core/PTR.ts:302-321 | the end anchoring adds no group parenthesis |
| `PtrCompiler.RouteCaptures` | src/core/PTR.ts:253-324 | the route has exactly one group parenthesis per pushed key |
| `PtrCompiler.ParsedTokensOk` | src/core/PTR.ts:160-251 | every parsed token satisfies the conditions the counts need |
| `PtrCompiler.StringCaptures` | src/core/PTR.ts:350-352 | `stringToRegex` pushes one key per group parenthesis of its source |
| `PtrCompiler.ArrayPartsCaptures` | src/core/PTR.ts:355 | after n paths, the keys grew by the group parentheses of the parts joined so far |
| `PtrCompiler.ArrayCaptures` | src/core/PTR.ts:354-357 | `arrayToRegex` pushes one key per group parenthesis of its source |
| `PtrCompiler.PathCaptures` | src/core/PTR.ts:359-369 | `pathToRegex` pushes exactly one key per group parenthesis of the expression it returns |
| `PtrCompiler.TokenTidy` | src/core/PTR.ts:268-298 | a token whose pattern is tidy gives tidy text |
| `PtrCompiler.EndTidy` | src/core/PTR.ts:263-321 | the delimiter and `endsWith` classes and the end anchoring are tidy |
| `PtrCompiler.RouteTidy` | src/core/PTR.ts:253-324 | the route of tokens with tidy patterns is tidy |
| `PtrCompiler.StringTidy` | src/core/PTR.ts:350-352 | a string path whose custom patterns are tidy compiles to tidy text |
| `PtrCompiler.ArrayPartsTidy` | src/core/PTR.ts:355 | the alternation of paths with tidy patterns is tidy |
| `PtrCompiler.PathTidySource` | src/core/PTR.ts:354-369 | a path whose custom patterns are tidy compiles to tidy text |
| `PtrCompiler.PathGroups` | src/core/PTR.ts:253-369 | `pathToRegex` pushes at least one key per capturing group the engine sees, and exactly one per group when the custom patterns are tidy, so the i-th group of a match belongs to the i-th key |
| `PtrCompiler.RouteAnchored` | src/core/PTR.ts:265 | the source begins with `^` exactly when `start` |
| `PtrCompiler.RouteEnd` | src/core/PTR.ts:302-306 | with `end`, the route ends in `$` exactly when `endsWith` is unset, otherwise in the lookahead `(?=` `endsWithRe` `)`, and the ending starts with the optional delimiter class exactly when not `strict` |
| `Layer.Decode` | src/core/Layer.ts:83-99 | `undefined` and `""` are returned unchanged; otherwise the result of `decodeURIComponent`, or, when it fails, the error "Failed to decode param '…'" with status and statusCode 400 |
| `Layer.RouteLayer.constructor` | src/core/Layer.ts:23-32 | compiles with `{}` options into fresh keys; the name is the handler's or `<anonymous>`; `params` and `path` are unset; `fastStar` is exactly pathname `"*"`; `fastSlash` is exactly pathname `"/"` with `end === false`; one key per group parenthesis and at least one key per capturing group the engine sees, exactly one when the custom patterns are tidy |
| `Layer.NewRouteLayer` | src/core/Layer.ts:23-32 | the constructor throws the compiler's error when the path does not compile, and the `RegExp` syntax error when the engine rejects the compiled text; otherwise the layer holds the compiled expression and keys, meets `Valid`, and never has `fastStar` |
| `Layer.FastStarUnreachable` | src/core/Layer.ts:24-30 | compiling `"*"` with `{}` fails, so `fastStar` cannot hold on a constructed layer |
| `Layer.RouteLayer.Match` | src/core/Layer.ts:34-76 | the new `params`/`path` and the result are the reference outcome: fast slash gives `{}`/`""`; fast star gives `{'0': decode(path)}`/path; a null path or no match gives false and clears both; otherwise `path = match[0]` and the parameters are filled group by group, and a decoding error is thrown with the parameters filled so far; the `exec` result has one entry per group of the expression |
| `Layer.FillSemantics` | src/core/Layer.ts:65-73 | filling succeeds exactly when every group decodes, and otherwise stops at the first failing group with its error; every key name is present; its value is that of the last group with that name whose decoded value is defined, or `undefined` when there is none, so an undefined value never erases a defined one |
| `Layer.FillErr` | src/core/Layer.ts:65-73 | a decoding error ends the loop: later groups change nothing |
| `Layer.LastDefinedAbsent` | src/core/Layer.ts:65-73 | a name no key carries has no defined value |
| `Layer.RouteLayer.Handle` | src/core/Layer.ts:78-81 | `match` runs twice in sequence; the handler is invoked exactly when the second run returns true; an error from the first run propagates |
| `Layer.RouteLayer.MatchTwice` | src/core/Layer.ts:78-81 | a second `match` on the same input after one that returned leaves the same state and result, so the handler runs exactly when one match succeeds |
| `Response.IsSuccess` | src/core/Response.ts:20-22 | true exactly when `200 <= status < 400` |
| `Response.Initialized` | src/core/Response.ts:24-33 | the existing error, or an empty one (`""`, `""`, no traces) |
| `Response.IssueTraces` | src/core/Response.ts:122-126 | one trace per issue, in order, with its path segments joined by `"."` (`""` when the path is not an array), its message and its code |
| `Response.Response.constructor` | src/core/Response.ts:12-18 | a new response has status `ERR_INTERNAL` and no error |
| `Response.Response.Get` | src/core/Response.ts:35-41 | the envelope's error is null exactly when the status is a success, and a copy of `_error` otherwise; the data is passed through, absent meaning `null` |
| `Response.Response.InitError` | src/core/Response.ts:24-33 | creates the empty error only when none exists; the status is kept |
| `Response.Response.Error` | src/core/Response.ts:43-46 | replaces the error; the status is kept |
| `Response.Response.Trace` | src/core/Response.ts:48-51 | appends one trace to the (initialised) error and changes nothing else |
| `Response.Response.Status` | src/core/Response.ts:53-56 | sets the status; the error is kept |
| `Response.Response.Message` | src/core/Response.ts:58-61 | changes only the message of the (initialised) error |
| `Response.Response.Code` | src/core/Response.ts:63-66 | changes only the code of the (initialised) error |
| `Response.Response.NotFound` | src/core/Response.ts:68-76 | status 404; the error is the given message or "URL Not Found", code `NOT_FOUND`, no traces |
| `Response.Response.BadRequest` | src/core/Response.ts:78-86 | status 400; the error is "Data invalid", code `BAD_REQUEST`, and a copy of the given traces |
| `Response.Response.Internal` | src/core/Response.ts:88-96 | status 500; the error is the given message or "Internal Server Error", code `INTERNAL`, and the traces already there, if any |
| `Response.Response.Forbidden` | src/core/Response.ts:98-106 | status 403; the error is "Forbidden Access", code `FORBIDDEN`, and the given traces |
| `Response.Response.Unauthorized` | src/core/Response.ts:108-116 | status 401; the error is "Unauthorized", code `UNAUTHORIZED`, and the given traces |
| `Response.Response.ParseError` | src/core/Response.ts:118-141 | given issues, a bad request with one trace per issue; otherwise one more trace (code/message or `""`, path `""`) and an internal error that keeps the earlier traces; in both cases the error envelope is returned |
| `Response.Response.Success` | src/core/Response.ts:143-145 | status 200, error kept, envelope with no error and the data |
| `Response.Response.Created` | src/core/Response.ts:147-149 | status 201, error kept, envelope with no error and the data |
| `Response.Response.End` | src/core/Response.ts:151-153 | returns the `get` envelope |

## Left out

- **Regular-expression objects.** `RegExp` paths (`regexToRegex`, and the `RegExp` branches of `pathToRegex`/`arrayToRegex`) are not modelled. Their group-scanning regex belongs to the host engine.
- **The host regex engine.** `new RegExp` is not modelled: a `Regex` is its source text and flags. `.source` is taken to be the text given to the constructor. `exec` is not modelled either. `RouteLayer.Match` receives its result as an input with one entry per group the engine sees (`PtrEscape.Groups`) and the whole match defined. `PtrEscape.Groups` follows the engine's reading of escapes, classes and `(?`, not its full grammar.
- **`Layer.NewRouteLayer`.** Which texts `new RegExp` rejects is a parameter, not the engine's grammar. For `"(*)"` the route `^(*)[\/#\?]?$` would be rejected ("Nothing to repeat"). The parameter is applied to the expression `pathToRegex` returns. For an array, the source also builds a `RegExp` for each element first (`PTR.ts:323`), so an element that the engine rejects on its own, followed by an element that does not compile, throws the `SyntaxError` in the source and the compiler's error in the model.
- **`PtrCompiler.PathCaptures`.** It counts parentheses, not the engine's groups. Those counts differ when a custom pattern leaves a character class open. The engine's count is stated by `PtrCompiler.PathGroups`: at most the number of keys, and equal to it for tidy patterns. For patterns that are not tidy, the model does not say which key a group belongs to.
- **`PtrCompiler.TokenCaptures`, `PtrCompiler.RouteUpToCaptures`, `PtrCompiler.RouteCaptures`, `PtrCompiler.StringCaptures`, `PtrCompiler.ArrayPartsCaptures`, `PtrCompiler.ArrayCaptures`.** These are the steps of `PathCaptures`, with the same parenthesis count. The engine-level steps are the `…Tidy` lemmas with `PtrEscape.TidyGroups`.
- **`Layer.RouteLayer.constructor`.** `Valid` promises a key for every group the engine sees, and one key per group only for tidy patterns. For `([):id(])` the layer has two keys and one group, so `match` sets only `params["0"]`, as the source does.
- **`Layer.RouteLayer.Match`.** It assumes the `exec` result has one entry per group of `PtrEscape.Groups`. `MatchOutcome` and `MatchTwice` need only that the whole match is defined and that no entry lacks a key.
- **`decodeURIComponent`.** Percent-decoding with UTF-8 is taken as an arbitrary partial function given as a parameter. Other exceptions it could throw are not distinguished from `URIError`.
- **The handler call.** `Handle` returns whether the handler would be invoked. The handler's own effects, and `console.log`, are not modelled.
- **`Response` I/O.** `Response.end` and `res.status().json` are Next.js I/O. `End` returns the `get` envelope and the response object is not modelled. The `return this` chaining is sequencing of method calls.
- **Aliasing.** `error(e)` stores the caller's object, and `internal` shares the old traces array. The model stores values, so a later `trace` does not also change the caller's object. The same holds for the `keys` out-array of the compiler: it is threaded as a value, each call returning the extended list.
- **Object shape.** Property order, prototype keys such as `__proto__`, and the `{ ...this._error }` shallow copy are values here. `Copy(None)` stands for `{ ...null }`, the empty object.
- **Enumeration values.** `src/core/enums/status.ts` and `src/core/enums/error-code.ts` are not part of this model. The statuses use the standard HTTP numbers the names denote (200, 201, 400, 401, 403, 404, 500). The error codes are taken as the strings `NOT_FOUND`, `BAD_REQUEST`, `INTERNAL`, `FORBIDDEN` and `UNAUTHORIZED`. The messages come from `src/core/enums/message.ts`.
- **`parseError`'s input.** It is modelled as either an `issues` array or an object with optional `code`/`message`. The `Other` case's `code`/`message` are `None` when absent or falsy. Issue path segments are given as their text. `console.log` is left out.
- **Numbers.** `Numify` works on integers, not floating-point numbers.
- **Unicode case.** `Strify.Ucfirst` and `Strify.ToLower` map ASCII letters only.
- **`strify` base64.** `parseBase64` and `toBase64` wrap Node's `Buffer` and are not modelled.
- **Numbers as `parseString` arguments.** An argument is given as its string form.
- **Other files.** `src/core/Validate.ts`, `src/helpers/validate.ts` and `src/core/Router.ts` are outside this model. They are a wrapper over zod and a dispatch layer over request objects.
- **UTF-16 code units.** The source's `str.length`, `str[i]` and `str.charCodeAt(j)` count UTF-16 code units. The model's strings count Unicode scalar values. So for a character outside the Basic Multilingual Plane, the token indices and error offsets of `PtrLexer.NextToken`, `PtrLexer.Lex` and `PtrLexer.LexShape` differ from the source. For example, for `"😀:"` the source reports "Missing parameter name at 2", and the model reports offset 1. The same applies to the `END` index, which `PtrLexer.LexShape` states as `str.length` in scalar values.
- **`PtrLexer.LexShape`.** It does not state the `END` index as `str.length` in every case. After a dangling backslash the source itself places it at `str.length + 1`.
