/** `PTR.escape` (src/core/PTR.ts) and the reading of regular-expression
    source text that the compiler's proofs need: escaped pairs, plain text
    without group parentheses, and the number of capturing groups. */
module PtrEscape {

  /** The characters `PTR.escape` puts a backslash before:
      . + * ? = ^ ! : $ { } ( ) [ ] | / \ */
  predicate IsSpecial(c: char)
  {
    c in ".+*?=^!:${}()[]|/\\"
  }

  /** `PTR.escape(str)`: a backslash before every special character. */
  function Escape(s: string): string
    decreases |s|
  {
    if |s| == 0 then ""
    else (if IsSpecial(s[0]) then ['\\', s[0]] else [s[0]]) + Escape(s[1..])
  }

  /** Drops the backslash of every escaped pair. */
  function Unescape(r: string): string
    decreases |r|
  {
    if |r| == 0 then ""
    else if r[0] == '\\' && |r| >= 2 then [r[1]] + Unescape(r[2..])
    else [r[0]] + Unescape(r[1..])
  }

  /** Text in which every special character is escaped and every backslash
      begins such a pair. */
  predicate IsEscaped(r: string)
    decreases |r|
  {
    if |r| == 0 then true
    else if r[0] == '\\' then |r| >= 2 && IsSpecial(r[1]) && IsEscaped(r[2..])
    else !IsSpecial(r[0]) && IsEscaped(r[1..])
  }

  /** The number of special characters in `s`. */
  function SpecialCount(s: string): nat
    decreases |s|
  {
    if |s| == 0 then 0 else (if IsSpecial(s[0]) then 1 else 0) + SpecialCount(s[1..])
  }

  /** Escaping inserts exactly one backslash per special character, produces
      escaped text, and unescaping gives the input back. */
  lemma {:induction false} EscapeRoundTrip(s: string)
    ensures IsEscaped(Escape(s))
    ensures Unescape(Escape(s)) == s
    ensures |Escape(s)| == |s| + SpecialCount(s)
    decreases |s|
  {
    if |s| > 0 {
      EscapeRoundTrip(s[1..]);
      var e := Escape(s);
      var rest := Escape(s[1..]);
      if IsSpecial(s[0]) {
        assert e == ['\\', s[0]] + rest;
        assert e[2..] == rest;
      } else {
        assert e == [s[0]] + rest;
        assert e[1..] == rest;
      }
      assert s == [s[0]] + s[1..];
    }
  }

  /** Every escaped text is the escape of its unescaping, so `Escape` is a
      bijection between strings and escaped texts. */
  lemma {:induction false} EscapeOfUnescape(r: string)
    requires IsEscaped(r)
    ensures Escape(Unescape(r)) == r
    decreases |r|
  {
    if |r| > 0 {
      if r[0] == '\\' {
        EscapeOfUnescape(r[2..]);
        var u := Unescape(r);
        assert u == [r[1]] + Unescape(r[2..]);
        assert u[0] == r[1] && u[1..] == Unescape(r[2..]);
        assert r == ['\\', r[1]] + r[2..];
      } else {
        EscapeOfUnescape(r[1..]);
        var u := Unescape(r);
        assert u[0] == r[0] && u[1..] == Unescape(r[1..]);
        assert r == [r[0]] + r[1..];
      }
    }
  }

  /** A text without special characters is left unchanged. */
  lemma {:induction false} EscapeIdentity(s: string)
    requires forall k :: 0 <= k < |s| ==> !IsSpecial(s[k])
    ensures Escape(s) == s
    decreases |s|
  {
    if |s| > 0 {
      EscapeIdentity(s[1..]);
      assert s == [s[0]] + s[1..];
    }
  }

  // ---------------------------------------------------------------------------
  // Reading regular-expression source text.

  /** Text read as escaped pairs (`\` and the next character) and single
      characters, with no unescaped parenthesis and no dangling backslash.
      A custom `(...)` pattern accepted by the lexer has this form. */
  predicate Plain(s: string)
    decreases |s|
  {
    if |s| == 0 then true
    else if s[0] == '\\' then |s| >= 2 && Plain(s[2..])
    else s[0] != '(' && s[0] != ')' && Plain(s[1..])
  }

  /** Like `Plain`, but the text may end in a dangling backslash. */
  predicate PlainToEnd(s: string)
    decreases |s|
  {
    if |s| == 0 then true
    else if s[0] == '\\' then |s| == 1 || PlainToEnd(s[2..])
    else s[0] != '(' && s[0] != ')' && PlainToEnd(s[1..])
  }

  /** The number of unescaped `(` not followed by `?`, character classes
      not read.  This counts the capturing groups of a source text with no
      parenthesis inside a character class (`Tidy`); `Groups` is the count
      that reads classes. */
  function Captures(r: string): nat
    decreases |r|
  {
    if |r| == 0 then 0
    else if r[0] == '\\' then (if |r| >= 2 then Captures(r[2..]) else 0)
    else if r[0] == '(' then (if |r| >= 2 && r[1] == '?' then 0 else 1) + Captures(r[1..])
    else Captures(r[1..])
  }

  /** Text whose scan ends exactly at its end: no dangling backslash and no
      unescaped `(` as last character, so what follows cannot change how it
      reads. */
  predicate Whole(r: string)
    decreases |r|
  {
    if |r| == 0 then true
    else if r[0] == '\\' then |r| >= 2 && Whole(r[2..])
    else if r[0] == '(' then |r| >= 2 && Whole(r[1..])
    else Whole(r[1..])
  }

  /** Capturing groups of a concatenation add up when the left part is whole. */
  lemma {:induction false} CapturesAppend(a: string, b: string)
    requires Whole(a)
    ensures Captures(a + b) == Captures(a) + Captures(b)
    ensures Whole(a + b) <==> Whole(b)
    decreases |a|
  {
    if |a| == 0 {
      assert a + b == b;
    } else {
      var ab := a + b;
      assert ab[0] == a[0];
      if a[0] == '\\' {
        assert ab[2..] == a[2..] + b;
        CapturesAppend(a[2..], b);
      } else {
        assert ab[1..] == a[1..] + b;
        if a[0] == '(' {
          assert ab[1] == a[1];
        }
        CapturesAppend(a[1..], b);
      }
    }
  }

  /** Plain text is whole and holds no capturing group. */
  lemma {:induction false} PlainWhole(p: string)
    requires Plain(p)
    ensures Whole(p) && Captures(p) == 0
    decreases |p|
  {
    if |p| > 0 {
      if p[0] == '\\' {
        PlainWhole(p[2..]);
      } else {
        PlainWhole(p[1..]);
      }
    }
  }

  /** Plain texts concatenate to plain text. */
  lemma {:induction false} PlainAppend(a: string, b: string)
    requires Plain(a) && Plain(b)
    ensures Plain(a + b)
    decreases |a|
  {
    if |a| == 0 {
      assert a + b == b;
    } else if a[0] == '\\' {
      assert (a + b)[2..] == a[2..] + b;
      PlainAppend(a[2..], b);
    } else {
      assert (a + b)[1..] == a[1..] + b;
      PlainAppend(a[1..], b);
    }
  }

  /** Escaped text is plain: every parenthesis is escaped. */
  lemma {:induction false} EscapePlain(s: string)
    ensures Plain(Escape(s))
    decreases |s|
  {
    if |s| > 0 {
      EscapePlain(s[1..]);
      var e := Escape(s);
      if IsSpecial(s[0]) {
        assert e[2..] == Escape(s[1..]);
      } else {
        assert e[1..] == Escape(s[1..]);
      }
    }
  }

  // ---------------------------------------------------------------------------
  // Character classes.  Inside `[...]` a backslash still escapes the next
  // character, the first unescaped `]` ends the class, and parentheses are
  // ordinary characters; the compiler never writes a named group `(?<...>`.

  /** The capturing groups a regular-expression engine sees in `r`, read
      from inside a character class when `inClass`: an unescaped `(` outside
      every class and not followed by `?`. */
  function GroupsIn(r: string, inClass: bool): nat
    decreases |r|
  {
    if |r| == 0 then 0
    else if r[0] == '\\' then (if |r| >= 2 then GroupsIn(r[2..], inClass) else 0)
    else if inClass then GroupsIn(r[1..], r[0] != ']')
    else if r[0] == '[' then GroupsIn(r[1..], true)
    else (if r[0] == '(' && !(|r| >= 2 && r[1] == '?') then 1 else 0) + GroupsIn(r[1..], false)
  }

  /** The capturing groups of a source text. */
  function Groups(r: string): nat
  {
    GroupsIn(r, false)
  }

  /** Read from state `inClass`, `r` has no dangling backslash and no
      parenthesis inside a class, and the reading ends in state `after`. */
  predicate TidyIn(r: string, inClass: bool, after: bool)
    decreases |r|
  {
    if |r| == 0 then inClass == after
    else if r[0] == '\\' then |r| >= 2 && TidyIn(r[2..], inClass, after)
    else if inClass then r[0] != '(' && r[0] != ')' && TidyIn(r[1..], r[0] != ']', after)
    else TidyIn(r[1..], r[0] == '[', after)
  }

  /** A source text whose every class is closed and holds no parenthesis. */
  predicate Tidy(r: string)
  {
    TidyIn(r, false, false)
  }

  /** A class can only hide groups: the engine never sees more groups than
      there are unescaped `(` not followed by `?`. */
  lemma {:induction false} GroupsAtMost(r: string, inClass: bool)
    ensures GroupsIn(r, inClass) <= Captures(r)
    decreases |r|
  {
    if |r| > 0 {
      if r[0] == '\\' {
        if |r| >= 2 {
          GroupsAtMost(r[2..], inClass);
        }
      } else {
        GroupsAtMost(r[1..], if inClass then r[0] != ']' else r[0] == '[');
      }
    }
  }

  /** In tidy text the two counts agree. */
  lemma {:induction false} TidyGroups(r: string, inClass: bool, after: bool)
    requires TidyIn(r, inClass, after)
    ensures GroupsIn(r, inClass) == Captures(r)
    decreases |r|
  {
    if |r| > 0 {
      if r[0] == '\\' {
        TidyGroups(r[2..], inClass, after);
      } else {
        TidyGroups(r[1..], if inClass then r[0] != ']' else r[0] == '[', after);
      }
    }
  }

  /** Tidy readings chain over a concatenation. */
  lemma {:induction false} TidyAppend(a: string, b: string, s0: bool, s1: bool, s2: bool)
    requires TidyIn(a, s0, s1) && TidyIn(b, s1, s2)
    ensures TidyIn(a + b, s0, s2)
    decreases |a|
  {
    if |a| == 0 {
      assert a + b == b;
    } else if a[0] == '\\' {
      assert (a + b)[2..] == a[2..] + b;
      TidyAppend(a[2..], b, s0, s1, s2);
    } else {
      assert (a + b)[1..] == a[1..] + b;
      TidyAppend(a[1..], b, if s0 then a[0] != ']' else a[0] == '[', s1, s2);
    }
  }

  /** Escaped text reads the same inside and outside a class and leaves the
      state as it was. */
  lemma {:induction false} EscapedTidy(r: string, inClass: bool)
    requires IsEscaped(r)
    ensures TidyIn(r, inClass, inClass)
    decreases |r|
  {
    if |r| > 0 {
      if r[0] == '\\' {
        EscapedTidy(r[2..], inClass);
      } else {
        EscapedTidy(r[1..], inClass);
      }
    }
  }

  lemma EscapeTidy(s: string, inClass: bool)
    ensures TidyIn(Escape(s), inClass, inClass)
  {
    EscapeRoundTrip(s);
    EscapedTidy(Escape(s), inClass);
  }

  /** The groups the compiler writes for the keys of `([):id(])`: the first
      pattern `[` opens a class that the engine closes only at the second
      pattern's `]`, so two keys face one capturing group, while the
      parenthesis count is two. */
  lemma ClassHidesGroup()
    ensures Captures("([)(])") == 2 && Groups("([)(])") == 1 && !Tidy("([)(])")
  {
  }
}
