/** The string helpers of src/helpers/strify.ts (the base64 helpers are not
    modelled). Case mapping is ASCII only. */
module Strify {

  /** Strict equality of two strings. */
  function Is(value: string, compare: string): (r: bool)
    ensures r <==> value == compare
  {
    value == compare
  }

  /** Membership in a list of strings (`Array.prototype.includes`). */
  function In(value: string, contains: seq<string>): (r: bool)
    ensures r <==> exists k :: 0 <= k < |contains| && contains[k] == value
  {
    value in contains
  }

  /** `find` occurs in `source` starting at position `k`. */
  predicate OccursAt(source: string, find: string, k: int)
  {
    0 <= k && k + |find| <= |source| && source[k..k + |find|] == find
  }

  /** Substring test (`String.prototype.includes`). */
  function Contain(source: string, find: string): (r: bool)
    ensures r <==> exists k: int :: OccursAt(source, find, k)
    decreases |source|
  {
    if |find| > |source| then false
    else if source[..|find|] == find then
      assert OccursAt(source, find, 0);
      true
    else
      var r := Contain(source[1..], find);
      assert forall k: int :: OccursAt(source[1..], find, k) <==> OccursAt(source, find, k + 1);
      assert forall k: int :: OccursAt(source, find, k) ==> k > 0;
      assert forall k: int :: OccursAt(source, find, k) ==> OccursAt(source[1..], find, k - 1);
      r
  }

  /** The empty string occurs in every string. */
  lemma ContainEmpty(source: string)
    ensures Contain(source, "")
  {
    assert OccursAt(source, "", 0);
  }

  // ---------------------------------------------------------------------------
  // parseString: every "%s" is replaced, left to right, by the next argument.

  /** The string of the `i`-th argument, or "" once the arguments run out. */
  function ArgText(args: seq<string>, i: nat): (r: string)
    ensures i < |args| ==> r == args[i]
    ensures i >= |args| ==> r == ""
  {
    if i < |args| then args[i] else ""
  }

  /** The scan of `str.replace(/%s/g, ...)` with the callback's counter at `i`. */
  function Substitute(str: string, args: seq<string>, i: nat): string
    decreases |str|
  {
    if |str| < 2 then str
    else if str[0] == '%' && str[1] == 's' then ArgText(args, i) + Substitute(str[2..], args, i + 1)
    else [str[0]] + Substitute(str[1..], args, i)
  }

  /** `strify.parseString(str, ...args)`; arguments are given as their strings. */
  function ParseString(str: string, args: seq<string>): string
  {
    Substitute(str, args, 0)
  }

  /** The number of "%s" occurrences the scan replaces. */
  function Placeholders(str: string): nat
    decreases |str|
  {
    if |str| < 2 then 0
    else if str[0] == '%' && str[1] == 's' then 1 + Placeholders(str[2..])
    else Placeholders(str[1..])
  }

  /** Text without "%s" comes back unchanged. */
  lemma {:induction false} SubstituteNoPlaceholder(str: string, args: seq<string>, i: nat)
    requires !Contain(str, "%s")
    ensures Substitute(str, args, i) == str
    ensures Placeholders(str) == 0
    decreases |str|
  {
    if |str| >= 2 {
      assert !OccursAt(str, "%s", 0);
      assert str[..2] == [str[0], str[1]];
      NoOccurrenceTail(str, "%s");
      SubstituteNoPlaceholder(str[1..], args, i);
    }
  }

  /** Dropping the first character keeps a text free of `find`. */
  lemma NoOccurrenceTail(a: string, find: string)
    requires |a| > 0 && !Contain(a, find)
    ensures !Contain(a[1..], find)
  {
  }

  /** Text `a` free of "%s" followed by "%s": its first character does not
      start a placeholder, even when `a` is "%". */
  lemma NoPlaceholderHead(a: string, b: string)
    requires |a| > 0 && !Contain(a, "%s")
    ensures var s := a + "%s" + b;
      |s| >= 2 && s[0] == a[0] && !(s[0] == '%' && s[1] == 's') && s[1..] == a[1..] + "%s" + b
  {
    var s := a + "%s" + b;
    if |a| >= 2 {
      assert !OccursAt(a, "%s", 0);
      assert a[..2] == [a[0], a[1]];
      assert s[1] == a[1];
    } else {
      assert s[1] == '%';
    }
    assert s[1..] == a[1..] + "%s" + b;
  }

  /** The first "%s" after text `a` free of "%s" is the one replaced by argument `i`,
      even when `a` ends in '%'. */
  lemma {:induction false} SubstituteFirst(a: string, b: string, args: seq<string>, i: nat)
    requires !Contain(a, "%s")
    ensures Substitute(a + "%s" + b, args, i) == a + ArgText(args, i) + Substitute(b, args, i + 1)
    decreases |a|
  {
    var s := a + "%s" + b;
    if |a| == 0 {
      assert s == "%s" + b;
      assert s[2..] == b;
    } else {
      var t := a[1..] + "%s" + b;
      assert Substitute(s, args, i) == [a[0]] + Substitute(t, args, i) by {
        NoPlaceholderHead(a, b);
      }
      assert !Contain(a[1..], "%s") by {
        NoOccurrenceTail(a, "%s");
      }
      SubstituteFirst(a[1..], b, args, i);
      var x, y := ArgText(args, i), Substitute(b, args, i + 1);
      assert [a[0]] + (a[1..] + x + y) == a + x + y by {
        Assoc([a[0]], a[1..] + x, y);
        Assoc([a[0]], a[1..], x);
        assert [a[0]] + a[1..] == a;
      }
    }
  }

  /** ... and it is the only placeholder before `b`. */
  lemma {:induction false} PlaceholdersFirst(a: string, b: string)
    requires !Contain(a, "%s")
    ensures Placeholders(a + "%s" + b) == 1 + Placeholders(b)
    decreases |a|
  {
    var s := a + "%s" + b;
    if |a| == 0 {
      assert s == "%s" + b;
      assert s[2..] == b;
    } else {
      var t := a[1..] + "%s" + b;
      assert Placeholders(s) == Placeholders(t) by {
        NoPlaceholderHead(a, b);
      }
      assert !Contain(a[1..], "%s") by {
        NoOccurrenceTail(a, "%s");
      }
      PlaceholdersFirst(a[1..], b);
    }
  }

  lemma Assoc(x: string, y: string, z: string)
    ensures x + (y + z) == (x + y) + z
  {
  }

  /** The pieces of a text joined by the separator. */
  function JoinWith(pieces: seq<string>, sep: string): string
    decreases |pieces|
  {
    if |pieces| == 0 then ""
    else if |pieces| == 1 then pieces[0]
    else pieces[0] + sep + JoinWith(pieces[1..], sep)
  }

  /** Joining one more piece adds a separator and the piece. */
  lemma {:induction false} JoinWithSnoc(pieces: seq<string>, p: string, sep: string)
    requires |pieces| > 0
    ensures JoinWith(pieces + [p], sep) == JoinWith(pieces, sep) + sep + p
    decreases |pieces|
  {
    var all := pieces + [p];
    if |pieces| == 1 {
      assert all == [pieces[0], p];
      assert all[1..] == [p];
    } else {
      assert all[1..] == pieces[1..] + [p];
      JoinWithSnoc(pieces[1..], p, sep);
    }
  }

  /** The pieces with argument `i`, `i + 1`, ... put between consecutive pieces. */
  function Interleave(pieces: seq<string>, args: seq<string>, i: nat): string
    decreases |pieces|
  {
    if |pieces| == 0 then ""
    else if |pieces| == 1 then pieces[0]
    else pieces[0] + ArgText(args, i) + Interleave(pieces[1..], args, i + 1)
  }

  /** The k-th "%s" becomes the k-th argument (or "" when there is none), and the
      text around the placeholders is kept in order. */
  lemma {:induction false} ParseStringInterleaves(pieces: seq<string>, args: seq<string>, i: nat)
    requires forall k :: 0 <= k < |pieces| ==> !Contain(pieces[k], "%s")
    ensures Substitute(JoinWith(pieces, "%s"), args, i) == Interleave(pieces, args, i)
    ensures |pieces| > 0 ==> Placeholders(JoinWith(pieces, "%s")) == |pieces| - 1
    decreases |pieces|
  {
    if |pieces| == 1 {
      SubstituteNoPlaceholder(pieces[0], args, i);
    } else if |pieces| > 1 {
      var rest := JoinWith(pieces[1..], "%s");
      assert JoinWith(pieces, "%s") == pieces[0] + "%s" + rest;
      SubstituteFirst(pieces[0], rest, args, i);
      PlaceholdersFirst(pieces[0], rest);
      ParseStringInterleaves(pieces[1..], args, i + 1);
    }
  }

  /** Arguments beyond the number of placeholders are ignored. */
  lemma {:induction false} ParseStringExtraArgs(str: string, args: seq<string>, extra: seq<string>, i: nat)
    requires i + Placeholders(str) <= |args|
    ensures Substitute(str, args + extra, i) == Substitute(str, args, i)
    decreases |str|
  {
    if |str| >= 2 {
      if str[0] == '%' && str[1] == 's' {
        assert ArgText(args + extra, i) == ArgText(args, i);
        ParseStringExtraArgs(str[2..], args, extra, i + 1);
      } else {
        ParseStringExtraArgs(str[1..], args, extra, i);
      }
    }
  }

  // ---------------------------------------------------------------------------
  // ucfirst (ASCII case mapping)

  function UpperChar(c: char): char
  {
    if 'a' <= c <= 'z' then (c as int - 32) as char else c
  }

  function LowerChar(c: char): char
  {
    if 'A' <= c <= 'Z' then (c as int + 32) as char else c
  }

  function ToLower(s: string): (r: string)
    ensures |r| == |s| && forall k :: 0 <= k < |s| ==> r[k] == LowerChar(s[k])
  {
    seq(|s|, k requires 0 <= k < |s| => LowerChar(s[k]))
  }

  /** Upper-cases the first character; the rest is kept, or lower-cased when
      `lowerRemain` is set. The empty string is returned as it is. */
  function Ucfirst(str: string, lowerRemain: bool): (r: string)
    ensures |r| == |str|
    ensures |str| > 0 ==> r[0] == UpperChar(str[0])
    ensures forall k :: 0 < k < |str| ==> r[k] == (if lowerRemain then LowerChar(str[k]) else str[k])
  {
    if |str| == 0 then str
    else
      var first := [UpperChar(str[0])];
      var last := if lowerRemain then ToLower(str[1..]) else str[1..];
      first + last
  }
}
