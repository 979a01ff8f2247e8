/**
 * String helpers shared by the components: JavaScript's whitespace class (the `\s` of a regular
 * expression, which is also what `String.prototype.trim` strips), `trim`, the whitespace-run
 * replacement `s.replace(/\s+/g, "_")`, and the decimal rendering of a natural number in a
 * template string.
 */
module Strings {

  /** The characters JavaScript counts as white space or line terminators. */
  predicate IsSpace(c: char) {
    || c == ' ' || c == '\t' || c == '\n' || c == '\r'
    || c == '\U{000B}' || c == '\U{000C}' || c == '\U{00A0}' || c == '\U{1680}'
    || ('\U{2000}' <= c <= '\U{200A}')
    || c == '\U{2028}' || c == '\U{2029}' || c == '\U{202F}' || c == '\U{205F}'
    || c == '\U{3000}' || c == '\U{FEFF}'
  }

  predicate NoSpaces(s: string) {
    forall i :: 0 <= i < |s| ==> !IsSpace(s[i])
  }

  predicate AllSpaces(s: string) {
    forall i :: 0 <= i < |s| ==> IsSpace(s[i])
  }

  /** Drops the leading white space: the result is the longest suffix that does not start with it. */
  function TrimStart(s: string): (r: string)
    ensures |r| <= |s| && r == s[|s| - |r|..]
    ensures r == [] || !IsSpace(r[0])
  {
    if s != [] && IsSpace(s[0]) then
      var r := TrimStart(s[1..]);
      assert s[1..][|s| - 1 - |r|..] == s[|s| - |r|..];
      r
    else
      s
  }

  /** What `TrimStart` drops is white space only. */
  lemma {:induction false} TrimStartDropsSpaces(s: string)
    ensures AllSpaces(s[..|s| - |TrimStart(s)|])
    decreases |s|
  {
    if s != [] && IsSpace(s[0]) {
      TrimStartDropsSpaces(s[1..]);
      TrimStartStep(s, TrimStart(s[1..]));
    }
  }

  /** A white-space head in front of a white-space run is still a white-space run. */
  lemma TrimStartStep(s: string, r: string)
    requires s != [] && IsSpace(s[0])
    requires |r| <= |s| - 1 && AllSpaces(s[1..][..|s| - 1 - |r|])
    ensures AllSpaces(s[..|s| - |r|])
  {
    var p, q := s[..|s| - |r|], s[1..][..|s| - 1 - |r|];
    forall i | 0 <= i < |p| ensures IsSpace(p[i]) {
      if i > 0 {
        assert p[i] == q[i - 1];
      }
    }
  }

  /** Drops the trailing white space: the result is the longest prefix that does not end with it. */
  function TrimEnd(s: string): (r: string)
    ensures |r| <= |s| && r == s[..|r|]
    ensures r == [] || !IsSpace(r[|r| - 1])
  {
    if s != [] && IsSpace(s[|s| - 1]) then
      var r := TrimEnd(s[..|s| - 1]);
      assert s[..|s| - 1][..|r|] == s[..|r|];
      r
    else
      s
  }

  /** What `TrimEnd` drops is white space only. */
  lemma {:induction false} TrimEndDropsSpaces(s: string)
    ensures AllSpaces(s[|TrimEnd(s)|..])
    decreases |s|
  {
    if s != [] && IsSpace(s[|s| - 1]) {
      var r := TrimEnd(s[..|s| - 1]);
      TrimEndDropsSpaces(s[..|s| - 1]);
      var p, q := s[|r|..], s[..|s| - 1][|r|..];
      forall i | 0 <= i < |p| ensures IsSpace(p[i]) {
        if i < |q| {
          assert p[i] == q[i];
        }
      }
    }
  }

  /** JavaScript's `s.trim()`. */
  function Trim(s: string): string {
    TrimEnd(TrimStart(s))
  }

  /** `s.trim()` is empty (falsy) exactly when `s` is nothing but white space. */
  lemma TrimEmptyIff(s: string)
    ensures Trim(s) == [] <==> AllSpaces(s)
  {
    var t := TrimStart(s);
    TrimStartDropsSpaces(s);
    TrimEndDropsSpaces(t);
    assert t == [] || t[0] == s[|s| - |t|];
    if Trim(s) == [] {
      assert AllSpaces(t[0..]);
      assert t == [];
      assert s[..|s|] == s;
    }
  }

  /** The result of `Trim` has no white space at either end. */
  lemma TrimHasNoOuterSpace(s: string)
    ensures Trim(s) == [] || (!IsSpace(Trim(s)[0]) && !IsSpace(Trim(s)[|Trim(s)| - 1]))
    ensures Trim(s) == s <==> (s == [] || (!IsSpace(s[0]) && !IsSpace(s[|s| - 1])))
  {
    var t := TrimStart(s);
    var r := TrimEnd(t);
    if r != [] {
      assert r[0] == t[0];
    }
  }

  /** Drops every leading white-space character (the rest of a run that `CollapseSpaces` replaces). */
  function DropSpaces(s: string): (r: string)
    ensures |r| <= |s| && r == s[|s| - |r|..]
    ensures r == [] || !IsSpace(r[0])
  {
    TrimStart(s)
  }

  /** `s.replace(/\s+/g, "_")`: every maximal run of white space becomes one underscore. */
  function CollapseSpaces(s: string): (r: string)
    decreases |s|
  {
    if s == [] then []
    else if IsSpace(s[0]) then "_" + CollapseSpaces(DropSpaces(s[1..]))
    else [s[0]] + CollapseSpaces(s[1..])
  }

  lemma NoSpacesCons(c: char, s: string)
    requires !IsSpace(c) && NoSpaces(s)
    ensures NoSpaces([c] + s)
  {
    forall i | 0 <= i < |[c] + s| ensures !IsSpace(([c] + s)[i]) {
      if i > 0 {
        assert ([c] + s)[i] == s[i - 1];
      }
    }
  }

  /** The replacement leaves no white space behind. */
  lemma {:induction false} CollapseSpacesNoSpaces(s: string)
    ensures NoSpaces(CollapseSpaces(s))
    decreases |s|
  {
    if s == [] {
    } else if IsSpace(s[0]) {
      var rest := CollapseSpaces(DropSpaces(s[1..]));
      CollapseSpacesNoSpaces(DropSpaces(s[1..]));
      NoSpacesCons('_', rest);
    } else {
      var rest := CollapseSpaces(s[1..]);
      CollapseSpacesNoSpaces(s[1..]);
      NoSpacesCons(s[0], rest);
    }
  }

  /** The replacement never lengthens the string. */
  lemma {:induction false} CollapseSpacesShorter(s: string)
    ensures |CollapseSpaces(s)| <= |s|
    decreases |s|
  {
    if s == [] {
    } else if IsSpace(s[0]) {
      CollapseSpacesShorter(DropSpaces(s[1..]));
    } else {
      CollapseSpacesShorter(s[1..]);
    }
  }

  /** A string without white space is left as it is. */
  lemma {:induction false} CollapseSpacesKeeps(s: string)
    requires NoSpaces(s)
    ensures CollapseSpaces(s) == s
    decreases |s|
  {
    if s != [] {
      assert !IsSpace(s[0]);
      assert NoSpaces(s[1..]) by {
        forall i | 0 <= i < |s[1..]| ensures !IsSpace(s[1..][i]) { assert s[1..][i] == s[i + 1]; }
      }
      CollapseSpacesKeeps(s[1..]);
    }
  }

  /** Replacing the runs twice is the same as replacing them once. */
  lemma CollapseSpacesIdempotent(s: string)
    ensures CollapseSpaces(CollapseSpaces(s)) == CollapseSpaces(s)
  {
    CollapseSpacesNoSpaces(s);
    CollapseSpacesKeeps(CollapseSpaces(s));
  }

  /** Dropping the leading white space of a string that is not all white space only reaches into
      that string: whatever follows it is kept. */
  lemma {:induction false} DropSpacesAppend(u: string, t: string)
    requires !AllSpaces(u)
    ensures DropSpaces(u + t) == DropSpaces(u) + t
    decreases |u|
  {
    assert (u + t)[0] == u[0];
    if IsSpace(u[0]) {
      var i :| 0 <= i < |u| && !IsSpace(u[i]);
      assert !IsSpace(u[1..][i - 1]);
      assert (u + t)[1..] == u[1..] + t;
      DropSpacesAppend(u[1..], t);
    }
  }

  /** A run of white space in front of a string that does not start with white space is dropped
      whole. */
  lemma {:induction false} DropSpacesRun(w: string, t: string)
    requires AllSpaces(w) && (t == [] || !IsSpace(t[0]))
    ensures DropSpaces(w + t) == t
    decreases |w|
  {
    if w == [] {
      assert w + t == t;
    } else {
      assert (w + t)[0] == w[0];
      assert (w + t)[1..] == w[1..] + t;
      DropSpacesRun(w[1..], t);
    }
  }

  /** A string ending in a character that is not white space keeps that character when its
      leading white space is dropped. */
  lemma {:induction false} DropSpacesKeepsLast(u: string)
    requires u != [] && !IsSpace(u[|u| - 1])
    ensures DropSpaces(u) != [] && !IsSpace(DropSpaces(u)[|DropSpaces(u)| - 1])
  {
    var d := DropSpaces(u);
    TrimStartDropsSpaces(u);
    assert d[|d| - 1] == u[|u| - 1];
  }

  /** A maximal run of white space at the front becomes exactly one underscore. */
  lemma {:induction false} CollapseSpacesRun(w: string, t: string)
    requires w != [] && AllSpaces(w) && (t == [] || !IsSpace(t[0]))
    ensures CollapseSpaces(w + t) == "_" + CollapseSpaces(t)
  {
    assert (w + t)[0] == w[0];
    assert (w + t)[1..] == w[1..] + t;
    DropSpacesRun(w[1..], t);
  }

  /** A string that starts with a white-space run not reaching its end keeps the rest after it
      when something is appended. */
  lemma {:induction false} CollapseSpacesRunHead(a: string, t: string)
    requires a != [] && IsSpace(a[0]) && !AllSpaces(a[1..])
    ensures CollapseSpaces(a + t) == "_" + CollapseSpaces(DropSpaces(a[1..]) + t)
  {
    var c, u := a[0], a[1..];
    assert a + t == [c] + (u + t);
    CollapseSpacesSpaceCons(c, u + t);
    DropSpacesAppend(u, t);
  }

  /** The step of `CollapseSpacesAppend` for a string that starts with a white-space run. */
  lemma {:induction false} CollapseSpacesAppendRun(a: string, t: string)
    requires |a| > 1 && IsSpace(a[0]) && !IsSpace(a[|a| - 1])
    requires CollapseSpaces(DropSpaces(a[1..]) + t) == CollapseSpaces(DropSpaces(a[1..])) + CollapseSpaces(t)
    ensures CollapseSpaces(a + t) == CollapseSpaces(a) + CollapseSpaces(t)
  {
    assert !AllSpaces(a[1..]) by {
      assert !IsSpace(a[1..][|a| - 2]);
    }
    CollapseSpacesRunHead(a, t);
    CollapseSpacesSpaceHead(a);
  }

  /** The step of `CollapseSpacesAppend` for a string that starts with a character that is not
      white space. */
  lemma CollapseSpacesAppendChar(a: string, t: string)
    requires a != [] && !IsSpace(a[0])
    requires CollapseSpaces(a[1..] + t) == CollapseSpaces(a[1..]) + CollapseSpaces(t)
    ensures CollapseSpaces(a + t) == CollapseSpaces(a) + CollapseSpaces(t)
  {
    var at := a + t;
    assert at[0] == a[0] && at[1..] == a[1..] + t;
    CollapseSpacesCharHead(at);
    CollapseSpacesCharHead(a);
    ConcatAssoc([a[0]], CollapseSpaces(a[1..]), CollapseSpaces(t));
  }

  /** One unfolding of `CollapseSpaces` at a white-space character put in front. */
  lemma CollapseSpacesSpaceCons(c: char, r: string)
    requires IsSpace(c)
    ensures CollapseSpaces([c] + r) == "_" + CollapseSpaces(DropSpaces(r))
  {
    assert ([c] + r)[0] == c && ([c] + r)[1..] == r;
  }

  /** One unfolding of `CollapseSpaces` at a leading white-space character. */
  lemma CollapseSpacesSpaceHead(s: string)
    requires s != [] && IsSpace(s[0])
    ensures CollapseSpaces(s) == "_" + CollapseSpaces(DropSpaces(s[1..]))
  {
  }

  /** One unfolding of `CollapseSpaces` at a leading character that is not white space. */
  lemma CollapseSpacesCharHead(s: string)
    requires s != [] && !IsSpace(s[0])
    ensures CollapseSpaces(s) == [s[0]] + CollapseSpaces(s[1..])
  {
  }

  /** The replacement works run by run: cutting a string after a character that is not white
      space cuts its replacement at the same place. */
  lemma {:induction false} CollapseSpacesAppend(a: string, t: string)
    requires a == [] || !IsSpace(a[|a| - 1])
    ensures CollapseSpaces(a + t) == CollapseSpaces(a) + CollapseSpaces(t)
    decreases |a|
  {
    if a == [] {
      assert a + t == t;
    } else if IsSpace(a[0]) {
      DropSpacesKeepsLast(a[1..]);
      CollapseSpacesAppend(DropSpaces(a[1..]), t);
      CollapseSpacesAppendRun(a, t);
    } else {
      CollapseSpacesAppend(a[1..], t);
      CollapseSpacesAppendChar(a, t);
    }
  }

  /** Each maximal white-space run becomes one underscore and the characters around it are
      replaced independently, in their order. */
  lemma {:induction false} CollapseSpacesSplit(a: string, w: string, b: string)
    requires a == [] || !IsSpace(a[|a| - 1])
    requires w != [] && AllSpaces(w)
    requires b == [] || !IsSpace(b[0])
    ensures CollapseSpaces(a + w + b) == CollapseSpaces(a) + "_" + CollapseSpaces(b)
  {
    ConcatAssoc(a, w, b);
    CollapseSpacesAppend(a, w + b);
    CollapseSpacesRun(w, b);
    ConcatAssoc(CollapseSpaces(a), "_", CollapseSpaces(b));
  }

  lemma ConcatAssoc(x: string, y: string, z: string)
    ensures x + y + z == x + (y + z)
  {
  }

  /** A prefix without white space is copied unchanged in front of the rest's replacement. */
  lemma {:induction false} CollapseSpacesKeepsPrefix(s: string, t: string)
    requires NoSpaces(s)
    ensures CollapseSpaces(s + t) == s + CollapseSpaces(t)
  {
    if s == [] {
      assert s + t == t;
    } else {
      CollapseSpacesAppend(s, t);
      CollapseSpacesKeeps(s);
    }
  }

  /** The decimal digit of `d`: the character `d` places after '0'. */
  function Digit(d: nat): (c: char)
    requires d < 10
    ensures '0' <= c <= '9' && c as int - '0' as int == d
  {
    "0123456789"[d]
  }

  /** The decimal text of `n` (a number in a template string). */
  function NatToString(n: nat): (r: string)
    ensures |r| > 0 && r[|r| - 1] == Digit(n % 10)
    ensures forall i :: 0 <= i < |r| ==> '0' <= r[i] <= '9'
    ensures n >= 10 <==> |r| > 1
  {
    if n < 10 then [Digit(n)] else NatToString(n / 10) + [Digit(n % 10)]
  }

  /** Distinct numbers have distinct decimal texts, so a label built from a count determines it. */
  lemma {:induction false} NatToStringInjective(m: nat, n: nat)
    requires NatToString(m) == NatToString(n)
    ensures m == n
  {
    var a, b := NatToString(m), NatToString(n);
    assert Digit(m % 10) == Digit(n % 10) by {
      assert a[|a| - 1] == b[|b| - 1];
    }
    if m >= 10 && n >= 10 {
      assert a[..|a| - 1] == NatToString(m / 10);
      assert b[..|b| - 1] == NatToString(n / 10);
      NatToStringInjective(m / 10, n / 10);
    }
  }
}
