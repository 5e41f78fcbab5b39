/** The quoting of `&` that the launcher applies to the target on Windows, where
    `cmd` would otherwise read a bare `&` as a command separator. */
module Escaping {

  /** What one character of the target becomes: `&` turns into `"&"`, every other
      character stays as it is. */
  function QuoteChar(c: char): string
  {
    if c == '&' then "\"&\"" else [c]
  }

  /** The number of occurrences of `c` in `s`. */
  function Count(c: char, s: string): nat
  {
    if s == [] then 0 else (if s[0] == c then 1 else 0) + Count(c, s[1..])
  }

  /** Every `&` of the target replaced by `"&"`; no other character changes. */
  function EscapeAmpersands(s: string): (r: string)
    ensures |r| == |s| + 2 * Count('&', s)
    ensures Count('&', r) == Count('&', s)
    ensures '&' !in s ==> r == s
    ensures r == [] <==> s == []
  {
    if s == [] then []
    else
      var rest := EscapeAmpersands(s[1..]);
      CountAppend('&', QuoteChar(s[0]), rest);
      assert Count('&', QuoteChar(s[0])) == (if s[0] == '&' then 1 else 0) by {
        if s[0] == '&' {
          var q := QuoteChar(s[0]);
          assert q[1..][1..] == ['"'] && q[1..][1..][1..] == [];
          assert Count('&', q[1..][1..]) == 0;
          assert Count('&', q[1..]) == 1;
        }
      }
      QuoteChar(s[0]) + rest
  }

  lemma {:induction false} CountAppend(c: char, a: string, b: string)
    ensures Count(c, a + b) == Count(c, a) + Count(c, b)
  {
    if a != [] {
      assert (a + b)[0] == a[0] && (a + b)[1..] == a[1..] + b;
      CountAppend(c, a[1..], b);
      assert Count(c, a + b) == (if a[0] == c then 1 else 0) + Count(c, a[1..] + b);
    } else {
      assert a + b == b;
    }
  }

  /** Escaping works character by character, so it distributes over concatenation. */
  lemma {:induction false} EscapeAppend(a: string, b: string)
    ensures EscapeAmpersands(a + b) == EscapeAmpersands(a) + EscapeAmpersands(b)
  {
    if a != [] {
      assert (a + b)[0] == a[0] && (a + b)[1..] == a[1..] + b;
      EscapeAppend(a[1..], b);
    } else {
      assert a + b == b;
    }
  }

  /** An escaped string never begins with a bare `&`. */
  lemma EscapedHead(s: string)
    requires s != []
    ensures EscapeAmpersands(s)[0] != '&'
  {
  }

  /** In the escaped target every `&` stands between two double quotes, so none
      of them can separate commands. */
  lemma {:induction false} AmpersandsQuoted(s: string, i: nat)
    requires i < |EscapeAmpersands(s)| && EscapeAmpersands(s)[i] == '&'
    ensures 0 < i < |EscapeAmpersands(s)| - 1
    ensures EscapeAmpersands(s)[i - 1] == '"' && EscapeAmpersands(s)[i + 1] == '"'
  {
    var head := QuoteChar(s[0]);
    var r := EscapeAmpersands(s);
    assert r == head + EscapeAmpersands(s[1..]);
    if i >= |head| {
      var j := i - |head|;
      AmpersandsQuoted(s[1..], j);
    }
  }

  /** Removes the quotes around each `"&"`, scanning from the left. */
  function Unquote(r: string): string
  {
    if |r| >= 3 && r[0] == '"' && r[1] == '&' && r[2] == '"' then "&" + Unquote(r[3..])
    else if r == [] then []
    else [r[0]] + Unquote(r[1..])
  }

  /** Escaping loses nothing: removing the inserted quotes gives back the target,
      so two different targets never reach `cmd` as the same argument. */
  lemma {:induction false} UnquoteEscape(s: string)
    ensures Unquote(EscapeAmpersands(s)) == s
  {
    if s != [] {
      var rest := EscapeAmpersands(s[1..]);
      UnquoteEscape(s[1..]);
      if s[0] == '&' {
        var r := "\"&\"" + rest;
        assert EscapeAmpersands(s) == r;
        assert r[0] == '"' && r[1] == '&' && r[2] == '"' && r[3..] == rest;
      } else {
        var r := [s[0]] + rest;
        assert EscapeAmpersands(s) == r;
        if rest != [] {
          EscapedHead(s[1..]);
          assert r[1] == rest[0];
        }
        assert r[1..] == rest;
      }
    }
  }

  /** The example `a&b` becomes `a"&"b`. */
  lemma EscapeExample()
    ensures EscapeAmpersands("a&b") == "a\"&\"b"
  {
  }
}
