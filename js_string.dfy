/**
 * The few `String.prototype` operations the configuration files apply to
 * environment values, with their ECMAScript meaning: `split` on a
 * one-character separator, `trim`, `replace` with a string pattern (first
 * occurrence only) and the two anchored regular-expression replaces that turn
 * a site URL into a bare domain.
 */
module JsString {

  /** The inverse of `split`: the pieces glued back with the separator. */
  function Join(parts: seq<string>, sep: char): string {
    if |parts| == 0 then ""
    else if |parts| == 1 then parts[0]
    else parts[0] + [sep] + Join(parts[1..], sep)
  }

  /**
   * `s.split(sep)`. There is always at least one piece (`"".split(",")` is
   * `[""]`), no piece contains the separator, and gluing the pieces back gives
   * `s` again.
   */
  function Split(s: string, sep: char): (r: seq<string>)
    ensures |r| >= 1
    ensures Join(r, sep) == s
    ensures forall i :: 0 <= i < |r| ==> sep !in r[i]
  {
    if |s| == 0 then [""]
    else if s[0] == sep then [""] + Split(s[1..], sep)
    else
      var rest := Split(s[1..], sep);
      [[s[0]] + rest[0]] + rest[1..]
  }

  /** `split` undoes `Join` whenever no piece holds the separator. */
  lemma {:induction false} SplitJoin(parts: seq<string>, sep: char)
    requires |parts| >= 1
    requires forall i :: 0 <= i < |parts| ==> sep !in parts[i]
    ensures Split(Join(parts, sep), sep) == parts
  {
    if |parts| == 1 {
      SplitOfPiece(parts[0], sep);
    } else {
      var tail := parts[1..];
      assert forall i :: 0 <= i < |tail| ==> sep !in tail[i] by {
        forall i | 0 <= i < |tail| ensures sep !in tail[i] { assert tail[i] == parts[i + 1]; }
      }
      SplitJoin(tail, sep);
      SplitAfterPiece(parts[0], Join(tail, sep), sep);
      assert parts == [parts[0]] + tail;
    }
  }

  /** A piece without separator splits into itself. */
  lemma {:induction false} SplitOfPiece(p: string, sep: char)
    requires sep !in p
    ensures Split(p, sep) == [p]
  {
    if |p| > 0 {
      assert sep !in p[1..];
      SplitOfPiece(p[1..], sep);
    }
  }

  /** Splitting `p + sep + rest` where `p` holds no separator. */
  lemma {:induction false} SplitAfterPiece(p: string, rest: string, sep: char)
    requires sep !in p
    ensures Split(p + [sep] + rest, sep) == [p] + Split(rest, sep)
  {
    if |p| == 0 {
      assert p + [sep] + rest == [sep] + rest;
      assert ([sep] + rest)[1..] == rest;
    } else {
      var s := p + [sep] + rest;
      assert s[0] == p[0];
      assert s[1..] == p[1..] + [sep] + rest;
      assert sep !in p[1..];
      SplitAfterPiece(p[1..], rest, sep);
      assert [p[0]] + p[1..] == p;
    }
  }

  /**
   * The characters `trim` removes: ECMAScript's WhiteSpace (tab, vertical tab,
   * form feed, space, no-break space, the byte order mark and the Unicode
   * space separators) and LineTerminator (LF, CR, U+2028, U+2029).
   */
  predicate IsWhiteSpace(c: char) {
    c == '\t' || c == '\n' || c == '\U{000B}' || c == '\U{000C}' || c == '\r' || c == ' '
    || c == '\U{00A0}' || c == '\U{1680}' || ('\U{2000}' <= c <= '\U{200A}')
    || c == '\U{2028}' || c == '\U{2029}' || c == '\U{202F}' || c == '\U{205F}'
    || c == '\U{3000}' || c == '\U{FEFF}'
  }

  /** `s` with its leading white space removed. */
  function TrimStart(s: string): (r: string)
    ensures |r| <= |s| && r == s[|s| - |r|..]
    ensures forall k :: 0 <= k < |s| - |r| ==> IsWhiteSpace(s[k])
    ensures r != [] ==> !IsWhiteSpace(r[0])
  {
    if |s| > 0 && IsWhiteSpace(s[0]) then TrimStart(s[1..]) else s
  }

  /** `s` with its trailing white space removed. */
  function TrimEnd(s: string): (r: string)
    ensures |r| <= |s| && r == s[..|r|]
    ensures forall k :: |r| <= k < |s| ==> IsWhiteSpace(s[k])
    ensures r != [] ==> !IsWhiteSpace(r[|r| - 1])
  {
    if |s| > 0 && IsWhiteSpace(s[|s| - 1]) then TrimEnd(s[..|s| - 1]) else s
  }

  /**
   * `s.trim()`: the infix of `s` that neither begins nor ends with white
   * space, all of what lies around it being white space.
   */
  function Trim(s: string): (r: string)
    ensures |s| - |TrimStart(s)| + |r| <= |s|
    ensures r == s[|s| - |TrimStart(s)|..|s| - |TrimStart(s)| + |r|]
    ensures forall k :: |s| - |TrimStart(s)| + |r| <= k < |s| ==> IsWhiteSpace(s[k])
    ensures r != [] ==> !IsWhiteSpace(r[0]) && !IsWhiteSpace(r[|r| - 1])
  {
    var t := TrimStart(s);
    var r := TrimEnd(t);
    TrimInfix(s, t, r);
    r
  }

  /** Trimming keeps characters from `s` only. */
  lemma TrimWithin(s: string)
    ensures forall d :: d in Trim(s) ==> d in s
  {
    var r := Trim(s);
    var i := |s| - |TrimStart(s)|;
    forall d | d in r ensures d in s {
      var k :| 0 <= k < |r| && r[k] == d;
      assert r[k] == s[i + k];
    }
  }

  lemma TrimInfix(s: string, t: string, r: string)
    requires |t| <= |s| && t == s[|s| - |t|..]
    requires |r| <= |t| && r == t[..|r|]
    requires forall k :: |r| <= k < |t| ==> IsWhiteSpace(t[k])
    ensures r == s[|s| - |t|..|s| - |t| + |r|]
    ensures forall k :: |s| - |t| + |r| <= k < |s| ==> IsWhiteSpace(s[k])
  {
    var i := |s| - |t|;
    forall k | i + |r| <= k < |s| ensures IsWhiteSpace(s[k]) {
      assert s[k] == t[k - i];
    }
  }

  /** Text padded with white space trims back to itself. */
  lemma {:induction false} TrimPadded(pre: string, x: string, post: string)
    requires forall k :: 0 <= k < |pre| ==> IsWhiteSpace(pre[k])
    requires forall k :: 0 <= k < |post| ==> IsWhiteSpace(post[k])
    requires x != [] ==> !IsWhiteSpace(x[0]) && !IsWhiteSpace(x[|x| - 1])
    ensures Trim(pre + x + post) == x
  {
    if x == [] {
      var s := pre + post;
      assert pre + x + post == s;
      assert forall k :: 0 <= k < |s| ==> IsWhiteSpace(s[k]) by {
        forall k | 0 <= k < |s| ensures IsWhiteSpace(s[k]) {
          if k < |pre| { assert s[k] == pre[k]; } else { assert s[k] == post[k - |pre|]; }
        }
      }
      TrimStartAllWhite(s);
    } else {
      TrimStartPadded(pre, x + post);
      assert pre + (x + post) == pre + x + post;
      TrimEndPadded(x, post);
    }
  }

  lemma {:induction false} TrimStartAllWhite(s: string)
    requires forall k :: 0 <= k < |s| ==> IsWhiteSpace(s[k])
    ensures TrimStart(s) == ""
  {
    if |s| > 0 {
      assert IsWhiteSpace(s[0]);
      TrimStartAllWhite(s[1..]);
    }
  }

  lemma {:induction false} TrimStartPadded(pre: string, rest: string)
    requires forall k :: 0 <= k < |pre| ==> IsWhiteSpace(pre[k])
    requires rest != [] ==> !IsWhiteSpace(rest[0])
    ensures TrimStart(pre + rest) == rest
  {
    if |pre| > 0 {
      assert (pre + rest)[1..] == pre[1..] + rest;
      TrimStartPadded(pre[1..], rest);
    } else {
      assert pre + rest == rest;
    }
  }

  lemma {:induction false} TrimEndPadded(x: string, post: string)
    requires forall k :: 0 <= k < |post| ==> IsWhiteSpace(post[k])
    requires x != [] ==> !IsWhiteSpace(x[|x| - 1])
    ensures TrimEnd(x + post) == x
  {
    if |post| > 0 {
      var post' := post[..|post| - 1];
      assert (x + post)[..|x + post| - 1] == x + post';
      TrimEndPadded(x, post');
    } else {
      assert x + post == x;
    }
  }

  /** The position of the first `c` in `s`. */
  function IndexOf(s: string, c: char): (i: nat)
    requires c in s
    ensures i < |s| && s[i] == c && c !in s[..i]
  {
    if s[0] == c then 0
    else
      assert s == [s[0]] + s[1..];
      var i := 1 + IndexOf(s[1..], c);
      assert s[..i] == [s[0]] + s[1..][..i - 1];
      i
  }

  /**
   * `s.replace(c, "")` with a one-character string pattern: only the FIRST
   * occurrence of `c` is removed; without one, `s` is returned unchanged.
   */
  function RemoveFirst(s: string, c: char): (r: string)
    ensures c !in s ==> r == s
    ensures c in s ==> |r| == |s| - 1 && multiset(r) + multiset{c} == multiset(s)
    ensures c in s ==> forall k :: 0 <= k < |r| ==> r[k] == if k < IndexOf(s, c) then s[k] else s[k + 1]
  {
    if c in s then
      var i := IndexOf(s, c);
      assert s == s[..i] + [s[i]] + s[i + 1..];
      s[..i] + s[i + 1..]
    else s
  }

  /** Removing a character keeps every other character from `s` only. */
  lemma RemoveFirstWithin(s: string, c: char)
    ensures forall d :: d in RemoveFirst(s, c) ==> d in s
  {
    forall d | d in RemoveFirst(s, c) ensures d in s {
      assert multiset(RemoveFirst(s, c))[d] > 0;
    }
  }

  /** A leading occurrence is the one removed. */
  lemma RemoveFirstLeading(s: string, c: char)
    requires |s| > 0 && s[0] == c
    ensures RemoveFirst(s, c) == s[1..]
  {
    assert IndexOf(s, c) == 0;
    assert s[..0] + s[1..] == s[1..];
  }

  /** `s.replace(/^https?:\/\//, "")`: one leading `http://` or `https://` removed. */
  function StripScheme(s: string): (r: string)
    ensures |r| <= |s| && s[|s| - |r|..] == r
    ensures "https://" <= s ==> s == "https://" + r
    ensures !("https://" <= s) && "http://" <= s ==> s == "http://" + r
    ensures !("https://" <= s) && !("http://" <= s) ==> r == s
  {
    if "https://" <= s then s[8..] else if "http://" <= s then s[7..] else s
  }

  /** `s.replace(/\/$/, "")`: one trailing `/` removed (`$` without the m flag is end of input). */
  function StripTrailingSlash(s: string): (r: string)
    ensures r <= s && |s| <= |r| + 1
    ensures |r| < |s| <==> |s| > 0 && s[|s| - 1] == '/'
  {
    if |s| > 0 && s[|s| - 1] == '/' then s[..|s| - 1] else s
  }

  /** The two replaces in the order the configuration applies them. */
  function Domain(url: string): string {
    StripTrailingSlash(StripScheme(url))
  }

  /** A URL made of a scheme, a host part and a final slash gives back the host part. */
  lemma DomainOfUrl(scheme: string, host: string)
    requires scheme == "http://" || scheme == "https://"
    ensures Domain(scheme + host + "/") == host
    ensures (host == [] || host[|host| - 1] != '/') ==> Domain(scheme + host) == host
  {
    assert (scheme + host + "/")[|scheme|..] == host + "/";
    assert (scheme + host)[|scheme|..] == host;
    assert scheme <= scheme + host + "/" && scheme <= scheme + host;
    if scheme == "http://" {
      assert !("https://" <= scheme + host + "/") by { assert (scheme + host + "/")[4] == ':'; }
      assert !("https://" <= scheme + host) by { assert (scheme + host)[4] == ':'; }
    }
    assert (host + "/")[..|host|] == host;
  }

  /** Without a scheme and a trailing slash, the value passes through unchanged. */
  lemma DomainOfBareHost(s: string)
    requires !("http://" <= s) && !("https://" <= s)
    requires s == [] || s[|s| - 1] != '/'
    ensures Domain(s) == s
  {
  }

  /** Only ONE trailing slash goes: `https://example.com//` keeps one. */
  lemma DomainKeepsSecondSlash(host: string)
    ensures Domain("https://" + host + "//") == host + "/"
  {
    assert "https://" + host + "//" == "https://" + (host + "/") + "/";
    DomainOfUrl("https://", host + "/");
  }
}
