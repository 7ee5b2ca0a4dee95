/** String.prototype.trim, as the API settings form applies it to every field it saves. */
module JsString {

  /** The characters ECMAScript's trim removes: WhiteSpace and LineTerminator. */
  predicate IsJsWhitespace(c: char) {
    c == '\t' || c == '\n' || c == '\U{000B}' || c == '\U{000C}' || c == '\r' || c == ' '
    || c == '\U{00A0}' || c == '\U{1680}' || ('\U{2000}' <= c <= '\U{200A}')
    || c == '\U{2028}' || c == '\U{2029}' || c == '\U{202F}' || c == '\U{205F}'
    || c == '\U{3000}' || c == '\U{FEFF}'
  }

  /** Drops leading whitespace. */
  function TrimStart(s: string): (r: string)
    ensures |r| <= |s|
  {
    if s != [] && IsJsWhitespace(s[0]) then TrimStart(s[1..]) else s
  }

  /** Drops trailing whitespace. */
  function TrimEnd(s: string): (r: string)
    ensures |r| <= |s|
  {
    if s != [] && IsJsWhitespace(s[|s| - 1]) then TrimEnd(s[..|s| - 1]) else s
  }

  /** The field with whitespace dropped from both ends, as the settings form saves it. */
  function Trim(s: string): (r: string)
    ensures |r| <= |s|
  {
    TrimEnd(TrimStart(s))
  }

  /** Characters of `s` before `i` are all whitespace. */
  ghost predicate BlankBefore(s: string, i: nat)
    requires i <= |s|
  {
    forall k :: 0 <= k < i ==> IsJsWhitespace(s[k])
  }

  /** Characters of `s` from `j` on are all whitespace. */
  ghost predicate BlankFrom(s: string, j: nat)
    requires j <= |s|
  {
    forall k :: j <= k < |s| ==> IsJsWhitespace(s[k])
  }

  /** TrimStart leaves the suffix after the leading whitespace, which does not start with whitespace. */
  lemma {:induction false} TrimStartSpec(s: string)
    ensures var r := TrimStart(s);
            && |r| <= |s| && r == s[|s| - |r|..] && BlankBefore(s, |s| - |r|)
            && (r != [] ==> !IsJsWhitespace(r[0]))
  {
    if s != [] && IsJsWhitespace(s[0]) {
      TrimStartSpec(s[1..]);
      var r := TrimStart(s);
      forall k | 1 <= k < |s| - |r| ensures IsJsWhitespace(s[k]) {
        assert s[k] == s[1..][k - 1];
      }
    }
  }

  /** TrimEnd leaves the prefix before the trailing whitespace, which does not end with whitespace. */
  lemma {:induction false} TrimEndSpec(s: string)
    ensures var r := TrimEnd(s);
            && |r| <= |s| && r == s[..|r|] && BlankFrom(s, |r|)
            && (r != [] ==> !IsJsWhitespace(r[|r| - 1]))
  {
    if s != [] && IsJsWhitespace(s[|s| - 1]) {
      var p := s[..|s| - 1];
      TrimEndSpec(p);
      var r := TrimEnd(s);
      assert r == p[..|r|];
      forall k | |r| <= k < |s| - 1 ensures IsJsWhitespace(s[k]) {
        assert s[k] == p[k];
      }
    }
  }

  /** A trimmed field neither starts nor ends with whitespace and is no longer than the field. */
  lemma TrimSpec(s: string)
    ensures var r := Trim(s);
            && |r| <= |s|
            && (r != [] ==> !IsJsWhitespace(r[0]) && !IsJsWhitespace(r[|r| - 1]))
  {
    var t := TrimStart(s);
    TrimStartSpec(s);
    TrimEndSpec(t);
    var r := TrimEnd(t);
    if r != [] {
      assert r[0] == t[0];
    }
  }

  /** A field trims to the empty string exactly when it is all whitespace. */
  lemma TrimEmptyIffBlank(s: string)
    ensures Trim(s) == [] <==> BlankBefore(s, |s|)
  {
    var t := TrimStart(s);
    TrimStartSpec(s);
    TrimEndSpec(t);
    assert t != [] ==> !IsJsWhitespace(s[|s| - |t|]);
  }

  lemma {:induction false} TrimStartAt(s: string, i: nat)
    requires i <= |s| && BlankBefore(s, i)
    requires i < |s| ==> !IsJsWhitespace(s[i])
    ensures TrimStart(s) == s[i..]
    decreases i
  {
    if i > 0 {
      assert BlankBefore(s[1..], i - 1) by {
        forall k | 0 <= k < i - 1 ensures IsJsWhitespace(s[1..][k]) {
          assert s[1..][k] == s[k + 1];
        }
      }
      TrimStartAt(s[1..], i - 1);
      assert s[1..][i - 1..] == s[i..];
    }
  }

  lemma {:induction false} TrimEndAt(s: string, j: nat)
    requires j <= |s| && BlankFrom(s, j)
    requires j > 0 ==> !IsJsWhitespace(s[j - 1])
    ensures TrimEnd(s) == s[..j]
    decreases |s| - j
  {
    if j < |s| {
      var p := s[..|s| - 1];
      assert BlankFrom(p, j) by {
        forall k | j <= k < |p| ensures IsJsWhitespace(p[k]) {
          assert p[k] == s[k];
        }
      }
      TrimEndAt(p, j);
      assert p[..j] == s[..j];
    } else {
      assert s[..j] == s;
    }
  }

  /**
   * Trim's result is the one slice of `s` with only whitespace around it
   * and no whitespace at either of its ends.
   */
  lemma {:induction false} TrimUnique(s: string, i: nat, j: nat)
    requires i <= j <= |s|
    requires BlankBefore(s, i) && BlankFrom(s, j)
    requires i < j ==> !IsJsWhitespace(s[i]) && !IsJsWhitespace(s[j - 1])
    ensures Trim(s) == s[i..j]
  {
    if i < j {
      TrimStartAt(s, i);
      BlankFromSuffix(s, i, j);
      TrimEndAt(s[i..], j - i);
      assert s[i..][..j - i] == s[i..j];
    } else {
      AllBlank(s, i);
      TrimStartAt(s, |s|);
    }
  }

  lemma AllBlank(s: string, i: nat)
    requires i <= |s| && BlankBefore(s, i) && BlankFrom(s, i)
    ensures BlankBefore(s, |s|)
  {
  }

  lemma BlankFromSuffix(s: string, i: nat, j: nat)
    requires i <= j <= |s| && BlankFrom(s, j)
    ensures BlankFrom(s[i..], j - i)
  {
    forall k | j - i <= k < |s| - i ensures IsJsWhitespace(s[i..][k]) {
      assert s[i..][k] == s[k + i];
    }
  }

  /** Trimming an already trimmed string changes nothing. */
  lemma TrimIdempotent(s: string)
    ensures Trim(Trim(s)) == Trim(s)
  {
    var r := Trim(s);
    TrimSpec(s);
    TrimUnique(r, 0, |r|);
    assert r[0..|r|] == r;
  }
}
