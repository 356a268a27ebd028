/** Small shared vocabulary: optional values, success-or-error outcomes, and the
    JavaScript string operations the repository relies on (`trim`, `slice`,
    `startsWith`, substring search). Strings are sequences of characters. */
module Common {

  datatype Option<+T> = None | Some(value: T)

  /** The result of anything that can throw: a value, or the message of the thrown Error. */
  datatype Outcome<+T> = Ok(value: T) | Err(message: string)

  /** The characters ECMAScript's `String.prototype.trim` removes: the
      WhiteSpace code points (tab, vertical tab, form feed, the byte order mark
      and every space separator) and the LineTerminator code points. */
  predicate IsJsSpace(c: char)
  {
    || c == '\t' || c == '\n' || c == '\U{000B}' || c == '\U{000C}' || c == '\r'
    || c == ' ' || c == '\U{00A0}' || c == '\U{1680}'
    || ('\U{2000}' <= c <= '\U{200A}')
    || c == '\U{2028}' || c == '\U{2029}' || c == '\U{202F}' || c == '\U{205F}'
    || c == '\U{3000}' || c == '\U{FEFF}'
  }

  /** `s.trimStart()`: the suffix left after dropping the leading white space. */
  function TrimStart(s: string): (r: string)
    ensures |r| <= |s| && r == s[|s| - |r|..]
    ensures forall k :: 0 <= k < |s| - |r| ==> IsJsSpace(s[k])
    ensures r == [] || !IsJsSpace(r[0])
  {
    if s != [] && IsJsSpace(s[0]) then TrimStart(s[1..]) else s
  }

  /** `s.trimEnd()`: the prefix left after dropping the trailing white space. */
  function TrimEnd(s: string): (r: string)
    ensures |r| <= |s| && r == s[..|r|]
    ensures forall k :: |r| <= k < |s| ==> IsJsSpace(s[k])
    ensures r == [] || !IsJsSpace(r[|r| - 1])
  {
    if s != [] && IsJsSpace(s[|s| - 1]) then TrimEnd(s[..|s| - 1]) else s
  }

  /** `s.trim()`. */
  function Trim(s: string): string
  {
    TrimEnd(TrimStart(s))
  }

  /** A trimmed string is a slice of the original whose ends are not white space. */
  lemma TrimIsSlice(s: string)
    ensures exists i, j :: 0 <= i <= j <= |s| && Trim(s) == s[i..j]
    ensures Trim(s) == [] || (!IsJsSpace(Trim(s)[0]) && !IsJsSpace(Trim(s)[|Trim(s)| - 1]))
  {
    var u := TrimStart(s);
    var e := TrimEnd(u);
    assert e == s[|s| - |u|..][..|e|] == s[|s| - |u|..|s| - |u| + |e|];
    if e != [] {
      assert e[0] == u[0];
    }
  }

  /** Where `trim` cuts: the trimmed text is a slice `s[i..j]`, and everything
      before `i` and from `j` on is white space. */
  lemma TrimCuts(s: string)
    ensures exists i, j :: 0 <= i <= j <= |s| && Trim(s) == s[i..j]
              && (forall k :: 0 <= k < i ==> IsJsSpace(s[k]))
              && (forall k :: j <= k < |s| ==> IsJsSpace(s[k]))
  {
    var u := TrimStart(s);
    var e := TrimEnd(u);
    var i, j := |s| - |u|, |s| - |u| + |e|;
    assert e == s[i..][..|e|] == s[i..j];
    forall k | j <= k < |s| ensures IsJsSpace(s[k]) {
      assert s[k] == u[k - i];
    }
    assert 0 <= i <= j <= |s| && Trim(s) == s[i..j]
           && (forall k :: 0 <= k < i ==> IsJsSpace(s[k]))
           && (forall k :: j <= k < |s| ==> IsJsSpace(s[k]));
  }

  /** Trimming twice is trimming once. */
  lemma TrimIdempotent(s: string)
    ensures Trim(Trim(s)) == Trim(s)
  {
    var t := Trim(s);
    TrimIsSlice(s);
    assert TrimStart(t) == t;
    assert TrimEnd(t) == t;
  }

  /** A string is blank, for `!s.trim()`, when nothing but white space is in it. */
  lemma BlankIffAllSpace(s: string)
    ensures Trim(s) == [] <==> forall k :: 0 <= k < |s| ==> IsJsSpace(s[k])
  {
    var u := TrimStart(s);
    if Trim(s) == [] {
      assert u == [];
    } else {
      assert u != [] && !IsJsSpace(u[0]) && u[0] == s[|s| - |u|];
    }
  }

  /** Leading white space does not change what `trimStart` leaves. */
  lemma {:induction false} TrimStartPadded(pad: string, s: string)
    requires forall k :: 0 <= k < |pad| ==> IsJsSpace(pad[k])
    ensures TrimStart(pad + s) == TrimStart(s)
    decreases |pad|
  {
    if pad != [] {
      assert (pad + s)[1..] == pad[1..] + s;
      TrimStartPadded(pad[1..], s);
    } else {
      assert pad + s == s;
    }
  }

  /** Trailing white space does not change what `trimEnd` leaves. */
  lemma {:induction false} TrimEndPadded(s: string, pad: string)
    requires forall k :: 0 <= k < |pad| ==> IsJsSpace(pad[k])
    ensures TrimEnd(s + pad) == TrimEnd(s)
    decreases |pad|
  {
    if pad != [] {
      assert (s + pad)[..|s + pad| - 1] == s + pad[..|pad| - 1];
      TrimEndPadded(s, pad[..|pad| - 1]);
    } else {
      assert s + pad == s;
    }
  }

  /** Trimming text set between white space gives back the text, when the
      text neither starts nor ends with white space. */
  lemma TrimPadded(before: string, s: string, after: string)
    requires forall k :: 0 <= k < |before| ==> IsJsSpace(before[k])
    requires forall k :: 0 <= k < |after| ==> IsJsSpace(after[k])
    requires s != [] && !IsJsSpace(s[0]) && !IsJsSpace(s[|s| - 1])
    ensures Trim(before + s + after) == s
  {
    TrimStartPadded(before, s + after);
    assert before + s + after == before + (s + after);
    assert TrimStart(s + after) == s + after by {
      assert (s + after)[0] == s[0];
    }
    TrimEndPadded(s, after);
  }

  /** `error.message || fallback`, for an error whose message may be empty. */
  function MessageOr(message: string, fallback: string): (r: string)
    ensures message != "" || fallback != "" ==> r != ""
    ensures message != "" ==> r == message
    ensures message == "" ==> r == fallback
  {
    if message != "" then message else fallback
  }

  /** `s.slice(0, n)`. */
  function Take<T>(s: seq<T>, n: nat): (r: seq<T>)
    ensures |r| <= n && |r| <= |s| && r == s[..|r|]
    ensures |s| <= n ==> r == s
    ensures |s| > n ==> |r| == n
  {
    if |s| <= n then s else s[..n]
  }

  predicate StartsWith(s: string, prefix: string)
  {
    |prefix| <= |s| && s[..|prefix|] == prefix
  }

  /** A string that starts with a non-empty prefix starts with its first character. */
  lemma StartsWithHead(s: string, prefix: string)
    requires prefix != []
    ensures StartsWith(s, prefix) ==> s != [] && s[0] == prefix[0]
  {
    if StartsWith(s, prefix) {
      assert s[0] == s[..|prefix|][0];
    }
  }

  /** `pat` stands in `s` at position `i`. */
  predicate OccursAt(s: string, pat: string, i: int)
  {
    0 <= i && i + |pat| <= |s| && s[i..i + |pat|] == pat
  }

  /** `s.includes(pat)`. */
  predicate Contains(s: string, pat: string)
  {
    exists i :: 0 <= i <= |s| && OccursAt(s, pat, i)
  }

  /** A piece of a concatenation is found in it. */
  lemma ContainsMiddle(a: string, b: string, c: string)
    ensures Contains(a + b + c, b)
  {
    var s := a + b + c;
    assert s[|a|..|a| + |b|] == b;
    assert OccursAt(s, b, |a|);
  }

  /** Both pieces set between three others are found in the whole. */
  lemma ContainsTwo(a: string, x: string, b: string, y: string, c: string)
    ensures Contains(a + x + b + y + c, x) && Contains(a + x + b + y + c, y)
  {
    var s := a + x + b + y + c;
    assert s[|a|..|a| + |x|] == x;
    assert OccursAt(s, x, |a|);
    assert s[|a| + |x| + |b|..|a| + |x| + |b| + |y|] == y;
    assert OccursAt(s, y, |a| + |x| + |b|);
  }

  /** What is found in either part of a concatenation is found in it. */
  lemma ContainsInConcat(a: string, b: string, pat: string)
    ensures Contains(a, pat) || Contains(b, pat) ==> Contains(a + b, pat)
  {
    if Contains(a, pat) {
      var i :| 0 <= i <= |a| && OccursAt(a, pat, i);
      assert (a + b)[i..i + |pat|] == a[i..i + |pat|];
      assert OccursAt(a + b, pat, i);
    } else if Contains(b, pat) {
      var i :| 0 <= i <= |b| && OccursAt(b, pat, i);
      assert (a + b)[|a| + i..|a| + i + |pat|] == b[i..i + |pat|];
      assert OccursAt(a + b, pat, |a| + i);
    }
  }

  /** What is found in a slice of a string is found in the string: a slice of a
      string free of `pat` is free of it too. */
  lemma ContainsInSlice(s: string, pat: string, i: int, j: int)
    requires 0 <= i <= j <= |s|
    ensures Contains(s[i..j], pat) ==> Contains(s, pat)
  {
    if Contains(s[i..j], pat) {
      var k :| 0 <= k <= j - i && OccursAt(s[i..j], pat, k);
      forall m | 0 <= m < |pat| ensures s[i + k + m] == pat[m] {
        assert s[i..j][k..k + |pat|][m] == pat[m];
      }
      assert s[i + k..i + k + |pat|] == pat;
      assert OccursAt(s, pat, i + k);
    }
  }

  predicate NoDuplicates<T(==)>(s: seq<T>)
  {
    forall i, j :: 0 <= i < j < |s| ==> s[i] != s[j]
  }
}
