/**
 * The Python string operations the session relies on: `str.isspace`,
 * `strip`/`lstrip`/`rstrip`, `split()` with no separator, `startswith`,
 * the `in` operator on strings, `sep.join`, `replace(c, '')`, and
 * `int(token)` / `str(n)` for base-10 integers.
 */
module PyText {
  import opened Results
  import opened Seqs

  /** The characters `str.isspace` accepts; `strip()` and `split()` use the same set. */
  predicate IsSpace(c: char) {
    || ('\t' <= c <= '\r')
    || ('\U{1C}' <= c <= ' ')
    || c == '\U{85}' || c == '\U{A0}' || c == '\U{1680}'
    || ('\U{2000}' <= c <= '\U{200A}')
    || c == '\U{2028}' || c == '\U{2029}' || c == '\U{202F}' || c == '\U{205F}' || c == '\U{3000}'
  }

  predicate AllSpace(s: string) {
    forall i :: 0 <= i < |s| ==> IsSpace(s[i])
  }

  predicate NoSpace(s: string) {
    forall i :: 0 <= i < |s| ==> !IsSpace(s[i])
  }

  /** `s.lstrip()`: the suffix left after dropping leading whitespace. */
  function TrimStart(s: string): (r: string)
    ensures |r| <= |s| && r == s[|s| - |r|..]
    ensures AllSpace(s[..|s| - |r|])
    ensures r == [] || !IsSpace(r[0])
  {
    if s != [] && IsSpace(s[0]) then
      var r := TrimStart(s[1..]);
      assert s[1..][..|s| - 1 - |r|] == s[1..|s| - |r|];
      r
    else s
  }

  /** `s.rstrip()`: the prefix left after dropping trailing whitespace. */
  function TrimEnd(s: string): (r: string)
    ensures |r| <= |s| && r == s[..|r|]
    ensures AllSpace(s[|r|..])
    ensures r == [] || !IsSpace(r[|r| - 1])
  {
    if s != [] && IsSpace(s[|s| - 1]) then
      var r := TrimEnd(s[..|s| - 1]);
      assert s[..|s| - 1][|r|..] + [s[|s| - 1]] == s[|r|..];
      r
    else s
  }

  /** `s.strip()` */
  function Strip(s: string): (r: string)
    ensures |r| <= |s|
    ensures r == [] || (!IsSpace(r[0]) && !IsSpace(r[|r| - 1]))
  {
    TrimEnd(TrimStart(s))
  }

  /**
   * What `strip()` means: the slice of `s` left between a whitespace prefix
   * and a whitespace suffix, which starts and ends with a non-space
   * character; it is empty only when `s` is all whitespace.
   */
  lemma {:induction false} StripSlice(s: string) returns (i: nat, j: nat)
    ensures i <= j <= |s| && Strip(s) == s[i..j]
    ensures AllSpace(s[..i]) && AllSpace(s[j..])
    ensures i < j ==> !IsSpace(s[i]) && !IsSpace(s[j - 1])
    ensures i == j <==> AllSpace(s)
  {
    var t := TrimStart(s);
    var r := TrimEnd(t);
    i := |s| - |t|;
    j := i + |r|;
    assert t == s[i..];
    assert r == s[i..j];
    assert s[j..] == t[|r|..];
    if i == j {
      assert s == s[..i] + t;
      assert AllSpace(t) by {
        assert t[|r|..] == t;
      }
    } else {
      assert s[i] == r[0] && s[j - 1] == r[|r| - 1];
      assert !AllSpace(s) by {
        assert !IsSpace(s[i]);
      }
    }
  }

  /** The index of the first whitespace character of `s`, or `|s|` if there is none. */
  function WordEnd(s: string): (k: nat)
    ensures k <= |s| && NoSpace(s[..k])
    ensures k == |s| || IsSpace(s[k])
  {
    if s == [] || IsSpace(s[0]) then 0
    else
      var k := WordEnd(s[1..]);
      assert s[..k + 1] == [s[0]] + s[1..][..k];
      1 + k
  }

  /** `s.split()`: the maximal runs of non-whitespace characters of `s`, in order. */
  function Words(s: string): (ws: seq<string>)
    decreases |s|
  {
    var t := TrimStart(s);
    if t == [] then []
    else
      var k := WordEnd(t);
      [t[..k]] + Words(t[k..])
  }

  /** Every word `split()` returns is non-empty and free of whitespace. */
  lemma {:induction false} WordsAreWords(s: string)
    ensures forall i :: 0 <= i < |Words(s)| ==> Words(s)[i] != [] && NoSpace(Words(s)[i])
    decreases |s|
  {
    if TrimStart(s) != [] {
      var w, rest := FirstWord(s);
      WordsAreWords(rest);
      ConsWords(w, Words(rest));
    }
  }

  lemma {:induction false} ConsWords(w: string, ws: seq<string>)
    requires w != [] && NoSpace(w)
    requires forall i :: 0 <= i < |ws| ==> ws[i] != [] && NoSpace(ws[i])
    ensures forall i :: 0 <= i < |[w] + ws| ==> ([w] + ws)[i] != [] && NoSpace(([w] + ws)[i])
  {
    var xs := [w] + ws;
    assert forall i :: 0 < i < |xs| ==> xs[i] == ws[i - 1];
  }

  /** One step of `split()`: the first word, and the rest of the string after it. */
  lemma {:induction false} FirstWord(s: string) returns (w: string, rest: string)
    requires TrimStart(s) != []
    ensures w != [] && NoSpace(w) && |rest| < |s|
    ensures var t := TrimStart(s); w == t[..WordEnd(t)] && rest == t[WordEnd(t)..]
    ensures Words(s) == [w] + Words(rest)
  {
    var t := TrimStart(s);
    var k := WordEnd(t);
    w, rest := t[..k], t[k..];
  }

  /** `split()` finds no word exactly when the string is all whitespace. */
  lemma {:induction false} WordsEmpty(s: string)
    ensures Words(s) == [] <==> AllSpace(s)
  {
    var t := TrimStart(s);
    if t == [] {
      assert s == s[..|s|];
    } else {
      assert s[|s| - |t|] == t[0];
    }
  }

  lemma {:induction false} TrimStartAppend(a: string, b: string)
    ensures TrimStart(a + b) == if AllSpace(a) then TrimStart(b) else TrimStart(a) + b
    decreases |a|
  {
    if a == [] {
      Units(b);
    } else {
      Behead(a, b);
      AllSpaceCons(a);
      if IsSpace(a[0]) {
        TrimStartAppend(a[1..], b);
      }
    }
  }

  lemma AllSpaceCons(a: string)
    requires a != []
    ensures AllSpace(a) <==> IsSpace(a[0]) && AllSpace(a[1..])
  {
    if IsSpace(a[0]) && AllSpace(a[1..]) {
      forall i | 0 < i < |a| ensures IsSpace(a[i]) {
        assert a[i] == a[1..][i - 1];
      }
    }
  }

  lemma {:induction false} WordEndAppend(t: string, b: string)
    requires WordEnd(t) < |t|
    ensures WordEnd(t + b) == WordEnd(t)
    decreases |t|
  {
    if !IsSpace(t[0]) {
      assert (t + b)[1..] == t[1..] + b;
      WordEndAppend(t[1..], b);
    }
  }

  /** Leading whitespace does not change the words. */
  lemma {:induction false} WordsAfterSpace(a: string, b: string)
    requires AllSpace(a)
    ensures Words(a + b) == Words(b)
  {
    TrimStartAppend(a, b);
  }

  /** Splitting at a whitespace boundary: the words of `a + b` are those of `a` followed by those of `b`. */
  lemma {:induction false} WordsAppend(a: string, b: string)
    requires a == [] || IsSpace(a[|a| - 1])
    ensures Words(a + b) == Words(a) + Words(b)
    decreases |a|
  {
    if AllSpace(a) {
      WordsEmpty(a);
      WordsAfterSpace(a, b);
    } else {
      var w, rest := FirstWordAppend(a, b);
      WordsAppend(rest, b);
      ConsAppend(w, Words(rest), Words(b));
    }
  }

  /** The first word of `a` is also the first word of `a + b` when `a` ends in whitespace. */
  lemma {:induction false} FirstWordAppend(a: string, b: string) returns (w: string, rest: string)
    requires !AllSpace(a) && IsSpace(a[|a| - 1])
    ensures |rest| < |a| && rest != [] && IsSpace(rest[|rest| - 1])
    ensures Words(a) == [w] + Words(rest)
    ensures Words(a + b) == [w] + Words(rest + b)
  {
    TrimStartAppend(a, b);
    var t := TrimStart(a);
    assert t != [] && t[|t| - 1] == a[|a| - 1];
    var k := WordEnd(t);
    WordEndLimit(t);
    WordEndAppend(t, b);
    w, rest := FirstWord(a);
    var w', rest' := FirstWord(a + b);
    SplitAppended(t, b, k);
    assert rest[|rest| - 1] == t[|t| - 1];
  }

  lemma {:induction false} SplitAppended(t: string, b: string, k: nat)
    requires k <= |t|
    ensures (t + b)[..k] == t[..k] && (t + b)[k..] == t[k..] + b
  {
  }

  lemma {:induction false} ConsAppend(x: string, ys: seq<string>, zs: seq<string>)
    ensures [x] + (ys + zs) == ([x] + ys) + zs
  {
  }

  lemma {:induction false} WordEndLimit(t: string)
    requires t != [] && IsSpace(t[|t| - 1])
    ensures WordEnd(t) < |t|
  {
    assert t[..|t|] == t;
  }

  /** A word followed only by whitespace splits into that one word. */
  lemma {:induction false} WordsOfWord(w: string, post: string)
    requires w != [] && NoSpace(w) && AllSpace(post)
    ensures Words(w + post) == [w]
  {
    var s := w + post;
    assert s[0] == w[0];
    WordEndOfWord(w, post);
    var k := WordEnd(s);
    assert s[..k] == w;
    assert s[k..] == post;
    WordsEmpty(post);
  }

  lemma {:induction false} WordEndOfWord(w: string, post: string)
    requires NoSpace(w) && (post == [] || IsSpace(post[0]))
    ensures WordEnd(w + post) == |w|
    decreases |w|
  {
    if w == [] {
      assert w + post == post;
    } else {
      assert (w + post)[0] == w[0];
      assert (w + post)[1..] == w[1..] + post;
      WordEndOfWord(w[1..], post);
    }
  }

  lemma {:induction false} TrimEndOfPadded(x: string, post: string)
    requires x != [] && !IsSpace(x[|x| - 1]) && AllSpace(post)
    ensures TrimEnd(x + post) == x
    decreases |post|
  {
    if post == [] {
      assert x + post == x;
    } else {
      assert (x + post)[..|x + post| - 1] == x + post[..|post| - 1];
      TrimEndOfPadded(x, post[..|post| - 1]);
    }
  }

  /** Whitespace before a string that starts with a non-space character is all `lstrip()` removes. */
  lemma {:induction false} TrimStartOfPadded(pre: string, x: string)
    requires AllSpace(pre) && (x == [] || !IsSpace(x[0]))
    ensures TrimStart(pre + x) == x
  {
    TrimStartAppend(pre, x);
  }

  /** `(pre + x).lstrip()` keeps `x` whole when `pre` ends at a whitespace boundary; what remains of `pre` still ends there. */
  lemma {:induction false} TrimStartAtBoundary(pre: string, x: string) returns (q: string)
    requires pre == [] || IsSpace(pre[|pre| - 1])
    requires x != [] && !IsSpace(x[0])
    ensures TrimStart(pre + x) == q + x
    ensures q == [] || IsSpace(q[|q| - 1])
  {
    TrimStartAppend(pre, x);
    if AllSpace(pre) {
      q := [];
      assert [] + x == x;
    } else {
      q := TrimStart(pre);
    }
  }

  /** `strip()` of a string padded with whitespace on both sides gives the string back. */
  lemma {:induction false} StripPadded(pre: string, w: string, post: string)
    requires AllSpace(pre) && AllSpace(post)
    requires w != [] && !IsSpace(w[0]) && !IsSpace(w[|w| - 1])
    ensures Strip(pre + w + post) == w
  {
    assert pre + w + post == pre + (w + post);
    TrimStartOfPadded(pre, w + post);
    TrimEndOfPadded(w, post);
  }

  /** `strip()` of `pre + w + post` keeps `w` whole when whitespace borders it on both sides. */
  lemma {:induction false} StripAtBoundary(pre: string, w: string, post: string) returns (q: string)
    requires pre == [] || IsSpace(pre[|pre| - 1])
    requires w != [] && !IsSpace(w[0]) && !IsSpace(w[|w| - 1]) && AllSpace(post)
    ensures Strip(pre + w + post) == q + w
    ensures q == [] || IsSpace(q[|q| - 1])
  {
    Associative(pre, w, post);
    Ends(w, post);
    q := TrimStartAtBoundary(pre, w + post);
    Associative(q, w, post);
    Ends(q, w);
    TrimEndOfPadded(q + w, post);
    StripOf(pre + w + post, (q + w) + post, q + w);
  }

  lemma StripOf(s: string, t: string, r: string)
    requires TrimStart(s) == t && TrimEnd(t) == r
    ensures Strip(s) == r
  {
  }

  /** A word after a whitespace boundary is the last word. */
  lemma {:induction false} WordsEndWith(q: string, w: string)
    requires q == [] || IsSpace(q[|q| - 1])
    requires w != [] && NoSpace(w)
    ensures Words(q + w) == Words(q) + [w]
  {
    WordsAppend(q, w);
    assert w + [] == w;
    WordsOfWord(w, []);
  }

  lemma LastWordIs(s: string, q: string, w: string)
    requires Strip(s) == q + w
    requires Words(q + w) == Words(q) + [w]
    ensures var ws := Words(Strip(s)); ws != [] && ws[|ws| - 1] == w
  {
  }

  /** The last word of `(pre + w + post).strip().split()` is `w` when `w` is a word that only whitespace follows. */
  lemma {:induction false} LastWordOfStripped(pre: string, w: string, post: string)
    requires pre == [] || IsSpace(pre[|pre| - 1])
    requires w != [] && NoSpace(w) && AllSpace(post)
    ensures var ws := Words(Strip(pre + w + post)); ws != [] && ws[|ws| - 1] == w
  {
    var q := StripAtBoundary(pre, w, post);
    WordsEndWith(q, w);
    LastWordIs(pre + w + post, q, w);
  }

  /** `s.startswith(prefix)` */
  predicate StartsWith(s: string, prefix: string) {
    |prefix| <= |s| && s[..|prefix|] == prefix
  }

  /** `sub in s` for strings. */
  predicate Contains(s: string, sub: string)
    decreases |s|
  {
    StartsWith(s, sub) || (s != [] && Contains(s[1..], sub))
  }

  /** `Contains` agrees with the positional reading: `sub` occurs at some offset of `s`. */
  lemma {:induction false} ContainsAt(s: string, sub: string)
    ensures Contains(s, sub) <==> exists i :: 0 <= i <= |s| && StartsWith(s[i..], sub)
    decreases |s|
  {
    if s != [] {
      ContainsAt(s[1..], sub);
      if exists i :: 0 <= i <= |s| && StartsWith(s[i..], sub) {
        var i :| 0 <= i <= |s| && StartsWith(s[i..], sub);
        if i > 0 {
          assert s[1..][i - 1..] == s[i..];
        }
      }
      if Contains(s[1..], sub) {
        var j :| 0 <= j <= |s[1..]| && StartsWith(s[1..][j..], sub);
        assert s[1..][j..] == s[j + 1..];
        assert 0 <= j + 1 <= |s| && StartsWith(s[j + 1..], sub);
      }
      if StartsWith(s, sub) {
        assert s[0..] == s;
      }
    } else {
      assert s[0..] == s;
    }
  }

  /** `sep.join(xs)` */
  function Join(sep: string, xs: seq<string>): string
    decreases |xs|
  {
    if xs == [] then ""
    else if |xs| == 1 then xs[0]
    else xs[0] + sep + Join(sep, xs[1..])
  }

  /** Joining one more item appends the separator and the item, so the items appear in order, one separator apart. */
  lemma {:induction false} JoinSnoc(sep: string, xs: seq<string>, x: string)
    requires xs != []
    ensures Join(sep, xs + [x]) == Join(sep, xs) + sep + x
    decreases |xs|
  {
    if |xs| == 1 {
      assert xs + [x] == [xs[0], x];
      assert [xs[0], x][1..] == [x];
    } else {
      assert (xs + [x])[0] == xs[0] && (xs + [x])[1..] == xs[1..] + [x];
      JoinSnoc(sep, xs[1..], x);
      Associative(xs[0] + sep, Join(sep, xs[1..]) + sep, x);
      Associative(xs[0] + sep, Join(sep, xs[1..]), sep);
    }
  }

  /** `s.replace(c, '')` for a one-character `c`. */
  function Delete(s: string, c: char): (r: string)
    ensures forall i :: 0 <= i < |r| ==> r[i] != c
    ensures |r| <= |s|
  {
    if s == [] then ""
    else (if s[0] == c then "" else [s[0]]) + Delete(s[1..], c)
  }

  /** Exactly the occurrences of `c` are removed: every other character keeps its count. */
  lemma {:induction false} DeleteCounts(s: string, c: char)
    ensures multiset(Delete(s, c)) == multiset(s)[c := 0]
    decreases |s|
  {
    if s != [] {
      DeleteCounts(s[1..], c);
      assert s == [s[0]] + s[1..];
    }
  }

  /** A string without `c` is unchanged. */
  lemma {:induction false} DeleteAbsent(s: string, c: char)
    requires c !in s
    ensures Delete(s, c) == s
    decreases |s|
  {
    if s != [] {
      assert forall k :: 0 <= k < |s[1..]| ==> s[1..][k] == s[k + 1];
      DeleteAbsent(s[1..], c);
    }
  }

  /** Deleting works piecewise, so every other character survives, in order. */
  lemma {:induction false} DeleteAppend(a: string, b: string, c: char)
    ensures Delete(a + b, c) == Delete(a, c) + Delete(b, c)
    decreases |a|
  {
    if a == [] {
      Units(b);
    } else {
      Behead(a, b);
      DeleteAppend(a[1..], b, c);
      Associative(if a[0] == c then "" else [a[0]], Delete(a[1..], c), Delete(b, c));
    }
  }

  predicate IsDigit(c: char) {
    '0' <= c <= '9'
  }

  /** `digit ("_"? digit)*`, the digits of a base-10 literal that `int()` accepts. */
  predicate IsDigitGroups(s: string) {
    && |s| > 0
    && IsDigit(s[0])
    && forall i :: 0 <= i < |s| ==> IsDigit(s[i]) || (s[i] == '_' && i + 1 < |s| && IsDigit(s[i + 1]))
  }

  /** A base-10 integer literal, with an optional sign, as `int()` accepts it. */
  predicate IsIntLiteral(t: string) {
    if |t| > 0 && (t[0] == '+' || t[0] == '-') then IsDigitGroups(t[1..]) else IsDigitGroups(t)
  }

  /** The number the digits of `s` spell, underscores ignored. */
  function DigitsValue(s: string): nat
    decreases |s|
  {
    if s == [] then 0
    else if IsDigit(s[|s| - 1]) then DigitsValue(s[..|s| - 1]) * 10 + (s[|s| - 1] as int - '0' as int)
    else DigitsValue(s[..|s| - 1])
  }

  /** `int(t)` for a token that holds no whitespace; `None` where Python raises `ValueError`. */
  function ParseInt(t: string): (r: Option<int>)
    ensures r.Some? <==> IsIntLiteral(t)
    ensures r.Some? && t[0] == '-' ==> r.value <= 0
    ensures r.Some? && t[0] != '-' ==> r.value >= 0
  {
    if |t| > 0 && (t[0] == '+' || t[0] == '-') then
      if IsDigitGroups(t[1..]) then
        var v: int := DigitsValue(t[1..]);
        Some(if t[0] == '-' then -v else v)
      else None
    else if IsDigitGroups(t) then Some(DigitsValue(t))
    else None
  }

  function DigitChar(d: nat): (c: char)
    requires d < 10
    ensures IsDigit(c) && c as int - '0' as int == d
  {
    ('0' as int + d) as char
  }

  /** `str(n)` for a non-negative integer. */
  function ShowNat(n: nat): (s: string)
    decreases n
  {
    if n < 10 then [DigitChar(n)] else ShowNat(n / 10) + [DigitChar(n % 10)]
  }

  /** `str(n)` */
  function Show(n: int): string {
    if n < 0 then "-" + ShowNat(-n) else ShowNat(n)
  }

  lemma {:induction false} ShowNatDigits(n: nat)
    ensures var s := ShowNat(n); s != [] && (forall i :: 0 <= i < |s| ==> IsDigit(s[i])) && DigitsValue(s) == n
    decreases n
  {
    if n >= 10 {
      ShowNatDigits(n / 10);
      var s := ShowNat(n);
      assert s[..|s| - 1] == ShowNat(n / 10);
    }
  }

  /** `int(str(n)) == n`: parsing the decimal form of a number gives the number back. */
  lemma {:induction false} ParseShow(n: int)
    ensures ParseInt(Show(n)) == Some(n)
  {
    ShowNatDigits(if n < 0 then -n else n);
    if n < 0 {
      assert Show(n)[1..] == ShowNat(-n);
    }
  }

  /** `Show` never yields whitespace, so a shown number is one word of a reply. */
  lemma {:induction false} ShowIsWord(n: int)
    ensures Show(n) != [] && NoSpace(Show(n))
  {
    ShowNatDigits(if n < 0 then -n else n);
  }
}
