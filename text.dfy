/** String primitives the generator's Python code gets from its standard library:
    the whitespace test behind `\s` and `str.strip`, `str.split('\n')`, `'\n'.join`,
    the `in` substring test, `str.replace`, and the `str()`/`int()` conversions the
    checkpoint file `stop.txt` goes through. Strings are sequences of code points. */
module Text {

  type String = seq<char>

  datatype Option<T> = None | Some(value: T) {
    function GetOr(default: T): T {
      match this
      case Some(v) => v
      case None => default
    }
  }

  /** Python's `str.isspace`, which is also the class `\s` matches in a `str` pattern. */
  predicate IsSpace(c: char) {
    var n := c as int;
    (9 <= n <= 13) || (28 <= n <= 32) || n == 0x85 || n == 0xA0 || n == 0x1680
    || (0x2000 <= n <= 0x200A) || n == 0x2028 || n == 0x2029 || n == 0x202F
    || n == 0x205F || n == 0x3000
  }

  /** The ASCII digits, the part of `\d` this model covers. */
  predicate IsDigit(c: char) {
    '0' <= c <= '9'
  }

  predicate AllSpace(s: String) {
    forall i :: 0 <= i < |s| ==> IsSpace(s[i])
  }

  predicate AllDigits(s: String) {
    forall i :: 0 <= i < |s| ==> IsDigit(s[i])
  }

  // ---------------------------------------------------------------- strip

  /** The first index at or after `i` that does not hold whitespace, or `|s|`. */
  function SkipSpaces(s: String, i: nat): (r: nat)
    requires i <= |s|
    ensures i <= r <= |s|
    ensures forall k :: i <= k < r ==> IsSpace(s[k])
    ensures r < |s| ==> !IsSpace(s[r])
    decreases |s| - i
  {
    if i == |s| || !IsSpace(s[i]) then i else SkipSpaces(s, i + 1)
  }

  /** The start of the run of whitespace that ends at `j`. */
  function SkipSpacesBack(s: String, j: nat): (r: nat)
    requires j <= |s|
    ensures r <= j
    ensures forall k :: r <= k < j ==> IsSpace(s[k])
    ensures r > 0 ==> !IsSpace(s[r - 1])
  {
    if j == 0 || !IsSpace(s[j - 1]) then j else SkipSpacesBack(s, j - 1)
  }

  /** `s.strip()`: the result is a slice of `s` that neither starts nor ends with
      whitespace and leaves out only whitespace; a string that already does not start or
      end with whitespace is returned as it is, and an all-whitespace string becomes empty. */
  function Strip(s: String): (r: String)
    ensures |r| <= |s|
    ensures r == [] || (!IsSpace(r[0]) && !IsSpace(r[|r| - 1]))
    ensures (s == [] || (!IsSpace(s[0]) && !IsSpace(s[|s| - 1]))) ==> r == s
    ensures AllSpace(s) ==> r == []
    ensures exists a: nat, b: nat :: a <= b <= |s| && r == s[a..b]
                    && AllSpace(s[..a]) && AllSpace(s[b..])
  {
    var a := SkipSpaces(s, 0);
    if a == |s| then
      assert s[0..0] == [] && s[..0] == [] && s[0..] == s;
      []
    else
      var b := SkipSpacesBack(s, |s|);
      assert s[a..b][0] == s[a];
      assert s[a..b][b - a - 1] == s[b - 1];
      assert AllSpace(s[..a]) by {
        forall k | 0 <= k < a ensures IsSpace(s[..a][k]) { assert s[..a][k] == s[k]; }
      }
      assert AllSpace(s[b..]) by {
        forall k | 0 <= k < |s| - b ensures IsSpace(s[b..][k]) { assert s[b..][k] == s[b + k]; }
      }
      s[a..b]
  }

  /** What `(.*)` captures from `i` when `.` does not match a line break: the rest of
      that physical line. */
  function RestOfLine(s: String, i: nat): (r: String)
    requires i <= |s|
    ensures '\n' !in r
    ensures |r| <= |s| - i && r == s[i..i + |r|]
    ensures i + |r| == |s| || s[i + |r|] == '\n'
  {
    var e := IndexOfChar(s, '\n', i);
    assert forall x :: x in s[i..e] ==> x != '\n' by {
      forall x | x in s[i..e] ensures x != '\n' {
        var t :| 0 <= t < e - i && s[i..e][t] == x;
        assert s[i + t] == x;
      }
    }
    s[i..e]
  }

  /** Regrouping a concatenation, stated once so that proofs with many string terms
      in scope need not rediscover it. */
  lemma AppendAssoc(a: String, b: String, c: String)
    ensures (a + b) + c == a + (b + c)
  {
  }

  // ---------------------------------------------------------------- split and join

  /** Index of the first `c` in `s` at or after `from`, or `|s|` when there is none. */
  function IndexOfChar(s: String, c: char, from: nat): (r: nat)
    requires from <= |s|
    ensures from <= r <= |s|
    ensures r < |s| ==> s[r] == c
    ensures forall k :: from <= k < r ==> s[k] != c
    decreases |s| - from
  {
    if from == |s| || s[from] == c then from else IndexOfChar(s, c, from + 1)
  }

  /** `sep.join(parts)` */
  function Join(parts: seq<String>, sep: String): String {
    if parts == [] then []
    else if |parts| == 1 then parts[0]
    else parts[0] + sep + Join(parts[1..], sep)
  }

  /** `s.split(sep)` for a one-character separator: at least one part, no part holds
      the separator, and joining the parts with it gives `s` back. */
  function Split(s: String, sep: char): (parts: seq<String>)
    ensures |parts| >= 1
    ensures forall i :: 0 <= i < |parts| ==> sep !in parts[i]
    ensures Join(parts, [sep]) == s
    decreases |s|
  {
    var i := IndexOfChar(s, sep, 0);
    if i == |s| then
      assert sep !in s;
      [s]
    else
      var rest := Split(s[i + 1..], sep);
      assert s == s[..i] + [sep] + s[i + 1..];
      [s[..i]] + rest
  }

  /** Splitting a join of separator-free parts gives the parts back. */
  lemma {:induction false} SplitJoin(parts: seq<String>, sep: char)
    requires |parts| >= 1
    requires forall i :: 0 <= i < |parts| ==> sep !in parts[i]
    ensures Split(Join(parts, [sep]), sep) == parts
    decreases |parts|
  {
    var s := Join(parts, [sep]);
    if |parts| == 1 {
      assert IndexOfChar(s, sep, 0) == |s|;
    } else {
      var rest := Join(parts[1..], [sep]);
      assert s == parts[0] + [sep] + rest;
      var n := |parts[0]|;
      assert s[n] == sep;
      assert forall k :: 0 <= k < n ==> s[k] == parts[0][k];
      assert IndexOfChar(s, sep, 0) == n;
      assert s[..n] == parts[0];
      assert s[n + 1..] == rest;
      SplitJoin(parts[1..], sep);
      assert [parts[0]] + parts[1..] == parts;
    }
  }

  // ---------------------------------------------------------------- substring search

  predicate OccursAt(s: String, pat: String, k: nat) {
    k + |pat| <= |s| && s[k..k + |pat|] == pat
  }

  /** The first position at or after `from` where `pat` occurs in `s`. */
  function Find(s: String, pat: String, from: nat): (r: Option<nat>)
    requires from <= |s|
    ensures r.Some? ==> from <= r.value && OccursAt(s, pat, r.value)
    ensures r.Some? ==> forall k :: from <= k < r.value ==> !OccursAt(s, pat, k)
    ensures r.None? ==> forall k :: from <= k <= |s| ==> !OccursAt(s, pat, k)
    decreases |s| - from
  {
    if OccursAt(s, pat, from) then Some(from)
    else if from == |s| then None
    else Find(s, pat, from + 1)
  }

  /** `pat in s` */
  predicate Contains(s: String, pat: String) {
    Find(s, pat, 0).Some?
  }

  /** An occurrence with none before it (from `from` on) is the one `Find` returns. */
  lemma {:induction false} FindFirst(s: String, pat: String, from: nat, k: nat)
    requires from <= k && OccursAt(s, pat, k)
    requires forall j :: from <= j < k ==> !OccursAt(s, pat, j)
    ensures Find(s, pat, from) == Some(k)
    decreases k - from
  {
    if from < k {
      FindFirst(s, pat, from + 1, k);
    }
  }

  /** Extending a string to the right does not move an occurrence already found. */
  lemma FindExtend(s: String, t: String, pat: String, from: nat)
    requires from <= |s| && Find(s, pat, from).Some?
    ensures Find(s + t, pat, from) == Find(s, pat, from)
  {
    var k := Find(s, pat, from).value;
    assert (s + t)[k..k + |pat|] == s[k..k + |pat|];
    forall j | from <= j < k
      ensures !OccursAt(s + t, pat, j)
    {
      if OccursAt(s + t, pat, j) {
        assert (s + t)[j..j + |pat|] == s[j..j + |pat|];
        assert OccursAt(s, pat, j);
      }
    }
    FindFirst(s + t, pat, from, k);
  }

  // ---------------------------------------------------------------- replace

  /** `s.replace(pat, rep)` for a non-empty `pat`: each non-overlapping occurrence,
      scanning left to right, is replaced; a string without `pat` is unchanged. */
  function Replace(s: String, pat: String, rep: String): (r: String)
    requires |pat| > 0
    ensures !Contains(s, pat) ==> r == s
    decreases |s|
  {
    match Find(s, pat, 0)
    case None => s
    case Some(k) => s[..k] + rep + Replace(s[k + |pat|..], pat, rep)
  }

  /** Replacing a pattern by itself changes nothing. */
  lemma {:induction false} ReplaceSelf(s: String, pat: String)
    requires |pat| > 0
    ensures Replace(s, pat, pat) == s
    decreases |s|
  {
    match Find(s, pat, 0)
    case None =>
    case Some(k) =>
      ReplaceSelf(s[k + |pat|..], pat);
      assert s == s[..k] + s[k..k + |pat|] + s[k + |pat|..];
  }

  /** The suffix removal that `re.sub(f'{words}$', '', passage)` performs when `words`
      holds no regular-expression metacharacter and `passage` no line break. */
  function RemoveSuffix(s: String, suffix: String): (r: String)
    ensures r == s || (|suffix| <= |s| && s == r + suffix)
  {
    if |suffix| <= |s| && s[|s| - |suffix|..] == suffix then
      assert s == s[..|s| - |suffix|] + suffix;
      s[..|s| - |suffix|]
    else s
  }

  /** Removing a suffix the string has leaves exactly what precedes it. */
  lemma RemoveSuffixOf(s: String, t: String, u: String)
    requires s == t + u
    ensures RemoveSuffix(s, u) == t
  {
    assert s[|s| - |u|..] == u;
  }

  // ---------------------------------------------------------------- str() and int()

  function DigitChar(d: nat): (c: char)
    requires d < 10
    ensures IsDigit(c) && c as int - '0' as int == d
  {
    (('0' as int) + d) as char
  }

  /** `str(n)` for a natural number. */
  function NatToString(n: nat): (r: String)
    ensures |r| >= 1 && AllDigits(r)
    decreases n
  {
    if n < 10 then [DigitChar(n)] else NatToString(n / 10) + [DigitChar(n % 10)]
  }

  /** `str(n)` */
  function IntToString(n: int): (r: String)
    ensures |r| >= 1
    ensures n >= 0 ==> AllDigits(r)
    ensures n < 0 ==> r[0] == '-' && AllDigits(r[1..])
  {
    if n < 0 then "-" + NatToString(-n) else NatToString(n)
  }

  /** The number a string of decimal digits denotes. */
  function DigitsValue(s: String): nat
    requires AllDigits(s)
  {
    if s == [] then 0 else DigitsValue(s[..|s| - 1]) * 10 + (s[|s| - 1] as int - '0' as int)
  }

  /** `int(s)` on an optional minus sign followed by decimal digits; `None` stands for
      the `ValueError` Python raises on anything else. */
  function ParseInt(s: String): (r: Option<int>)
    ensures r.Some? ==> |s| > 0 && (s[0] == '-' || IsDigit(s[0]))
    ensures r.Some? ==> (r.value < 0 ==> s[0] == '-') && (s[0] != '-' ==> r.value >= 0)
    ensures |s| > 0 && AllDigits(s) ==> r == Some(DigitsValue(s) as int)
  {
    if |s| > 1 && s[0] == '-' && AllDigits(s[1..]) then var v: int := 0 - (DigitsValue(s[1..]) as int); Some(v)
    else if |s| > 0 && AllDigits(s) then var v: int := DigitsValue(s); Some(v)
    else None
  }

  lemma {:induction false} NatToStringValue(n: nat)
    ensures DigitsValue(NatToString(n)) == n
    decreases n
  {
    if n >= 10 {
      NatToStringValue(n / 10);
      var s := NatToString(n);
      assert s[..|s| - 1] == NatToString(n / 10);
    }
  }

  /** What `str()` writes to the checkpoint file, `int()` reads back. */
  lemma ParseIntToString(n: int)
    ensures ParseInt(IntToString(n)) == Some(n)
  {
    if n < 0 {
      NatToStringValue(-n);
      var s := IntToString(n);
      assert s[1..] == NatToString(-n);
    } else {
      NatToStringValue(n);
      assert IntToString(n)[0] != '-';
    }
  }
}
