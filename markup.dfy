/**
 * The `<think>…</think>` markup that some reasoning models put into the content
 * channel in place of a separate reasoning channel.
 *
 *  - `FirstPair` is the first match of the non-greedy, DOTALL pattern
 *    `<think>(.*?)</think>` (`re.findall(...)[0]`, `re.search`).
 *  - `RemovePairs` is `re.sub(r'<think>.*?</think>', '', s, flags=re.DOTALL)`.
 *  - `OpenLineTail` is `re.search(r"<think>(.*)", s).group(1)`, which has no DOTALL
 *    flag and so stops at the first line break.
 *  - `SeparateThoughtsAndOutput` is the non-streaming client's split of one reply.
 */
module Markup {
  import opened Text

  const Open: String := "<think>"
  const Close: String := "</think>"

  /** Positions of an opening tag and of the closing tag that ends it. */
  datatype Pair = Pair(open: nat, close: nat)

  /** An opening tag at `a` and a closing tag at `c` beyond it. */
  predicate PairAt(s: String, a: nat, c: nat) {
    OccursAt(s, Open, a) && a + |Open| <= c && OccursAt(s, Close, c)
  }

  /** The leftmost match of `<think>(.*?)</think>`.  It opens at the first opening tag
      (a later one could only close at a tag this one also sees) and closes at the
      first closing tag after it. */
  function FirstPair(s: String): (r: Option<Pair>)
    ensures r.Some? ==> PairAt(s, r.value.open, r.value.close)
    ensures r.Some? ==> forall a :: 0 <= a < r.value.open ==> !OccursAt(s, Open, a)
    ensures r.Some? ==> forall c :: r.value.open + |Open| <= c < r.value.close ==> !OccursAt(s, Close, c)
    ensures r.None? ==> forall a: nat, c: nat :: !PairAt(s, a, c)
  {
    match Find(s, Open, 0)
    case None => None
    case Some(a) =>
      match Find(s, Close, a + |Open|)
      case None => None
      case Some(c) => Some(Pair(a, c))
  }

  /** `len(re.findall(r'<think>(.*?)</think>', s, re.DOTALL)) > 0` */
  predicate HasPair(s: String)
    ensures HasPair(s) ==> Contains(s, Open) && Contains(s, Close)
  {
    FirstPair(s).Some?
  }

  /** The text between the tags of a pair: the group the pattern captures. */
  function Inner(s: String, p: Pair): (r: String)
    requires PairAt(s, p.open, p.close)
    ensures |r| == p.close - p.open - |Open|
    ensures s == s[..p.open] + Open + r + Close + s[p.close + |Close|..]
  {
    var r := s[p.open + |Open|..p.close];
    assert s == s[..p.open] + s[p.open..p.open + |Open|] + r + s[p.close..p.close + |Close|] + s[p.close + |Close|..];
    r
  }

  /** `re.sub(r'<think>.*?</think>', '', s, flags=re.DOTALL)`: the scan resumes after
      each removed pair. */
  function RemovePairs(s: String): (r: String)
    ensures |r| <= |s|
    ensures !HasPair(s) ==> r == s
    ensures HasPair(s) ==> |r| <= |s| - |Open| - |Close|
    decreases |s|
  {
    match FirstPair(s)
    case None => s
    case Some(p) => s[..p.open] + RemovePairs(s[p.close + |Close|..])
  }

  /** `re.search(r"<think>(.*)", s).group(1)`: what follows the first opening tag, up
      to the end of that line. */
  function OpenLineTail(s: String): (r: String)
    requires Contains(s, Open)
    ensures '\n' !in r
    ensures var e := Find(s, Open, 0).value + |Open| + |r|;
            e <= |s| && r == s[e - |r|..e] && (e == |s| || s[e] == '\n')
  {
    RestOfLine(s, Find(s, Open, 0).value + |Open|)
  }

  /** `separate_thoughts_and_output`: the inner text of the first pair and the reply
      with every pair removed and then stripped.  `None` is the `IndexError` raised
      when the reply holds no complete pair. */
  function SeparateThoughtsAndOutput(text: String): (r: Option<(String, String)>)
    ensures r.None? <==> !HasPair(text)
    ensures r.Some? ==> !Contains(r.value.0, Close)
    ensures r.Some? ==> |r.value.1| <= |text| - |Open| - |Close| - |r.value.0|
  {
    match FirstPair(text)
    case None => None
    case Some(p) =>
      var inner := Inner(text, p);
      InnerHasNoClose(text, p);
      Some((inner, Strip(RemovePairs(text))))
  }

  // ---------------------------------------------------------------- lemmas

  /** The lazy group never contains a closing tag. */
  lemma InnerHasNoClose(s: String, p: Pair)
    requires FirstPair(s) == Some(p)
    ensures !Contains(Inner(s, p), Close)
  {
    var t := Inner(s, p);
    if Contains(t, Close) {
      var k := Find(t, Close, 0).value;
      assert s[p.open + |Open| + k..p.open + |Open| + k + |Close|] == t[k..k + |Close|];
      assert OccursAt(s, Close, p.open + |Open| + k);
      assert false;
    }
  }

  /** No proper prefix of a tag is also a suffix of it: every character after the
      first differs from the opening `<`. */
  lemma TagsUnbordered()
    ensures forall d :: 1 <= d < |Open| ==> Open[d] != '<'
    ensures forall d :: 1 <= d < |Close| ==> Close[d] != '<'
  {
  }

  /** A pair found in a prefix is the first pair of every extension. */
  lemma FirstPairExtend(s: String, t: String)
    requires HasPair(s)
    ensures FirstPair(s + t) == FirstPair(s)
  {
    FindExtend(s, t, Open, 0);
    var a := Find(s, Open, 0).value;
    FindExtend(s, t, Close, a + |Open|);
  }

  /** A string with no complete pair has no prefix with one. */
  lemma NoPairPrefix(s: String, t: String)
    requires !HasPair(s + t)
    ensures !HasPair(s)
  {
    if HasPair(s) {
      FirstPairExtend(s, t);
    }
  }

  /** A closing tag at `j` inside `x + Close + y`, with `x` holding no closing tag,
      can only be the one right after `x`. */
  lemma {:induction false} CloseAfter(x: String, y: String, j: nat)
    requires !Contains(x, Close) && j < |x|
    ensures !OccursAt(x + Close + y, Close, j)
  {
    var s := x + Close + y;
    if j + |Close| <= |x| {
      assert s[j..j + |Close|] == x[j..j + |Close|];
      assert Find(x, Close, 0).None? && !OccursAt(x, Close, j);
    } else {
      TagsUnbordered();
      var d := |x| - j;
      assert s[|x|] == '<' && Close[d] != '<';
      assert OccursAt(s, Close, j) ==> s[j..j + |Close|][d] == s[|x|];
    }
  }

  /** In `<think>t</think>o`, with no closing tag in `t`, the first pair spans the
      leading tags. */
  lemma {:induction false} FirstPairTagged(t: String, o: String)
    requires !Contains(t, Close)
    ensures FirstPair(Open + t + Close + o) == Some(Pair(0, |Open| + |t|))
  {
    var s := Open + t + Close + o;
    var u := t + Close + o;
    assert s == Open + u;
    assert s[..|Open|] == Open;
    FindFirst(s, Open, 0, 0);
    var c := |Open| + |t|;
    assert s[c..c + |Close|] == Close;
    forall j | |Open| <= j < c
      ensures !OccursAt(s, Close, j)
    {
      CloseAfter(t, o, j - |Open|);
      assert s[j..j + |Close|] == u[j - |Open|..j - |Open| + |Close|];
    }
    FindFirst(s, Close, |Open|, c);
  }

  /** An opening tag at `j` inside `x + Open + y`, with `x` holding no opening tag,
      can only be the one right after `x`. */
  lemma {:induction false} OpenAfter(x: String, y: String, j: nat)
    requires !Contains(x, Open) && j < |x|
    ensures !OccursAt(x + Open + y, Open, j)
  {
    var s := x + Open + y;
    if j + |Open| <= |x| {
      assert s[j..j + |Open|] == x[j..j + |Open|];
      assert Find(x, Open, 0).None? && !OccursAt(x, Open, j);
    } else {
      TagsUnbordered();
      var d := |x| - j;
      assert s[|x|] == '<' && Open[d] != '<';
      assert OccursAt(s, Open, j) ==> s[j..j + |Open|][d] == s[|x|];
    }
  }

  /** The first opening tag of `p<think>u` is the one right after `p`. */
  lemma {:induction false} FindOpenAfter(p: String, u: String)
    requires !Contains(p, Open)
    ensures Find(p + Open + u, Open, 0) == Some(|p|)
  {
    var s := p + Open + u;
    assert s[|p|..|p| + |Open|] == Open;
    forall a | 0 <= a < |p|
      ensures !OccursAt(s, Open, a)
    {
      OpenAfter(p, u, a);
    }
    FindFirst(s, Open, 0, |p|);
  }

  /** After the opening tag, the first closing tag of `p<think>t</think>o` is the one
      right after `t`. */
  lemma {:induction false} FindCloseAfter(p: String, t: String, o: String)
    requires !Contains(t, Close)
    ensures Find(p + Open + t + Close + o, Close, |p| + |Open|) == Some(|p| + |Open| + |t|)
  {
    var s := p + Open + t + Close + o;
    var u := t + Close + o;
    var b := |p| + |Open|;
    var c := b + |t|;
    assert s == (p + Open) + u;
    assert s[c..c + |Close|] == Close;
    forall j | b <= j < c
      ensures !OccursAt(s, Close, j)
    {
      CloseAfter(t, o, j - b);
      assert s[j..j + |Close|] == u[j - b..j - b + |Close|];
    }
    FindFirst(s, Close, b, c);
  }

  /** In `p<think>t</think>o`, with no opening tag in `p` and no closing tag in `t`,
      the first pair is the one right after `p`. */
  lemma FirstPairAfter(p: String, t: String, o: String)
    requires !Contains(p, Open) && !Contains(t, Close)
    ensures FirstPair(p + Open + t + Close + o) == Some(Pair(|p|, |p| + |Open| + |t|))
  {
    assert p + Open + t + Close + o == p + Open + (t + Close + o);
    FindOpenAfter(p, t + Close + o);
    FindCloseAfter(p, t, o);
  }

  /** `re.sub` keeps the text before the first pair and goes on after it: in
      `p<think>t</think>o`, with no opening tag in `p` and no closing tag in `t`, the
      result is `p` followed by the removal applied to `o`. */
  lemma RemovePairsPrefix(p: String, t: String, o: String)
    requires !Contains(p, Open) && !Contains(t, Close)
    ensures RemovePairs(p + Open + t + Close + o) == p + RemovePairs(o)
  {
    var s := p + Open + t + Close + o;
    FirstPairAfter(p, t, o);
    var c := |p| + |Open| + |t|;
    assert s[..|p|] == p;
    assert s[c + |Close|..] == o;
  }

  /** `separate_thoughts_and_output` of `p<think>t</think>o` is `t` and the text around
      the pair, pairs removed and stripped: text before `<think>` is kept. */
  lemma SeparatePrefix(p: String, t: String, o: String)
    requires !Contains(p, Open) && !Contains(t, Close)
    ensures SeparateThoughtsAndOutput(p + Open + t + Close + o) == Some((t, Strip(p + RemovePairs(o))))
  {
    var s := p + Open + t + Close + o;
    FirstPairAfter(p, t, o);
    RemovePairsPrefix(p, t, o);
    var b := |p| + |Open|;
    assert s[b..b + |t|] == t;
  }

  /** In `<think>t</think>o`, with no closing tag in `t` and no pair in `o`, the first
      pair holds `t` and removing the pairs leaves `o`. */
  lemma TaggedParts(t: String, o: String)
    requires !Contains(t, Close) && !HasPair(o)
    ensures var s := Open + t + Close + o;
            HasPair(s) && Inner(s, FirstPair(s).value) == t && RemovePairs(s) == o
  {
    var s := Open + t + Close + o;
    FirstPairTagged(t, o);
    var c := |Open| + |t|;
    assert s[c + |Close|..] == o;
    assert s[|Open|..c] == t;
    assert RemovePairs(s) == s[..0] + RemovePairs(o);
    assert s[..0] + o == o;
  }

  /** A reply laid out as `<think>t</think>o`, where `t` holds no closing tag and `o`
      no complete pair, separates into `t` and the stripped `o`. */
  lemma SeparateCompose(t: String, o: String)
    requires !Contains(t, Close) && !HasPair(o)
    ensures SeparateThoughtsAndOutput(Open + t + Close + o) == Some((t, Strip(o)))
  {
    TaggedParts(t, o);
  }

  /** Without a `<` there is no tag and so no pair. */
  lemma NoTagsWithoutAngle(s: String)
    requires '<' !in s
    ensures !Contains(s, Open) && !Contains(s, Close) && !HasPair(s)
  {
    forall k | 0 <= k && k + |Open| <= |s|
      ensures !OccursAt(s, Open, k)
    {
      assert s[k..k + |Open|][0] == s[k];
    }
    forall k | 0 <= k && k + |Close| <= |s|
      ensures !OccursAt(s, Close, k)
    {
      assert s[k..k + |Close|][0] == s[k];
    }
  }

  /** A string shorter than an opening tag holds none. */
  lemma ShortHasNoTag(s: String)
    requires |s| < |Open|
    ensures !Contains(s, Open) && !HasPair(s)
  {
  }
}
