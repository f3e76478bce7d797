/**
 * ShortCodeGenerator: a short code drawn from a pool of characters. The
 * randomness of str_shuffle is a parameter: the permutation it applied.
 */
module ShortCode {
  import opened Wrappers

  const DefaultLength := 8
  /** The default pool leaves out the look-alike characters 0, O, 1 and I. */
  const DefaultPool := "23456789ABCDEFGHJKLMNPQRSTUVWXYZ"

  datatype ShortCodeGenerator = ShortCodeGenerator(length: int, pool: string)

  const Default := ShortCodeGenerator(DefaultLength, DefaultPool)

  /** str_repeat: `n` copies of `s`. */
  function Repeat(s: string, n: nat): (r: string)
    ensures |r| == |s| * n
    ensures forall i :: 0 <= i < |r| ==> r[i] in s
  {
    if n == 0 then [] else s + Repeat(s, n - 1)
  }

  /** `p` lists each position of a string of length `n` exactly once. */
  predicate IsPermutation(p: seq<nat>, n: nat)
  {
    |p| == n && (forall i :: 0 <= i < n ==> p[i] < n) && (forall i, j :: 0 <= i < j < n ==> p[i] != p[j])
  }

  /** str_shuffle, as the permutation `p` it applied. */
  function Shuffled(s: string, p: seq<nat>): (r: string)
    requires IsPermutation(p, |s|)
    ensures |r| == |s|
    ensures forall i :: 0 <= i < |r| ==> r[i] in s
  {
    seq(|s|, i requires 0 <= i < |s| => s[p[i]])
  }

  /**
   * str_shuffle only reorders: the shuffle holds each character of `s` as
   * often as `s` does. The last position of the shuffle reads s[k]; taking
   * position k out of `s`, and renumbering the other picks, leaves a shuffle
   * of the shorter string.
   */
  lemma {:induction false} ShuffleKeepsCharacters(s: string, p: seq<nat>)
    requires IsPermutation(p, |s|)
    ensures multiset(Shuffled(s, p)) == multiset(s)
    decreases |s|
  {
    var r := Shuffled(s, p);
    if |s| > 0 {
      var n := |s|;
      var k := p[n - 1];
      var rest := s[..k] + s[k + 1..];
      var picks := seq(n - 1, i requires 0 <= i < n - 1 => if p[i] < k then p[i] else p[i] - 1);
      forall i | 0 <= i < n - 1
        ensures picks[i] < n - 1 && rest[picks[i]] == s[p[i]]
      {
        assert p[i] != p[n - 1];
      }
      forall i, j | 0 <= i < j < n - 1
        ensures picks[i] != picks[j]
      {
        assert p[i] != p[j] && p[i] != k && p[j] != k;
      }
      ShuffleKeepsCharacters(rest, picks);
      assert Shuffled(rest, picks) == r[..n - 1];
      assert r == r[..n - 1] + [s[k]];
      assert s == s[..k] + [s[k]] + s[k + 1..];
    }
  }

  /**
   * generate: the first `length` characters of a shuffle of `length` copies
   * of the pool. A negative length makes str_repeat raise.
   */
  function Generate(g: ShortCodeGenerator, shuffle: seq<nat>): (r: Option<string>)
    requires g.length >= 0 ==> IsPermutation(shuffle, |g.pool| * g.length)
    ensures r.None? <==> g.length < 0
    ensures r.Some? && g.pool != [] ==> |r.value| == g.length
    ensures r.Some? && g.pool == [] ==> r.value == []
    ensures r.Some? ==> forall i :: 0 <= i < |r.value| ==> r.value[i] in g.pool
  {
    if g.length < 0 then None
    else
      var s := Shuffled(Repeat(g.pool, g.length), shuffle);
      assert g.pool != [] ==> |s| >= g.length by {
        if g.pool != [] { MultiplyByPositive(|g.pool|, g.length); }
      }
      Some(if |s| < g.length then s else s[..g.length])
  }

  lemma MultiplyByPositive(a: nat, b: nat)
    requires a >= 1
    ensures a * b >= b
  {
  }

  /** A one-character pool yields that character `length` times, whatever the shuffle. */
  lemma SingleCharacterPool(c: char, length: nat, shuffle: seq<nat>)
    requires IsPermutation(shuffle, length)
    ensures Generate(ShortCodeGenerator(length, [c]), shuffle) == Some(seq(length, _ => c))
  {
    assert |[c]| * length == length;
    var r := Generate(ShortCodeGenerator(length, [c]), shuffle).value;
    assert |r| == length;
    assert forall i :: 0 <= i < |r| ==> r[i] == seq(length, _ => c)[i];
    assert r == seq(length, _ => c);
  }

  predicate Lookalike(c: char)
  {
    c == '0' || c == 'O' || c == '1' || c == 'I'
  }

  /** The default generator gives eight characters, none of them 0, O, 1 or I. */
  lemma DefaultCodes(g: ShortCodeGenerator, shuffle: seq<nat>)
    requires g == Default && IsPermutation(shuffle, |DefaultPool| * DefaultLength)
    ensures var r := Generate(g, shuffle);
      r.Some? && |r.value| == DefaultLength && forall i :: 0 <= i < |r.value| ==> !Lookalike(r.value[i])
  {
    var r := Generate(g, shuffle);
    DefaultPoolHasNoLookalike();
    forall i | 0 <= i < |r.value|
      ensures !Lookalike(r.value[i])
    {
      assert r.value[i] in DefaultPool;
    }
  }

  lemma DefaultPoolHasNoLookalike()
    ensures forall c :: c in DefaultPool ==> !Lookalike(c)
  {
    assert forall j :: 0 <= j < |DefaultPool| ==> !Lookalike(DefaultPool[j]);
  }
}
