/**
 * The ordinal string operations the decoders use: StringBuilder
 * concatenation, String.StartsWith, String.IndexOf / Contains and the
 * two-way String.Split around the first occurrence of a separator.
 */
module Text {
  import opened Wrappers

  /** Concatenation of a list of strings, in order. */
  function Join(ss: seq<string>): string
  {
    if ss == [] then "" else Join(ss[..|ss| - 1]) + ss[|ss| - 1]
  }

  lemma {:induction false} JoinAppend(ss: seq<string>, tt: seq<string>)
    ensures Join(ss + tt) == Join(ss) + Join(tt)
    decreases |tt|
  {
    if tt == [] {
      assert ss + tt == ss;
    } else {
      var n := |tt| - 1;
      var all := ss + tt;
      assert all[..|all| - 1] == ss + tt[..n];
      assert all[|all| - 1] == tt[n];
      JoinAppend(ss, tt[..n]);
      var a, b := Join(ss), Join(tt[..n]);
      assert Join(all) == (a + b) + tt[n];
      assert Join(tt) == b + tt[n];
      assert (a + b) + tt[n] == a + (b + tt[n]);
    }
  }

  /** Joining strings that are all empty gives the empty string. */
  lemma {:induction false} JoinOfEmpties(ss: seq<string>)
    requires forall k :: 0 <= k < |ss| ==> ss[k] == ""
    ensures Join(ss) == ""
    decreases |ss|
  {
    if ss != [] {
      JoinOfEmpties(ss[..|ss| - 1]);
    }
  }

  predicate StartsWith(s: string, p: string)
  {
    |p| <= |s| && s[..|p|] == p
  }

  lemma StartsWithExtend(s: string, p: string, x: string)
    requires StartsWith(s, p)
    ensures StartsWith(s + x, p)
  {
    assert (s + x)[..|p|] == s[..|p|];
  }

  lemma StartsWithTrans(a: string, b: string, c: string)
    requires StartsWith(a, b) && StartsWith(b, c)
    ensures StartsWith(a, c)
  {
    assert a[..|c|] == a[..|b|][..|c|];
  }

  /** `t` occurs in `s` at position `k`. */
  predicate OccursAt(s: string, t: string, k: nat)
  {
    k + |t| <= |s| && s[k..k + |t|] == t
  }

  /** The first occurrence of `t` in `s` at or after position `i`. */
  function IndexFrom(s: string, t: string, i: nat): (r: Option<nat>)
    ensures r.Some? ==> i <= r.value && OccursAt(s, t, r.value)
    ensures r.Some? ==> forall k :: i <= k < r.value ==> !OccursAt(s, t, k)
    ensures r.None? ==> forall k :: i <= k ==> !OccursAt(s, t, k)
    decreases |s| - i
  {
    if |s| < i + |t| then None
    else if s[i..i + |t|] == t then Some(i)
    else IndexFrom(s, t, i + 1)
  }

  /** String.IndexOf with ordinal comparison: the first occurrence, if any. */
  function IndexOf(s: string, t: string): (r: Option<nat>)
    ensures r.Some? ==> OccursAt(s, t, r.value) && forall k :: 0 <= k < r.value ==> !OccursAt(s, t, k)
    ensures r.None? ==> forall k :: 0 <= k ==> !OccursAt(s, t, k)
  {
    IndexFrom(s, t, 0)
  }

  /**
   * C# `string.Length`: the number of UTF-16 code units, two for a character
   * outside the Basic Multilingual Plane (a surrogate pair), one otherwise.
   */
  function Utf16Length(s: string): (n: nat)
    ensures |s| <= n <= 2 * |s|
  {
    if s == [] then 0 else Utf16Length(s[..|s| - 1]) + if s[|s| - 1] as int > 0xFFFF then 2 else 1
  }

  /** Text of the Basic Multilingual Plane is one code unit per character. */
  lemma {:induction false} Utf16Narrow(s: string)
    requires forall j :: 0 <= j < |s| ==> s[j] as int <= 0xFFFF
    ensures Utf16Length(s) == |s|
    decreases |s|
  {
    if s != [] {
      Utf16Narrow(s[..|s| - 1]);
    }
  }

  /** Text of characters outside the Basic Multilingual Plane is two code units per character. */
  lemma {:induction false} Utf16Wide(s: string)
    requires forall j :: 0 <= j < |s| ==> s[j] as int > 0xFFFF
    ensures Utf16Length(s) == 2 * |s|
    decreases |s|
  {
    if s != [] {
      Utf16Wide(s[..|s| - 1]);
    }
  }

  lemma {:induction false} Utf16Append(a: string, b: string)
    ensures Utf16Length(a + b) == Utf16Length(a) + Utf16Length(b)
    decreases |b|
  {
    if b != [] {
      var b' := b[..|b| - 1];
      assert (a + b)[..|a + b| - 1] == a + b';
      assert (a + b)[|a + b| - 1] == b[|b| - 1];
      Utf16Append(a, b');
    } else {
      assert a + b == a;
    }
  }

  predicate Contains(s: string, t: string)
  {
    IndexOf(s, t).Some?
  }

  /** Concatenation regrouped. */
  lemma Regroup(a: string, b: string, c: string)
    ensures (a + b) + c == a + (b + c)
  {
  }

  /** Text lacking one of the characters of `t` does not contain `t`. */
  lemma MissingCharacter(s: string, t: string, a: nat)
    requires a < |t| && forall j :: 0 <= j < |s| ==> s[j] != t[a]
    ensures !Contains(s, t)
  {
    forall k: nat | k + |t| <= |s|
      ensures !OccursAt(s, t, k)
    {
      assert s[k..k + |t|][a] == s[k + a] != t[a];
    }
  }

  /** Text that contains `t` still contains it once more text is appended. */
  lemma ContainsExtend(s: string, t: string, x: string)
    requires Contains(s, t)
    ensures Contains(s + x, t)
  {
    var k := IndexOf(s, t).value;
    assert (s + x)[k..k + |t|] == s[k..k + |t|];
    assert OccursAt(s + x, t, k);
  }

  /** Text that contains `t` still contains it once text is put in front. */
  lemma ContainsPrepend(x: string, s: string, t: string)
    requires Contains(s, t)
    ensures Contains(x + s, t)
  {
    var k := IndexOf(s, t).value;
    assert (x + s)[|x| + k..|x| + k + |t|] == s[k..k + |t|];
    assert OccursAt(x + s, t, |x| + k);
  }

  /** `x` is a suffix of `s`. */
  predicate EndsWith(s: string, x: string)
  {
    |x| <= |s| && s[|s| - |x|..] == x
  }

  /**
   * String.Split(new[] { t }, 2, StringSplitOptions.None) on a string that
   * contains `t`: the text before the first occurrence and the rest after it.
   */
  function SplitFirst(s: string, t: string): (parts: (string, string))
    requires Contains(s, t)
    ensures s == parts.0 + t + parts.1
    ensures forall k :: 0 <= k < |parts.0| ==> !OccursAt(s, t, k)
  {
    var k := IndexOf(s, t).value;
    assert s == s[..k] + s[k..k + |t|] + s[k + |t|..];
    (s[..k], s[k + |t|..])
  }

  /**
   * `s.Split(new[] { t }, 2, StringSplitOptions.None)` on text that contains
   * `t`, read as (parts[0], parts[1] or ""): a cut at the first occurrence,
   * except that an empty separator is ignored and `s` comes back whole.
   */
  function SplitOnce(s: string, t: string): (parts: (string, string))
    requires Contains(s, t)
    ensures s == parts.0 + t + parts.1
    ensures t != "" ==> forall k :: 0 <= k < |parts.0| ==> !OccursAt(s, t, k)
    ensures t == "" ==> parts.1 == ""
  {
    if t == "" then (s, "") else SplitFirst(s, t)
  }

  /** Where the first occurrence is known, `SplitFirst` cuts there. */
  lemma SplitAt(s: string, t: string, k: nat)
    requires OccursAt(s, t, k)
    requires forall j :: 0 <= j < k ==> !OccursAt(s, t, j)
    ensures Contains(s, t)
    ensures SplitFirst(s, t) == (s[..k], s[k + |t|..])
  {
    var i := IndexOf(s, t);
    assert i.Some?;
    assert i.value == k;
  }
}
