/** String operations the screens use from the JavaScript runtime:
    `String.prototype.split` with a one-character separator, its inverse
    `Array.prototype.join`, and `String.prototype.includes`. */
module Text {

  /** The parts joined back with `sep` between consecutive ones. */
  function Join(parts: seq<string>, sep: char): (s: string)
    requires |parts| >= 1
    decreases |parts|
  {
    if |parts| == 1 then parts[0] else parts[0] + [sep] + Join(parts[1..], sep)
  }

  /** `s.split(sep)`: the maximal runs between separators, always at least one
      part (the empty string splits into one empty part). */
  function Split(s: string, sep: char): (parts: seq<string>)
    ensures |parts| >= 1
    ensures forall i :: 0 <= i < |parts| ==> sep !in parts[i]
    ensures Join(parts, sep) == s
    decreases |s|
  {
    if |s| == 0 then [""]
    else if s[0] == sep then [""] + Split(s[1..], sep)
    else
      var rest := Split(s[1..], sep);
      [[s[0]] + rest[0]] + rest[1..]
  }

  /** Splitting a join of separator-free parts gives the parts back. */
  lemma {:induction false} SplitJoin(parts: seq<string>, sep: char)
    requires |parts| >= 1
    requires forall i :: 0 <= i < |parts| ==> sep !in parts[i]
    ensures Split(Join(parts, sep), sep) == parts
    decreases |parts|, |parts[0]|
  {
    var p := parts[0];
    if |p| == 0 {
      if |parts| > 1 {
        SplitJoin(parts[1..], sep);
        assert Join(parts, sep) == [sep] + Join(parts[1..], sep);
      }
    } else {
      var shorter := [p[1..]] + parts[1..];
      assert forall i :: 0 <= i < |shorter| ==> sep !in shorter[i];
      SplitJoin(shorter, sep);
      assert shorter[1..] == parts[1..];
      if |parts| == 1 {
        assert Join(parts, sep) == [p[0]] + Join(shorter, sep);
      } else {
        assert Join(parts, sep) == [p[0]] + Join(shorter, sep);
      }
      assert [p[0]] + p[1..] == p;
    }
  }

  /** `s.startsWith(sub)`. */
  predicate StartsWith(s: string, sub: string)
  {
    |sub| <= |s| && s[..|sub|] == sub
  }

  /** `sub` occurs in `s` starting at index `i`. */
  predicate OccursAt(sub: string, s: string, i: int)
  {
    0 <= i <= |s| - |sub| && s[i..i + |sub|] == sub
  }

  /** A string put between a prefix and a suffix occurs right after the prefix. */
  lemma OccursBetween(pre: string, sub: string, post: string)
    ensures OccursAt(sub, pre + sub + post, |pre|)
  {
    assert (pre + sub + post)[|pre|..|pre| + |sub|] == sub;
  }

  /** A string put after a prefix occurs right after it. */
  lemma OccursAfter(pre: string, sub: string)
    ensures OccursAt(sub, pre + sub, |pre|)
  {
    assert (pre + sub)[|pre|..|pre| + |sub|] == sub;
  }

  /** `sub` occurs in `s` at some position. */
  ghost predicate OccursIn(sub: string, s: string)
  {
    exists i :: OccursAt(sub, s, i)
  }

  /** Dropping the first character loses no occurrence unless one starts there. */
  lemma OccursAfterFirst(s: string, sub: string)
    requires |s| > 0 && !StartsWith(s, sub)
    ensures OccursIn(sub, s) <==> OccursIn(sub, s[1..])
  {
    if OccursIn(sub, s[1..]) {
      var i :| OccursAt(sub, s[1..], i);
      assert s[i + 1..i + 1 + |sub|] == s[1..][i..i + |sub|];
      assert OccursAt(sub, s, i + 1);
    }
    if OccursIn(sub, s) {
      var i :| OccursAt(sub, s, i);
      assert !OccursAt(sub, s, 0) by { assert s[0..|sub|] == s[..|sub|]; }
      assert s[1..][i - 1..i - 1 + |sub|] == s[i..i + |sub|];
      assert OccursAt(sub, s[1..], i - 1);
    }
  }

  /** A character of `sub` that `s` lacks rules every occurrence out. */
  lemma AbsentCharRulesOut(s: string, sub: string, j: nat)
    requires j < |sub| && sub[j] !in s
    ensures !OccursIn(sub, s)
  {
    forall i | 0 <= i <= |s| - |sub| ensures !OccursAt(sub, s, i) {
      assert s[i..i + |sub|][j] == s[i + j] != sub[j];
    }
  }

  /** A character of `sub` that occurs exactly once in `s`, at `k`, pins the
      only position where `sub` could start. */
  lemma UniqueCharPins(s: string, sub: string, j: nat, k: nat)
    requires j < |sub| && k < |s| && s[k] == sub[j]
    requires forall m :: 0 <= m < |s| && m != k ==> s[m] != sub[j]
    ensures OccursIn(sub, s) <==> OccursAt(sub, s, k - j)
  {
    if OccursIn(sub, s) {
      var i :| OccursAt(sub, s, i);
      assert s[i..i + |sub|][j] == s[i + j] == sub[j];
    }
  }
  /** `sub` is absent from `pre + mid + post` when one of its characters,
      `sub[j]`, occurs there only once, at `mid[k]`, and the one place this
      pins `sub` to disagrees with it at `sub[p]`, inside `mid`. */
  lemma AbsentByUniqueChar(pre: string, mid: string, post: string, sub: string, j: nat, k: nat, p: nat)
    requires j < |sub| && k < |mid| && mid[k] == sub[j]
    requires sub[j] !in pre && sub[j] !in mid[..k] && sub[j] !in mid[k + 1..] && sub[j] !in post
    requires p < |sub| && j <= k + p < |mid| + j && mid[k + p - j] != sub[p]
    ensures !OccursIn(sub, pre + mid + post)
  {
    var s := pre + mid + post;
    var c := sub[j];
    forall m | 0 <= m < |s| && m != |pre| + k ensures s[m] != c {
      if m < |pre| {
        assert s[m] == pre[m];
      } else if m < |pre| + k {
        assert s[m] == mid[..k][m - |pre|];
      } else if m < |pre| + |mid| {
        assert s[m] == mid[k + 1..][m - |pre| - k - 1];
      } else {
        assert s[m] == post[m - |pre| - |mid|];
      }
    }
    UniqueCharPins(s, sub, j, |pre| + k);
    var i := |pre| + k - j;
    if 0 <= i <= |s| - |sub| {
      assert s[i + p] == (pre + mid)[|pre| + (k + p - j)] == mid[k + p - j];
      assert s[i..i + |sub|][p] == s[i + p];
    }
  }


  /** `s.includes(sub)`. */
  function Includes(s: string, sub: string): (r: bool)
    ensures r <==> OccursIn(sub, s)
    decreases |s|
  {
    if StartsWith(s, sub) then
      assert OccursAt(sub, s, 0);
      true
    else if |s| == 0 then
      false
    else
      OccursAfterFirst(s, sub);
      Includes(s[1..], sub)
  }
}
