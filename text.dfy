/** String operations of Python's `str` that the core relies on: `in`, `find`,
    and `replace(pat, "")`, written over `seq<char>`. */
module Text {

  /** `p` is a prefix of `s`. */
  predicate IsPrefix(p: string, s: string) {
    |p| <= |s| && s[..|p|] == p
  }

  /** `pat` occurs in `s` starting at index `i`. */
  predicate OccursAt(s: string, pat: string, i: int) {
    0 <= i && i + |pat| <= |s| && s[i..i + |pat|] == pat
  }

  /** Python's `pat in s`, defined by scanning from the left. */
  predicate Contains(s: string, pat: string)
    decreases |s|
  {
    IsPrefix(pat, s) || (|s| > 0 && Contains(s[1..], pat))
  }

  /** Python's `s.find(pat, start)`: the least index `>= start` where `pat`
      occurs, or -1. */
  function FindFrom(s: string, pat: string, start: nat): (r: int)
    ensures r == -1 || (start <= r && OccursAt(s, pat, r))
    ensures r != -1 ==> forall j :: start <= j < r ==> !OccursAt(s, pat, j)
    ensures r == -1 ==> forall j :: start <= j ==> !OccursAt(s, pat, j)
    decreases |s| - start
  {
    if start + |pat| > |s| then -1
    else if s[start..start + |pat|] == pat then start
    else FindFrom(s, pat, start + 1)
  }

  /** Python's `s.find(pat)`. */
  function Find(s: string, pat: string): int {
    FindFrom(s, pat, 0)
  }

  lemma {:induction false} OccursAtShift(s: string, pat: string, i: int)
    requires |s| > 0 && i >= 1
    ensures OccursAt(s, pat, i) <==> OccursAt(s[1..], pat, i - 1)
  {
    if 0 <= i && i + |pat| <= |s| {
      var here, there := s[i..i + |pat|], s[1..][i - 1..i - 1 + |pat|];
      forall j | 0 <= j < |pat| ensures here[j] == there[j] {
        assert there[j] == s[1..][i - 1 + j] == s[i + j];
      }
      assert here == there;
    }
  }

  /** `in` holds exactly when there is an occurrence. */
  lemma {:induction false} ContainsIffOccurs(s: string, pat: string)
    ensures Contains(s, pat) <==> exists i :: OccursAt(s, pat, i)
    decreases |s|
  {
    if IsPrefix(pat, s) {
      assert OccursAt(s, pat, 0);
    } else if |s| == 0 {
      assert forall i :: !OccursAt(s, pat, i);
    } else {
      ContainsIffOccurs(s[1..], pat);
      assert !OccursAt(s, pat, 0);
      if Contains(s[1..], pat) {
        var i :| OccursAt(s[1..], pat, i);
        OccursAtShift(s, pat, i + 1);
      } else {
        forall i | OccursAt(s, pat, i) ensures false {
          OccursAtShift(s, pat, i);
        }
      }
    }
  }

  /** `pat in s` exactly when `s.find(pat) != -1`. */
  lemma ContainsIffFound(s: string, pat: string)
    ensures Contains(s, pat) <==> Find(s, pat) >= 0
  {
    ContainsIffOccurs(s, pat);
    if Find(s, pat) >= 0 {
      assert OccursAt(s, pat, Find(s, pat));
    }
  }

  /** Python's `s.replace(pat, "")`: every non-overlapping occurrence, scanned
      from the left, is removed. */
  function Strip(s: string, pat: string): string
    decreases |s|
  {
    if |pat| == 0 || |s| == 0 then s
    else if IsPrefix(pat, s) then Strip(s[|pat|..], pat)
    else [s[0]] + Strip(s[1..], pat)
  }

  /** Replacing something that does not occur changes nothing. */
  lemma {:induction false} StripAbsent(s: string, pat: string)
    requires !Contains(s, pat)
    ensures Strip(s, pat) == s
    decreases |s|
  {
    if |pat| > 0 && |s| > 0 {
      StripAbsent(s[1..], pat);
    }
  }

  /** An occurrence at the very front is dropped. */
  lemma StripLeading(pat: string, t: string)
    requires |pat| > 0
    ensures Strip(pat + t, pat) == Strip(t, pat)
  {
    assert (pat + t)[..|pat|] == pat;
    assert (pat + t)[|pat|..] == t;
  }

  /** When no occurrence of `pat` starts inside `c`, `c` passes through
      untouched. */
  lemma {:induction false} StripKeepsFront(c: string, x: string, pat: string)
    requires forall i :: 0 <= i < |c| ==> !OccursAt(c + x, pat, i)
    ensures Strip(c + x, pat) == c + Strip(x, pat)
    decreases |c|
  {
    if |c| > 0 && |pat| > 0 {
      var s := c + x;
      assert !OccursAt(s, pat, 0);
      assert !IsPrefix(pat, s);
      assert s[1..] == c[1..] + x;
      forall i | 0 <= i < |c[1..]| ensures !OccursAt(c[1..] + x, pat, i) {
        OccursAtShift(s, pat, i + 1);
      }
      StripKeepsFront(c[1..], x, pat);
      assert [s[0]] + (c[1..] + Strip(x, pat)) == c + Strip(x, pat);
    } else if |c| == 0 {
      assert c + x == x;
    }
  }

  /** An occurrence lying wholly inside a prefix is an occurrence in it. */
  lemma OccursInFront(c: string, x: string, pat: string, i: int)
    requires OccursAt(c + x, pat, i) && i + |pat| <= |c|
    ensures Contains(c, pat)
  {
    assert (c + x)[i..i + |pat|] == c[i..i + |pat|];
    assert OccursAt(c, pat, i);
    ContainsIffOccurs(c, pat);
  }
}
