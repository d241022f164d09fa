/** The two string operations the prompt builder relies on:
    `Array.prototype.join('')` and `String.prototype.replace` with a string
    pattern, which replaces only the first occurrence. */
module Text {

  /** `parts.join('')`: the parts concatenated in order, no separator. */
  function Join(parts: seq<string>): string
  {
    if parts == [] then "" else parts[0] + Join(parts[1..])
  }

  /** Joining is compatible with splitting the list anywhere. */
  lemma {:induction false} JoinAppend(a: seq<string>, b: seq<string>)
    ensures Join(a + b) == Join(a) + Join(b)
  {
    if a == [] {
      assert a + b == b;
    } else {
      assert (a + b)[0] == a[0];
      assert (a + b)[1..] == a[1..] + b;
      JoinAppend(a[1..], b);
    }
  }

  /** The join of all parts is the join of those before `i`, part `i`, and
      the join of those after it. */
  lemma {:induction false} JoinAround(parts: seq<string>, i: nat)
    requires i < |parts|
    ensures Join(parts) == Join(parts[..i]) + parts[i] + Join(parts[i + 1..])
  {
    var before, after := parts[..i], parts[i + 1..];
    assert parts == (before + [parts[i]]) + after;
    JoinAppend(before + [parts[i]], after);
    JoinAppend(before, [parts[i]]);
    assert Join([parts[i]]) == parts[i] by {
      assert [parts[i]][1..] == [];
    }
  }

  /** A character occurs in the join iff it occurs in one of the parts. */
  lemma {:induction false} JoinChars(parts: seq<string>, c: char)
    ensures c in Join(parts) <==> exists i :: 0 <= i < |parts| && c in parts[i]
  {
    if parts != [] {
      JoinChars(parts[1..], c);
      if c in parts[0] {
      } else if c in Join(parts[1..]) {
        var i :| 0 <= i < |parts[1..]| && c in parts[1..][i];
        assert c in parts[i + 1];
      } else {
        forall i | 0 <= i < |parts| ensures c !in parts[i] {
          if i > 0 { assert parts[i] == parts[1..][i - 1]; }
        }
      }
    }
  }

  predicate IsPrefix(pat: string, s: string)
  {
    |pat| <= |s| && s[..|pat|] == pat
  }

  /** `pat` occurs in `s` starting at index `k`. */
  predicate OccursAt(s: string, pat: string, k: nat)
  {
    k + |pat| <= |s| && s[k..k + |pat|] == pat
  }

  /** `s.replace(pat, rep)` with a string pattern: the first occurrence of
      `pat`, if any, is replaced by `rep`. An empty pattern matches at the
      start, as in JavaScript. */
  function ReplaceFirst(s: string, pat: string, rep: string): string
    decreases |s|
  {
    if IsPrefix(pat, s) then rep + s[|pat|..]
    else if s == [] then s
    else [s[0]] + ReplaceFirst(s[1..], pat, rep)
  }

  /** No occurrence of `pat` in `s` starts before index `k`. */
  predicate NoMatchBefore(s: string, pat: string, k: nat)
  {
    forall j: nat :: j < k ==> !OccursAt(s, pat, j)
  }

  /** Occurrences in `s[1..]` are those in `s`, shifted by one. */
  lemma {:induction false} OccursAtTail(s: string, pat: string, k: nat)
    requires s != []
    ensures OccursAt(s[1..], pat, k) <==> OccursAt(s, pat, k + 1)
  {
    if k + 1 + |pat| <= |s| {
      assert s[1..][k..k + |pat|] == s[k + 1..k + 1 + |pat|];
    }
  }

  lemma {:induction false} NoMatchBeforeTail(s: string, pat: string, k: nat)
    requires s != [] && NoMatchBefore(s, pat, k + 1)
    ensures NoMatchBefore(s[1..], pat, k)
  {
    forall j: nat | j < k ensures !OccursAt(s[1..], pat, j) {
      OccursAtTail(s, pat, j);
    }
  }

  /** Without an occurrence of the pattern, `replace` returns its input. */
  lemma {:induction false} ReplaceFirstNoMatch(s: string, pat: string, rep: string)
    requires NoMatchBefore(s, pat, |s| + 1)
    ensures ReplaceFirst(s, pat, rep) == s
    decreases |s|
  {
    assert !OccursAt(s, pat, 0);
    PrefixIsOccurrence(s, pat);
    if s != [] {
      NoMatchBeforeTail(s, pat, |s[1..]| + 1);
      ReplaceFirstNoMatch(s[1..], pat, rep);
    }
  }

  /** With a first occurrence at `k`, `replace` splices `rep` in there. */
  lemma {:induction false} ReplaceFirstAtFirstMatch(s: string, pat: string, rep: string, k: nat)
    requires OccursAt(s, pat, k) && NoMatchBefore(s, pat, k)
    ensures ReplaceFirst(s, pat, rep) == s[..k] + rep + s[k + |pat|..]
    decreases k
  {
    if k == 0 {
      PrefixIsOccurrence(s, pat);
      assert s[..0] == [];
    } else {
      assert !OccursAt(s, pat, 0);
      PrefixIsOccurrence(s, pat);
      OccursAtTail(s, pat, k - 1);
      NoMatchBeforeTail(s, pat, k - 1);
      ReplaceFirstAtFirstMatch(s[1..], pat, rep, k - 1);
      SpliceAfterHead(s, k, |pat|, rep);
    }
  }

  /** A pattern is a prefix exactly when it occurs at index 0. */
  lemma {:induction false} PrefixIsOccurrence(s: string, pat: string)
    ensures IsPrefix(pat, s) <==> OccursAt(s, pat, 0)
  {
    if |pat| <= |s| {
      assert s[..|pat|] == s[0..|pat|];
    }
  }

  /** Splicing into the tail and putting the head back in front is
      splicing into the whole string. */
  lemma {:induction false} SpliceAfterHead(s: string, k: nat, m: nat, rep: string)
    requires 0 < k && k + m <= |s|
    ensures [s[0]] + (s[1..][..k - 1] + rep + s[1..][k - 1 + m..]) == s[..k] + rep + s[k + m..]
  {
    assert s[1..][..k - 1] == s[1..k];
    assert s[1..][k - 1 + m..] == s[k + m..];
    assert [s[0]] + s[1..k] == s[..k];
  }

  /** A prefix free of the pattern's first character is passed over:
      the first occurrence lies after it. */
  lemma {:induction false} ReplaceFirstSkips(a: string, b: string, pat: string, rep: string)
    requires |pat| > 0 && pat[0] !in a
    ensures ReplaceFirst(a + b, pat, rep) == a + ReplaceFirst(b, pat, rep)
  {
    if a != [] {
      assert !IsPrefix(pat, a + b) by {
        assert (a + b)[0] == a[0];
        if |pat| <= |a + b| { assert (a + b)[..|pat|][0] == a[0]; }
      }
      assert (a + b)[1..] == a[1..] + b;
      ReplaceFirstSkips(a[1..], b, pat, rep);
    } else {
      assert a + b == b;
    }
  }

  /** When `a` holds an occurrence of the pattern, the replacement happens
      inside `a` and `b` is untouched. */
  lemma {:induction false} ReplaceFirstWithin(a: string, b: string, pat: string, rep: string, k: nat)
    requires OccursAt(a, pat, k)
    ensures ReplaceFirst(a + b, pat, rep) == ReplaceFirst(a, pat, rep) + b
    decreases |a|
  {
    if IsPrefix(pat, a + b) {
      assert IsPrefix(pat, a) by { assert (a + b)[..|pat|] == a[..|pat|]; }
      assert (a + b)[|pat|..] == a[|pat|..] + b;
    } else {
      assert |pat| <= |a|;
      assert (a + b)[..|pat|] == a[..|pat|];
      assert a[..|pat|] == a[0..|pat|];
      assert k > 0;
      assert OccursAt(a[1..], pat, k - 1) by {
        assert a[1..][k - 1..k - 1 + |pat|] == a[k..k + |pat|];
      }
      assert (a + b)[1..] == a[1..] + b;
      ReplaceFirstWithin(a[1..], b, pat, rep, k - 1);
    }
  }

  /** A string starting with the pattern has it replaced right there. */
  lemma {:induction false} ReplaceFirstAtStart(pat: string, b: string, rep: string)
    ensures ReplaceFirst(pat + b, pat, rep) == rep + b
  {
    assert IsPrefix(pat, pat + b) by { assert (pat + b)[..|pat|] == pat; }
    assert (pat + b)[|pat|..] == b;
  }
}
