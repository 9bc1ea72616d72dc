/**
 * The JavaScript string operations the alert job relies on: `indexOf`,
 * `replace` with a string pattern (first occurrence only, with the `$`
 * substitution patterns of the replacement string) and `split` on one
 * separator character.
 */
module Text {
  import opened Wrappers

  /** `p` occurs in `s` starting at index `i`. */
  predicate OccursAt(s: string, p: string, i: int)
  {
    0 <= i && i + |p| <= |s| && s[i..i + |p|] == p
  }

  /** `p` is a substring of `s`. */
  predicate Contains(s: string, p: string)
  {
    exists i :: 0 <= i <= |s| && OccursAt(s, p, i)
  }

  /** A string contains its prefix. */
  lemma ContainsLeft(a: string, b: string)
    ensures Contains(a + b, a)
  {
    assert OccursAt(a + b, a, 0) by { assert (a + b)[..|a|] == a; }
  }

  /** A string contains its suffix. */
  lemma ContainsRight(a: string, b: string)
    ensures Contains(a + b, b)
  {
    assert OccursAt(a + b, b, |a|) by { assert (a + b)[|a|..] == b; }
  }

  /** A substring of a substring is a substring. */
  lemma ContainsTransitive(m: string, x: string, y: string)
    requires Contains(m, x) && Contains(x, y)
    ensures Contains(m, y)
  {
    var i :| 0 <= i <= |m| && OccursAt(m, x, i);
    var j :| 0 <= j <= |x| && OccursAt(x, y, j);
    forall k | 0 <= k < |y|
      ensures m[i + j + k] == y[k]
    {
      assert m[i..i + |x|][j + k] == m[i + j + k];
      assert x[j..j + |y|][k] == x[j + k];
    }
    assert m[i + j..i + j + |y|] == y;
    assert OccursAt(m, y, i + j) && i + j <= |m|;
  }

  lemma OccursAtTail(s: string, p: string, j: int)
    requires 1 <= j && |s| > 0
    ensures OccursAt(s, p, j) <==> OccursAt(s[1..], p, j - 1)
  {
    if j + |p| <= |s| {
      assert s[j..j + |p|] == s[1..][j - 1..j - 1 + |p|];
    }
  }

  /** `s.indexOf(p)`: the first index at which `p` occurs, if any. */
  function IndexOf(s: string, p: string): (r: Option<nat>)
    ensures r.Some? ==> OccursAt(s, p, r.value)
    ensures r.Some? ==> forall j :: 0 <= j < r.value ==> !OccursAt(s, p, j)
    ensures r.None? ==> forall j :: !OccursAt(s, p, j)
    decreases |s|
  {
    if |p| <= |s| && s[..|p|] == p then Some(0)
    else if |s| == 0 then None
    else
      var rest := IndexOf(s[1..], p);
      assert forall j :: 1 <= j ==> (OccursAt(s, p, j) <==> OccursAt(s[1..], p, j - 1)) by {
        forall j | 1 <= j { OccursAtTail(s, p, j); }
      }
      match rest
      case None => None
      case Some(k) => Some(k + 1)
  }

  /** `indexOf` finds `p` exactly when `p` is a substring. */
  lemma IndexOfFindsSubstring(s: string, p: string)
    ensures IndexOf(s, p).Some? <==> Contains(s, p)
  {
    if IndexOf(s, p).Some? {
      assert OccursAt(s, p, IndexOf(s, p).value);
    }
  }

  /**
   * The replacement text that `String.prototype.replace` inserts for one
   * match of a string pattern: `$$` is a dollar sign, `$&` the matched text,
   * `` $` `` the text before the match, `$'` the text after it; every other
   * character (including `$n` and `$<`, which have no captures to refer to)
   * is copied as it is.
   */
  function Substitution(rep: string, matched: string, before: string, after: string): (r: string)
    decreases |rep|
  {
    if |rep| == 0 then ""
    else if rep[0] == '$' && |rep| >= 2 && rep[1] in "$&`'" then
      var piece := match rep[1]
        case '$' => "$"
        case '&' => matched
        case '`' => before
        case _ => after;
      piece + Substitution(rep[2..], matched, before, after)
    else [rep[0]] + Substitution(rep[1..], matched, before, after)
  }

  /** A replacement without `$` is inserted literally. */
  lemma {:induction false} SubstitutionLiteral(rep: string, matched: string, before: string, after: string)
    requires '$' !in rep
    ensures Substitution(rep, matched, before, after) == rep
  {
    if |rep| > 0 {
      assert '$' !in rep[1..];
      SubstitutionLiteral(rep[1..], matched, before, after);
    }
  }

  /** `s.replace(p, rep)` with a string pattern: only the first occurrence is replaced. */
  function ReplaceFirst(s: string, p: string, rep: string): string
  {
    match IndexOf(s, p)
    case None => s
    case Some(i) => s[..i] + Substitution(rep, p, s[..i], s[i + |p|..]) + s[i + |p|..]
  }

  /** Without an occurrence of the pattern the string is returned unchanged. */
  lemma ReplaceFirstAbsent(s: string, p: string, rep: string)
    requires !Contains(s, p)
    ensures ReplaceFirst(s, p, rep) == s
  {
    IndexOfFindsSubstring(s, p);
  }

  /**
   * A `$`-free replacement takes the place of the first occurrence, and the
   * text around it, later occurrences included, is left as it was.
   */
  lemma ReplaceFirstLiteral(s: string, p: string, rep: string, i: nat)
    requires OccursAt(s, p, i)
    requires forall j :: 0 <= j < i ==> !OccursAt(s, p, j)
    requires '$' !in rep
    ensures ReplaceFirst(s, p, rep) == s[..i] + rep + s[i + |p|..]
  {
    var r := IndexOf(s, p);
    assert r.Some?;
    assert r.value == i;
    SubstitutionLiteral(rep, p, s[..i], s[i + |p|..]);
  }

  /**
   * A placeholder whose first character does not occur in the text before it
   * is the first occurrence, so replacing it rewrites exactly that spot.
   */
  lemma ReplacePlaceholder(a: string, p: string, b: string, rep: string)
    requires |p| > 0 && p[0] !in a
    requires '$' !in rep
    ensures ReplaceFirst(a + p + b, p, rep) == a + rep + b
  {
    var s := a + p + b;
    assert OccursAt(s, p, |a|) by { assert s[|a|..|a| + |p|] == p; }
    forall j | 0 <= j < |a|
      ensures !OccursAt(s, p, j)
    {
      assert s[j] == a[j] != p[0];
      if j + |p| <= |s| { assert s[j..j + |p|][0] == s[j]; }
    }
    ReplaceFirstLiteral(s, p, rep, |a|);
    assert s[..|a|] == a;
    assert s[|a| + |p|..] == b;
  }

  /** `s.split(c)` for a one-character separator: the pieces between separators. */
  function Split(s: string, c: char): (parts: seq<string>)
    ensures |parts| >= 1
    ensures forall k :: 0 <= k < |parts| ==> c !in parts[k]
    decreases |s|
  {
    if |s| == 0 then [""]
    else if s[0] == c then [""] + Split(s[1..], c)
    else
      var rest := Split(s[1..], c);
      [[s[0]] + rest[0]] + rest[1..]
  }

  /** `parts.join(c)`. */
  function Join(parts: seq<string>, c: char): string
    requires |parts| >= 1
    decreases |parts|
  {
    if |parts| == 1 then parts[0] else parts[0] + [c] + Join(parts[1..], c)
  }

  /** Joining the pieces with the separator gives the original string back. */
  lemma {:induction false} JoinSplit(s: string, c: char)
    ensures Join(Split(s, c), c) == s
    decreases |s|
  {
    if |s| == 0 {
    } else if s[0] == c {
      JoinSplit(s[1..], c);
      assert [c] + s[1..] == s;
    } else {
      JoinSplit(s[1..], c);
      var rest := Split(s[1..], c);
      if |rest| == 1 {
        assert [s[0]] + s[1..] == s;
      } else {
        assert Join(rest, c) == rest[0] + [c] + Join(rest[1..], c);
        assert [s[0]] + rest[0] + [c] + Join(rest[1..], c) == s;
      }
    }
  }

  /** Splitting a join of separator-free pieces gives the pieces back. */
  lemma {:induction false} SplitJoin(parts: seq<string>, c: char)
    requires |parts| >= 1
    requires forall k :: 0 <= k < |parts| ==> c !in parts[k]
    ensures Split(Join(parts, c), c) == parts
    decreases |parts|, |parts[0]|
  {
    if |parts[0]| == 0 {
      if |parts| > 1 {
        SplitJoin(parts[1..], c);
        assert Join(parts, c) == [c] + Join(parts[1..], c);
        assert Join(parts, c)[1..] == Join(parts[1..], c);
        assert [""] + parts[1..] == parts;
      }
    } else {
      var head := parts[0];
      var shorter := [head[1..]] + parts[1..];
      assert forall k :: 0 <= k < |shorter| ==> c !in shorter[k] by {
        assert c !in head;
        forall k | 0 <= k < |shorter| ensures c !in shorter[k] {
          if k > 0 { assert shorter[k] == parts[k]; }
        }
      }
      SplitJoin(shorter, c);
      var s := Join(parts, c);
      assert s == [head[0]] + Join(shorter, c) by {
        if |parts| == 1 {
          assert head == [head[0]] + head[1..];
        } else {
          assert shorter[1..] == parts[1..];
          assert head == [head[0]] + head[1..];
        }
      }
      assert s[0] == head[0] && s[1..] == Join(shorter, c);
      assert s[0] != c;
      assert [[head[0]] + shorter[0]] + shorter[1..] == parts by {
        assert [head[0]] + head[1..] == head;
      }
    }
  }
}
