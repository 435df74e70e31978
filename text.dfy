/** Character classes of JavaScript regular expressions and substring search,
    as the front-end's string handling relies on them. */
module Text {

  /** `\s` of a JavaScript regular expression: WhiteSpace and LineTerminator. */
  predicate IsSpace(c: char)
  {
    c == ' ' || c == '\t' || c == '\n' || c == '\r' || c == '\U{000B}' || c == '\U{000C}'
    || c == '\U{00A0}' || c == '\U{1680}' || ('\U{2000}' <= c <= '\U{200A}')
    || c == '\U{2028}' || c == '\U{2029}' || c == '\U{202F}' || c == '\U{205F}'
    || c == '\U{3000}' || c == '\U{FEFF}'
  }

  /** The characters that `.` does not match. */
  predicate IsLineTerminator(c: char)
  {
    c == '\n' || c == '\r' || c == '\U{2028}' || c == '\U{2029}'
  }

  /** `\d`: the ASCII decimal digits only. */
  predicate IsDigit(c: char)
  {
    '0' <= c <= '9'
  }

  /** `t` occurs in `s` at index `i`. */
  predicate StartsAt(s: string, i: nat, t: string)
  {
    i + |t| <= |s| && s[i..i + |t|] == t
  }

  /** `String.prototype.includes`: `t` occurs somewhere in `s`. */
  function Contains(s: string, t: string): bool
    decreases |s|
  {
    StartsAt(s, 0, t) || (|s| > |t| && Contains(s[1..], t))
  }

  lemma {:induction false} StartsAtTail(s: string, i: nat, t: string)
    requires 0 < |s|
    ensures StartsAt(s[1..], i, t) <==> StartsAt(s, i + 1, t)
  {
    if i + |t| <= |s[1..]| {
      assert s[1..][i..i + |t|] == s[i + 1..i + 1 + |t|];
    }
  }

  /** `Contains` agrees with the positional definition of an occurrence. */
  lemma {:induction false} ContainsIff(s: string, t: string)
    ensures Contains(s, t) <==> exists i: nat :: StartsAt(s, i, t)
    decreases |s|
  {
    if StartsAt(s, 0, t) {
    } else if |s| > |t| {
      ContainsIff(s[1..], t);
      if Contains(s[1..], t) {
        var i: nat :| StartsAt(s[1..], i, t);
        StartsAtTail(s, i, t);
      } else {
        forall i: nat | StartsAt(s, i, t) ensures false {
          assert i != 0;
          StartsAtTail(s, i - 1, t);
        }
      }
    } else {
      forall i: nat | StartsAt(s, i, t) ensures false {
      }
    }
  }

  /** An occurrence of `a + b` is an occurrence of `a` followed by one of `b`. */
  lemma StartsAtAppend(s: string, i: nat, a: string, b: string)
    ensures StartsAt(s, i, a + b) <==> StartsAt(s, i, a) && StartsAt(s, i + |a|, b)
  {
    if i + |a| + |b| <= |s| {
      var x, y := s[i..i + |a|], s[i + |a|..i + |a| + |b|];
      assert s[i..i + |a + b|] == x + y;
      if x + y == a + b {
        assert x == (x + y)[..|a|] && y == (x + y)[|a|..];
        assert a == (a + b)[..|a|] && b == (a + b)[|a|..];
      }
    }
  }

  /** Joining strings does not depend on grouping: plain associativity over
      variables, for proofs that would otherwise regroup long strings. */
  lemma JoinThree(a: string, b: string, c: string)
    ensures (a + b) + c == a + (b + c)
  {
  }

  /** A slice is the slices on either side of a point inside it, joined. */
  lemma SliceSplit(s: string, i: nat, j: nat, e: nat)
    requires i <= j <= e <= |s|
    ensures s[i..e] == s[i..j] + s[j..e]
  {
  }

  /** An occurrence of `a + (b + c)` is one of each piece, in turn. */
  lemma StartsAtSplit3(s: string, i: nat, a: string, b: string, c: string)
    requires StartsAt(s, i, a + (b + c))
    ensures StartsAt(s, i, a) && StartsAt(s, i + |a|, b) && StartsAt(s, i + |a| + |b|, c)
  {
    StartsAtAppend(s, i, a, b + c);
    StartsAtAppend(s, i + |a|, b, c);
  }
}
