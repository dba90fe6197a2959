/** The two string helpers of Go's `strings` package that the handler relies on:
    `strings.Contains` (trusted confirmation domain) and `strings.Count` with a
    one-character needle (the `?` placeholder of a configured query). */
module Text {

  /** `sub` occurs in `s` starting at index `i`. */
  ghost predicate OccursAt(s: string, sub: string, i: nat) {
    i + |sub| <= |s| && s[i..i + |sub|] == sub
  }

  predicate HasPrefix(s: string, p: string) {
    |p| <= |s| && s[..|p|] == p
  }

  /** Substring test, scanning `s` from the left. */
  predicate Contains(s: string, sub: string)
    decreases |s|
  {
    HasPrefix(s, sub) || (|s| > 0 && Contains(s[1..], sub))
  }

  /** The scan agrees with the declarative meaning of "contains". */
  lemma {:induction false} ContainsIff(s: string, sub: string)
    ensures Contains(s, sub) <==> exists i: nat :: OccursAt(s, sub, i)
    decreases |s|
  {
    if HasPrefix(s, sub) {
      assert OccursAt(s, sub, 0);
    } else if |s| == 0 {
      assert forall i: nat :: !OccursAt(s, sub, i);
    } else {
      var t := s[1..];
      ContainsIff(t, sub);
      if Contains(t, sub) {
        var i: nat :| OccursAt(t, sub, i);
        assert s[i + 1..i + 1 + |sub|] == t[i..i + |sub|];
        assert OccursAt(s, sub, i + 1);
      } else {
        forall i: nat ensures !OccursAt(s, sub, i) {
          if OccursAt(s, sub, i) {
            if i > 0 {
              assert t[i - 1..i - 1 + |sub|] == s[i..i + |sub|];
              assert OccursAt(t, sub, i - 1);
            }
          }
        }
      }
    }
  }

  /** Number of occurrences of character `c` in `s`. */
  function CountChar(s: string, c: char): nat {
    if s == [] then 0 else (if s[0] == c then 1 else 0) + CountChar(s[1..], c)
  }

  /** Indices of `s` holding `c`. */
  ghost function Positions(s: string, c: char): set<int> {
    set i | 0 <= i < |s| && s[i] == c
  }

  /** Counting is additive over appending one character. */
  lemma {:induction false} CountSnoc(s: string, x: char, c: char)
    ensures CountChar(s + [x], c) == CountChar(s, c) + (if x == c then 1 else 0)
  {
    if s != [] {
      assert (s + [x])[1..] == s[1..] + [x];
      CountSnoc(s[1..], x, c);
    }
  }

  /** The recursive count is the number of positions holding `c`. */
  lemma {:induction false} CountIsPositions(s: string, c: char)
    ensures CountChar(s, c) == |Positions(s, c)|
  {
    if s == [] {
      assert Positions(s, c) == {};
    } else {
      var n := |s| - 1;
      var init := s[..n];
      assert s == init + [s[n]];
      CountSnoc(init, s[n], c);
      CountIsPositions(init, c);
      var last: set<int> := if s[n] == c then {n} else {};
      assert Positions(s, c) == Positions(init, c) + last;
      assert Positions(init, c) !! last;
    }
  }

  /** `c` occurs at index `i` of `s` and nowhere else. */
  ghost predicate OnlyAt(s: string, c: char, i: int) {
    0 <= i < |s| && s[i] == c && forall j :: 0 <= j < |s| && s[j] == c ==> j == i
  }

  lemma {:induction false} CountZeroIff(s: string, c: char)
    ensures CountChar(s, c) == 0 <==> forall j :: 0 <= j < |s| ==> s[j] != c
  {
    if s != [] {
      CountZeroIff(s[1..], c);
      assert forall j :: 1 <= j < |s| ==> s[j] == s[1..][j - 1];
    }
  }

  /** A count of exactly one means a single, unique occurrence. */
  lemma {:induction false} CountOneIff(s: string, c: char)
    ensures CountChar(s, c) == 1 <==> exists i :: OnlyAt(s, c, i)
  {
    if s == [] {
      assert forall i :: !OnlyAt(s, c, i);
    } else {
      var t := s[1..];
      assert forall j :: 1 <= j < |s| ==> s[j] == t[j - 1];
      if s[0] == c {
        CountZeroIff(t, c);
        if CountChar(s, c) == 1 {
          assert OnlyAt(s, c, 0);
        } else {
          assert forall i :: !OnlyAt(s, c, i);
        }
      } else {
        CountOneIff(t, c);
        if CountChar(s, c) == 1 {
          var i :| OnlyAt(t, c, i);
          assert OnlyAt(s, c, i + 1);
        } else {
          forall i | OnlyAt(s, c, i) ensures false {
            assert i >= 1;
            assert OnlyAt(t, c, i - 1);
          }
        }
      }
    }
  }
}
