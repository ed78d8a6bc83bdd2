/** Texts put together around a colon, as in durable keys and group names. */
module Strings {

  /** The colon between `c` and `d` stands further right than the one between `a` and `b`. */
  predicate Shifts(a: string, b: string, c: string, d: string) {
    a + ":" <= c && b == c[|a| + 1..] + ":" + d
  }

  /** Two pairs make the same text exactly when they are equal or a colon inside one of them is taken for the other's. */
  lemma PairsCoincideExactly(a: string, b: string, c: string, d: string)
    ensures a + ":" + b == c + ":" + d <==> (a == c && b == d) || Shifts(a, b, c, d) || Shifts(c, d, a, b)
    ensures Shifts(a, b, c, d) ==> ':' in c && ':' in b
  {
    var s, t := a + ":" + b, c + ":" + d;
    assert b == s[|a| + 1..] && d == t[|c| + 1..] && s[..|a|] == a && t[..|c|] == c;
    if s == t {
      if |a| < |c| {
        ShiftsRight(a, b, c, d);
      } else if |c| < |a| {
        ShiftsRight(c, d, a, b);
      }
    }
    if Shifts(a, b, c, d) { ShiftedAreEqual(a, b, c, d); }
    if Shifts(c, d, a, b) { ShiftedAreEqual(c, d, a, b); }
  }

  lemma ShiftsRight(a: string, b: string, c: string, d: string)
    requires a + ":" + b == c + ":" + d && |a| < |c|
    ensures Shifts(a, b, c, d)
  {
    var t := c + ":" + d;
    assert (a + ":" + b)[..|a| + 1] == a + ":" && t[..|a| + 1] == c[..|a| + 1];
    assert b == t[|a| + 1..] == c[|a| + 1..] + ":" + d;
  }

  lemma ShiftedAreEqual(a: string, b: string, c: string, d: string)
    requires Shifts(a, b, c, d)
    ensures a + ":" + b == c + ":" + d && ':' in c && ':' in b
  {
    assert c == c[..|a| + 1] + c[|a| + 1..] == a + ":" + c[|a| + 1..];
    assert c[|a|] == (a + ":")[|a|] == ':';
    assert b[|c| - |a| - 1] == ':';
  }
}
