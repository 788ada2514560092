/** The string operations the services use: decimal rendering of numbers in
    template literals, the `"<ms>ms"` interval literal and its reading, and
    JavaScript's `String.prototype.includes`. */
module Text {
  import opened Types

  predicate IsDigit(c: char) {
    '0' <= c <= '9'
  }

  predicate AllDigits(s: string) {
    forall i :: 0 <= i < |s| ==> IsDigit(s[i])
  }

  function DigitChar(d: int): (c: char)
    requires 0 <= d < 10
    ensures IsDigit(c) && DigitValue(c) == d
  {
    (('0' as int) + d) as char
  }

  function DigitValue(c: char): int
    requires IsDigit(c)
  {
    (c as int) - ('0' as int)
  }

  /** `${n}` for a natural number: its decimal digits, most significant first. */
  function NatText(n: nat): (r: string)
    ensures |r| >= 1 && AllDigits(r)
    ensures n < 10 <==> |r| == 1
  {
    if n < 10 then [DigitChar(n)] else NatText(n / 10) + [DigitChar(n % 10)]
  }

  /** `${i}` for any integer. */
  function IntText(i: int): (r: string)
    ensures |r| >= 1
    ensures (r[0] == '-') <==> i < 0
  {
    if i < 0 then "-" + NatText(-i) else NatText(i)
  }

  /** Different integers render differently. */
  lemma IntTextInjective(a: int, b: int)
    requires IntText(a) == IntText(b)
    ensures a == b
  {
    if a < 0 {
      var ta, tb := NatText(-a), NatText(-b);
      assert b < 0;
      assert ta == IntText(a)[1..];
      assert tb == IntText(b)[1..];
      NatTextInjective(-a, -b);
    } else {
      NatTextInjective(a, b);
    }
  }

  lemma NatTextInjective(a: nat, b: nat)
    requires NatText(a) == NatText(b)
    ensures a == b
  {
    DigitsValueOfNatText(a);
    DigitsValueOfNatText(b);
  }

  /** The value of a string of decimal digits. */
  function DigitsValue(s: string): nat
    requires AllDigits(s)
  {
    if s == [] then 0 else DigitsValue(s[..|s| - 1]) * 10 + DigitValue(s[|s| - 1])
  }

  lemma {:induction false} DigitsValueOfNatText(n: nat)
    ensures DigitsValue(NatText(n)) == n
  {
    if n >= 10 {
      var s := NatText(n);
      assert s[..|s| - 1] == NatText(n / 10);
      DigitsValueOfNatText(n / 10);
    }
  }

  /** The interval literal the AI path writes into `generation_duration`. */
  function MsLiteral(ms: nat): (r: string)
    ensures |r| >= 3 && r[|r| - 2..] == "ms"
  {
    NatText(ms) + "ms"
  }

  /** Reads back a literal of the form `<digits>ms`; anything else has no value. */
  function ReadMsLiteral(t: string): Option<nat> {
    if |t| >= 3 && t[|t| - 2..] == "ms" && AllDigits(t[..|t| - 2])
    then Some(DigitsValue(t[..|t| - 2]))
    else None
  }

  lemma MsLiteralRoundTrip(ms: nat)
    ensures ReadMsLiteral(MsLiteral(ms)) == Some(ms)
  {
    var t := MsLiteral(ms);
    assert t[..|t| - 2] == NatText(ms);
    DigitsValueOfNatText(ms);
  }

  /** Two different durations never share a literal. */
  lemma MsLiteralInjective(a: nat, b: nat)
    requires MsLiteral(a) == MsLiteral(b)
    ensures a == b
  {
    MsLiteralRoundTrip(a);
    MsLiteralRoundTrip(b);
  }

  predicate StartsWith(s: string, p: string) {
    |p| <= |s| && s[..|p|] == p
  }

  /** `s.includes(sub)`. */
  predicate Includes(s: string, sub: string)
    decreases |s|
  {
    StartsWith(s, sub) || (|s| > 0 && Includes(s[1..], sub))
  }

  predicate OccursAt(s: string, sub: string, i: int) {
    0 <= i && i + |sub| <= |s| && s[i..i + |sub|] == sub
  }

  /** `includes` holds exactly when `sub` occurs at some index of `s`. */
  lemma {:induction false} IncludesIff(s: string, sub: string)
    ensures Includes(s, sub) <==> exists i :: OccursAt(s, sub, i)
    decreases |s|
  {
    if |s| == 0 {
      forall i | OccursAt(s, sub, i) ensures i == 0 {}
      assert OccursAt(s, sub, 0) <==> StartsWith(s, sub);
    } else {
      IncludesIff(s[1..], sub);
      if StartsWith(s, sub) {
        assert OccursAt(s, sub, 0);
      } else if Includes(s[1..], sub) {
        var i :| OccursAt(s[1..], sub, i);
        OccursAtShift(s, sub, i + 1);
      }
      if exists i :: OccursAt(s, sub, i) {
        var i :| OccursAt(s, sub, i);
        if i == 0 {
          assert StartsWith(s, sub);
        } else {
          OccursAtShift(s, sub, i);
          assert OccursAt(s[1..], sub, i - 1);
        }
      }
    }
  }

  /** An occurrence past the first character is one of the tail. */
  lemma OccursAtShift(s: string, sub: string, i: int)
    requires |s| > 0 && 1 <= i
    ensures OccursAt(s, sub, i) <==> OccursAt(s[1..], sub, i - 1)
  {
    if i + |sub| <= |s| {
      assert s[1..][i - 1..i - 1 + |sub|] == s[i..i + |sub|];
    }
  }

  /** Text that contains `sub` still contains it with anything put around it. */
  lemma IncludesInContext(pre: string, s: string, post: string, sub: string)
    requires Includes(s, sub)
    ensures Includes(pre + s + post, sub)
  {
    IncludesIff(s, sub);
    var i :| OccursAt(s, sub, i);
    var t := pre + s + post;
    assert t[|pre| + i..|pre| + i + |sub|] == s[i..i + |sub|];
    assert OccursAt(t, sub, |pre| + i);
    IncludesIff(t, sub);
  }

  /** A prefix that lacks the first character of `sub` cannot start or hold
      an occurrence of it, so it does not change whether `sub` is there. */
  lemma {:induction false} IncludesPastPrefix(pre: string, m: string, sub: string)
    requires |sub| > 0
    requires forall i :: 0 <= i < |pre| ==> pre[i] != sub[0]
    ensures Includes(pre + m, sub) <==> Includes(m, sub)
  {
    if pre != [] {
      assert (pre + m)[1..] == pre[1..] + m;
      assert !StartsWith(pre + m, sub) by {
        assert (pre + m)[0] == pre[0];
      }
      IncludesPastPrefix(pre[1..], m, sub);
    } else {
      assert pre + m == m;
    }
  }
}
