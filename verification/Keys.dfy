/** The string keys the program builds by formatting: "agent:step", "tool:hash", "coder_<step>". */
module Keys {
  function Digit(d: nat): char
    requires d < 10
  {
    '0' + d as char
  }

  /** Decimal rendering of a natural number. */
  function NatToString(n: nat): string {
    if n < 10 then [Digit(n)] else NatToString(n / 10) + [Digit(n % 10)]
  }

  function IntToString(i: int): string {
    if i < 0 then "-" + NatToString(-i) else NatToString(i)
  }

  lemma {:induction false} NatDigits(n: nat)
    ensures |NatToString(n)| > 0
    ensures forall c | c in NatToString(n) :: '0' <= c <= '9'
  {
    if n >= 10 {
      NatDigits(n / 10);
    }
  }

  lemma {:induction false} NatToStringInjective(a: nat, b: nat)
    requires NatToString(a) == NatToString(b)
    ensures a == b
  {
    NatDigits(a / 10);
    NatDigits(b / 10);
    var s, t := NatToString(a), NatToString(b);
    assert s[|s| - 1] == Digit(a % 10) && t[|t| - 1] == Digit(b % 10);
    assert a % 10 == b % 10;
    if a >= 10 {
      assert s[..|s| - 1] == NatToString(a / 10);
      assert t[..|t| - 1] == NatToString(b / 10);
      NatToStringInjective(a / 10, b / 10);
    }
  }

  lemma IntToStringShape(i: int)
    ensures ':' !in IntToString(i)
  {
    NatDigits(if i < 0 then -i else i);
  }

  lemma IntToStringInjective(a: int, b: int)
    requires IntToString(a) == IntToString(b)
    ensures a == b
  {
    var x := if a < 0 then -a else a;
    var y := if b < 0 then -b else b;
    NatDigits(x);
    NatDigits(y);
    assert NatToString(x)[0] in NatToString(x) && NatToString(y)[0] in NatToString(y);
    assert IntToString(a)[0] == IntToString(b)[0];
    if a < 0 {
      assert IntToString(a)[1..] == NatToString(x);
      assert IntToString(b)[1..] == NatToString(y);
    }
    NatToStringInjective(x, y);
  }

  /** f"{left}:{right}" */
  function Composite(left: string, right: string): string {
    left + ":" + right
  }

  /** The composite key determines both parts whenever the right part has no colon. */
  lemma CompositeInjective(l1: string, r1: string, l2: string, r2: string)
    requires ':' !in r1 && ':' !in r2
    requires Composite(l1, r1) == Composite(l2, r2)
    ensures l1 == l2 && r1 == r2
  {
    var k := Composite(l1, r1);
    assert k[|l1|] == ':' && forall i | |l1| < i < |k| :: k[i] == r1[i - |l1| - 1] != ':';
    assert k[|l2|] == ':' && forall i | |l2| < i < |k| :: k[i] == r2[i - |l2| - 1] != ':';
    assert |l1| == |l2|;
    assert l1 == k[..|l1|] && l2 == k[..|l2|];
    assert r1 == k[|l1| + 1..] && r2 == k[|l2| + 1..];
  }

  /** str.split(":", 1) on a text that contains a colon: the parts around the first colon. */
  function SplitAtFirstColon(s: string): (string, string)
    requires ':' in s
  {
    if s[0] == ':' then ("", s[1..])
    else
      var rest := SplitAtFirstColon(s[1..]);
      ([s[0]] + rest.0, rest.1)
  }

  /** Splitting at the first colon undoes Composite exactly when the left part has no colon. */
  lemma {:induction false} SplitUndoesComposite(l: string, r: string)
    ensures SplitAtFirstColon(Composite(l, r)) == (l, r) <==> ':' !in l
  {
    var k := Composite(l, r);
    if l == "" {
      assert k[1..] == r;
    } else {
      assert k[1..] == Composite(l[1..], r);
      assert l == [l[0]] + l[1..];
      SplitUndoesComposite(l[1..], r);
      if l[0] != ':' {
        var rest := SplitAtFirstColon(k[1..]);
        assert SplitAtFirstColon(k).0[1..] == rest.0;
      } else {
        assert SplitAtFirstColon(k).0 == "";
      }
    }
  }

  /** f"{agent_name}:{step_index}" */
  function StepKey(agent: string, step: int): string {
    Composite(agent, IntToString(step))
  }

  /** Distinct (agent, step) pairs never share a counter, whatever the agent is called. */
  lemma StepKeyInjective(a1: string, s1: int, a2: string, s2: int)
    ensures StepKey(a1, s1) == StepKey(a2, s2) <==> a1 == a2 && s1 == s2
  {
    IntToStringShape(s1);
    IntToStringShape(s2);
    if StepKey(a1, s1) == StepKey(a2, s2) {
      CompositeInjective(a1, IntToString(s1), a2, IntToString(s2));
      IntToStringInjective(s1, s2);
    }
  }
}
