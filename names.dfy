/**
 * Variable naming used by both QUBO scripts: plan variables `q_{mq}_{q}_{gp}`,
 * saving variables `q_{mq}_{gp}` and the per-query tag `q_{mq}_{q}` that the
 * result projection searches for. Ids are natural numbers rendered in decimal.
 */
module Names {

  /** A binary decision variable is identified by its name. */
  type Var = string

  predicate IsDigit(c: char) { '0' <= c <= '9' }

  predicate AllDigits(s: string) { forall i :: 0 <= i < |s| ==> IsDigit(s[i]) }

  function DigitValue(c: char): (d: nat)
    requires IsDigit(c)
    ensures d < 10
  {
    (c as int) - ('0' as int)
  }

  function DigitChar(d: nat): (c: char)
    requires d < 10
    ensures IsDigit(c) && DigitValue(c) == d
  {
    (('0' as int) + d) as char
  }

  /** Decimal rendering of a natural number, as an f-string renders an int. */
  function Digits(n: nat): (s: string)
    ensures 0 < |s| && AllDigits(s)
  {
    if n < 10 then [DigitChar(n)] else Digits(n / 10) + [DigitChar(n % 10)]
  }

  /** Reads a decimal digit string back as a number. */
  function ParseNat(s: string): nat
    requires AllDigits(s)
  {
    if s == [] then 0 else 10 * ParseNat(s[..|s| - 1]) + DigitValue(s[|s| - 1])
  }

  lemma {:induction false} ParseDigits(n: nat)
    ensures ParseNat(Digits(n)) == n
  {
    if n >= 10 {
      var s := Digits(n);
      assert s[..|s| - 1] == Digits(n / 10);
      ParseDigits(n / 10);
    }
  }

  /** Distinct numbers render to distinct digit strings. */
  lemma DigitsInjective(a: nat, b: nat)
    requires Digits(a) == Digits(b)
    ensures a == b
  {
    ParseDigits(a);
    ParseDigits(b);
  }

  /** Name of the variable of plan `gp` of query `q` in multi-query `mq`. */
  function PlanVar(mq: nat, q: nat, gp: nat): Var
  {
    "q_" + Digits(mq) + "_" + Digits(q) + "_" + Digits(gp)
  }

  /** Name built by the savings pass for global plan `gp` of multi-query `mq`. */
  function SavingVar(mq: nat, gp: nat): Var
  {
    "q_" + Digits(mq) + "_" + Digits(gp)
  }

  /** The text the result projection looks for inside a selected name. */
  function QueryTag(mq: nat, q: nat): Var
  {
    "q_" + Digits(mq) + "_" + Digits(q)
  }

  /** Number of underscores in a name. */
  function Underscores(s: string): nat
  {
    if s == [] then 0 else Underscores(s[..|s| - 1]) + (if s[|s| - 1] == '_' then 1 else 0)
  }

  lemma {:induction false} UnderscoresConcat(a: string, b: string)
    ensures Underscores(a + b) == Underscores(a) + Underscores(b)
  {
    if b != [] {
      assert (a + b)[..|a + b| - 1] == a + b[..|b| - 1];
      UnderscoresConcat(a, b[..|b| - 1]);
    } else {
      assert a + b == a;
    }
  }

  lemma {:induction false} UnderscoresOfDigits(s: string)
    requires AllDigits(s)
    ensures Underscores(s) == 0
  {
    if s != [] {
      UnderscoresOfDigits(s[..|s| - 1]);
    }
  }

  lemma PlanVarUnderscores(mq: nat, q: nat, gp: nat)
    ensures Underscores(PlanVar(mq, q, gp)) == 3
  {
    UnderscoresOfDigits(Digits(mq));
    UnderscoresOfDigits(Digits(q));
    UnderscoresOfDigits(Digits(gp));
    UnderscoresConcat("q_", Digits(mq));
    UnderscoresConcat("q_" + Digits(mq), "_");
    UnderscoresConcat("q_" + Digits(mq) + "_", Digits(q));
    UnderscoresConcat("q_" + Digits(mq) + "_" + Digits(q), "_");
    UnderscoresConcat("q_" + Digits(mq) + "_" + Digits(q) + "_", Digits(gp));
    assert Underscores("q_") == 1 by {
      assert "q_"[..1] == "q";
      assert "q"[..0] == "";
    }
  }

  /** Names of the form `q_{a}_{b}` (saving variables, query tags). */
  lemma TwoPartUnderscores(a: nat, b: nat)
    ensures Underscores(SavingVar(a, b)) == 2
    ensures Underscores(QueryTag(a, b)) == 2
  {
    UnderscoresOfDigits(Digits(a));
    UnderscoresOfDigits(Digits(b));
    UnderscoresConcat("q_", Digits(a));
    UnderscoresConcat("q_" + Digits(a), "_");
    UnderscoresConcat("q_" + Digits(a) + "_", Digits(b));
    assert Underscores("q_") == 1 by {
      assert "q_"[..1] == "q";
      assert "q"[..0] == "";
    }
  }

  /**
   * A saving name never equals a plan name: the savings pass cannot
   * address the cost entry of any plan.
   */
  lemma SavingVarIsNotPlanVar(m: nat, g: nat, mq: nat, q: nat, gp: nat)
    ensures SavingVar(m, g) != PlanVar(mq, q, gp)
  {
    TwoPartUnderscores(m, g);
    PlanVarUnderscores(mq, q, gp);
  }

  /** Position of the first underscore (|s| when there is none). */
  function FirstUnderscore(s: string): nat
  {
    if s == [] || s[0] == '_' then 0 else 1 + FirstUnderscore(s[1..])
  }

  lemma {:induction false} FirstUnderscoreAfterDigits(x: string, r: string)
    requires AllDigits(x)
    ensures FirstUnderscore(x + "_" + r) == |x|
  {
    if x != [] {
      assert (x + "_" + r)[1..] == x[1..] + "_" + r;
      FirstUnderscoreAfterDigits(x[1..], r);
    }
  }

  /** `x_r == y_t` with digit strings x, y splits at the first underscore. */
  lemma SplitAtUnderscore(x: string, r: string, y: string, t: string)
    requires AllDigits(x) && AllDigits(y)
    requires x + "_" + r == y + "_" + t
    ensures x == y && r == t
  {
    FirstUnderscoreAfterDigits(x, r);
    FirstUnderscoreAfterDigits(y, t);
    var s := x + "_" + r;
    assert x == s[..|x|];
    assert y == s[..|y|];
    assert r == s[|x| + 1..];
    assert t == (y + "_" + t)[|y| + 1..];
  }

  lemma ThreePartShape(x: string, y: string, r: string)
    ensures "q_" + x + "_" + y + "_" + r == "q_" + (x + "_" + (y + "_" + r))
  {
  }

  lemma PlanVarShape(mq: nat, q: nat, gp: nat)
    ensures PlanVar(mq, q, gp) == "q_" + (Digits(mq) + "_" + (Digits(q) + "_" + Digits(gp)))
    ensures PlanVar(mq, q, gp) == QueryTag(mq, q) + "_" + Digits(gp)
  {
  }

  /** Distinct id triples give distinct plan names. */
  lemma PlanVarInjective(mq: nat, q: nat, gp: nat, mq': nat, q': nat, gp': nat)
    requires PlanVar(mq, q, gp) == PlanVar(mq', q', gp')
    ensures mq == mq' && q == q' && gp == gp'
  {
    PlanVarShape(mq, q, gp);
    PlanVarShape(mq', q', gp');
    var tail := Digits(mq) + "_" + (Digits(q) + "_" + Digits(gp));
    var tail' := Digits(mq') + "_" + (Digits(q') + "_" + Digits(gp'));
    assert tail == PlanVar(mq, q, gp)[2..];
    assert tail' == PlanVar(mq', q', gp')[2..];
    SplitAtUnderscore(Digits(mq), Digits(q) + "_" + Digits(gp), Digits(mq'), Digits(q') + "_" + Digits(gp'));
    SplitAtUnderscore(Digits(q), Digits(gp), Digits(q'), Digits(gp'));
    DigitsInjective(mq, mq');
    DigitsInjective(q, q');
    DigitsInjective(gp, gp');
  }

  predicate IsPrefix(p: string, s: string) { |p| <= |s| && s[..|p|] == p }

  /** Python's `t in s` on strings: t occurs in s as a contiguous substring. */
  function Contains(s: string, t: string): bool
  {
    IsPrefix(t, s) || (s != [] && Contains(s[1..], t))
  }

  /** `t` occurs in `s` starting at index `i`. */
  predicate OccursAt(s: string, t: string, i: nat)
  {
    i + |t| <= |s| && s[i..i + |t|] == t
  }

  /** Contains agrees with the occurrence-at-an-index reading of `in`. */
  lemma {:induction false} ContainsOccurs(s: string, t: string)
    ensures Contains(s, t) <==> exists i: nat :: OccursAt(s, t, i)
  {
    if IsPrefix(t, s) {
      assert s[0..|t|] == s[..|t|];
      assert OccursAt(s, t, 0);
    }
    if s == [] {
      if exists i: nat :: OccursAt(s, t, i) {
        var i: nat :| OccursAt(s, t, i);
        assert s[..|t|] == t;
      }
    } else {
      ContainsOccurs(s[1..], t);
      if Contains(s[1..], t) {
        var i: nat :| OccursAt(s[1..], t, i);
        assert s[1..][i..i + |t|] == s[i + 1..i + 1 + |t|];
        assert OccursAt(s, t, i + 1);
      }
      if exists i: nat :: OccursAt(s, t, i) {
        var i: nat :| OccursAt(s, t, i);
        if i > 0 {
          assert s[1..][i - 1..i - 1 + |t|] == s[i..i + |t|];
          assert OccursAt(s[1..], t, i - 1);
        } else {
          assert s[..|t|] == s[0..|t|];
        }
      }
    }
  }

  /** Every plan name of query (mq, q) contains that query's tag. */
  lemma PlanVarContainsTag(mq: nat, q: nat, gp: nat)
    ensures Contains(PlanVar(mq, q, gp), QueryTag(mq, q))
  {
    PlanVarShape(mq, q, gp);
    var s := PlanVar(mq, q, gp);
    assert s[..|QueryTag(mq, q)|] == QueryTag(mq, q);
  }

  /**
   * Membership of a name in query (mq, q) decided by the prefix `q_{mq}_{q}_`:
   * the test that picks out exactly the plans of that query.
   */
  predicate InQuery(v: Var, mq: nat, q: nat)
  {
    IsPrefix(QueryTag(mq, q) + "_", v)
  }

  lemma InQueryPlanVar(a: nat, b: nat, c: nat, mq: nat, q: nat)
    ensures InQuery(PlanVar(a, b, c), mq, q) <==> a == mq && b == q
  {
    PlanVarShape(a, b, c);
    var s := PlanVar(a, b, c);
    var p := QueryTag(mq, q) + "_";
    if a == mq && b == q {
      assert s[..|p|] == p;
    }
    if IsPrefix(p, s) {
      var rest := s[|p|..];
      assert s == p + rest;
      ThreePartShape(Digits(mq), Digits(q), rest);
      assert (Digits(mq) + "_" + (Digits(q) + "_" + rest)) == s[2..];
      assert (Digits(a) + "_" + (Digits(b) + "_" + Digits(c))) == s[2..];
      SplitAtUnderscore(Digits(mq), Digits(q) + "_" + rest, Digits(a), Digits(b) + "_" + Digits(c));
      SplitAtUnderscore(Digits(q), rest, Digits(b), Digits(c));
      DigitsInjective(a, mq);
      DigitsInjective(b, q);
    }
  }

  lemma InQueryNotSavingVar(m: nat, g: nat, mq: nat, q: nat)
    ensures !InQuery(SavingVar(m, g), mq, q)
  {
    var p := QueryTag(mq, q) + "_";
    TwoPartUnderscores(m, g);
    assert Underscores(p) == 3 by {
      TwoPartUnderscores(mq, q);
      UnderscoresConcat(QueryTag(mq, q), "_");
      assert "_"[..0] == "";
    }
    if IsPrefix(p, SavingVar(m, g)) {
      PrefixUnderscores(p, SavingVar(m, g));
    }
  }

  /** A prefix has no more underscores than the whole. */
  lemma PrefixUnderscores(p: string, s: string)
    requires IsPrefix(p, s)
    ensures Underscores(p) <= Underscores(s)
  {
    assert s == p + s[|p|..];
    UnderscoresConcat(p, s[|p|..]);
  }
}
