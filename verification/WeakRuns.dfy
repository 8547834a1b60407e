/**
  Runs put together from pieces: one action of a client, or an operation that goes on alone.
*/
module WeakRuns {
  import opened WeakProtocol
  import opened WeakInvariant
  import opened WeakAtomic

  /** Some run of disciplined clients leads from `s` to `s'`. */
  ghost predicate Leads(c: Config, s: State, s': State) {
    exists run :: Legal(c, s, run) && After(c, s, run) == s'
  }

  lemma {:induction false} LegalConcat(c: Config, s: State, a: seq<Action>, b: seq<Action>)
    requires Legal(c, s, a) && Legal(c, After(c, s, a), b)
    ensures Legal(c, s, a + b) && After(c, s, a + b) == After(c, After(c, s, a), b)
    decreases |a|
  {
    if a == [] {
      assert a + b == b;
    } else {
      assert (a + b)[1..] == a[1..] + b;
      LegalConcat(c, Apply(c, s, a[0]), a[1..], b);
    }
  }

  lemma LeadsNowhere(c: Config, s: State)
    ensures Leads(c, s, s)
  {
    assert Legal(c, s, []) && After(c, s, []) == s;
  }

  lemma LeadsOn(c: Config, s: State, s1: State, s2: State)
    requires Leads(c, s, s1) && Leads(c, s1, s2)
    ensures Leads(c, s, s2)
  {
    var a :| Legal(c, s, a) && After(c, s, a) == s1;
    var b :| Legal(c, s1, b) && After(c, s1, b) == s2;
    LegalConcat(c, s, a, b);
  }

  lemma LeadsOneStep(c: Config, s: State, a: Action)
    requires Enabled(c, s, a) && Disciplined(s.mem, a.move)
    ensures Leads(c, s, Apply(c, s, a))
  {
    var run := [a];
    assert run[1..] == [];
    assert After(c, Apply(c, s, a), run[1..]) == Apply(c, s, a);
    assert Legal(c, s, run) && After(c, s, run) == Apply(c, s, a);
  }

  /** The state after thread `i` has come to `v`. */
  function Put(s: State, i: Tid, v: View): State
    requires i < |s.threads|
  {
    State(v.m, v.l, s.threads[i := v.st])
  }

  /** A thread that goes on alone makes a legal run. */
  lemma {:induction false} LeadsAlone(c: Config, s: State, i: Tid, n: nat)
    requires i < |s.threads|
    ensures Leads(c, s, Put(s, i, Solo(c, i, ViewOf(s, i), n)))
    decreases n
  {
    var v := ViewOf(s, i);
    if n == 0 || v.st.Empty? || !CanMove(c, v.m, v.l, v.st, NextMove(v.st.top)) {
      LeadsNowhere(c, s);
      assert s.threads[i := v.st] == s.threads;
    } else {
      var a := Action(i, NextMove(v.st.top));
      var s1 := Apply(c, s, a);
      LeadsOneStep(c, s, a);
      LeadsAlone(c, s1, i, n - 1);
      var v' := Solo(c, i, v, n);
      assert s1.threads[i := v'.st] == s.threads[i := v'.st];
      LeadsOn(c, s, s1, Put(s, i, v'));
    }
  }

  lemma LeadsAs(c: Config, s: State, i: Tid, n: nat, v: View)
    requires i < |s.threads| && Solo(c, i, ViewOf(s, i), n) == v
    ensures Leads(c, s, Put(s, i, v))
  {
    LeadsAlone(c, s, i, n);
  }

  lemma LeadsKeepsInv(c: Config, s: State, s': State)
    requires Inv(c, s) && Leads(c, s, s')
    ensures Inv(c, s')
  {
    var run :| Legal(c, s, run) && After(c, s, run) == s';
    Reachable(c, s, run);
  }

  /** A client's call that goes on alone until thread `i` has come to `v`. */
  lemma LeadsCall(c: Config, s: State, i: Tid, pc: Pc, n: nat, v: View)
    requires Enabled(c, s, Action(i, Call(pc))) && Disciplined(s.mem, Call(pc))
    requires Solo(c, i, At(s.mem, s.ledger.(owned := s.ledger.owned - Bag(Carries(pc))), pc, s.threads[i]), n) == v
    ensures Leads(c, s, Put(s, i, v))
  {
    var s1 := Apply(c, s, Action(i, Call(pc)));
    LeadsOneStep(c, s, Action(i, Call(pc)));
    LeadsAlone(c, s1, i, n);
    assert s1.threads[i := v.st] == s.threads[i := v.st];
    LeadsOn(c, s, s1, Put(s, i, v));
  }
}
