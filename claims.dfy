/**
  What the payers of one campaign have drawn back: the sum of the
  `withdrawal` fields of the campaign's payment records, keyed by the payer
  address in the records' seeds. The escrow invariant of the buyouts is
  stated in this quantity.
 */
module Claims {
  import opened Records
  import opened Payout

  ghost function Pick(ks: set<Address>): (a: Address)
    requires ks != {}
    ensures a in ks
  {
    var a :| a in ks; a
  }

  /** The sum of the `withdrawal` fields of the records of `ps` at `ks`. */
  ghost function ClaimedAt(ps: map<Address, CPAccount>, ks: set<Address>): nat
    requires ks <= ps.Keys
    decreases ks
  {
    if ks == {} then 0
    else
      var a := Pick(ks);
      ps[a].withdrawal + ClaimedAt(ps, ks - {a})
  }

  /** What all the payers of a campaign have drawn back in total. */
  ghost function Claimed(ps: map<Address, CPAccount>): nat {
    ClaimedAt(ps, ps.Keys)
  }

  /** The sum does not depend on the order the records are visited in: any
      record can be taken out first. */
  lemma {:induction false} ClaimedSplit(ps: map<Address, CPAccount>, ks: set<Address>, a: Address)
    requires ks <= ps.Keys && a in ks
    ensures ClaimedAt(ps, ks) == ps[a].withdrawal + ClaimedAt(ps, ks - {a})
    decreases ks
  {
    var b := Pick(ks);
    if b != a {
      calc {
        ClaimedAt(ps, ks);
        ps[b].withdrawal + ClaimedAt(ps, ks - {b});
        { ClaimedSplit(ps, ks - {b}, a); }
        ps[b].withdrawal + ps[a].withdrawal + ClaimedAt(ps, ks - {b} - {a});
        { assert ks - {b} - {a} == ks - {a} - {b};
          ClaimedSplit(ps, ks - {a}, b); }
        ps[a].withdrawal + ClaimedAt(ps, ks - {a});
      }
    }
  }

  /** The sum reads only the withdrawals of the records at `ks`. */
  lemma {:induction false} ClaimedFrame(ps: map<Address, CPAccount>, ps': map<Address, CPAccount>, ks: set<Address>)
    requires ks <= ps.Keys && ks <= ps'.Keys
    requires forall a :: a in ks ==> ps'[a].withdrawal == ps[a].withdrawal
    ensures ClaimedAt(ps', ks) == ClaimedAt(ps, ks)
    decreases ks
  {
    if ks != {} {
      var a := Pick(ks);
      ClaimedFrame(ps, ps', ks - {a});
      ClaimedSplit(ps', ks, a);
    }
  }

  /** If no record at `ks` holds more than `b`, the sum is at most `|ks| * b`. */
  lemma {:induction false} ClaimedBound(ps: map<Address, CPAccount>, ks: set<Address>, b: nat)
    requires ks <= ps.Keys
    requires forall a :: a in ks ==> ps[a].withdrawal <= b
    ensures ClaimedAt(ps, ks) <= Mul(|ks|, b)
    decreases ks
  {
    if ks != {} {
      var a := Pick(ks);
      ClaimedBound(ps, ks - {a}, b);
      assert |ks - {a}| == |ks| - 1;
    }
  }

  /** A new payment record adds its withdrawal to the total. */
  lemma ClaimedAdd(ps: map<Address, CPAccount>, a: Address, v: CPAccount)
    requires a !in ps
    ensures Claimed(ps[a := v]) == Claimed(ps) + v.withdrawal
  {
    var ps' := ps[a := v];
    ClaimedSplit(ps', ps'.Keys, a);
    assert ps'.Keys - {a} == ps.Keys;
    ClaimedFrame(ps, ps', ps.Keys);
  }

  /** Rewriting a payment record changes the total by the change in its withdrawal. */
  lemma ClaimedUpdate(ps: map<Address, CPAccount>, a: Address, v: CPAccount)
    requires a in ps
    ensures Claimed(ps[a := v]) + ps[a].withdrawal == Claimed(ps) + v.withdrawal
  {
    var ps' := ps[a := v];
    assert ps'.Keys == ps.Keys;
    ClaimedSplit(ps, ps.Keys, a);
    ClaimedSplit(ps', ps.Keys, a);
    ClaimedFrame(ps, ps', ps.Keys - {a});
  }

  /** The payers other than `a` hold at most `|ps| - 1` shares of `b`. */
  lemma OthersBound(ps: map<Address, CPAccount>, a: Address, b: nat)
    requires a in ps
    requires forall x :: x in ps ==> ps[x].withdrawal <= b
    ensures Claimed(ps) == ps[a].withdrawal + ClaimedAt(ps, ps.Keys - {a})
    ensures ClaimedAt(ps, ps.Keys - {a}) <= Mul(|ps| - 1, b)
  {
    ClaimedSplit(ps, ps.Keys, a);
    ClaimedBound(ps, ps.Keys - {a}, b);
  }

  /** Every payer's withdrawal is at most `b`, so the total is at most `|ps| * b`. */
  lemma ClaimedAtMost(ps: map<Address, CPAccount>, b: nat)
    requires forall x :: x in ps ==> ps[x].withdrawal <= b
    ensures Claimed(ps) <= Mul(|ps|, b)
  {
    ClaimedBound(ps, ps.Keys, b);
  }
}
