/** What a booking moved, read off its row: the server's reckoning
    (repository.money_of) and the app's own for answers without it
    (web/src/domain/pricing.ts). */
module Pricing {
  import opened Wrappers
  import opened BookingState
  import opened Booking
  import opened BookingInvariants

  datatype Money = Money(charged: int, refunded: int, ownerShare: int)

  predicate Captured(s: Status) { s in {Accepted, Active, Completed, Disputed} }

  function Min(a: int, b: int): int { if a <= b then a else b }

  /** `money_of`. */
  function MoneyOf(r: Row): Money {
    var charged := if Captured(r.status) || (r.status == Cancelled && r.refund.Some?) then r.terms.amount else 0;
    var refunded := if charged != 0 then Min(charged, r.refund.GetOr(0)) else 0;
    Money(charged, refunded,
      if r.terms.amount != 0 then (charged - refunded) * r.terms.ownerNet / r.terms.amount else 0)
  }

  /** 15% of n, rounded half up, as both sides compute the fee. */
  function Fee(n: int): int { (n * 1500 + 5000) / 10000 }

  /** `moved`, when the answer carries no money fields. */
  function Moved(r: Row): Money {
    var taken := Captured(r.status) || r.noShow == Some(TheRenter) || (r.status == Cancelled && r.refund.Some?);
    var charged := if taken then r.terms.amount else 0;
    var refunded := Min(r.refund.GetOr(0), charged);
    Money(charged, refunded, charged - refunded - Fee(charged - refunded))
  }

  /** Nothing is lost or made: what was charged is what went back, what the
      owner gets and a fee that is never negative. */
  lemma MoneyIsConserved(r: Row)
    requires r.terms.amount > 0 && 0 <= r.terms.ownerNet <= r.terms.amount
    requires r.refund.Some? ==> 0 <= r.refund.value <= r.terms.amount
    ensures var m := MoneyOf(r);
      && 0 <= m.refunded <= m.charged <= r.terms.amount
      && 0 <= m.ownerShare <= m.charged - m.refunded
      && (m.refunded == m.charged ==> m.ownerShare == 0)
      && (m.charged == r.terms.amount && m.refunded == 0 ==> m.ownerShare == r.terms.ownerNet)
      && m.ownerShare * r.terms.amount <= (m.charged - m.refunded) * r.terms.ownerNet < (m.ownerShare + 1) * r.terms.amount
  {
    var m := MoneyOf(r);
    var kept := m.charged - m.refunded;
    ShareBounds(kept, r.terms.ownerNet, r.terms.amount);
  }

  lemma ShareBounds(kept: int, net: int, amount: int)
    requires amount > 0 && 0 <= net <= amount && 0 <= kept <= amount
    ensures 0 <= kept * net / amount <= kept
    ensures kept * net / amount * amount <= kept * net < (kept * net / amount + 1) * amount
    ensures kept == amount ==> kept * net / amount == net
  {
    Larger(kept, 0, net);
    Larger(kept, net, amount);
    Quotient(kept * net, amount);
    var q := kept * net / amount;
    Factor(q, kept, amount);
    if kept == amount { OnlyQuotient(q, net, amount); }
  }

  lemma Quotient(p: int, amount: int)
    requires amount > 0 && p >= 0
    ensures 0 <= p / amount && p / amount * amount <= p < (p / amount + 1) * amount
  {
    assert p == p / amount * amount + p % amount;
  }

  lemma Larger(a: int, b: int, c: int)
    requires a >= 0 && b <= c
    ensures a * b <= a * c
  {}

  lemma OnlyQuotient(q: int, net: int, amount: int)
    requires amount > 0 && q * amount <= amount * net < (q + 1) * amount
    ensures q == net
  {
    if q < net { Larger(amount, q + 1, net); }
    if q > net { Larger(amount, net + 1, q); }
  }

  /** On every row the service can reach, the app's own reckoning charges and
      refunds what the server's does, and its owner's share is within one minor
      unit when the quote's fee is the 15% of the total. */
  lemma AppAgreesWithServer(r: Row, tr: seq<Edge>, clock: int)
    requires RowOk(r, tr, clock)
    ensures Moved(r).charged == MoneyOf(r).charged && Moved(r).refunded == MoneyOf(r).refunded
    ensures r.terms.ownerNet == r.terms.amount - Fee(r.terms.amount) ==>
      -1 <= Moved(r).ownerShare - MoneyOf(r).ownerShare <= 1
  {
    hide Path, WasAccepted;
    if r.terms.ownerNet == r.terms.amount - Fee(r.terms.amount) {
      var m := MoneyOf(r);
      WithinOne(m.charged - m.refunded, r.terms.amount);
    }
  }

  lemma WithinOne(n: int, amount: int)
    requires amount > 0 && 0 <= n <= amount
    requires 0 <= amount - Fee(amount) <= amount
    ensures -1 <= (n - Fee(n)) - n * (amount - Fee(amount)) / amount <= 1
  {
    var f, g := Fee(amount), Fee(n);
    assert 3 * amount - 10 <= 20 * f <= 3 * amount + 10;
    assert 3 * n - 10 <= 20 * g <= 3 * n + 10;
    hide Fee;
    ShareBounds(n, amount - f, amount);
    ShareIsNear(n, amount, f, n * (amount - f) / amount);
  }

  /** 20 n (amount - f) lies within 10 n of 17 n amount, and 10 n within 10 amount. */
  lemma ShareIsNear(n: int, amount: int, f: int, share: int)
    requires amount > 0 && 0 <= n <= amount && 3 * amount - 10 <= 20 * f <= 3 * amount + 10
    requires share * amount <= n * (amount - f) < (share + 1) * amount
    ensures 17 * n - 30 <= 20 * share <= 17 * n + 10
  {
    Larger(n, 20 * f, 3 * amount + 10);
    Larger(n, 3 * amount - 10, 20 * f);
    Expand(n, amount, f, share);
    Scaled(n * amount, n * f, share * amount, n, amount);
    Factor(20 * share, 17 * n + 10, amount);
    Factor(17 * n - 10, 20 * share + 20, amount);
  }

  lemma Expand(n: int, amount: int, f: int, share: int)
    ensures n * (20 * f) == 20 * (n * f)
    ensures n * (3 * amount + 10) == 3 * (n * amount) + 10 * n
    ensures n * (3 * amount - 10) == 3 * (n * amount) - 10 * n
    ensures n * (amount - f) == n * amount - n * f
    ensures (share + 1) * amount == share * amount + amount
    ensures (20 * share) * amount == 20 * (share * amount)
    ensures (20 * share + 20) * amount == 20 * (share * amount) + 20 * amount
    ensures (17 * n + 10) * amount == 17 * (n * amount) + 10 * amount
    ensures (17 * n - 10) * amount == 17 * (n * amount) - 10 * amount
  {}

  lemma Scaled(na: int, nf: int, sa: int, n: int, amount: int)
    requires 0 <= n <= amount && 3 * na - 10 * n <= 20 * nf <= 3 * na + 10 * n && sa <= na - nf < sa + amount
    ensures 20 * sa <= 17 * na + 10 * amount && 17 * na - 10 * amount <= 20 * sa + 20 * amount
  {}

  lemma Factor(a: int, b: int, amount: int)
    requires amount > 0 && a * amount <= b * amount
    ensures a <= b
  {
    if a > b { Larger(amount, b + 1, a); }
  }
}
