/** What a renter gets back (booking/cancellation.py). Times are milliseconds. */
module Cancellation {

  datatype Policy = Flexible | Moderate | Strict

  const HOUR := 3_600_000
  const DAY := 24 * HOUR

  /** Twice the share that goes back: 0, 1 or 2 halves. */
  function RefundHalves(p: Policy, byOwner: bool, now: int, start: int): (h: nat)
    ensures h <= 2
  {
    if byOwner || p == Flexible then 2
    else
      var ahead := start - now;
      if p == Moderate then
        if ahead >= 24 * HOUR then 2 else 1
      else
        if ahead >= 7 * DAY then 2
        else if ahead >= 24 * HOUR then 1 else 0
  }

  /** Python's `round` of n halves: to the nearest, a tie to the even one. */
  function RoundHalves(n: nat): nat {
    if n % 2 == 0 then n / 2
    else if (n / 2) % 2 == 0 then n / 2 else n / 2 + 1
  }

  function RefundAmount(p: Policy, amount: nat, charged: bool, byOwner: bool, now: int, start: int): (r: nat)
    ensures r <= amount
  {
    if !charged then 0
    else RoundHalves(amount * RefundHalves(p, byOwner, now, start))
  }

  /** The schedule names these in full: an owner's own cancellation, the flexible
      policy, 24 hours ahead under the moderate one, 7 days under the strict. */
  predicate InFull(p: Policy, byOwner: bool, now: int, start: int) {
    byOwner || p == Flexible || (p == Moderate && now + 24 * HOUR <= start) || (p == Strict && now + 7 * DAY <= start)
  }

  predicate Nothing(p: Policy, byOwner: bool, now: int, start: int) {
    !byOwner && p == Strict && now + 24 * HOUR > start
  }

  /** The published schedule, for every amount: all of it, nothing, or else half, a
      tie going to the even unit, so that half of one unit is none. Of two units or
      more what came back tells which it was. */
  lemma RefundSchedule(p: Policy, amount: nat, byOwner: bool, now: int, start: int)
    ensures var r := RefundAmount(p, amount, true, byOwner, now, start);
      var full, none := InFull(p, byOwner, now, start), Nothing(p, byOwner, now, start);
      && (full ==> r == amount) && (none ==> r == 0)
      && (!full && !none ==> -1 <= 2 * r - amount <= 1 && (amount % 2 == 1 ==> r % 2 == 0))
      && (amount >= 2 ==> (r == amount <==> full) && (r == 0 <==> none))
  {
    var h := RefundHalves(p, byOwner, now, start);
    assert amount * h == if h == 2 then 2 * amount else if h == 1 then amount else 0;
  }

  /** The later a cancellation, the less comes back; and a stricter policy never gives more. */
  lemma RefundShrinks(p: Policy, q: Policy, amount: nat, now: int, later: int, start: int)
    requires now <= later && (q == Strict || p == Flexible || p == q)
    ensures RefundAmount(q, amount, true, false, later, start) <= RefundAmount(p, amount, true, false, now, start)
  {
    RoundHalvesGrows(amount, RefundHalves(q, false, later, start), RefundHalves(p, false, now, start));
  }

  lemma RoundHalvesGrows(amount: nat, h: nat, k: nat)
    requires h <= k <= 2
    ensures RoundHalves(amount * h) <= RoundHalves(amount * k)
  {}
}
