/** One key per attempt at the same request, in the app (web/src/domain/attempt.ts). */
module AttemptKeys {
  import opened Wrappers

  type Key = nat
  type Body = nat

  /** How a call ended, as the app sees it. */
  datatype Outcome = Success | Status(code: int) | NoAnswer

  /** The server answered, and would answer the same again. */
  predicate Definite(o: Outcome) { o.Status? && 400 <= o.code < 500 }

  predicate Concludes(o: Outcome) { o.Success? || Definite(o) }

  datatype Attempt = Attempt(key: Key, body: Body)

  /** What the app did with one `attemptKeys`: keys it asked for, calls it settled. */
  datatype Event = Asked(key: Key, body: Body) | Settled(outcome: Outcome)

  /** The attempt still open after a history. */
  function Open(log: seq<Event>): Option<Attempt> {
    if log == [] then None
    else
      match log[|log| - 1]
      case Asked(key, body) => Some(Attempt(key, body))
      case Settled(o) => if Concludes(o) then None else Open(log[..|log| - 1])
  }

  predicate Used(log: seq<Event>, key: Key) {
    exists i :: 0 <= i < |log| && log[i].Asked? && log[i].key == key
  }

  /** A key asked for is the open attempt's if that is for the same body, else a new one. */
  predicate KeyIsRight(log: seq<Event>, i: nat)
    requires i < |log|
  {
    log[i].Asked? ==>
      var open := Open(log[..i]);
      if open.Some? && open.value.body == log[i].body then log[i].key == open.value.key else !Used(log[..i], log[i].key)
  }

  ghost predicate Disciplined(log: seq<Event>) {
    forall i :: 0 <= i < |log| ==> KeyIsRight(log, i)
  }

  class Keys {
    var last: Option<Attempt>
    ghost var log: seq<Event>

    ghost predicate Valid()
      reads this
    {
      last == Open(log) && Disciplined(log)
    }

    constructor ()
      ensures Valid() && log == []
    {
      last, log := None, [];
    }

    /** `keyFor`. `newKey`: the key made if one is needed, never seen before. */
    method KeyFor(body: Body, newKey: Key) returns (key: Key)
      requires Valid() && !Used(log, newKey)
      modifies this
      ensures Valid() && log == old(log) + [Asked(key, body)]
    {
      if last.None? || last.value.body != body {
        last := Some(Attempt(newKey, body));
      }
      key := last.value.key;
      Appended(log, Asked(key, body));
      log := log + [Asked(key, body)];
    }

    /** `settle`, with how the call ended. */
    method Settle(outcome: Outcome)
      requires Valid()
      modifies this
      ensures Valid() && log == old(log) + [Settled(outcome)]
    {
      if outcome.Success? || Definite(outcome) { last := None; }
      Appended(log, Settled(outcome));
      log := log + [Settled(outcome)];
    }
  }

  lemma Appended(log: seq<Event>, e: Event)
    requires Disciplined(log)
    requires KeyIsRight(log + [e], |log|)
    ensures Disciplined(log + [e]) && (log + [e])[..|log|] == log
  {
    forall i | 0 <= i < |log + [e]| ensures KeyIsRight(log + [e], i) {
      if i < |log| { assert KeyIsRight(log, i) && (log + [e])[..i] == log[..i]; }
    }
  }

  // --- what the discipline gives -----------------------------------------------------------------

  /** The open attempt was asked for, and nothing since then closed or replaced it. */
  lemma {:induction false} OpenWasAsked(log: seq<Event>) returns (i: nat)
    requires Open(log).Some?
    ensures i < |log| && log[i] == Asked(Open(log).value.key, Open(log).value.body)
    ensures forall k :: i < k < |log| ==> log[k].Settled? && !Concludes(log[k].outcome)
  {
    var n := |log| - 1;
    if log[n].Asked? {
      i := n;
    } else {
      i := OpenWasAsked(log[..n]);
    }
  }

  /** The app never sends one key with two bodies. */
  lemma {:induction false} OneBodyPerKey(log: seq<Event>, i: nat, j: nat)
    requires Disciplined(log) && i < j < |log| && log[i].Asked? && log[j].Asked? && log[i].key == log[j].key
    ensures log[i].body == log[j].body
    decreases j
  {
    assert KeyIsRight(log, j);
    assert Used(log[..j], log[j].key) by { assert log[..j][i] == log[i]; }
    var m := OpenWasAsked(log[..j]);
    if m < i {
      OneBodyPerKey(log, m, i);
    } else if i < m {
      OneBodyPerKey(log, i, m);
    }
  }

  /** Of two keys asked for one after the other, the second is the first again
      exactly if the body is the same and nothing conclusive came between: no
      success and no definite 4xx. */
  lemma KeyStaysIff(log: seq<Event>, i: nat, j: nat)
    requires Disciplined(log) && i < j < |log| && log[i].Asked? && log[j].Asked?
    requires forall k :: i < k < j ==> log[k].Settled?
    ensures log[j].key == log[i].key <==>
      log[j].body == log[i].body && forall k :: i < k < j ==>
        log[k].outcome == NoAnswer || (log[k].outcome.Status? && !(400 <= log[k].outcome.code <= 499))
  {
    assert KeyIsRight(log, j);
    assert Used(log[..j], log[i].key) by { assert log[..j][i] == log[i]; }
    assert forall o: Outcome :: !Concludes(o) <==> o == NoAnswer || (o.Status? && !(400 <= o.code <= 499));
    OpenBetween(log[..j], i);
  }

  lemma {:induction false} OpenBetween(log: seq<Event>, i: nat)
    requires i < |log| && log[i].Asked? && forall k :: i < k < |log| ==> log[k].Settled?
    ensures Open(log) ==
      if forall k :: i < k < |log| ==> !Concludes(log[k].outcome) then Some(Attempt(log[i].key, log[i].body)) else None
  {
    var n := |log| - 1;
    if i < n {
      OpenBetween(log[..n], i);
    }
  }
}
