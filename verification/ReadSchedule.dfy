/**
 How fuse_dev_do_read picks what the next device read delivers, and why forgets and ordinary
 requests cannot starve each other.
 */
module ReadSchedule {

  datatype Choice = Interrupt | Forget | Request | Wait

  /** The choice and the new value of fiq->forget_batch. The decrement only happens when both a
      forget and a request wait, because of the short-circuit in the source's condition. */
  function Dispatch(interrupts: bool, forgets: bool, requests: bool, batch: int): (r: (Choice, int))
  {
    if interrupts then (Interrupt, batch)
    else if forgets then
      if !requests then (Forget, batch)
      else if batch > 0 then (Forget, batch - 1)
      else (Request, if batch - 1 <= -8 then 16 else batch - 1)
    else if requests then (Request, batch)
    else (Wait, batch)
  }

  predicate InRange(batch: int) { -7 <= batch <= 16 }

  /** What waits at one call of fuse_dev_do_read. */
  datatype Waiting = Waiting(interrupts: bool, forgets: bool, requests: bool)

  function Choices(ws: seq<Waiting>, batch: int): (r: seq<Choice>)
    ensures |r| == |ws|
    decreases |ws|
  {
    if ws == [] then []
    else
      var (c, b) := Dispatch(ws[0].interrupts, ws[0].forgets, ws[0].requests, batch);
      [c] + Choices(ws[1..], b)
  }

  function BatchAfter(ws: seq<Waiting>, batch: int): int
    decreases |ws|
  {
    if ws == [] then batch
    else BatchAfter(ws[1..], Dispatch(ws[0].interrupts, ws[0].forgets, ws[0].requests, batch).1)
  }

  /** A read waits only if nothing is there for it; an interrupt goes before everything else; and what waits alone is
      served. */
  lemma {:induction false} ServesWhatWaits(ws: seq<Waiting>, batch: int, k: nat)
    requires k < |ws|
    ensures
      var w, c := ws[k], Choices(ws, batch)[k];
      && (c == Wait <==> !w.interrupts && !w.forgets && !w.requests)
      && (c == Interrupt <==> w.interrupts)
      && (c == Forget ==> w.forgets) && (c == Request ==> w.requests)
    decreases |ws|
  {
    var (c, b) := Dispatch(ws[0].interrupts, ws[0].forgets, ws[0].requests, batch);
    assert Choices(ws, batch) == [c] + Choices(ws[1..], b);
    if k > 0 { ServesWhatWaits(ws[1..], b, k - 1); }
  }

  /** The counter moves only at reads at which both kinds wait and no interrupt does. */
  lemma {:induction false} BatchStays(ws: seq<Waiting>, batch: int)
    requires forall k :: 0 <= k < |ws| ==> ws[k].interrupts || !ws[k].forgets || !ws[k].requests
    ensures BatchAfter(ws, batch) == batch
    decreases |ws|
  {
    if ws != [] {
      assert Dispatch(ws[0].interrupts, ws[0].forgets, ws[0].requests, batch).1 == batch;
      BatchStays(ws[1..], batch);
    }
  }

  /** forget_batch starts at 0 and never leaves [-7, 16], whatever waits at each read. */
  lemma {:induction false} BatchStaysInRange(ws: seq<Waiting>, batch: int)
    requires InRange(batch)
    ensures InRange(BatchAfter(ws, batch))
    decreases |ws|
  {
    if ws != [] {
      BatchStaysInRange(ws[1..], Dispatch(ws[0].interrupts, ws[0].forgets, ws[0].requests, batch).1);
    }
  }

  /** Both kinds wait at every read of the run. */
  predicate Contended(ws: seq<Waiting>) {
    forall i :: 0 <= i < |ws| ==> ws[i].forgets && ws[i].requests
  }

  function Count(cs: seq<Choice>, c: Choice): nat {
    if cs == [] then 0 else (if cs[0] == c then 1 else 0) + Count(cs[1..], c)
  }

  /** While both kinds wait, at most 8 ordinary reads happen without a forget turn between them,
      interrupts aside, from any reachable counter value. */
  lemma {:induction false} AtMostEightRequests(ws: seq<Waiting>, batch: int)
    requires InRange(batch) && Contended(ws)
    requires Forget !in Choices(ws, batch)
    ensures Count(Choices(ws, batch), Request) <= if batch <= 0 then batch + 8 else 0
    ensures Count(Choices(ws, batch), Request) <= 8
    decreases |ws|
  {
    if ws != [] {
      var (c, b) := Dispatch(ws[0].interrupts, ws[0].forgets, ws[0].requests, batch);
      var rest := Choices(ws[1..], b);
      assert Choices(ws, batch) == [c] + rest;
      assert Contended(ws[1..]);
      AtMostEightRequests(ws[1..], b);
    }
  }

  /** While both kinds wait, at most 16 forget turns happen without an ordinary read between them. */
  lemma {:induction false} AtMostSixteenForgets(ws: seq<Waiting>, batch: int)
    requires InRange(batch) && Contended(ws)
    requires Request !in Choices(ws, batch)
    ensures Count(Choices(ws, batch), Forget) <= if batch > 0 then batch else 0
    ensures Count(Choices(ws, batch), Forget) <= 16
    decreases |ws|
  {
    if ws != [] {
      var (c, b) := Dispatch(ws[0].interrupts, ws[0].forgets, ws[0].requests, batch);
      var rest := Choices(ws[1..], b);
      assert Choices(ws, batch) == [c] + rest;
      assert Contended(ws[1..]);
      AtMostSixteenForgets(ws[1..], b);
    }
  }

  /** n reads at which both kinds wait and no interrupt does. */
  function Both(n: nat): (ws: seq<Waiting>)
    ensures |ws| == n && Contended(ws) && forall i :: 0 <= i < n ==> !ws[i].interrupts
  {
    seq(n, i => Waiting(false, true, true))
  }

  /** The position of a counter value in the cycle of 16 forget turns and 8 ordinary reads. */
  function Phase(batch: int): (p: nat)
    requires InRange(batch)
    ensures p < 24
  {
    16 - batch
  }

  /** Both bounds are met exactly: under constant contention the choices repeat with period 24,
      16 forget turns and then 8 ordinary reads. */
  lemma {:induction false} SixteenThenEight(n: nat, batch: int, k: nat)
    requires InRange(batch) && k < n
    ensures Choices(Both(n), batch)[k] == if (Phase(batch) + k) % 24 < 16 then Forget else Request
    decreases n
  {
    var ws := Both(n);
    var (c, b) := Dispatch(false, true, true, batch);
    assert ws[0] == Waiting(false, true, true);
    assert ws[1..] == Both(n - 1);
    assert Choices(ws, batch) == [c] + Choices(Both(n - 1), b);
    if k > 0 {
      SixteenThenEight(n - 1, b, k - 1);
      assert (Phase(batch) + k) % 24 == (Phase(b) + k - 1) % 24;
    }
  }
}
