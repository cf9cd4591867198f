/** The payment aggregates: the total of all amounts, the payments of one
    account, and the way SumPayments and FilterPayments cut the payment list
    among their goroutines. */
module Aggregation {
  import opened Types

  /** Sum of the amounts, in order: one payment's total is its amount. */
  function Total(ps: seq<Payment>): (r: int)
    ensures |ps| == 1 ==> r == ps[0].amount
  {
    if |ps| == 0 then 0 else Total(ps[..|ps| - 1]) + ps[|ps| - 1].amount
  }

  /** Payments with no negative amount have no negative total. */
  lemma {:induction false} TotalNonNegative(ps: seq<Payment>)
    requires forall i :: 0 <= i < |ps| ==> ps[i].amount >= 0
    ensures Total(ps) >= 0
  {
    if |ps| > 0 {
      TotalNonNegative(ps[..|ps| - 1]);
    }
  }

  /** The payments of one account, in their order. */
  function OfAccount(ps: seq<Payment>, accountID: int): (r: seq<Payment>)
    ensures |r| <= |ps|
    ensures forall i :: 0 <= i < |r| ==> r[i].accountID == accountID && r[i] in ps
  {
    if |ps| == 0 then []
    else
      var front := OfAccount(ps[..|ps| - 1], accountID);
      var last := ps[|ps| - 1];
      if last.accountID == accountID then front + [last] else front
  }

  /** OfAccount keeps exactly the payments of that account. */
  lemma {:induction false} OfAccountMembers(ps: seq<Payment>, accountID: int, p: Payment)
    ensures p in OfAccount(ps, accountID) <==> p in ps && p.accountID == accountID
  {
    if |ps| > 0 {
      OfAccountMembers(ps[..|ps| - 1], accountID, p);
      assert ps == ps[..|ps| - 1] + [ps[|ps| - 1]];
    }
  }

  /** Both aggregates distribute over concatenation. */
  lemma {:induction false} AppendAggregates(a: seq<Payment>, b: seq<Payment>, accountID: int)
    ensures Total(a + b) == Total(a) + Total(b)
    ensures OfAccount(a + b, accountID) == OfAccount(a, accountID) + OfAccount(b, accountID)
    decreases |b|
  {
    if |b| > 0 {
      var b' := b[..|b| - 1];
      assert (a + b)[..|a + b| - 1] == a + b';
      AppendAggregates(a, b', accountID);
    } else {
      assert a + b == a;
    }
  }

  /** The goroutine count after the source raises anything below 1 to 1. */
  function Workers(goroutines: int): (w: nat)
    ensures w >= 1
    ensures goroutines >= 1 ==> w == goroutines
    ensures goroutines < 1 ==> w == 1
  {
    if goroutines < 1 then 1 else goroutines
  }

  /** How many indices each goroutine takes: len / workers + 1. */
  function ChunkSize(n: nat, workers: nat): (num: nat)
    requires workers >= 1
    ensures num >= 1
  {
    n / workers + 1
  }

  function Min(a: int, b: int): int {
    if a <= b then a else b
  }

  /** The payments goroutine k reads: indices k * num up to, not including,
      k * num + num, cut off at the end of the list. It holds at most num
      payments, exactly num when the range lies inside the list, none when
      the range starts past the end, and each is the payment at its index. */
  function Slice(ps: seq<Payment>, num: nat, k: nat): (r: seq<Payment>)
    ensures |r| <= num
    ensures k * num + num <= |ps| ==> |r| == num
    ensures k * num >= |ps| ==> |r| == 0
    ensures |r| == 0 || k * num + |r| <= |ps|
    ensures forall i :: 0 <= i < |r| ==> r[i] == ps[k * num + i]
  {
    var lo := k * num;
    ps[Min(|ps|, lo)..Min(|ps|, lo + num)]
  }

  /** The payments, in order, read by the goroutines in done. */
  function Picked(ps: seq<Payment>, num: nat, done: set<nat>): seq<Payment>
    requires num >= 1
  {
    if |ps| == 0 then []
    else
      var front := Picked(ps[..|ps| - 1], num, done);
      if (|ps| - 1) / num in done then front + [ps[|ps| - 1]] else front
  }

  /** Before any goroutine has run, nothing has been read. */
  lemma {:induction false} PickedNone(ps: seq<Payment>, num: nat)
    requires num >= 1
    ensures Picked(ps, num, {}) == []
  {
    if |ps| > 0 {
      PickedNone(ps[..|ps| - 1], num);
    }
  }

  lemma TotalSnoc(ps: seq<Payment>, p: Payment)
    ensures Total(ps + [p]) == Total(ps) + p.amount
  {
    assert (ps + [p])[..|ps|] == ps;
  }

  /** One more index read by a goroutine: its amount joins the total, and the
      payment joins the account's payments when it is of that account. */
  lemma SliceStep(ps: seq<Payment>, lo: nat, j: nat, accountID: int)
    requires lo <= j < |ps|
    ensures Total(ps[lo..j + 1]) == Total(ps[lo..j]) + ps[j].amount
    ensures OfAccount(ps[lo..j + 1], accountID)
            == if ps[j].accountID == accountID then OfAccount(ps[lo..j], accountID) + [ps[j]]
               else OfAccount(ps[lo..j], accountID)
  {
    assert ps[lo..j + 1][..j - lo] == ps[lo..j];
  }

  /** What one more goroutine adds to the running total. */
  lemma {:induction false} PickedAddTotal(ps: seq<Payment>, num: nat, done: set<nat>, k: nat)
    requires num >= 1 && k !in done
    ensures Total(Picked(ps, num, done + {k})) == Total(Picked(ps, num, done)) + Total(Picked(ps, num, {k}))
  {
    if |ps| > 0 {
      var front := ps[..|ps| - 1];
      PickedAddTotal(front, num, done, k);
      var last := ps[|ps| - 1];
      var c := (|ps| - 1) / num;
      if c in done {
        TotalSnoc(Picked(front, num, done + {k}), last);
        TotalSnoc(Picked(front, num, done), last);
      } else if c == k {
        TotalSnoc(Picked(front, num, done + {k}), last);
        TotalSnoc(Picked(front, num, {k}), last);
      }
    }
  }

  /** What one more goroutine adds to the payments read so far, counted
      with multiplicity. */
  lemma {:induction false} PickedAddMultiset(ps: seq<Payment>, num: nat, done: set<nat>, k: nat)
    requires num >= 1 && k !in done
    ensures multiset(Picked(ps, num, done + {k})) == multiset(Picked(ps, num, done)) + multiset(Picked(ps, num, {k}))
  {
    if |ps| > 0 {
      PickedAddMultiset(ps[..|ps| - 1], num, done, k);
    }
  }

  /** How often a payment occurs among an account's payments: as often as in
      the list when it is the account's, never otherwise. */
  lemma {:induction false} OfAccountCount(ps: seq<Payment>, accountID: int, p: Payment)
    ensures multiset(OfAccount(ps, accountID))[p] == if p.accountID == accountID then multiset(ps)[p] else 0
  {
    if |ps| > 0 {
      var front := ps[..|ps| - 1];
      OfAccountCount(front, accountID, p);
      assert ps == front + [ps[|ps| - 1]];
    }
  }

  /** Rearranging the payments rearranges the payments of each account. */
  lemma OfAccountPermutation(a: seq<Payment>, b: seq<Payment>, accountID: int)
    requires multiset(a) == multiset(b)
    ensures multiset(OfAccount(a, accountID)) == multiset(OfAccount(b, accountID))
  {
    forall p ensures multiset(OfAccount(a, accountID))[p] == multiset(OfAccount(b, accountID))[p] {
      OfAccountCount(a, accountID, p);
      OfAccountCount(b, accountID, p);
    }
  }

  lemma MulMonotone(x: nat, y: nat, c: nat)
    requires x <= y
    ensures x * c <= y * c
  {
    assert y * c == x * c + (y - x) * c;
  }

  /** Division recovers k exactly from the numbers between k * b and k * b + b. */
  lemma DivIff(i: nat, b: nat, k: nat)
    requires b >= 1
    ensures i / b == k <==> k * b <= i < k * b + b
  {
    var q := i / b;
    assert i == q * b + i % b;
    if k * b <= i < k * b + b {
      if q < k {
        MulMonotone(q + 1, k, b);
      } else if q > k {
        MulMonotone(k + 1, q, b);
      }
    }
  }

  /** A slice clamped to the end of a non-empty list, against the same slice
      of the list without its last element. */
  lemma ClampedSliceSnoc(ps: seq<Payment>, lo: nat, hi: nat)
    requires |ps| > 0 && lo <= hi
    ensures var m := |ps| - 1;
            ps[Min(|ps|, lo)..Min(|ps|, hi)]
            == if lo <= m < hi then ps[..m][Min(m, lo)..Min(m, hi)] + [ps[m]]
               else ps[..m][Min(m, lo)..Min(m, hi)]
  {
    var m := |ps| - 1;
    if m < lo {
    } else if m < hi {
      assert ps[lo..m + 1] == ps[..m][lo..m] + [ps[m]];
    } else {
      assert ps[lo..hi] == ps[..m][lo..hi];
    }
  }

  /** The one goroutine's share as a set of one is its slice. */
  lemma {:induction false} PickedSlice(ps: seq<Payment>, num: nat, k: nat)
    requires num >= 1
    ensures Picked(ps, num, {k}) == Slice(ps, num, k)
  {
    if |ps| > 0 {
      var m := |ps| - 1;
      PickedSlice(ps[..m], num, k);
      DivIff(m, num, k);
      ClampedSliceSnoc(ps, k * num, k * num + num);
      var front := ps[..m][Min(m, k * num)..Min(m, k * num + num)];
      assert Slice(ps[..m], num, k) == front;
      if m / num == k {
        assert Slice(ps, num, k) == front + [ps[m]];
      } else {
        assert Slice(ps, num, k) == front;
      }
    }
  }

  /** When every index belongs to a goroutine in done, done has read everything. */
  lemma {:induction false} PickedEverything(ps: seq<Payment>, num: nat, done: set<nat>)
    requires num >= 1
    requires forall j :: 0 <= j < |ps| ==> j / num in done
    ensures Picked(ps, num, done) == ps
  {
    if |ps| > 0 {
      PickedEverything(ps[..|ps| - 1], num, done);
    }
  }

  /** The goroutines cover every index: index j is read by goroutine
      j / num, and that goroutine exists. */
  lemma ChunksCover(n: nat, workers: nat, j: nat)
    requires workers >= 1 && j < n
    ensures j / ChunkSize(n, workers) < workers
  {
    var num := ChunkSize(n, workers);
    var q := n / workers;
    assert n == q * workers + n % workers;
    assert workers * num == workers * q + workers;
  }

  /** An order in which the goroutines finish: each of 0 .. workers - 1
      exactly once. */
  predicate Schedule(order: seq<nat>, workers: nat) {
    && |order| == workers
    && (forall i, j :: 0 <= i < j < |order| ==> order[i] != order[j])
    && (forall k :: 0 <= k < workers ==> k in order)
  }

  /** Goroutines finishing in the order they were started is one schedule. */
  lemma StartOrderIsSchedule(workers: nat)
    ensures Schedule(seq(workers, i requires 0 <= i < workers => i), workers)
  {
    var order := seq(workers, i requires 0 <= i < workers => i);
    forall k | 0 <= k < workers ensures k in order {
      assert order[k] == k;
    }
  }

  /** The goroutines among the first t of the schedule. */
  function Finished(order: seq<nat>, t: nat): set<nat>
    requires t <= |order|
  {
    set u | 0 <= u < t :: order[u]
  }

  /** The next goroutine of a schedule has not run yet. */
  lemma FinishedStep(order: seq<nat>, workers: nat, t: nat)
    requires Schedule(order, workers) && t < |order|
    ensures order[t] !in Finished(order, t)
    ensures Finished(order, t + 1) == Finished(order, t) + {order[t]}
  {
  }

  /** The payments the goroutines ks read, each goroutine's slice appended
      as it finishes: what the shared result holds after they ran in that
      order. */
  function Collected(ps: seq<Payment>, num: nat, ks: seq<nat>): seq<Payment> {
    if |ks| == 0 then [] else Collected(ps, num, ks[..|ks| - 1]) + Slice(ps, num, ks[|ks| - 1])
  }

  /** Every payment the goroutines collect comes from the list. */
  lemma {:induction false} CollectedFromList(ps: seq<Payment>, num: nat, ks: seq<nat>, p: Payment)
    requires p in Collected(ps, num, ks)
    ensures p in ps
  {
    var front, last := Collected(ps, num, ks[..|ks| - 1]), Slice(ps, num, ks[|ks| - 1]);
    if p in front {
      CollectedFromList(ps, num, ks[..|ks| - 1], p);
    } else {
      var i :| 0 <= i < |last| && last[i] == p;
      assert p == ps[ks[|ks| - 1] * num + i];
    }
  }

  /** One more goroutine finishing appends its slice to what was collected:
      its total adds to the running total, and its payments of the account
      follow those collected so far. */
  lemma CollectedStep(ps: seq<Payment>, num: nat, ks: seq<nat>, t: nat, accountID: int)
    requires t < |ks|
    ensures Total(Collected(ps, num, ks[..t + 1])) == Total(Collected(ps, num, ks[..t])) + Total(Slice(ps, num, ks[t]))
    ensures OfAccount(Collected(ps, num, ks[..t + 1]), accountID)
            == OfAccount(Collected(ps, num, ks[..t]), accountID) + OfAccount(Slice(ps, num, ks[t]), accountID)
  {
    assert ks[..t + 1][..t] == ks[..t];
    AppendAggregates(Collected(ps, num, ks[..t]), Slice(ps, num, ks[t]), accountID);
  }

  /** What the first t goroutines of a schedule collected is, up to order,
      what they read: the same payments with the same total. */
  lemma {:induction false} CollectedPicked(ps: seq<Payment>, num: nat, order: seq<nat>, workers: nat, t: nat)
    requires num >= 1 && Schedule(order, workers) && t <= |order|
    ensures Total(Collected(ps, num, order[..t])) == Total(Picked(ps, num, Finished(order, t)))
    ensures multiset(Collected(ps, num, order[..t])) == multiset(Picked(ps, num, Finished(order, t)))
  {
    if t == 0 {
      PickedNone(ps, num);
      assert Finished(order, 0) == {};
    } else {
      CollectedPicked(ps, num, order, workers, t - 1);
      assert order[..t][..t - 1] == order[..t - 1];
      var k := order[t - 1];
      AppendAggregates(Collected(ps, num, order[..t - 1]), Slice(ps, num, k), 0);
      FinishedStep(order, workers, t - 1);
      PickedSlice(ps, num, k);
      PickedAddTotal(ps, num, Finished(order, t - 1), k);
      PickedAddMultiset(ps, num, Finished(order, t - 1), k);
    }
  }

  /** Whatever the order in which the goroutines finish, together they
      collect every payment exactly once: a rearrangement of the list, with
      the same total. */
  lemma AllWorkersCollected(ps: seq<Payment>, workers: nat, order: seq<nat>)
    requires workers >= 1 && Schedule(order, workers)
    ensures Total(Collected(ps, ChunkSize(|ps|, workers), order)) == Total(ps)
    ensures multiset(Collected(ps, ChunkSize(|ps|, workers), order)) == multiset(ps)
  {
    CollectedPicked(ps, ChunkSize(|ps|, workers), order, workers, |order|);
    assert order[..|order|] == order;
    AllWorkersDone(ps, workers, order);
  }

  /** Whatever the order in which the goroutines finish, the payments of an
      account they collect together are that account's payments, each as
      often as in the list. */
  lemma AllWorkersFiltered(ps: seq<Payment>, workers: nat, order: seq<nat>, accountID: int)
    requires workers >= 1 && Schedule(order, workers)
    ensures multiset(OfAccount(Collected(ps, ChunkSize(|ps|, workers), order), accountID))
            == multiset(OfAccount(ps, accountID))
  {
    AllWorkersCollected(ps, workers, order);
    OfAccountPermutation(Collected(ps, ChunkSize(|ps|, workers), order), ps, accountID);
  }

  /** Whatever the schedule, once every goroutine has run the goroutines
      together have read every payment, each exactly once and in no other
      arrangement than the list's own. */
  lemma AllWorkersDone(ps: seq<Payment>, workers: nat, order: seq<nat>)
    requires workers >= 1 && Schedule(order, workers)
    ensures Picked(ps, ChunkSize(|ps|, workers), Finished(order, |order|)) == ps
  {
    var num := ChunkSize(|ps|, workers);
    var done := Finished(order, |order|);
    forall j | 0 <= j < |ps| ensures j / num in done {
      ChunksCover(|ps|, workers, j);
      var k := j / num;
      assert k in order;
      var t :| 0 <= t < |order| && order[t] == k;
    }
    PickedEverything(ps, num, done);
  }
}
