/** The earnings history: the paid jobs newest first, the all-time and the
    current-month totals, and the refund action. The current month is given by
    its first and last millisecond. */
module Earnings {
  import opened Types
  import opened Collections
  import opened Sorting
  import opened Store

  /** The sort key of the history: later dates come first. */
  function NewestFirst(j: Job): int { -j.date }

  /** `paidJobs`. */
  function PaidJobs(jobs: seq<Job>): (r: seq<Job>)
    ensures forall i, k :: 0 <= i < k < |r| ==> r[i].date >= r[k].date
    ensures multiset(r) == multiset(Filter(jobs, IsPaid))
    ensures forall j :: j in r <==> j in jobs && j.paymentStatus == Paid
  {
    var paid := Filter(jobs, IsPaid);
    var r := SortByKey(paid, NewestFirst);
    assert forall i, k :: 0 <= i < k < |r| ==> NewestFirst(r[i]) <= NewestFirst(r[k]);
    assert forall j :: j in r <==> j in paid by {
      forall j ensures j in r <==> j in paid {
        assert j in r <==> multiset(r)[j] > 0;
        assert j in paid <==> multiset(paid)[j] > 0;
      }
    }
    r
  }

  /** `totalHistorical`: never negative while no price is. */
  function TotalHistorical(jobs: seq<Job>): (r: Money)
    ensures (forall j :: j in jobs ==> j.price >= 0) ==> r >= 0
  {
    SumNonNegative(PaidJobs(jobs), Price);
    Sum(PaidJobs(jobs), Price)
  }

  /** The all-time total is the sum of the paid jobs' prices in store order,
      whatever the sort did, and it is 0 when nothing is paid. */
  lemma TotalHistoricalIsPaidSum(jobs: seq<Job>)
    ensures TotalHistorical(jobs) == Sum(Filter(jobs, IsPaid), Price)
    ensures (forall j :: j in jobs ==> !IsPaid(j)) ==> TotalHistorical(jobs) == 0
  {
    SumPermutation(PaidJobs(jobs), Filter(jobs, IsPaid), Price);
    if forall j :: j in jobs ==> !IsPaid(j) {
      FilterKeepsNone(jobs, IsPaid);
    }
  }

  /** `isWithinInterval`: both bounds included. */
  predicate InMonth(monthStart: Timestamp, monthEnd: Timestamp, j: Job) {
    monthStart <= j.date <= monthEnd
  }

  function ThisMonth(monthStart: Timestamp, monthEnd: Timestamp): Job -> bool {
    (j: Job) => InMonth(monthStart, monthEnd, j)
  }

  /** `totalMonth`: never negative while no price is. */
  function TotalMonth(jobs: seq<Job>, monthStart: Timestamp, monthEnd: Timestamp): (r: Money)
    ensures (forall j :: j in jobs ==> j.price >= 0) ==> r >= 0
  {
    var inMonth := Filter(PaidJobs(jobs), ThisMonth(monthStart, monthEnd));
    SumNonNegative(inMonth, Price);
    Sum(inMonth, Price)
  }

  /** The month total is the sum over the jobs that are paid and dated within
      the month. */
  lemma TotalMonthIsPaidInMonthSum(jobs: seq<Job>, monthStart: Timestamp, monthEnd: Timestamp)
    ensures TotalMonth(jobs, monthStart, monthEnd)
         == Sum(Filter(jobs, Both(IsPaid, ThisMonth(monthStart, monthEnd))), Price)
  {
    var m := ThisMonth(monthStart, monthEnd);
    FilterPermutation(PaidJobs(jobs), Filter(jobs, IsPaid), m);
    SumPermutation(Filter(PaidJobs(jobs), m), Filter(Filter(jobs, IsPaid), m), Price);
    FilterFilter(jobs, IsPaid, m);
  }

  /** With no negative prices the month never exceeds the all-time total. */
  lemma MonthAtMostHistorical(jobs: seq<Job>, monthStart: Timestamp, monthEnd: Timestamp)
    requires forall j :: j in jobs ==> j.price >= 0
    ensures TotalMonth(jobs, monthStart, monthEnd) <= TotalHistorical(jobs)
  {
    SumFilterAtMost(PaidJobs(jobs), ThisMonth(monthStart, monthEnd), Price);
  }

  /** The jobs after `handleRefund(id)`: the first job with that id is stored
      again as pending; an unknown id changes nothing. */
  function Refunded(jobs: seq<Job>, id: Id): (r: seq<Job>)
    ensures !HasId(jobs, IdOfJob, id) ==> r == jobs
    ensures |r| == |jobs|
    ensures UniqueIds(jobs, IdOfJob) ==>
      forall k :: 0 <= k < |jobs| ==> r[k] == if jobs[k].id == id then jobs[k].(paymentStatus := Pending) else jobs[k]
  {
    match FindById(jobs, IdOfJob, id)
    case None => jobs
    case Some(j) =>
      var r := ReplaceById(jobs, IdOfJob, j.(paymentStatus := Pending));
      assert UniqueIds(jobs, IdOfJob) ==>
        forall k :: 0 <= k < |jobs| && jobs[k].id == id ==> jobs[k] == j by {
        if UniqueIds(jobs, IdOfJob) {
          forall k | 0 <= k < |jobs| && jobs[k].id == id ensures jobs[k] == j {
            FindUnique(jobs, IdOfJob, k);
          }
        }
      }
      r
  }

  method HandleRefund(store: AppStore, id: Id)
    modifies store
    ensures store.jobs == Refunded(old(store.jobs), id)
    ensures store.clients == old(store.clients) && store.quotes == old(store.quotes)
    ensures store.settings == old(store.settings)
  {
    var job := FindById(store.jobs, IdOfJob, id);
    if job.Some? {
      store.UpdateJob(job.value.(paymentStatus := Pending));
    }
  }

  /** With distinct ids, the refund rewrites exactly the job at its position. */
  lemma RefundedAt(jobs: seq<Job>, i: int)
    requires UniqueIds(jobs, IdOfJob) && 0 <= i < |jobs|
    ensures Refunded(jobs, jobs[i].id) == jobs[..i] + [jobs[i].(paymentStatus := Pending)] + jobs[i + 1..]
  {
    FindUnique(jobs, IdOfJob, i);
    ReplaceUniqueAt(jobs, IdOfJob, i, jobs[i].(paymentStatus := Pending));
  }

  /** Turning one paid job of `a + [y] + b` to pending removes one copy of it
      from the paid ones. */
  lemma PaidAfterRefund(a: seq<Job>, y: Job, b: seq<Job>)
    requires IsPaid(y)
    ensures multiset(Filter(a + [y.(paymentStatus := Pending)] + b, IsPaid))
         == multiset(Filter(a + [y] + b, IsPaid)) - multiset{y}
  {
    FilterSwapOut(a, y, y.(paymentStatus := Pending), b, IsPaid);
  }

  /** With distinct ids, a refunded paid job no longer occurs as it was. */
  lemma RefundedNotIn(jobs: seq<Job>, i: int)
    requires UniqueIds(jobs, IdOfJob) && 0 <= i < |jobs| && IsPaid(jobs[i])
    ensures jobs[i] !in Refunded(jobs, jobs[i].id)
  {
    var after := Refunded(jobs, jobs[i].id);
    forall k | 0 <= k < |jobs| ensures after[k] != jobs[i] {
      if k == i {
        assert after[k].paymentStatus == Pending;
      } else {
        assert IdOfJob(jobs[k]) != IdOfJob(jobs[i]) by {
          if k < i { } else { }
        }
      }
    }
  }

  /** Swapping the job at `i` for `x` moves the all-time total by what leaves
      and what arrives. */
  lemma HistoricalSwap(jobs: seq<Job>, i: int, x: Job)
    requires 0 <= i < |jobs|
    ensures TotalHistorical(jobs[..i] + [x] + jobs[i + 1..])
         == TotalHistorical(jobs) - (if IsPaid(jobs[i]) then jobs[i].price else 0)
                                  + (if IsPaid(x) then x.price else 0)
  {
    TotalHistoricalIsPaidSum(jobs);
    TotalHistoricalIsPaidSum(jobs[..i] + [x] + jobs[i + 1..]);
    SumFilterSwapAt(jobs, i, x, IsPaid, Price);
  }

  /** Refunding a paid job whose id is unique takes it out of the history and
      its price off the all-time total. */
  lemma RefundLeavesHistory(jobs: seq<Job>, i: int)
    requires UniqueIds(jobs, IdOfJob) && 0 <= i < |jobs| && IsPaid(jobs[i])
    ensures jobs[i] !in PaidJobs(Refunded(jobs, jobs[i].id))
    ensures multiset(PaidJobs(Refunded(jobs, jobs[i].id))) == multiset(PaidJobs(jobs)) - multiset{jobs[i]}
    ensures TotalHistorical(Refunded(jobs, jobs[i].id)) == TotalHistorical(jobs) - jobs[i].price
  {
    var x := jobs[i].(paymentStatus := Pending);
    var after := Refunded(jobs, jobs[i].id);
    RefundedAt(jobs, i);
    RefundedNotIn(jobs, i);
    assert jobs == jobs[..i] + [jobs[i]] + jobs[i + 1..];
    PaidAfterRefund(jobs[..i], jobs[i], jobs[i + 1..]);
    HistoricalSwap(jobs, i, x);
  }

  /** Refunding a paid job whose id is unique takes its price off the month
      total when it is dated within the month, and leaves the total as it was
      otherwise. */
  lemma RefundLeavesMonth(jobs: seq<Job>, i: int, monthStart: Timestamp, monthEnd: Timestamp)
    requires UniqueIds(jobs, IdOfJob) && 0 <= i < |jobs| && IsPaid(jobs[i])
    ensures TotalMonth(Refunded(jobs, jobs[i].id), monthStart, monthEnd)
         == TotalMonth(jobs, monthStart, monthEnd) - (if InMonth(monthStart, monthEnd, jobs[i]) then jobs[i].price else 0)
  {
    var x := jobs[i].(paymentStatus := Pending);
    RefundedAt(jobs, i);
    TotalMonthIsPaidInMonthSum(jobs, monthStart, monthEnd);
    TotalMonthIsPaidInMonthSum(jobs[..i] + [x] + jobs[i + 1..], monthStart, monthEnd);
    SumFilterSwapAt(jobs, i, x, Both(IsPaid, ThisMonth(monthStart, monthEnd)), Price);
  }
}
