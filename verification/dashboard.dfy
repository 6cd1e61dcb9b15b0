/** The dashboard: today's jobs, the payments awaited for completed work, the
    money earned today, the new-user panel, the active-quote count and the
    refund action of the earnings panel. The current day is given by its first
    and last millisecond. */
module Dashboard {
  import opened Types
  import opened Collections
  import opened Store
  import Schedule

  /** `isToday`: the date falls on the current day, both bounds included. */
  predicate OnDay(dayStart: Timestamp, dayEnd: Timestamp, j: Job) {
    dayStart <= j.date <= dayEnd
  }

  function Today(dayStart: Timestamp, dayEnd: Timestamp): Job -> bool {
    (j: Job) => OnDay(dayStart, dayEnd, j)
  }

  predicate AwaitingPayment(j: Job) {
    j.paymentStatus == Pending && j.jobStatus == Completed
  }

  predicate IsCompleted(j: Job) {
    j.jobStatus == Completed
  }

  /** `todayJobs`, in store order. */
  function TodayJobs(jobs: seq<Job>, dayStart: Timestamp, dayEnd: Timestamp): (r: seq<Job>)
    ensures forall j :: j in r <==> j in jobs && dayStart <= j.date <= dayEnd
  {
    Filter(jobs, Today(dayStart, dayEnd))
  }

  /** `pendingPayments`, in store order. */
  function PendingPayments(jobs: seq<Job>): (r: seq<Job>)
    ensures forall j :: j in r <==> j in jobs && j.paymentStatus == Pending && j.jobStatus == Completed
  {
    Filter(jobs, AwaitingPayment)
  }

  /** `totalPending`: never negative while no price is. */
  function TotalPending(jobs: seq<Job>): (r: Money)
    ensures (forall j :: j in jobs ==> j.price >= 0) ==> r >= 0
  {
    SumNonNegative(PendingPayments(jobs), Price);
    Sum(PendingPayments(jobs), Price)
  }

  /** `totalEarnedToday`: never negative while no price is. */
  function TotalEarnedToday(jobs: seq<Job>, dayStart: Timestamp, dayEnd: Timestamp): (r: Money)
    ensures (forall j :: j in jobs ==> j.price >= 0) ==> r >= 0
  {
    var paidToday := Filter(TodayJobs(jobs, dayStart, dayEnd), IsPaid);
    SumNonNegative(paidToday, Price);
    Sum(paidToday, Price)
  }

  /** The money earned today is the sum over the jobs that are both dated today
      and paid, and it is 0 when there are none. */
  lemma EarnedTodayIsPaidTodaySum(jobs: seq<Job>, dayStart: Timestamp, dayEnd: Timestamp)
    ensures TotalEarnedToday(jobs, dayStart, dayEnd) == Sum(Filter(jobs, Both(Today(dayStart, dayEnd), IsPaid)), Price)
    ensures (forall j :: j in jobs && OnDay(dayStart, dayEnd, j) ==> !IsPaid(j)) ==>
              TotalEarnedToday(jobs, dayStart, dayEnd) == 0
  {
    FilterFilter(jobs, Today(dayStart, dayEnd), IsPaid);
    if forall j :: j in jobs && OnDay(dayStart, dayEnd, j) ==> !IsPaid(j) {
      FilterKeepsNone(TodayJobs(jobs, dayStart, dayEnd), IsPaid);
    }
  }

  /** Nothing is awaited when no completed job is pending. */
  lemma NoPendingNoTotal(jobs: seq<Job>)
    requires forall j :: j in jobs ==> !AwaitingPayment(j)
    ensures TotalPending(jobs) == 0
  {
    FilterKeepsNone(jobs, AwaitingPayment);
  }

  /** `isNewUser`: no clients and no jobs; quotes do not matter. */
  function IsNewUser(clients: seq<Client>, jobs: seq<Job>): (r: bool)
    ensures r ==> clients == [] && jobs == []
    ensures !r ==> |clients| + |jobs| > 0
  {
    |clients| == 0 && |jobs| == 0
  }

  /** A user stops being new with their first client, whatever was stored before. */
  lemma AddingClientEndsNewUser(clients: seq<Client>, jobs: seq<Job>, c: Client)
    ensures !IsNewUser(clients + [c], jobs)
  {
    assert (clients + [c])[|clients|] == c;
  }

  /** The pending panel: the first five awaited payments in store order. */
  function PendingPanel(jobs: seq<Job>): (r: seq<Job>)
    ensures |r| <= 5 && |r| <= |PendingPayments(jobs)|
    ensures |r| == |PendingPayments(jobs)| || |r| == 5
    ensures r == PendingPayments(jobs)[..|r|]
  {
    var pending := PendingPayments(jobs);
    if |pending| <= 5 then pending else pending[..5]
  }

  /** The "completed" line of today's card. */
  function CompletedTodayCount(jobs: seq<Job>, dayStart: Timestamp, dayEnd: Timestamp): (n: nat)
    ensures n <= |TodayJobs(jobs, dayStart, dayEnd)|
  {
    |Filter(TodayJobs(jobs, dayStart, dayEnd), IsCompleted)|
  }

  /** Today's completed count adds up over the parts of the job list. */
  lemma {:induction false} CompletedTodayCountConcat(a: seq<Job>, b: seq<Job>, dayStart: Timestamp, dayEnd: Timestamp)
    ensures CompletedTodayCount(a + b, dayStart, dayEnd)
         == CompletedTodayCount(a, dayStart, dayEnd) + CompletedTodayCount(b, dayStart, dayEnd)
  {
    var today := Today(dayStart, dayEnd);
    FilterConcat(a, b, today);
    FilterConcat(Filter(a, today), Filter(b, today), IsCompleted);
  }

  /** A single job counts once exactly when it is dated today and completed. */
  lemma CompletedTodayCountSingle(j: Job, dayStart: Timestamp, dayEnd: Timestamp)
    ensures CompletedTodayCount([j], dayStart, dayEnd) == if OnDay(dayStart, dayEnd, j) && IsCompleted(j) then 1 else 0
  {
  }

  /** A quote counted as active carries the status string "active". */
  predicate IsActive(q: Quote) {
    q.status == Undeclared("active")
  }

  function ActiveQuoteCount(quotes: seq<Quote>): (n: nat)
    ensures n <= |quotes|
  {
    |Filter(quotes, IsActive)|
  }

  /** The active-quote count adds up over the parts of the quote list. */
  lemma {:induction false} ActiveQuoteCountConcat(a: seq<Quote>, b: seq<Quote>)
    ensures ActiveQuoteCount(a + b) == ActiveQuoteCount(a) + ActiveQuoteCount(b)
  {
    FilterConcat(a, b, IsActive);
  }

  /** A single quote counts once exactly when its status is "active". */
  lemma ActiveQuoteCountSingle(q: Quote)
    ensures ActiveQuoteCount([q]) == if IsActive(q) then 1 else 0
  {
  }

  /** While every stored quote holds one of the four declared statuses, the
      active-quote count is 0. */
  lemma ActiveCountZeroWhenDeclared(quotes: seq<Quote>)
    requires forall q :: q in quotes ==> !q.status.Undeclared?
    ensures ActiveQuoteCount(quotes) == 0
  {
    FilterKeepsNone(quotes, IsActive);
  }

  /** The refund button of the earnings panel: on a confirmed dialog the job is
      stored again as pending; otherwise nothing changes. */
  method ConfirmRefund(store: AppStore, job: Job, confirmed: bool)
    modifies store
    ensures store.jobs == if confirmed then ReplaceById(old(store.jobs), IdOfJob, job.(paymentStatus := Pending))
                          else old(store.jobs)
    ensures store.clients == old(store.clients) && store.quotes == old(store.quotes)
    ensures store.settings == old(store.settings)
  {
    if confirmed {
      store.UpdateJob(job.(paymentStatus := Pending));
    }
  }

  /** Swapping the job at `i` for `x` moves today's earnings by what leaves and
      what arrives. */
  lemma EarnedTodaySwap(jobs: seq<Job>, i: int, x: Job, dayStart: Timestamp, dayEnd: Timestamp)
    requires 0 <= i < |jobs|
    ensures TotalEarnedToday(jobs[..i] + [x] + jobs[i + 1..], dayStart, dayEnd)
         == TotalEarnedToday(jobs, dayStart, dayEnd)
          - (if IsPaid(jobs[i]) && OnDay(dayStart, dayEnd, jobs[i]) then jobs[i].price else 0)
          + (if IsPaid(x) && OnDay(dayStart, dayEnd, x) then x.price else 0)
  {
    EarnedTodayIsPaidTodaySum(jobs, dayStart, dayEnd);
    EarnedTodayIsPaidTodaySum(jobs[..i] + [x] + jobs[i + 1..], dayStart, dayEnd);
    SumFilterSwapAt(jobs, i, x, Both(Today(dayStart, dayEnd), IsPaid), Price);
  }

  /** Refunding a stored job with a unique id changes that job's payment only;
      its price leaves the money earned today when it was paid and dated today,
      and joins the awaited total when it was paid and is completed. */
  lemma RefundMovesMoney(jobs: seq<Job>, i: int, dayStart: Timestamp, dayEnd: Timestamp)
    requires UniqueIds(jobs, IdOfJob) && 0 <= i < |jobs|
    ensures var after := ReplaceById(jobs, IdOfJob, jobs[i].(paymentStatus := Pending));
      && after == jobs[..i] + [jobs[i].(paymentStatus := Pending)] + jobs[i + 1..]
      && TotalEarnedToday(after, dayStart, dayEnd) == TotalEarnedToday(jobs, dayStart, dayEnd)
           - (if IsPaid(jobs[i]) && OnDay(dayStart, dayEnd, jobs[i]) then jobs[i].price else 0)
      && TotalPending(after) == TotalPending(jobs)
           + (if IsPaid(jobs[i]) && IsCompleted(jobs[i]) then jobs[i].price else 0)
  {
    var x := jobs[i].(paymentStatus := Pending);
    ReplaceUniqueAt(jobs, IdOfJob, i, x);
    EarnedTodaySwap(jobs, i, x, dayStart, dayEnd);
    SumFilterSwapAt(jobs, i, x, AwaitingPayment, Price);
  }

  /** The dashboard's day includes its first and last millisecond while the
      schedule's "today" view excludes both, so a job at the very start of the
      day is counted here and not listed there. */
  lemma DayBoundsDiffer(dayStart: Timestamp, dayEnd: Timestamp, j: Job)
    requires dayStart <= dayEnd
    ensures Schedule.Shown(Schedule.Today, dayStart, dayEnd, j) ==> OnDay(dayStart, dayEnd, j)
    ensures j.date == dayStart ==> OnDay(dayStart, dayEnd, j) && !Schedule.Shown(Schedule.Today, dayStart, dayEnd, j)
  {
  }
}
