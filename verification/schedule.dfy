/** The schedule page: the new-job form, the job status and payment toggles,
    the all/today/upcoming view sorted by date, and the receipt of a paid job. */
module Schedule {
  import opened Types
  import opened Collections
  import opened Sorting
  import opened Text
  import opened Store

  /** The status cycle of `toggleJobStatus`: scheduled, in progress, completed,
      and back to scheduled; a canceled job restarts as scheduled. */
  function NextStatus(s: JobStatus): (r: JobStatus)
    ensures r != Canceled
    ensures r == Scheduled <==> s == Completed || s == Canceled
    ensures s == Scheduled ==> r == InProgress
    ensures s == InProgress ==> r == Completed
  {
    match s
    case Scheduled => InProgress
    case InProgress => Completed
    case Completed => Scheduled
    case Canceled => Scheduled
  }

  /** Three steps from any status other than canceled come back to it, and
      canceled is left after one step and never returned to. */
  lemma NextStatusCycle(s: JobStatus)
    ensures s != Canceled ==> NextStatus(NextStatus(NextStatus(s))) == s
    ensures NextStatus(NextStatus(NextStatus(s))) != Canceled
  {
  }

  /** `togglePaymentStatus` on one job: paid becomes pending and anything else paid. */
  function TogglePayment(j: Job): (r: Job)
    ensures r.paymentStatus != j.paymentStatus
    ensures r.(paymentStatus := j.paymentStatus) == j
  {
    j.(paymentStatus := if j.paymentStatus == Paid then Pending else Paid)
  }

  /** Toggling the payment twice restores the job. */
  lemma TogglePaymentInvolution(j: Job)
    ensures TogglePayment(TogglePayment(j)) == j
  {
  }

  /** With distinct job ids, toggling a stored job's payment twice restores the
      stored list, and the first toggle changes that job only. */
  lemma TogglePaymentTwiceRestores(jobs: seq<Job>, i: int)
    requires UniqueIds(jobs, IdOfJob) && 0 <= i < |jobs|
    ensures var once := ReplaceById(jobs, IdOfJob, TogglePayment(jobs[i]));
      && once == jobs[..i] + [TogglePayment(jobs[i])] + jobs[i + 1..]
      && ReplaceById(once, IdOfJob, TogglePayment(once[i])) == jobs
  {
    var t := TogglePayment(jobs[i]);
    ReplaceUniqueAt(jobs, IdOfJob, i, t);
    var once := jobs[..i] + [t] + jobs[i + 1..];
    ReplaceKeepsIds(jobs, IdOfJob, t);
    assert once[i] == t;
    ReplaceUniqueAt(once, IdOfJob, i, TogglePayment(t));
    assert once[..i] + [TogglePayment(t)] + once[i + 1..] == jobs;
  }

  method ToggleJobStatus(store: AppStore, job: Job)
    modifies store
    ensures store.jobs == ReplaceById(old(store.jobs), IdOfJob, job.(jobStatus := NextStatus(job.jobStatus)))
    ensures store.clients == old(store.clients) && store.quotes == old(store.quotes)
    ensures store.settings == old(store.settings)
  {
    store.UpdateJob(job.(jobStatus := NextStatus(job.jobStatus)));
  }

  /** The status select of a job card: stores the job with the chosen status. */
  method SetJobStatus(store: AppStore, job: Job, s: JobStatus)
    modifies store
    ensures store.jobs == ReplaceById(old(store.jobs), IdOfJob, job.(jobStatus := s))
    ensures store.clients == old(store.clients) && store.quotes == old(store.quotes)
    ensures store.settings == old(store.settings)
  {
    store.UpdateJob(job.(jobStatus := s));
  }

  method TogglePaymentStatus(store: AppStore, job: Job)
    modifies store
    ensures store.jobs == ReplaceById(old(store.jobs), IdOfJob, TogglePayment(job))
    ensures store.clients == old(store.clients) && store.quotes == old(store.quotes)
    ensures store.settings == old(store.settings)
  {
    store.UpdateJob(TogglePayment(job));
  }

  /** The three view buttons. */
  datatype View = All | Today | Upcoming

  function Date(j: Job): Timestamp { j.date }

  /** Whether a job shows in the view, given the first and the last millisecond
      of the current day; both comparisons are strict. */
  predicate Shown(view: View, dayStart: Timestamp, dayEnd: Timestamp, j: Job) {
    match view
    case All => true
    case Today => dayStart < j.date < dayEnd
    case Upcoming => j.date > dayEnd
  }

  function InView(view: View, dayStart: Timestamp, dayEnd: Timestamp): Job -> bool {
    (j: Job) => Shown(view, dayStart, dayEnd, j)
  }

  /** `filteredJobs`: the jobs shown in the view, earliest first. */
  function FilteredJobs(jobs: seq<Job>, view: View, dayStart: Timestamp, dayEnd: Timestamp): (r: seq<Job>)
    ensures SortedBy(r, Date)
    ensures multiset(r) == multiset(Filter(jobs, InView(view, dayStart, dayEnd)))
    ensures forall j :: j in r <==> j in jobs && Shown(view, dayStart, dayEnd, j)
  {
    var shown := Filter(jobs, InView(view, dayStart, dayEnd));
    var r := SortByKey(shown, Date);
    assert forall j :: j in r <==> j in shown by {
      forall j ensures j in r <==> j in shown {
        assert j in r <==> multiset(r)[j] > 0;
        assert j in shown <==> multiset(shown)[j] > 0;
      }
    }
    r
  }

  /** The "all" view holds every job, each as often as it is stored. */
  lemma AllViewKeepsEveryJob(jobs: seq<Job>, dayStart: Timestamp, dayEnd: Timestamp)
    ensures multiset(FilteredJobs(jobs, All, dayStart, dayEnd)) == multiset(jobs)
  {
    FilterKeepsAll(jobs, InView(All, dayStart, dayEnd));
  }

  /** No job is both today's and upcoming, and a job dated exactly at the start
      or the end of the day is in neither view. */
  lemma TodayUpcomingDisjoint(dayStart: Timestamp, dayEnd: Timestamp, j: Job)
    requires dayStart <= dayEnd
    ensures !(Shown(Today, dayStart, dayEnd, j) && Shown(Upcoming, dayStart, dayEnd, j))
    ensures j.date == dayStart || j.date == dayEnd ==>
              !Shown(Today, dayStart, dayEnd, j) && !Shown(Upcoming, dayStart, dayEnd, j)
  {
  }

  /** The new-job form. An empty date field is `None`. */
  class JobForm {
    var clientId: Id
    var jobType: JobType
    var description: string
    var date: Option<Timestamp>
    var price: Money

    constructor (now: Timestamp)
      ensures clientId == "" && jobType == Installation && description == ""
      ensures date == Some(now) && price == 0
    {
      clientId, jobType, description, date, price := "", Installation, "", Some(now), 0;
    }

    /** `handleAddJob`: saves nothing unless client, description and date are
        filled; otherwise adds a scheduled, unpaid job and resets the form. */
    method Submit(store: AppStore, jobId: Id, createdAt: Timestamp, now: Timestamp) returns (saved: bool)
      requires !HasId(store.jobs, IdOfJob, jobId)
      modifies this, store
      ensures saved <==> old(clientId) != "" && old(description) != "" && old(date).Some?
      ensures !saved ==> store.State() == old(store.State())
      ensures !saved ==> clientId == old(clientId) && jobType == old(jobType) &&
                         description == old(description) && date == old(date) && price == old(price)
      ensures saved ==>
        store.jobs == old(store.jobs) +
          [Job(jobId, old(clientId), old(jobType), old(description), old(date).value, old(price), Scheduled, Pending, createdAt)]
      ensures store.clients == old(store.clients) && store.quotes == old(store.quotes)
      ensures store.settings == old(store.settings)
      ensures UniqueIds(old(store.jobs), IdOfJob) ==> UniqueIds(store.jobs, IdOfJob)
      ensures saved ==> clientId == "" && jobType == Installation && description == "" &&
                        date == Some(now) && price == 0
    {
      if clientId == "" || description == "" || date.None? {
        return false;
      }
      store.AddJob(Job(jobId, clientId, jobType, description, date.value, price, Scheduled, Pending, createdAt));
      clientId, jobType, description, date, price := "", Installation, "", Some(now), 0;
      saved := true;
    }
  }

  /** What the receipt of a job prints and how its file is named. */
  datatype Receipt = Receipt(number: string, clientName: string, clientPhone: string, address: Option<string>,
                             description: string, amount: Money, fileName: string)

  /** The client-name part of the file name holds only ASCII letters, digits
      and `_`. */
  function ReceiptFileName(clientName: string, stamp: string): (r: string)
    ensures |r| == 12 + |clientName| + |stamp|
    ensures forall k :: 7 <= k < 7 + |clientName| ==> IsAsciiAlnum(r[k]) || r[k] == '_'
  {
    "Recibo_" + Sanitise(clientName) + "_" + stamp + ".pdf"
  }

  /** `generateReceiptPDF`: nothing when the job's client is not stored;
      otherwise a receipt for the first client with that id. */
  function GenerateReceipt(clients: seq<Client>, job: Job, stamp: string): (r: Option<Receipt>)
    ensures r.None? <==> !HasId(clients, IdOfClient, job.clientId)
    ensures r.Some? ==>
      && |r.value.number| == (if |job.id| < 8 then |job.id| else 8)
      && (forall k :: 0 <= k < |r.value.number| ==> r.value.number[k] == UpperChar(job.id[k]))
      && r.value.amount == job.price
      && r.value.description == job.description
      && exists i :: 0 <= i < |clients| && clients[i].id == job.clientId
           && (forall m :: 0 <= m < i ==> clients[m].id != job.clientId)
           && r.value.clientName == clients[i].name && r.value.clientPhone == clients[i].phone
           && r.value.address == clients[i].address
           && r.value.fileName == ReceiptFileName(clients[i].name, stamp)
  {
    match FindById(clients, IdOfClient, job.clientId)
    case None => None
    case Some(c) =>
      Some(Receipt(DocumentNumber(job.id), c.name, c.phone, c.address, job.description, job.price,
                   ReceiptFileName(c.name, stamp)))
  }

  /** The receipt button is shown for paid jobs only. */
  predicate ReceiptOffered(j: Job) {
    j.paymentStatus == Paid
  }

  /** Toggling the payment of a job switches whether its receipt is offered. */
  lemma ToggleSwitchesReceipt(j: Job)
    ensures ReceiptOffered(TogglePayment(j)) <==> !ReceiptOffered(j)
  {
  }
}
