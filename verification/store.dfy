/** The application store: one state cell holding clients, jobs, quotes and
    settings. At start-up it is loaded from a saved snapshot merged over the
    defaults; afterwards it changes only through append, replace-by-id and
    remove-by-id on one collection, or by replacing the settings. */
module Store {
  import opened Types
  import opened Collections

  datatype AppState = AppState(clients: seq<Client>, jobs: seq<Job>, quotes: seq<Quote>, settings: Settings)

  const DefaultSettings := Settings("AeroDesk", None, false)

  const DefaultState := AppState([], [], [], DefaultSettings)

  /** The settings object of a saved snapshot: each key may be missing. */
  datatype SavedSettings = SavedSettings(
    companyName: Option<string>,
    logo: Option<string>,
    onboardingCompleted: Option<bool>)

  /** A parsed snapshot: each top-level key may be missing. */
  datatype SavedState = SavedState(
    clients: Option<seq<Client>>,
    jobs: Option<seq<Job>>,
    quotes: Option<seq<Quote>>,
    settings: Option<SavedSettings>)

  /** What the start-up read of storage yields: nothing (no entry, or an empty
      one), something that fails to parse, or a parsed snapshot. */
  datatype Stored = Missing | Corrupt | Parsed(saved: SavedState)

  /** `{ ...defaultState.settings, ...(parsed.settings || {}) }`. */
  function MergeSettings(saved: Option<SavedSettings>): (r: Settings)
    ensures saved.None? ==> r == DefaultSettings
    ensures saved.Some? ==>
      && r.companyName == Or(saved.value.companyName, DefaultSettings.companyName)
      && r.logo == saved.value.logo
      && r.onboardingCompleted == Or(saved.value.onboardingCompleted, DefaultSettings.onboardingCompleted)
  {
    match saved
    case None => DefaultSettings
    case Some(s) =>
      Settings(
        Or(s.companyName, DefaultSettings.companyName),
        s.logo,
        Or(s.onboardingCompleted, DefaultSettings.onboardingCompleted))
  }

  /** The state the store starts from. */
  function InitialState(stored: Stored): (r: AppState)
    ensures !stored.Parsed? ==> r == DefaultState
    ensures stored.Parsed? ==>
      && r.clients == Or(stored.saved.clients, [])
      && r.jobs == Or(stored.saved.jobs, [])
      && r.quotes == Or(stored.saved.quotes, [])
      && r.settings == MergeSettings(stored.saved.settings)
  {
    match stored
    case Parsed(saved) =>
      AppState(
        Or(saved.clients, DefaultState.clients),
        Or(saved.jobs, DefaultState.jobs),
        Or(saved.quotes, DefaultState.quotes),
        MergeSettings(saved.settings))
    case _ => DefaultState
  }

  /** The snapshot written to storage after every change: all keys present
      except `logo` when it is undefined, which serialisation drops. */
  function Snapshot(s: AppState): (r: SavedState)
    ensures r.clients.Some? && r.jobs.Some? && r.quotes.Some? && r.settings.Some?
  {
    SavedState(
      Some(s.clients), Some(s.jobs), Some(s.quotes),
      Some(SavedSettings(Some(s.settings.companyName), s.settings.logo, Some(s.settings.onboardingCompleted))))
  }

  /** Reloading what was saved gives back the same state. */
  lemma LoadSnapshot(s: AppState)
    ensures InitialState(Parsed(Snapshot(s))) == s
  {
  }

  /** A snapshot without a settings key, or with settings lacking keys, is
      completed from the defaults. */
  lemma LoadFillsMissingSettings(saved: SavedState)
    requires saved.settings.None? || saved.settings.value.companyName.None?
    ensures InitialState(Parsed(saved)).settings.companyName == "AeroDesk"
  {
  }

  /** The store. Each mutator replaces one field and states the others unchanged. */
  class AppStore {
    var clients: seq<Client>
    var jobs: seq<Job>
    var quotes: seq<Quote>
    var settings: Settings

    function State(): AppState
      reads this
    {
      AppState(clients, jobs, quotes, settings)
    }

    constructor (stored: Stored)
      ensures State() == InitialState(stored)
    {
      var s := InitialState(stored);
      clients, jobs, quotes, settings := s.clients, s.jobs, s.quotes, s.settings;
    }

    method AddClient(c: Client)
      modifies this
      ensures clients == old(clients) + [c]
      ensures jobs == old(jobs) && quotes == old(quotes) && settings == old(settings)
      ensures UniqueIds(clients, IdOfClient) <==>
                UniqueIds(old(clients), IdOfClient) && !HasId(old(clients), IdOfClient, c.id)
    {
      AppendUniqueIds(clients, IdOfClient, c);
      clients := clients + [c];
    }

    method UpdateClient(c: Client)
      modifies this
      ensures clients == ReplaceById(old(clients), IdOfClient, c)
      ensures jobs == old(jobs) && quotes == old(quotes) && settings == old(settings)
      ensures UniqueIds(clients, IdOfClient) <==> UniqueIds(old(clients), IdOfClient)
    {
      ReplaceKeepsIds(clients, IdOfClient, c);
      clients := ReplaceById(clients, IdOfClient, c);
    }

    /** Removes the client only: jobs and quotes that reference it stay as they are. */
    method DeleteClient(id: Id)
      modifies this
      ensures clients == RemoveById(old(clients), IdOfClient, id)
      ensures jobs == old(jobs) && quotes == old(quotes) && settings == old(settings)
      ensures UniqueIds(old(clients), IdOfClient) ==> UniqueIds(clients, IdOfClient)
    {
      if UniqueIds(clients, IdOfClient) {
        RemoveKeepsUnique(clients, IdOfClient, id);
      }
      clients := RemoveById(clients, IdOfClient, id);
    }

    method AddJob(j: Job)
      modifies this
      ensures jobs == old(jobs) + [j]
      ensures clients == old(clients) && quotes == old(quotes) && settings == old(settings)
      ensures UniqueIds(jobs, IdOfJob) <==>
                UniqueIds(old(jobs), IdOfJob) && !HasId(old(jobs), IdOfJob, j.id)
    {
      AppendUniqueIds(jobs, IdOfJob, j);
      jobs := jobs + [j];
    }

    method UpdateJob(j: Job)
      modifies this
      ensures jobs == ReplaceById(old(jobs), IdOfJob, j)
      ensures clients == old(clients) && quotes == old(quotes) && settings == old(settings)
      ensures UniqueIds(jobs, IdOfJob) <==> UniqueIds(old(jobs), IdOfJob)
    {
      ReplaceKeepsIds(jobs, IdOfJob, j);
      jobs := ReplaceById(jobs, IdOfJob, j);
    }

    method DeleteJob(id: Id)
      modifies this
      ensures jobs == RemoveById(old(jobs), IdOfJob, id)
      ensures clients == old(clients) && quotes == old(quotes) && settings == old(settings)
      ensures UniqueIds(old(jobs), IdOfJob) ==> UniqueIds(jobs, IdOfJob)
    {
      if UniqueIds(jobs, IdOfJob) {
        RemoveKeepsUnique(jobs, IdOfJob, id);
      }
      jobs := RemoveById(jobs, IdOfJob, id);
    }

    method AddQuote(q: Quote)
      modifies this
      ensures quotes == old(quotes) + [q]
      ensures clients == old(clients) && jobs == old(jobs) && settings == old(settings)
      ensures UniqueIds(quotes, IdOfQuote) <==>
                UniqueIds(old(quotes), IdOfQuote) && !HasId(old(quotes), IdOfQuote, q.id)
    {
      AppendUniqueIds(quotes, IdOfQuote, q);
      quotes := quotes + [q];
    }

    method UpdateQuote(q: Quote)
      modifies this
      ensures quotes == ReplaceById(old(quotes), IdOfQuote, q)
      ensures clients == old(clients) && jobs == old(jobs) && settings == old(settings)
      ensures UniqueIds(quotes, IdOfQuote) <==> UniqueIds(old(quotes), IdOfQuote)
    {
      ReplaceKeepsIds(quotes, IdOfQuote, q);
      quotes := ReplaceById(quotes, IdOfQuote, q);
    }

    method DeleteQuote(id: Id)
      modifies this
      ensures quotes == RemoveById(old(quotes), IdOfQuote, id)
      ensures clients == old(clients) && jobs == old(jobs) && settings == old(settings)
      ensures UniqueIds(old(quotes), IdOfQuote) ==> UniqueIds(quotes, IdOfQuote)
    {
      if UniqueIds(quotes, IdOfQuote) {
        RemoveKeepsUnique(quotes, IdOfQuote, id);
      }
      quotes := RemoveById(quotes, IdOfQuote, id);
    }

    method UpdateSettings(s: Settings)
      modifies this
      ensures settings == s
      ensures clients == old(clients) && jobs == old(jobs) && quotes == old(quotes)
    {
      settings := s;
    }
  }
}
