/** The first-run screen: it stores the company name and logo and marks the
    onboarding as done. */
module Onboarding {
  import opened Types
  import opened Store

  const FallbackCompanyName := "Minha Empresa"

  /** `{ ...settings, companyName: companyName || 'Minha Empresa', logo,
      onboardingCompleted: true }`. */
  function CompletedSettings(current: Settings, typedName: string, logo: Option<string>): (r: Settings)
    ensures r.onboardingCompleted
    ensures r.companyName != ""
    ensures r.companyName == (if typedName == "" then FallbackCompanyName else typedName)
    ensures r.logo == logo
  {
    current.(companyName := if typedName == "" then FallbackCompanyName else typedName,
             logo := logo, onboardingCompleted := true)
  }

  /** The outcome does not depend on the settings held before: every declared
      field is overwritten, so completing again with the same input changes
      nothing. */
  lemma CompletionOverwritesAll(a: Settings, b: Settings, typedName: string, logo: Option<string>)
    ensures CompletedSettings(a, typedName, logo) == CompletedSettings(b, typedName, logo)
    ensures CompletedSettings(CompletedSettings(a, typedName, logo), typedName, logo)
         == CompletedSettings(a, typedName, logo)
  {
  }

  /** `handleComplete`. */
  method HandleComplete(store: AppStore, typedName: string, logo: Option<string>)
    modifies store
    ensures store.settings == CompletedSettings(old(store.settings), typedName, logo)
    ensures store.clients == old(store.clients) && store.jobs == old(store.jobs)
    ensures store.quotes == old(store.quotes)
  {
    store.UpdateSettings(CompletedSettings(store.settings, typedName, logo));
  }

  /** Once completed and saved, the onboarding stays completed after a reload,
      with the stored name and logo. */
  lemma CompletionSurvivesReload(s: AppState, typedName: string, logo: Option<string>)
    ensures var done := s.(settings := CompletedSettings(s.settings, typedName, logo));
      var reloaded := InitialState(Parsed(Snapshot(done)));
      && reloaded.settings.onboardingCompleted
      && reloaded.settings.logo == logo
      && reloaded == done
  {
    LoadSnapshot(s.(settings := CompletedSettings(s.settings, typedName, logo)));
  }
}
