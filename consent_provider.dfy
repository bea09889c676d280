/** src/providers/ConsentProvider.tsx: the React context mirroring the consent service. Its
    copy of the record is refreshed from the service after initialisation, after each form,
    after a reset, and when a `consent:changed` event arrives. Initialisation marks the context
    initialised whether or not the service succeeded. */
module ConsentProvider {
  import opened Common
  import opened Env
  import opened Consent

  /** The settings `initializeConsent` passes: the publisher id from the environment or
      `'test-publisher-id'`, the EEA debug geography in testing mode (disabled otherwise), the
      testing devices, and no under-age tag. */
  function InitSettings(env: Environment): (s: ConsentSettings)
    ensures s.publisherId == GetEnvVar(env, "NEXT_PUBLIC_ADMOB_PUBLISHER_ID", "test-publisher-id")
    ensures s.debugGeography == Some(if LoadAdMobConfig(env).testing.isTestingMode
                                     then GeographyEea else GeographyDisabled)
    ensures s.testDeviceIdentifiers == Some(LoadAdMobConfig(env).testing.testingDevices)
    ensures s.tagForUnderAgeOfConsent == Some(false)
  {
    var config := LoadAdMobConfig(env);
    ConsentSettings(
      GetEnvVar(env, "NEXT_PUBLIC_ADMOB_PUBLISHER_ID", "test-publisher-id"),
      Some(if config.testing.isTestingMode then GeographyEea else GeographyDisabled),
      Some(config.testing.testingDevices),
      Some(false))
  }

  /** With nothing configured the test publisher and the EEA debug geography are used. */
  lemma DefaultInitSettings()
    ensures InitSettings(map[]).publisherId == "test-publisher-id"
    ensures InitSettings(map[]).debugGeography == Some(GeographyEea)
  {
  }

  class ConsentContextProvider {
    var consentInfo: ConsentInfo
    var isInitialized: bool
    const service: ConsentService
    const env: Environment

    ghost predicate Valid()
      reads this, service
    {
      service.Valid() && Reachable(consentInfo)
    }

    constructor (service: ConsentService, env: Environment)
      requires service.Valid()
      ensures Valid()
      ensures consentInfo == InitialInfo && !isInitialized
      ensures this.service == service && this.env == env
    {
      consentInfo := InitialInfo;
      isInitialized := false;
      this.service := service;
      this.env := env;
    }

    /** `initializeConsent()`: the record is copied only when the service initialised; the
        context is marked initialised on both paths. */
    method InitializeConsent(scriptLoad: Outcome, statusUpdate: Outcome, now: int,
                             userAccepts: bool, clickTime: int) returns (r: Outcome)
      requires Valid()
      modifies this, service, service.storage
      ensures Valid()
      ensures isInitialized
      ensures r == Resolved ==> consentInfo == service.consentInfo
      ensures r == Rejected ==> consentInfo == old(consentInfo)
      ensures r == Rejected <==> !old(service.isInitialized) && (scriptLoad == Rejected || statusUpdate == Rejected)
      ensures r == Resolved ==> service.isInitialized
    {
      r := service.Initialize(InitSettings(env), scriptLoad, statusUpdate, now, userAccepts, clickTime);
      if r == Resolved {
        consentInfo := service.GetConsentInfo();
      }
      isInitialized := true;
    }

    /** The `consent:changed` listener. */
    method ConsentChanged()
      requires Valid()
      modifies this
      ensures Valid()
      ensures consentInfo == service.consentInfo && isInitialized == old(isInitialized)
    {
      consentInfo := service.GetConsentInfo();
    }

    /** `showConsentForm()`: the user's answer becomes the record of both service and context. */
    method ShowConsentForm(userAccepts: bool, clickTime: int)
      requires Valid()
      modifies this, service, service.storage
      ensures Valid()
      ensures service.storage.items == StoreDecision(old(service.storage.items), userAccepts, clickTime)
      ensures consentInfo == ObtainedInfo(userAccepts) && service.consentInfo == consentInfo
      ensures isInitialized == old(isInitialized) && service.isInitialized == old(service.isInitialized)
    {
      service.ShowConsentForm(userAccepts, clickTime);
      consentInfo := service.GetConsentInfo();
    }

    /** `showPrivacyOptions()` */
    method ShowPrivacyOptions(userAccepts: bool, clickTime: int)
      requires Valid()
      modifies this, service, service.storage
      ensures Valid()
      ensures service.storage.items == StoreDecision(old(service.storage.items), userAccepts, clickTime)
      ensures consentInfo == ObtainedInfo(userAccepts) && service.consentInfo == consentInfo
      ensures isInitialized == old(isInitialized) && service.isInitialized == old(service.isInitialized)
    {
      service.ShowPrivacyOptionsForm(userAccepts, clickTime);
      consentInfo := service.GetConsentInfo();
    }

    /** `resetConsent()`: the service forgets the decision and the context mirrors its
        initial record. */
    method ResetConsent()
      requires Valid()
      modifies this, service, service.storage
      ensures Valid()
      ensures service.storage.items == ClearDecision(old(service.storage.items))
      ensures consentInfo == InitialInfo && service.consentInfo == InitialInfo
      ensures isInitialized == old(isInitialized) && service.isInitialized == old(service.isInitialized)
    {
      service.ResetConsent();
      consentInfo := service.GetConsentInfo();
    }

    /** `canShowAds()` of the context, which asks the service. */
    method CanShowAds() returns (allowed: bool)
      requires Valid()
      ensures allowed == service.consentInfo.canRequestAds
      ensures allowed ==> service.consentInfo.consentStatus == Obtained
    {
      allowed := service.CanShowAds();
    }
  }
}
