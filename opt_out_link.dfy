/** src/components/OptOutLink/OptOutLink.tsx: the control that withdraws consent. It uses the
    consent context and its own `useAdMob` instance. Page-level effects (a new tab, the
    confirmation dialog, the reload) are returned as a trace; the user's answer to the dialog
    is a parameter. */
module OptOutLink {
  import opened Consent
  import opened AdMob
  import opened UseAdMob
  import opened ConsentProvider

  datatype Variant = LinkVariant | ButtonVariant

  /** What the handler does outside the two objects it changes, in order. */
  datatype PageEffect = OpenInNewTab(url: string) | BannerRemoved | ConsentReset | Reloaded

  /** The control renders unless consent is NOT_REQUIRED or ads may not be requested. */
  predicate Visible(info: ConsentInfo) {
    !(info.consentStatus == NotRequired || !info.canRequestAds)
  }

  /** Among the records the consent service produces, the control shows exactly for a fresh
      or just-given `'granted'` decision. */
  lemma VisibleIffGranted(info: ConsentInfo)
    requires Reachable(info)
    ensures Visible(info) <==> info == ObtainedInfo(true)
  {
  }

  /** `handleOptOut()`. The link variant only opens `/opt-out` in a new tab. The button
      variant does nothing when the user declines; on confirmation it removes the banner
      (whose failure cannot stop the rest), resets consent, and reloads, in that order:
      `consentAtRemoval` and `callsAtReset` are the consent storage when the banner is removed
      (not yet reset) and the plugin log when consent is reset (the removal already in it). */
  method HandleOptOut(variant: Variant, confirmed: bool, consent: ConsentContextProvider, adMob: AdMobHook)
    returns (effects: seq<PageEffect>, ghost consentAtRemoval: map<string, string>,
             ghost callsAtReset: seq<PluginCall>)
    requires consent.Valid() && adMob.Valid()
    modifies consent, consent.service, consent.service.storage, adMob, adMob.service.plugin
    ensures consent.Valid() && adMob.Valid()
    ensures !(variant == ButtonVariant && confirmed) ==>
              (effects == (if variant == LinkVariant then [OpenInNewTab("/opt-out")] else [])
               && consent.consentInfo == old(consent.consentInfo)
               && consent.isInitialized == old(consent.isInitialized)
               && consent.service.consentInfo == old(consent.service.consentInfo)
               && consent.service.isInitialized == old(consent.service.isInitialized)
               && consent.service.storage.items == old(consent.service.storage.items)
               && adMob.Flags() == old(adMob.Flags()) && adMob.timers == old(adMob.timers)
               && adMob.service.plugin.calls == old(adMob.service.plugin.calls))
    ensures variant == ButtonVariant && confirmed ==>
              (effects == [BannerRemoved, ConsentReset, Reloaded]
               && consentAtRemoval == old(consent.service.storage.items)
               && callsAtReset == old(adMob.service.plugin.calls) + [NativeRemoveBanner]
               && adMob.service.plugin.calls == callsAtReset
               && adMob.Flags() == old(adMob.Flags()).(isBannerVisible := false)
               && adMob.timers == old(adMob.timers)
               && consent.consentInfo == InitialInfo && consent.service.consentInfo == InitialInfo
               && consent.isInitialized == old(consent.isInitialized)
               && consent.service.isInitialized == old(consent.service.isInitialized)
               && consent.service.storage.items == ClearDecision(consentAtRemoval))
  {
    consentAtRemoval, callsAtReset := consent.service.storage.items, adMob.service.plugin.calls;
    if variant == LinkVariant {
      return [OpenInNewTab("/opt-out")], consentAtRemoval, callsAtReset;
    }
    effects := [];
    if confirmed {
      consentAtRemoval := consent.service.storage.items;
      adMob.RemoveBanner();
      effects := effects + [BannerRemoved];
      callsAtReset := adMob.service.plugin.calls;
      consent.ResetConsent();
      effects := effects + [ConsentReset];
      effects := effects + [Reloaded];
    }
  }
}
