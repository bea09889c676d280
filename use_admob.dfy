/** src/hooks/useAdMob.ts: the React state the app keeps about ads (four flags) on top of the
    shared `AdMobService`. Each handler is modelled as running to completion, reading the state
    current when it runs. Handlers that React runs from an earlier render's closure are modelled
    apart: the mount effect here runs the `initializeAdMob` of the first render, whose
    `prepareInterstitial` and `prepareReward` still see `isInitialized === false`, and the
    consent banner's timer (`ConsentBanner.ConsentBannerView.MountTimer`) stands for the timer of
    the latest run of its effect. Timers set with `setTimeout` are queued and fire in the order
    they were set (all have the same delay). */
module UseAdMob {
  import opened Common
  import opened AdMob

  datatype HookFlags = HookFlags(
    isInitialized: bool, isBannerVisible: bool, isInterstitialReady: bool, isRewardReady: bool)

  const InitialFlags: HookFlags := HookFlags(false, false, false, false)

  /** No ad is visible or ready before the hook has seen the service initialise. */
  predicate FlagsConsistent(f: HookFlags) {
    (f.isBannerVisible || f.isInterstitialReady || f.isRewardReady) ==> f.isInitialized
  }

  /** A callback queued with `setTimeout(..., 1000)`. */
  datatype Timer = PrepareInterstitialLater | PrepareRewardLater

  /** The flags after `showBanner` on an initialised service: the request cannot fail past the
      service, so the banner is marked visible whenever the hook was initialised. */
  function AfterShowBanner(f: HookFlags): (g: HookFlags)
    ensures FlagsConsistent(f) ==> FlagsConsistent(g)
    ensures g.isBannerVisible <==> f.isBannerVisible || f.isInitialized
  {
    if f.isInitialized then f.(isBannerVisible := true) else f
  }

  function AfterPrepareInterstitial(f: HookFlags): (g: HookFlags)
    ensures FlagsConsistent(f) ==> FlagsConsistent(g)
    ensures g.isInterstitialReady <==> f.isInterstitialReady || f.isInitialized
  {
    if f.isInitialized then f.(isInterstitialReady := true) else f
  }

  function AfterPrepareReward(f: HookFlags): (g: HookFlags)
    ensures FlagsConsistent(f) ==> FlagsConsistent(g)
    ensures g.isRewardReady <==> f.isRewardReady || f.isInitialized
  {
    if f.isInitialized then f.(isRewardReady := true) else f
  }

  /** Showing an interstitial uses it up; a timer prepares the next. */
  lemma ShowThenTimerRestoresReadiness(f: HookFlags)
    requires FlagsConsistent(f) && f.isInterstitialReady
    ensures AfterPrepareInterstitial(f.(isInterstitialReady := false)) == f
  {
  }

  class AdMobHook {
    var isInitialized: bool
    var isBannerVisible: bool
    var isInterstitialReady: bool
    var isRewardReady: bool
    /** Callbacks waiting in `setTimeout`, oldest first. */
    var timers: seq<Timer>
    const service: AdMobService

    function Flags(): HookFlags
      reads this
    {
      HookFlags(isInitialized, isBannerVisible, isInterstitialReady, isRewardReady)
    }

    ghost predicate Valid()
      reads this, service, service.plugin
    {
      service.Valid() && FlagsConsistent(Flags())
      && (isInitialized ==> service.isInitialized)
      && (timers != [] ==> isInitialized)
    }

    constructor (service: AdMobService)
      requires service.Valid()
      ensures Valid()
      ensures Flags() == InitialFlags && timers == [] && this.service == service
    {
      isInitialized := false;
      isBannerVisible := false;
      isInterstitialReady := false;
      isRewardReady := false;
      timers := [];
      this.service := service;
    }

    /** `initializeAdMob()` as the mount effect runs it: the flag is set once the service is
        initialised; the two prepare calls that follow belong to the first render and return at
        once, so nothing is prepared. */
    method InitializeAdMob(outcome: Outcome)
      requires Valid()
      modifies this, service, service.plugin
      ensures Valid()
      ensures Flags() == old(Flags()).(isInitialized := old(isInitialized) || service.isInitialized)
      ensures service.isInitialized == (old(service.isInitialized) || outcome == Resolved)
      ensures old(service.isInitialized) ==> service.plugin.calls == old(service.plugin.calls)
      ensures !old(service.isInitialized) ==>
                service.plugin.calls == old(service.plugin.calls) + [InitializeCall(service.config, outcome)]
      ensures timers == old(timers)
    {
      var r := service.Initialize(outcome);
      if r == Resolved {
        isInitialized := true;
      }
    }

    /** `initializeAdMob()` with the prepare calls reading the current state, which is what
        the handler is evidently meant to do: once initialised, both ads are prepared. */
    method InitializeAdMobAndPrepare(outcome: Outcome)
      requires Valid()
      modifies this, service, service.plugin
      ensures Valid()
      ensures service.isInitialized == (old(service.isInitialized) || outcome == Resolved)
      ensures isInitialized == (old(isInitialized) || service.isInitialized)
      ensures isInitialized ==> isInterstitialReady && isRewardReady
      ensures isBannerVisible == old(isBannerVisible) && timers == old(timers)
      ensures service.isInitialized ==>
                service.plugin.calls == old(service.plugin.calls)
                  + (if old(service.isInitialized) then [] else [InitializeCall(service.config, Resolved)])
                  + [InterstitialCall(service.config, service.platformName),
                     RewardCall(service.config, service.platformName)]
      ensures !service.isInitialized ==>
                Flags() == old(Flags())
                && service.plugin.calls == old(service.plugin.calls) + [InitializeCall(service.config, Rejected)]
    {
      var r := service.Initialize(outcome);
      if r == Resolved {
        isInitialized := true;
        PrepareInterstitial();
        PrepareReward();
      }
    }

    /** `showBanner(position)`: nothing before the hook is initialised; afterwards the service
        shows the banner (its own failures are swallowed) and it is marked visible. */
    method ShowBanner(position: BannerPosition)
      requires Valid()
      modifies this, service, service.plugin
      ensures Valid()
      ensures Flags() == AfterShowBanner(old(Flags())) && timers == old(timers)
      ensures service.isInitialized == old(service.isInitialized)
      ensures service.plugin.calls == old(service.plugin.calls)
           + (if old(isInitialized) then [BannerCall(service.config, service.platformName, position)] else [])
    {
      if !isInitialized {
        return;
      }
      // The service is initialised, so its lazy initialisation does not run and the outcome
      // passed for it is never consulted.
      var r := service.ShowBanner(position, Resolved);
      if r == Resolved {
        isBannerVisible := true;
      }
    }

    /** `hideBanner()`: always reaches the plugin, and the banner is marked hidden. */
    method HideBanner()
      requires Valid()
      modifies this, service.plugin
      ensures Valid()
      ensures Flags() == old(Flags()).(isBannerVisible := false) && timers == old(timers)
      ensures service.plugin.calls == old(service.plugin.calls) + [NativeHideBanner]
    {
      service.HideBanner();
      isBannerVisible := false;
    }

    /** `removeBanner()` */
    method RemoveBanner()
      requires Valid()
      modifies this, service.plugin
      ensures Valid()
      ensures Flags() == old(Flags()).(isBannerVisible := false) && timers == old(timers)
      ensures service.plugin.calls == old(service.plugin.calls) + [NativeRemoveBanner]
    {
      service.RemoveBanner();
      isBannerVisible := false;
    }

    /** `prepareInterstitial()`: once initialised the interstitial is marked ready, even when the
        plugin failed to load it (the service swallows that failure, so the hook's `catch`, which
        would clear the flag, is never reached). */
    method PrepareInterstitial()
      requires Valid()
      modifies this, service, service.plugin
      ensures Valid()
      ensures Flags() == AfterPrepareInterstitial(old(Flags())) && timers == old(timers)
      ensures service.isInitialized == old(service.isInitialized)
      ensures service.plugin.calls == old(service.plugin.calls)
           + (if old(isInitialized) then [InterstitialCall(service.config, service.platformName)] else [])
    {
      if !isInitialized {
        return;
      }
      var r := service.PrepareInterstitial(Resolved);
      if r == Resolved {
        isInterstitialReady := true;
      }
    }

    /** `prepareReward()` */
    method PrepareReward()
      requires Valid()
      modifies this, service, service.plugin
      ensures Valid()
      ensures Flags() == AfterPrepareReward(old(Flags())) && timers == old(timers)
      ensures service.isInitialized == old(service.isInitialized)
      ensures service.plugin.calls == old(service.plugin.calls)
           + (if old(isInitialized) then [RewardCall(service.config, service.platformName)] else [])
    {
      if !isInitialized {
        return;
      }
      var r := service.PrepareReward(Resolved);
      if r == Resolved {
        isRewardReady := true;
      }
    }

    /** `showInterstitial()`: only a ready interstitial is shown; it is then used up and a timer
        is set to prepare the next one. */
    method ShowInterstitial()
      requires Valid()
      modifies this, service.plugin
      ensures Valid()
      ensures old(isInterstitialReady) ==>
                (Flags() == old(Flags()).(isInterstitialReady := false)
                 && timers == old(timers) + [PrepareInterstitialLater]
                 && service.plugin.calls == old(service.plugin.calls) + [NativeShowInterstitial])
      ensures !old(isInterstitialReady) ==>
                (Flags() == old(Flags()) && timers == old(timers)
                 && service.plugin.calls == old(service.plugin.calls))
    {
      if !isInterstitialReady {
        return;
      }
      service.ShowInterstitial();
      isInterstitialReady := false;
      timers := timers + [PrepareInterstitialLater];
    }

    /** `showReward()` */
    method ShowReward()
      requires Valid()
      modifies this, service.plugin
      ensures Valid()
      ensures old(isRewardReady) ==>
                (Flags() == old(Flags()).(isRewardReady := false)
                 && timers == old(timers) + [PrepareRewardLater]
                 && service.plugin.calls == old(service.plugin.calls) + [NativeShowRewardVideoAd])
      ensures !old(isRewardReady) ==>
                (Flags() == old(Flags()) && timers == old(timers)
                 && service.plugin.calls == old(service.plugin.calls))
    {
      if !isRewardReady {
        return;
      }
      service.ShowReward();
      isRewardReady := false;
      timers := timers + [PrepareRewardLater];
    }

    /** One second has passed for the oldest pending timer: its prepare call runs. The closure
        comes from a render in which the ad was ready, hence initialised. */
    method FireTimer()
      requires Valid()
      modifies this, service, service.plugin
      ensures Valid()
      ensures old(timers) == [] ==>
                (Flags() == old(Flags()) && timers == [] && service.plugin.calls == old(service.plugin.calls))
      ensures old(timers) != [] ==> timers == old(timers)[1..]
      ensures old(timers) != [] && old(timers)[0] == PrepareInterstitialLater ==>
                (Flags() == old(Flags()).(isInterstitialReady := true)
                 && service.plugin.calls == old(service.plugin.calls)
                      + [InterstitialCall(service.config, service.platformName)])
      ensures old(timers) != [] && old(timers)[0] == PrepareRewardLater ==>
                (Flags() == old(Flags()).(isRewardReady := true)
                 && service.plugin.calls == old(service.plugin.calls)
                      + [RewardCall(service.config, service.platformName)])
    {
      if timers == [] {
        return;
      }
      var timer := timers[0];
      timers := timers[1..];
      match timer
      case PrepareInterstitialLater => PrepareInterstitial();
      case PrepareRewardLater => PrepareReward();
    }
  }

  /** The mount as written: even with the plugin initialising successfully, the hook ends up
      initialised with neither ad prepared. */
  method MountAsWritten(platformName: string, config: Env.AdMobConfig)
    returns (initialized: bool, interstitialReady: bool, rewardReady: bool)
    ensures initialized && !interstitialReady && !rewardReady
  {
    var plugin := new NativeAdMob();
    var service := new AdMobService(config, platformName, plugin);
    var hook := new AdMobHook(service);
    hook.InitializeAdMob(Resolved);
    initialized, interstitialReady, rewardReady :=
      hook.isInitialized, hook.isInterstitialReady, hook.isRewardReady;
  }

  /** The mount with the prepare calls reading the current state: both ads prepared. */
  method MountCorrected(platformName: string, config: Env.AdMobConfig)
    returns (initialized: bool, interstitialReady: bool, rewardReady: bool)
    ensures initialized && interstitialReady && rewardReady
  {
    var plugin := new NativeAdMob();
    var service := new AdMobService(config, platformName, plugin);
    var hook := new AdMobHook(service);
    hook.InitializeAdMobAndPrepare(Resolved);
    initialized, interstitialReady, rewardReady :=
      hook.isInitialized, hook.isInterstitialReady, hook.isRewardReady;
  }
}
