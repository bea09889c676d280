/** src/services/admob.service.ts: the one shared `AdMobService`. It initialises the native
    AdMob plugin at most once (lazily, from the first operation that needs an ad unit), picks the
    unit ids of the platform it runs on, and catches and logs every failure of the plugin's ad
    calls. The plugin is modelled by the sequence of calls made to it; the outcome of the
    plugin's `initialize` is a parameter, and the plugin's other failures are swallowed by the
    service and so do not appear. */
module AdMob {
  import opened Common
  import opened Env

  /** What the service asks the plugin for the ids of. */
  datatype NativePlatform = Ios | Android

  /** `getPlatform()`: only `"ios"` selects the iOS ids; any other answer of
      `Capacitor.getPlatform()`, `"web"` included, selects the Android ids. */
  function NativePlatformOf(name: string): (p: NativePlatform)
    ensures p == Ios <==> name == "ios"
    ensures p == Android <==> name != "ios"
  {
    if name == "ios" then Ios else Android
  }

  function AdIdsFor(config: AdMobConfig, p: NativePlatform): UnitIds {
    match p
    case Ios => config.iosAdIds
    case Android => config.androidAdIds
  }

  datatype BannerPosition = TopCenter | Center | BottomCenter

  datatype BannerSize = Banner

  datatype BannerOptions = BannerOptions(
    adId: string, adSize: BannerSize, position: BannerPosition, margin: int, isTesting: bool)

  datatype AdOptions = AdOptions(adId: string, isTesting: bool)

  /** One call into the native plugin. `initialize` is recorded with its outcome. */
  datatype PluginCall =
    | NativeInitialize(testingDevices: seq<string>, initializeForTesting: bool, outcome: Outcome)
    | NativeShowBanner(banner: BannerOptions)
    | NativeHideBanner
    | NativeRemoveBanner
    | NativePrepareInterstitial(interstitial: AdOptions)
    | NativeShowInterstitial
    | NativePrepareRewardVideoAd(reward: AdOptions)
    | NativeShowRewardVideoAd

  function InitializeCall(config: AdMobConfig, outcome: Outcome): PluginCall {
    NativeInitialize(config.testing.testingDevices, config.testing.initializeForTesting, outcome)
  }

  function BannerCall(config: AdMobConfig, platformName: string, position: BannerPosition): PluginCall {
    NativeShowBanner(BannerOptions(
      AdIdsFor(config, NativePlatformOf(platformName)).banner, Banner, position, 0,
      config.testing.isTestingMode))
  }

  function InterstitialCall(config: AdMobConfig, platformName: string): PluginCall {
    NativePrepareInterstitial(AdOptions(
      AdIdsFor(config, NativePlatformOf(platformName)).interstitial, config.testing.isTestingMode))
  }

  function RewardCall(config: AdMobConfig, platformName: string): PluginCall {
    NativePrepareRewardVideoAd(AdOptions(
      AdIdsFor(config, NativePlatformOf(platformName)).reward, config.testing.isTestingMode))
  }

  /** With no ad variable set, every request goes to Google's published test units in testing
      mode, and a web page (any platform but iOS) asks for the Android units. */
  lemma DefaultRequestsUseTestUnits(position: BannerPosition)
    ensures BannerCall(LoadAdMobConfig(map[]), "web", position)
         == NativeShowBanner(BannerOptions("ca-app-pub-3940256099942544/6300978111", Banner, position, 0, true))
    ensures BannerCall(LoadAdMobConfig(map[]), "ios", position)
         == NativeShowBanner(BannerOptions("ca-app-pub-3940256099942544/2934735716", Banner, position, 0, true))
    ensures InterstitialCall(LoadAdMobConfig(map[]), "android")
         == NativePrepareInterstitial(AdOptions("ca-app-pub-3940256099942544/1033173712", true))
    ensures RewardCall(LoadAdMobConfig(map[]), "ios")
         == NativePrepareRewardVideoAd(AdOptions("ca-app-pub-3940256099942544/1712485313", true))
  {
  }

  /** The calls that ask for an ad unit by id. */
  predicate IsUnitRequest(c: PluginCall) {
    c.NativeShowBanner? || c.NativePrepareInterstitial? || c.NativePrepareRewardVideoAd?
  }

  /** Some `initialize` call in the log has succeeded. */
  predicate HasInitialized(calls: seq<PluginCall>) {
    calls != []
    && ((calls[|calls| - 1].NativeInitialize? && calls[|calls| - 1].outcome == Resolved)
        || HasInitialized(calls[..|calls| - 1]))
  }

  /** Every call asking for an ad unit comes after a successful `initialize`. */
  predicate UnitsAfterInitialize(calls: seq<PluginCall>) {
    calls == []
    || (UnitsAfterInitialize(calls[..|calls| - 1])
        && (IsUnitRequest(calls[|calls| - 1]) ==> HasInitialized(calls[..|calls| - 1])))
  }

  lemma HasInitializedAppend(calls: seq<PluginCall>, c: PluginCall)
    ensures HasInitialized(calls + [c])
        <==> HasInitialized(calls) || (c.NativeInitialize? && c.outcome == Resolved)
  {
    assert (calls + [c])[..|calls|] == calls;
  }

  lemma UnitsAfterInitializeAppend(calls: seq<PluginCall>, c: PluginCall)
    requires UnitsAfterInitialize(calls)
    requires IsUnitRequest(c) ==> HasInitialized(calls)
    ensures UnitsAfterInitialize(calls + [c])
  {
    assert (calls + [c])[..|calls|] == calls;
  }

  /** A log whose unit requests all follow a successful `initialize` is never opened by one:
      some `initialize` precedes the first request for an ad unit. */
  lemma {:induction false} FirstUnitRequestFollowsInitialize(calls: seq<PluginCall>, i: int)
    requires UnitsAfterInitialize(calls)
    requires 0 <= i < |calls| && IsUnitRequest(calls[i])
    ensures HasInitialized(calls[..i])
  {
    var n := |calls|;
    assert calls[..n - 1][..i] == calls[..i];
    if i < n - 1 {
      FirstUnitRequestFollowsInitialize(calls[..n - 1], i);
    }
  }

  /** Conversely, a log in which a successful `initialize` precedes every request for an ad unit
      satisfies the invariant: the two formulations agree. */
  lemma {:induction false} UnitsAfterInitializeOfIndexForm(calls: seq<PluginCall>)
    requires forall i :: 0 <= i < |calls| && IsUnitRequest(calls[i]) ==> HasInitialized(calls[..i])
    ensures UnitsAfterInitialize(calls)
  {
    if calls != [] {
      var n := |calls|;
      var p := calls[..n - 1];
      forall i | 0 <= i < |p| && IsUnitRequest(p[i]) ensures HasInitialized(p[..i]) {
        assert p[i] == calls[i];
        assert p[..i] == calls[..i];
      }
      UnitsAfterInitializeOfIndexForm(p);
    }
  }

  /** The native plug-in: its state is the calls made to it so far. */
  class NativeAdMob {
    var calls: seq<PluginCall>

    constructor ()
      ensures calls == []
    {
      calls := [];
    }

    method Invoke(call: PluginCall)
      modifies this
      ensures calls == old(calls) + [call]
    {
      calls := calls + [call];
    }
  }

  /** The calls one operation with lazy initialisation makes: the request itself when the
      service is initialised; otherwise `initialize` first, then the request only if it
      succeeded. */
  function LazyCalls(wasInitialized: bool, config: AdMobConfig, initOutcome: Outcome,
                     request: PluginCall): seq<PluginCall>
  {
    if wasInitialized then [request]
    else if initOutcome == Rejected then [InitializeCall(config, Rejected)]
    else [InitializeCall(config, Resolved), request]
  }

  /** One operation with lazy initialisation keeps the log invariant: the unit request it may
      add follows a successful `initialize`, and afterwards the log shows an initialisation
      exactly when one was there before or the new `initialize` succeeded. */
  lemma LazyCallsKeepInvariant(calls: seq<PluginCall>, wasInitialized: bool, config: AdMobConfig,
                               initOutcome: Outcome, request: PluginCall)
    requires UnitsAfterInitialize(calls) && (wasInitialized <==> HasInitialized(calls))
    requires !request.NativeInitialize?
    ensures UnitsAfterInitialize(calls + LazyCalls(wasInitialized, config, initOutcome, request))
    ensures HasInitialized(calls + LazyCalls(wasInitialized, config, initOutcome, request))
        <==> wasInitialized || initOutcome == Resolved
  {
    if wasInitialized {
      UnitsAfterInitializeAppend(calls, request);
      HasInitializedAppend(calls, request);
    } else {
      var init := InitializeCall(config, initOutcome);
      UnitsAfterInitializeAppend(calls, init);
      HasInitializedAppend(calls, init);
      if initOutcome == Resolved {
        UnitsAfterInitializeAppend(calls + [init], request);
        HasInitializedAppend(calls + [init], request);
        assert calls + [init] + [request] == calls + [init, request];
      }
    }
  }

  class AdMobService {
    var isInitialized: bool
    /** The configuration read from the build-time environment (`admobConfig`). */
    const config: AdMobConfig
    /** `Capacitor.getPlatform()` on this device. */
    const platformName: string
    const plugin: NativeAdMob

    ghost predicate Valid()
      reads this, plugin
    {
      (isInitialized <==> HasInitialized(plugin.calls)) && UnitsAfterInitialize(plugin.calls)
    }

    constructor (config: AdMobConfig, platformName: string, plugin: NativeAdMob)
      requires plugin.calls == []
      ensures Valid()
      ensures !isInitialized && this.config == config && this.platformName == platformName
      ensures this.plugin == plugin && plugin.calls == []
    {
      isInitialized := false;
      this.config := config;
      this.platformName := platformName;
      this.plugin := plugin;
    }

    /** `getPlatform()` */
    method GetPlatform() returns (p: NativePlatform)
      ensures p == Ios <==> platformName == "ios"
    {
      p := NativePlatformOf(platformName);
    }

    /** `initialize()`: does nothing once initialised; otherwise calls the plugin's `initialize`
        with the testing devices and flag, and sets the flag only if it succeeds (a failure is
        rethrown, so a later call tries again). */
    method Initialize(outcome: Outcome) returns (r: Outcome)
      requires Valid()
      modifies this, plugin
      ensures Valid()
      ensures old(isInitialized) ==>
                (r == Resolved && isInitialized && plugin.calls == old(plugin.calls))
      ensures !old(isInitialized) ==>
                (r == outcome && (isInitialized <==> outcome == Resolved)
                 && plugin.calls == old(plugin.calls) + [InitializeCall(config, outcome)])
    {
      if isInitialized {
        return Resolved;
      }
      HasInitializedAppend(plugin.calls, InitializeCall(config, outcome));
      UnitsAfterInitializeAppend(plugin.calls, InitializeCall(config, outcome));
      plugin.Invoke(InitializeCall(config, outcome));
      if outcome == Resolved {
        isInitialized := true;
      }
      r := outcome;
    }

    /** The common shape of `showBanner`, `prepareInterstitial` and `prepareReward`:
        initialise if needed, give up with the initialisation error, else make the request
        (whose own failure is logged and swallowed). */
    method RequestUnit(initOutcome: Outcome, request: PluginCall) returns (r: Outcome)
      requires Valid() && IsUnitRequest(request)
      modifies this, plugin
      ensures Valid()
      ensures isInitialized == (old(isInitialized) || initOutcome == Resolved)
      ensures r == (if isInitialized then Resolved else Rejected)
      ensures plugin.calls
           == old(plugin.calls) + LazyCalls(old(isInitialized), config, initOutcome, request)
    {
      if !isInitialized {
        r := Initialize(initOutcome);
        if r == Rejected {
          return;
        }
      }
      UnitsAfterInitializeAppend(plugin.calls, request);
      HasInitializedAppend(plugin.calls, request);
      plugin.Invoke(request);
      r := Resolved;
    }

    /** `showBanner(position)`: a standard banner with no margin, in testing mode when the
        configuration says so. */
    method ShowBanner(position: BannerPosition, initOutcome: Outcome) returns (r: Outcome)
      requires Valid()
      modifies this, plugin
      ensures Valid()
      ensures isInitialized == (old(isInitialized) || initOutcome == Resolved)
      ensures r == (if isInitialized then Resolved else Rejected)
      ensures plugin.calls == old(plugin.calls)
           + LazyCalls(old(isInitialized), config, initOutcome, BannerCall(config, platformName, position))
    {
      r := RequestUnit(initOutcome, BannerCall(config, platformName, position));
    }

    /** `prepareInterstitial()` */
    method PrepareInterstitial(initOutcome: Outcome) returns (r: Outcome)
      requires Valid()
      modifies this, plugin
      ensures Valid()
      ensures isInitialized == (old(isInitialized) || initOutcome == Resolved)
      ensures r == (if isInitialized then Resolved else Rejected)
      ensures plugin.calls == old(plugin.calls)
           + LazyCalls(old(isInitialized), config, initOutcome, InterstitialCall(config, platformName))
    {
      r := RequestUnit(initOutcome, InterstitialCall(config, platformName));
    }

    /** `prepareReward()` */
    method PrepareReward(initOutcome: Outcome) returns (r: Outcome)
      requires Valid()
      modifies this, plugin
      ensures Valid()
      ensures isInitialized == (old(isInitialized) || initOutcome == Resolved)
      ensures r == (if isInitialized then Resolved else Rejected)
      ensures plugin.calls == old(plugin.calls)
           + LazyCalls(old(isInitialized), config, initOutcome, RewardCall(config, platformName))
    {
      r := RequestUnit(initOutcome, RewardCall(config, platformName));
    }

    /** The common shape of `hideBanner`, `removeBanner`, `showInterstitial` and `showReward`:
        one plugin call, no initialisation, every failure swallowed. */
    method Forward(call: PluginCall)
      requires Valid() && !IsUnitRequest(call) && !call.NativeInitialize?
      modifies plugin
      ensures Valid()
      ensures plugin.calls == old(plugin.calls) + [call]
    {
      UnitsAfterInitializeAppend(plugin.calls, call);
      HasInitializedAppend(plugin.calls, call);
      plugin.Invoke(call);
    }

    /** `hideBanner()` */
    method HideBanner()
      requires Valid()
      modifies plugin
      ensures Valid()
      ensures plugin.calls == old(plugin.calls) + [NativeHideBanner]
    {
      Forward(NativeHideBanner);
    }

    /** `removeBanner()` */
    method RemoveBanner()
      requires Valid()
      modifies plugin
      ensures Valid()
      ensures plugin.calls == old(plugin.calls) + [NativeRemoveBanner]
    {
      Forward(NativeRemoveBanner);
    }

    /** `showInterstitial()`: no initialisation and no readiness check. */
    method ShowInterstitial()
      requires Valid()
      modifies plugin
      ensures Valid()
      ensures plugin.calls == old(plugin.calls) + [NativeShowInterstitial]
    {
      Forward(NativeShowInterstitial);
    }

    /** `showReward()` */
    method ShowReward()
      requires Valid()
      modifies plugin
      ensures Valid()
      ensures plugin.calls == old(plugin.calls) + [NativeShowRewardVideoAd]
    {
      Forward(NativeShowRewardVideoAd);
    }
  }
}
