/**
 * The app-connection nudge watcher of the popup
 * (src/entries/popup/components/AppConnection/AppConnectionWatcher.tsx).
 *
 * When the popup opens on the home screen for a dapp whose active session
 * belongs to another address, the watcher waits, then shows either a nudge
 * sheet (once per app) or a short-lived nudge banner (once per address and
 * app), offering to connect the current address. The component's state hooks
 * and refs become the fields of `Watcher`; its effects, its keyboard handler,
 * `connect` and the two timer callbacks become one method per event.
 */
module AppConnectionWatcher {
  import opened Wrappers
  import opened JsStrings

  const MAINNET_CHAIN_ID: int := 1
  /** The root path and the two routes of the router table this component compares against. */
  const ROOT_PATH := "/"
  const HOME_PATH := "/home"
  const UNLOCK_PATH := "/unlock"
  /** The name of this prompt in the home prompt queue. */
  const APP_CONNECTION_PROMPT := "app-connection"

  /** The dapp's session as `useAppSession` reports it. */
  datatype ActiveSession = ActiveSession(address: string, chainId: int)

  /** What `addSession` is called with. */
  datatype Session = Session(host: string, address: string, chainId: int, url: string)

  /** The two global shortcuts the handler reacts to, and every other key. */
  datatype Key = CloseKey | SelectKey | OtherKey

  /** The values the check timer's callback captured when it was armed. */
  datatype CheckContext = CheckContext(host: string, address: string, sheetEnabled: bool)

  /** What the check timer's callback decides to show. */
  datatype Nudge = SheetNudge | BannerNudge | NoNudge

  /** `isLowerCaseMatch`: equal once both are lowered. */
  predicate LowerCaseMatch(a: string, b: string): (r: bool)
    ensures a == b ==> r
    ensures r ==> |a| == |b| && forall i :: 0 <= i < |a| ==> LowerChar(a[i]) == LowerChar(b[i])
  {
    ToLower(a) == ToLower(b)
  }

  /** `differentActiveSession` */
  predicate DifferentActiveSession(activeSession: Option<ActiveSession>, currentAddress: string): (r: bool)
    ensures r ==> activeSession.Some? && activeSession.value.address != currentAddress
  {
    activeSession.Some? && activeSession.value.address != "" &&
    !LowerCaseMatch(activeSession.value.address, currentAddress)
  }

  /**
   * `differentActiveSession` ignores the case of the current address, and it
   * never holds when the session belongs to the current address.
   */
  lemma DifferentActiveSessionIgnoresCase(activeSession: Option<ActiveSession>, currentAddress: string)
    ensures DifferentActiveSession(activeSession, currentAddress) ==
            DifferentActiveSession(activeSession, ToLower(currentAddress))
    ensures activeSession.Some? && activeSession.value.address == currentAddress ==>
            !DifferentActiveSession(activeSession, currentAddress)
  {
    ToLowerIdempotent(currentAddress);
  }

  /** `firstLoad`: the previous path is the root or the unlock screen. */
  predicate FirstLoad(prevPathname: Option<string>): (r: bool)
    ensures r ==> prevPathname.Some? && prevPathname.value != HOME_PATH
  {
    prevPathname == Some(ROOT_PATH) || prevPathname == Some(UNLOCK_PATH)
  }

  /** `activeSession?.chainId || ChainId.mainnet`: a missing or zero chain id falls back to mainnet. */
  function SessionChainId(activeSession: Option<ActiveSession>): (r: int)
    ensures r != 0
    ensures activeSession.Some? && activeSession.value.chainId != 0 ==> r == activeSession.value.chainId
    ensures activeSession.None? || activeSession.value.chainId == 0 ==> r == MAINNET_CHAIN_ID
  {
    if activeSession.Some? && activeSession.value.chainId != 0 then activeSession.value.chainId else MAINNET_CHAIN_ID
  }

  /** The condition of the third effect, under which a check is scheduled. */
  predicate ShouldScheduleCheck(
    pathname: string, prevPathname: Option<string>, accountChangeHappened: bool,
    activeSession: Option<ActiveSession>, currentAddress: string,
    switchPromptActive: bool, nextInQueue: string): (r: bool)
    ensures r ==> activeSession.Some? && activeSession.value.address != currentAddress
    ensures r && !accountChangeHappened ==> prevPathname.Some? && prevPathname.value != pathname
  {
    && pathname == HOME_PATH
    && (FirstLoad(prevPathname) || accountChangeHappened)
    && DifferentActiveSession(activeSession, currentAddress)
    && !switchPromptActive
    && nextInQueue == APP_CONNECTION_PROMPT
  }

  /** The decision of the check timer's callback, given the interactions recorded so far. */
  function CheckOutcome(ctx: CheckContext, appsInteracted: set<string>, addressesInAppsInteracted: set<(string, string)>): (r: Nudge)
    ensures r == SheetNudge <==> ctx.sheetEnabled && ctx.host !in appsInteracted
    ensures r == NoNudge ==> (ctx.address, ctx.host) in addressesInAppsInteracted
  {
    if ctx.sheetEnabled && ctx.host !in appsInteracted then SheetNudge
    else if (ctx.address, ctx.host) !in addressesInAppsInteracted then BannerNudge
    else NoNudge
  }

  /**
   * The sheet is a one-time nudge per app: once it has been shown for a
   * non-empty host and the interactions have been recorded, the same check
   * shows nothing at all (neither sheet nor banner).
   */
  lemma SheetShownOncePerApp(ctx: CheckContext, apps: set<string>, addressApps: set<(string, string)>)
    requires CheckOutcome(ctx, apps, addressApps) == SheetNudge && ctx.host != ""
    ensures CheckOutcome(ctx, apps + {ctx.host}, addressApps + {(ctx.address, ctx.host)}) == NoNudge
  {
  }

  /**
   * With the sheet disabled, or the app already nudged, the banner is shown
   * exactly when this address has not interacted in this app.
   */
  lemma BannerWhenSheetNotDue(ctx: CheckContext, apps: set<string>, addressApps: set<(string, string)>)
    requires !ctx.sheetEnabled || ctx.host in apps
    ensures CheckOutcome(ctx, apps, addressApps) != SheetNudge
    ensures CheckOutcome(ctx, apps, addressApps) == BannerNudge <==> (ctx.address, ctx.host) !in addressApps
  {
  }

  class Watcher {
    /** The current address store, as last observed. */
    var currentAddress: string
    /** `location.pathname` and the value `usePrevious` returns for it. */
    var pathname: string
    var prevPathname: Option<string>
    var showNudgeSheet: bool
    var showNudgeBanner: bool
    var accountChangeHappened: bool
    /** `timeoutRef`: the pending check, with the values its callback captured. */
    var pendingCheck: Option<CheckContext>
    /** `hideNudgeBannerTimeoutRef`: whether the banner-hide timer is pending. */
    var bannerHidePending: bool
    /** The wallet-switcher store: apps, and (address, app) pairs, that interacted with the nudge sheet. */
    var appsInteracted: set<string>
    var addressesInAppsInteracted: set<(string, string)>
    /** The sessions handed to `addSession`, in order. */
    var sessions: seq<Session>

    /**
     * At most one nudge is visible; while a check is pending nothing is visible
     * and no banner-hide timer runs; the sheet never shows while the banner-hide
     * timer runs; every session added names a host.
     */
    ghost predicate Valid()
      reads this
    {
      && !(showNudgeSheet && showNudgeBanner)
      && (pendingCheck.Some? ==> !showNudgeSheet && !showNudgeBanner && !bannerHidePending)
      && (bannerHidePending ==> !showNudgeSheet)
      && (forall s :: s in sessions ==> s.host != "")
    }

    /**
     * Mounting: `usePrevious` has no address yet, so the first effect sees an
     * address change, sets `accountChangeHappened` and hides.
     */
    constructor (address: string, path: string, apps: set<string>, addressApps: set<(string, string)>)
      ensures Valid()
      ensures currentAddress == address && pathname == path && prevPathname == None
      ensures accountChangeHappened && !showNudgeSheet && !showNudgeBanner
      ensures pendingCheck == None && !bannerHidePending
      ensures appsInteracted == apps && addressesInAppsInteracted == addressApps && sessions == []
    {
      currentAddress := address;
      pathname := path;
      prevPathname := None;
      accountChangeHappened := true;
      showNudgeSheet := false;
      showNudgeBanner := false;
      pendingCheck := None;
      bannerHidePending := false;
      appsInteracted := apps;
      addressesInAppsInteracted := addressApps;
      sessions := [];
    }

    /** `hide`: both nudges hidden, both timers cleared. */
    method Hide()
      requires Valid()
      modifies this
      ensures Valid()
      ensures !showNudgeSheet && !showNudgeBanner && pendingCheck == None && !bannerHidePending
      ensures currentAddress == old(currentAddress) && pathname == old(pathname) && prevPathname == old(prevPathname)
      ensures accountChangeHappened == old(accountChangeHappened)
      ensures appsInteracted == old(appsInteracted) && addressesInAppsInteracted == old(addressesInAppsInteracted)
      ensures sessions == old(sessions)
    {
      showNudgeSheet := false;
      showNudgeBanner := false;
      bannerHidePending := false;
      pendingCheck := None;
    }

    /**
     * `connect`: a session for the current address is added only when the app
     * has a host, on the active session's chain or mainnet; both nudges are
     * hidden. The timers are left as they are.
     */
    method Connect(appHost: string, url: string, activeSession: Option<ActiveSession>)
      requires Valid()
      modifies this
      ensures Valid()
      ensures sessions == old(sessions) +
        (if appHost != "" then [Session(appHost, currentAddress, SessionChainId(activeSession), url)] else [])
      ensures !showNudgeSheet && !showNudgeBanner
      ensures pendingCheck == old(pendingCheck) && bannerHidePending == old(bannerHidePending)
      ensures currentAddress == old(currentAddress) && pathname == old(pathname) && prevPathname == old(prevPathname)
      ensures accountChangeHappened == old(accountChangeHappened)
      ensures appsInteracted == old(appsInteracted) && addressesInAppsInteracted == old(addressesInAppsInteracted)
    {
      if appHost != "" {
        sessions := sessions + [Session(appHost, currentAddress, SessionChainId(activeSession), url)];
      }
      if showNudgeBanner {
        showNudgeBanner := false;
      }
      if showNudgeSheet {
        showNudgeSheet := false;
      }
    }

    /**
     * The keyboard handler. With no nudge visible nothing happens and the key
     * is not consumed. Otherwise the key is consumed; CLOSE hides the visible
     * nudge (timers untouched) and SELECT connects.
     */
    method KeyPressed(key: Key, appHost: string, url: string, activeSession: Option<ActiveSession>)
      returns (prevented: bool)
      requires Valid()
      modifies this
      ensures Valid()
      ensures prevented <==> old(showNudgeBanner) || old(showNudgeSheet)
      ensures !prevented || key == OtherKey ==>
        showNudgeSheet == old(showNudgeSheet) && showNudgeBanner == old(showNudgeBanner) && sessions == old(sessions)
      ensures prevented && key != OtherKey ==> !showNudgeSheet && !showNudgeBanner
      ensures sessions == old(sessions) +
        (if prevented && key == SelectKey && appHost != "" then [Session(appHost, currentAddress, SessionChainId(activeSession), url)] else [])
      ensures pendingCheck == old(pendingCheck) && bannerHidePending == old(bannerHidePending)
      ensures currentAddress == old(currentAddress) && pathname == old(pathname) && prevPathname == old(prevPathname)
      ensures accountChangeHappened == old(accountChangeHappened)
      ensures appsInteracted == old(appsInteracted) && addressesInAppsInteracted == old(addressesInAppsInteracted)
    {
      if !showNudgeBanner && !showNudgeSheet {
        return false;
      }
      if key == CloseKey {
        if showNudgeBanner {
          showNudgeBanner := false;
        }
        if showNudgeSheet {
          showNudgeSheet := false;
        }
      } else if key == SelectKey {
        Connect(appHost, url, activeSession);
      }
      return true;
    }

    /**
     * The first effect: an address that differs ignoring case records an
     * account change and hides; the new address is observed either way.
     */
    method AddressChanged(address: string)
      requires Valid()
      modifies this
      ensures Valid()
      ensures currentAddress == address
      ensures !LowerCaseMatch(address, old(currentAddress)) ==>
        accountChangeHappened && !showNudgeSheet && !showNudgeBanner && pendingCheck == None && !bannerHidePending
      ensures LowerCaseMatch(address, old(currentAddress)) ==>
        accountChangeHappened == old(accountChangeHappened) &&
        showNudgeSheet == old(showNudgeSheet) && showNudgeBanner == old(showNudgeBanner) &&
        pendingCheck == old(pendingCheck) && bannerHidePending == old(bannerHidePending)
      ensures pathname == old(pathname) && prevPathname == old(prevPathname)
      ensures appsInteracted == old(appsInteracted) && addressesInAppsInteracted == old(addressesInAppsInteracted)
      ensures sessions == old(sessions)
    {
      if !LowerCaseMatch(address, currentAddress) {
        accountChangeHappened := true;
        Hide();
      }
      currentAddress := address;
    }

    /**
     * The second effect: a navigation records the previous path, and any route
     * other than home hides.
     */
    method RouteChanged(path: string)
      requires Valid()
      modifies this
      ensures Valid()
      ensures pathname == path && prevPathname == Some(old(pathname))
      ensures path != HOME_PATH ==> !showNudgeSheet && !showNudgeBanner && pendingCheck == None && !bannerHidePending
      ensures path == HOME_PATH ==>
        showNudgeSheet == old(showNudgeSheet) && showNudgeBanner == old(showNudgeBanner) &&
        pendingCheck == old(pendingCheck) && bannerHidePending == old(bannerHidePending)
      ensures currentAddress == old(currentAddress) && accountChangeHappened == old(accountChangeHappened)
      ensures appsInteracted == old(appsInteracted) && addressesInAppsInteracted == old(addressesInAppsInteracted)
      ensures sessions == old(sessions)
    {
      prevPathname := Some(pathname);
      pathname := path;
      if path != HOME_PATH {
        Hide();
      }
    }

    /**
     * The third effect, run after a render: when the condition holds the account
     * change is consumed, everything is hidden and a check is armed, capturing
     * the host, the address and whether the sheet is enabled. Afterwards the
     * previous-path ref catches up with the current path.
     */
    method TriggerCheck(
      appHost: string, activeSession: Option<ActiveSession>, nudgeSheetEnabled: bool,
      switchPromptActive: bool, nextInQueue: string)
      requires Valid()
      modifies this
      ensures Valid()
      ensures var scheduled := ShouldScheduleCheck(
          old(pathname), old(prevPathname), old(accountChangeHappened),
          activeSession, currentAddress, switchPromptActive, nextInQueue);
        && (scheduled ==>
          && !accountChangeHappened && !showNudgeSheet && !showNudgeBanner && !bannerHidePending
          && pendingCheck == Some(CheckContext(appHost, currentAddress, nudgeSheetEnabled)))
        && (!scheduled ==>
          && accountChangeHappened == old(accountChangeHappened)
          && showNudgeSheet == old(showNudgeSheet) && showNudgeBanner == old(showNudgeBanner)
          && pendingCheck == old(pendingCheck) && bannerHidePending == old(bannerHidePending))
      ensures prevPathname == Some(pathname)
      ensures currentAddress == old(currentAddress) && pathname == old(pathname)
      ensures appsInteracted == old(appsInteracted) && addressesInAppsInteracted == old(addressesInAppsInteracted)
      ensures sessions == old(sessions)
    {
      if ShouldScheduleCheck(pathname, prevPathname, accountChangeHappened,
                             activeSession, currentAddress, switchPromptActive, nextInQueue) {
        accountChangeHappened := false;
        Hide();
        pendingCheck := Some(CheckContext(appHost, currentAddress, nudgeSheetEnabled));
      }
      prevPathname := Some(pathname);
    }

    /**
     * The check timer fires (a cleared timer never does). The sheet is shown
     * when it is enabled and the app has not interacted, and with a host both
     * interactions are recorded; otherwise the banner is shown, with its hide
     * timer armed, when this address has not interacted in this app.
     */
    method CheckTimerFired()
      requires Valid()
      modifies this
      ensures Valid()
      ensures old(pendingCheck).None? ==>
        showNudgeSheet == old(showNudgeSheet) && showNudgeBanner == old(showNudgeBanner) &&
        bannerHidePending == old(bannerHidePending) &&
        appsInteracted == old(appsInteracted) && addressesInAppsInteracted == old(addressesInAppsInteracted)
      ensures old(pendingCheck).Some? ==>
        var ctx := old(pendingCheck).value;
        var outcome := CheckOutcome(ctx, old(appsInteracted), old(addressesInAppsInteracted));
        && showNudgeSheet == (outcome == SheetNudge)
        && showNudgeBanner == (outcome == BannerNudge)
        && bannerHidePending == (outcome == BannerNudge)
        && (outcome == SheetNudge && ctx.host != "" ==>
              appsInteracted == old(appsInteracted) + {ctx.host} &&
              addressesInAppsInteracted == old(addressesInAppsInteracted) + {(ctx.address, ctx.host)})
        && (outcome != SheetNudge || ctx.host == "" ==>
              appsInteracted == old(appsInteracted) && addressesInAppsInteracted == old(addressesInAppsInteracted))
      ensures pendingCheck == None
      ensures currentAddress == old(currentAddress) && pathname == old(pathname) && prevPathname == old(prevPathname)
      ensures accountChangeHappened == old(accountChangeHappened) && sessions == old(sessions)
    {
      if pendingCheck.None? {
        return;
      }
      var ctx := pendingCheck.value;
      pendingCheck := None;
      if ctx.sheetEnabled && ctx.host !in appsInteracted {
        showNudgeSheet := true;
        if ctx.host != "" {
          addressesInAppsInteracted := addressesInAppsInteracted + {(ctx.address, ctx.host)};
          appsInteracted := appsInteracted + {ctx.host};
        }
      } else if (ctx.address, ctx.host) !in addressesInAppsInteracted {
        showNudgeBanner := true;
        bannerHidePending := true;
      }
    }

    /** The banner-hide timer fires (a cleared timer never does): the banner is hidden. */
    method BannerTimerFired()
      requires Valid()
      modifies this
      ensures Valid()
      ensures !bannerHidePending
      ensures old(bannerHidePending) ==> !showNudgeBanner
      ensures !old(bannerHidePending) ==> showNudgeBanner == old(showNudgeBanner)
      ensures showNudgeSheet == old(showNudgeSheet) && pendingCheck == old(pendingCheck)
      ensures currentAddress == old(currentAddress) && pathname == old(pathname) && prevPathname == old(prevPathname)
      ensures accountChangeHappened == old(accountChangeHappened) && sessions == old(sessions)
      ensures appsInteracted == old(appsInteracted) && addressesInAppsInteracted == old(addressesInAppsInteracted)
    {
      if bannerHidePending {
        bannerHidePending := false;
        showNudgeBanner := false;
      }
    }
  }
}
