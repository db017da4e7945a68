/**
 * The app-level state that `BraveApp` keeps: the profile's preference store, the
 * one-shot "safe to restore tabs" answer, the boot-marker timers still pending,
 * and the outbound events (usage reports, telemetry actions) the app has emitted.
 */
module Startup {
  import opened Wrappers
  import opened Prefs
  import opened Launch
  import Dau

  /** The telemetry action recorded when the app accepts an incoming URL. */
  const OpenInBraveAction: string := "Open in brave"

  class BraveApp {
    var prefs: Store
    var isSafeToRestoreTabs: bool
    /** `AppConstants.IsRunningUITest` */
    var isRunningUITest: bool
    /** Removals of the boot marker scheduled and not yet run. */
    var pendingBootTimers: nat
    /** URLs of the usage reports handed to the network. */
    var sentReports: seq<string>
    /** Telemetry actions recorded. */
    var telemetry: seq<string>

    /** A new process over the persisted store; the static flag starts out true. */
    constructor (persisted: Store)
      ensures prefs == persisted && isSafeToRestoreTabs && !isRunningUITest
      ensures pendingBootTimers == 0 && sentReports == [] && telemetry == []
    {
      prefs := persisted;
      isSafeToRestoreTabs := true;
      isRunningUITest := false;
      pendingBootTimers := 0;
      sentReports := [];
      telemetry := [];
    }

    /**
     * `willFinishLaunching_end`, up to the start of the settings load: read the
     * boot marker, write it, schedule its removal, then apply the launch arguments.
     */
    method WillFinishLaunchingEnd(args: seq<string>, isRunningTestNonUI: bool)
      modifies this`prefs, this`isSafeToRestoreTabs, this`isRunningUITest, this`pendingBootTimers
      ensures isSafeToRestoreTabs <==> !old(HoldsString(prefs, BootFlagKey)) && !ForcesUnsafe(args, isRunningTestNonUI)
      ensures prefs == LaunchPrefs(old(prefs), args, isRunningTestNonUI)
      ensures HoldsString(prefs, BootFlagKey) <==> ClearPrefsArg !in args
      ensures pendingBootTimers == old(pendingBootTimers) + 1
      ensures isRunningUITest == if ForcesUnsafe(args, isRunningTestNonUI) then !isRunningTestNonUI else old(isRunningUITest)
    {
      var safe := !HoldsString(prefs, BootFlagKey);
      var p := MarkBooting(prefs);
      pendingBootTimers := pendingBootTimers + 1;
      ghost var marked := p;

      if ClearPrefsArg in args {
        p := map[];
      }
      if NoShowIntroArg in args {
        p := p[IntroSeenKey := IntPref(1)];
      }
      if ShowOptInArg in args {
        p := p - {OptInSeenKey};
      }
      assert p == ApplyTestArgs(marked, args);
      ghost var tested := p;

      if UITestArg in args || isRunningTestNonUI {
        safe := false;
        isRunningUITest := !isRunningTestNonUI;
        if CountBraveArgs(args) == 1 || isRunningTestNonUI {
          p := p[IntroSeenKey := IntPref(1)];
          p := p[OptInSeenKey := IntPref(1)];
        }
      }
      assert p == ApplyTestRun(tested, args, isRunningTestNonUI);
      BootFlagAfterLaunch(prefs, args, isRunningTestNonUI);
      prefs, isSafeToRestoreTabs := p, safe;
    }

    /** One scheduled removal of the boot marker runs: that key goes, nothing else changes. */
    method TimerFires()
      requires pendingBootTimers > 0
      modifies this`prefs, this`pendingBootTimers
      ensures prefs == old(prefs) - {BootFlagKey}
      ensures BootFlagKey !in prefs
      ensures forall k :: k != BootFlagKey ==> (k in prefs <==> k in old(prefs))
      ensures forall k :: k in prefs ==> prefs[k] == old(prefs)[k]
      ensures pendingBootTimers == old(pendingBootTimers) - 1
    {
      prefs := prefs - {BootFlagKey};
      pendingBootTimers := pendingBootTimers - 1;
    }

    /** Read-and-reset: the answer held before the call, and true from then on. */
    method ShouldRestoreTabs() returns (ok: bool)
      modifies this`isSafeToRestoreTabs
      ensures ok == old(isSafeToRestoreTabs)
      ensures isSafeToRestoreTabs
    {
      ok := isSafeToRestoreTabs;
      isSafeToRestoreTabs := true;
    }

    /** The scheme test of `shouldHandleOpenURL`, with its telemetry action. */
    method ShouldHandleOpenURL(scheme: Option<string>) returns (handled: bool)
      modifies this`telemetry
      ensures handled <==> scheme == Some("brave") || scheme == Some("brave-x-callback")
      ensures telemetry == old(telemetry) + (if handled then [OpenInBraveAction] else [])
    {
      handled := scheme == Some("brave") || scheme == Some("brave-x-callback");
      if handled {
        telemetry := telemetry + [OpenInBraveAction];
      }
    }

    /**
     * `updateDauStat`: when the evaluation decides to report, the new triple is
     * stored first and then exactly one report is sent; otherwise nothing changes.
     */
    method UpdateDauStat(c: Dau.Clock, isRelease: bool, version: string)
      modifies this`prefs, this`sentReports
      ensures match Dau.EvaluateDau(Lookup(old(prefs), Dau.DauStatKey), c, isRelease, version)
        case Skip => prefs == old(prefs) && sentReports == old(sentReports)
        case Send(stat, url) =>
          && prefs == old(prefs)[Dau.DauStatKey := IntArrayPref(stat)]
          && sentReports == old(sentReports) + [url]
    {
      var step := Dau.EvaluateDau(Lookup(prefs, Dau.DauStatKey), c, isRelease, version);
      match step {
        case Skip =>
        case Send(stat, url) =>
          prefs := prefs[Dau.DauStatKey := IntArrayPref(stat)];
          sentReports := sentReports + [url];
      }
    }
  }

  /** Two consecutive `shouldRestoreTabs` calls after a launch step: the launch's answer, then true. */
  method RestoreAnswers(persisted: Store, args: seq<string>, isRunningTestNonUI: bool) returns (first: bool, second: bool)
    ensures first <==> !HoldsString(persisted, BootFlagKey) && !ForcesUnsafe(args, isRunningTestNonUI)
    ensures second
  {
    var app := new BraveApp(persisted);
    app.WillFinishLaunchingEnd(args, isRunningTestNonUI);
    first := app.ShouldRestoreTabs();
    second := app.ShouldRestoreTabs();
  }

  /**
   * Crash detection across two processes: the next launch may restore tabs exactly
   * when this launch's boot window completed (its timer ran) before the process ended.
   */
  method NextLaunchRestores(persisted: Store, args: seq<string>, isRunningTestNonUI: bool, nextArgs: seq<string>, completed: bool)
    returns (safe: bool)
    requires ClearPrefsArg !in args
    requires !ForcesUnsafe(nextArgs, false)
    ensures safe == completed
  {
    var run := new BraveApp(persisted);
    run.WillFinishLaunchingEnd(args, isRunningTestNonUI);
    if completed {
      run.TimerFires();
    }
    var next := new BraveApp(run.prefs);
    next.WillFinishLaunchingEnd(nextArgs, false);
    safe := next.ShouldRestoreTabs();
  }

  /** Two evaluations of the usage report at the same instant store one triple and send one report at most. */
  method DauTwiceAtOnce(persisted: Store, c: Dau.Clock, isRelease: bool, version: string) returns (reports: nat)
    ensures reports <= 1
    ensures reports == 1 <==> Dau.EvaluateDau(Lookup(persisted, Dau.DauStatKey), c, isRelease, version).Send?
  {
    var app := new BraveApp(persisted);
    app.UpdateDauStat(c, isRelease, version);
    app.UpdateDauStat(c, isRelease, version);
    reports := |app.sentReports|;
  }
}
