/**
 * What the end of the launch sequence (`willFinishLaunching_end`) does to the
 * preference store: it writes the boot-incomplete marker and then applies the
 * test-harness launch arguments in the order the app checks them.
 */
module Launch {
  import opened Prefs

  const BootFlagKey: string := "kAppBootingIncompleteFlag"
  const BootFlagText: string := "remove me when booted"
  /** Stand-ins for `IntroViewControllerSeenProfileKey` and `BraveUX.PrefKeyOptInDialogWasSeen`. */
  const IntroSeenKey: string := "IntroViewControllerSeen"
  const OptInSeenKey: string := "OptInDialogWasSeen"

  const ClearPrefsArg: string := "BRAVE-TEST-CLEAR-PREFS"
  const NoShowIntroArg: string := "BRAVE-TEST-NO-SHOW-INTRO"
  const ShowOptInArg: string := "BRAVE-TEST-SHOW-OPT-IN"
  const UITestArg: string := "BRAVE-UI-TEST"

  predicate StartsWithBrave(arg: string) {
    |arg| >= 5 && arg[..5] == "BRAVE"
  }

  /** `args.filter({ $0.startsWith("BRAVE") }).count` */
  function CountBraveArgs(args: seq<string>): (n: nat)
    ensures n <= |args|
    ensures n == 0 <==> forall i :: 0 <= i < |args| ==> !StartsWithBrave(args[i])
  {
    if |args| == 0 then 0
    else (if StartsWithBrave(args[0]) then 1 else 0) + CountBraveArgs(args[1..])
  }

  /** UI test runs and non-UI test builds never restore tabs. */
  predicate ForcesUnsafe(args: seq<string>, isRunningTestNonUI: bool) {
    UITestArg in args || isRunningTestNonUI
  }

  /**
   * The intro and opt-in dialogs are marked as seen: in every non-UI test run, and in a UI
   * test run whose only BRAVE-prefixed argument is `BRAVE-UI-TEST`.
   */
  predicate SkipsOnboarding(args: seq<string>, isRunningTestNonUI: bool): (b: bool)
    ensures b ==> ForcesUnsafe(args, isRunningTestNonUI)
    ensures b && !isRunningTestNonUI ==>
      forall i :: 0 <= i < |args| && StartsWithBrave(args[i]) ==> args[i] == UITestArg
  {
    if ForcesUnsafe(args, isRunningTestNonUI) && (CountBraveArgs(args) == 1 || isRunningTestNonUI) then
      if !isRunningTestNonUI then
        assert StartsWithBrave(UITestArg);
        SoleBraveArg(args, UITestArg);
        true
      else true
    else false
  }

  /** Writing the boot-incomplete marker: the marker key gains a string, every other key is untouched. */
  function MarkBooting(p: Store): (q: Store)
    ensures q.Keys == p.Keys + {BootFlagKey}
    ensures HoldsString(q, BootFlagKey)
    ensures forall k :: k != BootFlagKey ==> SameAt(p, q, k)
  {
    p[BootFlagKey := StrPref(BootFlagText)]
  }

  /** The single-purpose test arguments, in the order the app checks them. */
  function ApplyTestArgs(p: Store, args: seq<string>): (q: Store)
    ensures ClearPrefsArg in args ==> q.Keys <= {IntroSeenKey}
    ensures ClearPrefsArg in args && NoShowIntroArg !in args ==> IntroSeenKey !in q
    ensures ClearPrefsArg !in args ==> forall k :: k != IntroSeenKey && k != OptInSeenKey ==> SameAt(p, q, k)
    ensures NoShowIntroArg in args ==> IntroSeenKey in q && q[IntroSeenKey] == IntPref(1)
    ensures NoShowIntroArg !in args && ClearPrefsArg !in args ==> SameAt(p, q, IntroSeenKey)
    ensures ShowOptInArg in args ==> OptInSeenKey !in q
    ensures ShowOptInArg !in args && ClearPrefsArg !in args ==> SameAt(p, q, OptInSeenKey)
  {
    var cleared := if ClearPrefsArg in args then map[] else p;
    var intro := if NoShowIntroArg in args then cleared[IntroSeenKey := IntPref(1)] else cleared;
    if ShowOptInArg in args then intro - {OptInSeenKey} else intro
  }

  /** Marking both onboarding dialogs as seen in test runs; nothing else changes. */
  function ApplyTestRun(p: Store, args: seq<string>, isRunningTestNonUI: bool): (q: Store)
    ensures SkipsOnboarding(args, isRunningTestNonUI) ==>
      && IntroSeenKey in q && q[IntroSeenKey] == IntPref(1)
      && OptInSeenKey in q && q[OptInSeenKey] == IntPref(1)
      && forall k :: k != IntroSeenKey && k != OptInSeenKey ==> SameAt(p, q, k)
    ensures !SkipsOnboarding(args, isRunningTestNonUI) ==> q == p
  {
    if SkipsOnboarding(args, isRunningTestNonUI)
    then p[IntroSeenKey := IntPref(1)][OptInSeenKey := IntPref(1)]
    else p
  }

  /** The store after the launch step, from the store before it: no key other than the three it writes appears. */
  function LaunchPrefs(p: Store, args: seq<string>, isRunningTestNonUI: bool): (q: Store)
    ensures q.Keys <= p.Keys + {BootFlagKey, IntroSeenKey, OptInSeenKey}
  {
    ApplyTestRun(ApplyTestArgs(MarkBooting(p), args), args, isRunningTestNonUI)
  }

  /**
   * After the launch step the marker is stored, as a string, exactly when the
   * arguments do not ask to clear the store.
   */
  lemma BootFlagAfterLaunch(p: Store, args: seq<string>, isRunningTestNonUI: bool)
    ensures HoldsString(LaunchPrefs(p, args, isRunningTestNonUI), BootFlagKey) <==> ClearPrefsArg !in args
    ensures BootFlagKey in LaunchPrefs(p, args, isRunningTestNonUI) <==> ClearPrefsArg !in args
  {
  }

  /**
   * The onboarding keys: set to 1 when onboarding is skipped; otherwise removed or set
   * by the single-purpose arguments, gone after clearing unless an argument sets them again,
   * and left exactly as they were when no argument names them.
   */
  lemma OnboardingAfterLaunch(p: Store, args: seq<string>, isRunningTestNonUI: bool)
    ensures var q := LaunchPrefs(p, args, isRunningTestNonUI);
      && (SkipsOnboarding(args, isRunningTestNonUI) ==>
            IntroSeenKey in q && q[IntroSeenKey] == IntPref(1) && OptInSeenKey in q && q[OptInSeenKey] == IntPref(1))
      && (!SkipsOnboarding(args, isRunningTestNonUI) && ShowOptInArg in args ==> OptInSeenKey !in q)
      && (!SkipsOnboarding(args, isRunningTestNonUI) && NoShowIntroArg in args ==>
            IntroSeenKey in q && q[IntroSeenKey] == IntPref(1))
      && (!SkipsOnboarding(args, isRunningTestNonUI) && ClearPrefsArg in args ==>
            OptInSeenKey !in q && (NoShowIntroArg !in args ==> IntroSeenKey !in q))
      && (!SkipsOnboarding(args, isRunningTestNonUI) && ClearPrefsArg !in args && NoShowIntroArg !in args ==>
            SameAt(p, q, IntroSeenKey))
      && (!SkipsOnboarding(args, isRunningTestNonUI) && ClearPrefsArg !in args && ShowOptInArg !in args ==>
            SameAt(p, q, OptInSeenKey))
  {
  }

  /** Every other key is either wiped with the whole store or left exactly as it was. */
  lemma OtherKeysAfterLaunch(p: Store, args: seq<string>, isRunningTestNonUI: bool, key: string)
    requires key != BootFlagKey && key != IntroSeenKey && key != OptInSeenKey
    ensures var q := LaunchPrefs(p, args, isRunningTestNonUI);
      && (ClearPrefsArg in args ==> key !in q)
      && (ClearPrefsArg !in args ==> (key in q <==> key in p) && (key in p ==> q[key] == p[key]))
  {
  }

  /**
   * "Exactly one argument starts with BRAVE": when the UI-test argument is among
   * them, it is the only such argument (every copy of it included).
   */
  lemma {:induction false} SoleBraveArg(args: seq<string>, arg: string)
    requires CountBraveArgs(args) == 1
    requires arg in args && StartsWithBrave(arg)
    ensures forall i :: 0 <= i < |args| && StartsWithBrave(args[i]) ==> args[i] == arg
  {
    if args[0] == arg {
      assert CountBraveArgs(args[1..]) == 0;
      forall i | 1 <= i < |args|
        ensures !StartsWithBrave(args[i])
      {
        assert args[i] == args[1..][i - 1];
      }
    } else if StartsWithBrave(args[0]) {
      assert false;
    } else {
      assert arg in args[1..];
      SoleBraveArg(args[1..], arg);
      forall i | 0 <= i < |args| && StartsWithBrave(args[i])
        ensures args[i] == arg
      {
        assert i > 0;
        assert args[1..][i - 1] == args[i];
      }
    }
  }
}
