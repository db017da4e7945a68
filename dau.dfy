/**
 * The daily-active-user report (`updateDauStat`): from the stored `dau_stat`
 * value and the current time it decides whether to report, which cadence flags
 * the report carries, the report's URL and the triple stored afterwards.
 * The clock and the calendar are inputs: `now` is the whole number of epoch
 * seconds, `month` and `year` the calendar fields of the same instant.
 */
module Dau {
  import opened Wrappers
  import opened Prefs
  import opened Query

  const DauStatKey: string := "dau_stat"
  const SecondsInADay: int := 86400
  const SecondsInAWeek: int := 7 * SecondsInADay
  const UsageEndpoint: string := "https://laptop-updates.brave.com/1/usage/ios"

  datatype Clock = Clock(now: int, month: int, year: int)

  datatype Cadence = Cadence(daily: bool, weekly: bool, monthly: bool)

  /** What one report says: channel (release or beta), app version, `first`, and the cadence flags when present. */
  datatype Report = Report(isRelease: bool, version: string, first: bool, cadence: Option<Cadence>)

  /** The outcome of one evaluation: nothing, or a new stored triple and one report sent. */
  datatype DauStep = Skip | Send(newStat: seq<int>, url: string)

  /** Swift's string interpolation of a `Bool`. */
  function BoolText(b: bool): string {
    if b then "true" else "false"
  }

  function ChannelName(isRelease: bool): string {
    if isRelease then "stable" else "beta"
  }

  function CadenceParams(cad: Cadence): seq<Param> {
    [Param("daily", BoolText(cad.daily)), Param("weekly", BoolText(cad.weekly)), Param("monthly", BoolText(cad.monthly))]
  }

  /** The four parameters every report carries. */
  function BaseParams(isRelease: bool, version: string, first: bool): seq<Param> {
    [Param("platform", "ios"), Param("channel", ChannelName(isRelease)), Param("version", version), Param("first", BoolText(first))]
  }

  /** The same report as a parameter list. */
  function ReportParams(r: Report): (ps: seq<Param>)
    ensures |ps| > 0
  {
    BaseParams(r.isRelease, r.version, r.first)
    + (match r.cadence case None => [] case Some(cad) => CadenceParams(cad))
  }

  function ParseBool(s: string): Option<bool> {
    if s == "true" then Some(true) else if s == "false" then Some(false) else None
  }

  function ParseChannel(s: string): Option<bool> {
    if s == "stable" then Some(true) else if s == "beta" then Some(false) else None
  }

  /** Reads a parameter list back as a report: the four base parameters, optionally followed by the three cadence flags. */
  function DecodeParams(ps: seq<Param>): Option<Report> {
    if !(|ps| == 4 || |ps| == 7) || ps[0] != Param("platform", "ios")
       || ps[1].key != "channel" || ps[2].key != "version" || ps[3].key != "first"
    then None
    else
      var release :- ParseChannel(ps[1].value);
      var first :- ParseBool(ps[3].value);
      if |ps| == 4 then Some(Report(release, ps[2].value, first, None))
      else if ps[4].key != "daily" || ps[5].key != "weekly" || ps[6].key != "monthly" then None
      else
        var daily :- ParseBool(ps[4].value);
        var weekly :- ParseBool(ps[5].value);
        var monthly :- ParseBool(ps[6].value);
        Some(Report(release, ps[2].value, first, Some(Cadence(daily, weekly, monthly))))
  }

  /** What the receiving end reads from a report URL. */
  function DecodeReport(url: string): Option<Report> {
    var n := |UsageEndpoint| + 1;
    if |url| < n || url[..n] != UsageEndpoint + "?" then None
    else DecodeParams(ParseParams(url[n..]))
  }

  /** Three appended parameters. */
  lemma TailOfThree(a: Param, b: Param, c: Param)
    ensures Tail([a, b, c]) == ("&" + Pair(a)) + ("&" + Pair(b)) + ("&" + Pair(c))
  {
    assert [a, b, c][1..] == [b, c];
    assert [b, c][1..] == [c];
    assert [c][1..] == [];
    assert Tail([c]) == "&" + Pair(c);
    assert Tail([b, c]) == "&" + Pair(b) + ("&" + Pair(c));
    assert Tail([a, b, c]) == "&" + Pair(a) + ("&" + Pair(b) + ("&" + Pair(c)));
  }

  /** One `&key=value` piece written as a single literal followed by the value. */
  lemma AppendedPiece(literal: string, key: string, value: string)
    requires literal == "&" + key + "="
    ensures literal + value == "&" + Pair(Param(key, value))
  {
  }

  /** Regrouping a chain of six appended pieces into three. */
  lemma Regroup(x: string, b: string, p: string, c: string, q: string, d: string, r: string)
    ensures x + b + p + c + q + d + r == x + ((b + p) + (c + q) + (d + r))
  {
  }

  lemma RegroupThree(b: string, p: string, c: string, q: string, d: string, r: string)
    ensures b + p + c + q + d + r == (b + p) + (c + q) + (d + r)
  {
  }

  /** The app's concatenation of the four base pieces is the endpoint, `?`, and those parameters joined with `&`. */
  lemma BaseConcatenation(channel: string, version: string, first: string)
    ensures UsageEndpoint + "?platform=ios" + "&channel=" + channel + "&version=" + version + "&first=" + first
      == UsageEndpoint + "?" + JoinParams([Param("platform", "ios"), Param("channel", channel), Param("version", version), Param("first", first)])
  {
    var p0, p1, p2, p3 := Param("platform", "ios"), Param("channel", channel), Param("version", version), Param("first", first);
    var ps := [p0, p1, p2, p3];
    assert ps[1..] == [p1, p2, p3];
    TailOfThree(p1, p2, p3);
    var x := UsageEndpoint + "?platform=ios";
    assert x == UsageEndpoint + "?" + Pair(p0);
    AppendedPiece("&channel=", "channel", channel);
    AppendedPiece("&version=", "version", version);
    AppendedPiece("&first=", "first", first);
    Regroup(x, "&channel=", channel, "&version=", version, "&first=", first);
  }

  /**
   * The query as built before the stored value is inspected (`statsQuery`): the
   * endpoint, `?`, and the four base parameters joined with `&`.
   */
  function BaseUrl(isRelease: bool, version: string, first: bool): (url: string)
    ensures url == UsageEndpoint + "?" + JoinParams(BaseParams(isRelease, version, first))
  {
    BaseConcatenation(ChannelName(isRelease), version, BoolText(first));
    UsageEndpoint + "?platform=ios" + "&channel=" + ChannelName(isRelease)
    + "&version=" + version
    + "&first=" + BoolText(first)
  }

  /** The piece appended in the well-formed-triple branch: the three cadence flags, each as `&key=value`. */
  function CadenceSuffix(cad: Cadence): (suffix: string)
    ensures suffix == Tail(CadenceParams(cad))
  {
    var d, w, m := BoolText(cad.daily), BoolText(cad.weekly), BoolText(cad.monthly);
    TailOfThree(Param("daily", d), Param("weekly", w), Param("monthly", m));
    AppendedPiece("&daily=", "daily", d);
    AppendedPiece("&weekly=", "weekly", w);
    AppendedPiece("&monthly=", "monthly", m);
    RegroupThree("&daily=", d, "&weekly=", w, "&monthly=", m);
    "&daily=" + BoolText(cad.daily) + "&weekly=" + BoolText(cad.weekly) + "&monthly=" + BoolText(cad.monthly)
  }

  /**
   * The report URL, concatenated piece by piece as the app builds it; it is the
   * endpoint, `?`, and the report's parameters joined with `&`.
   */
  function ReportUrl(r: Report): (url: string)
    ensures url == UsageEndpoint + "?" + JoinParams(ReportParams(r))
  {
    var base := BaseUrl(r.isRelease, r.version, r.first);
    var bp := BaseParams(r.isRelease, r.version, r.first);
    match r.cadence
    case None =>
      assert ReportParams(r) == bp + [];
      assert bp + [] == bp;
      base
    case Some(cad) =>
      JoinAppend(UsageEndpoint + "?", bp, CadenceParams(cad));
      base + CadenceSuffix(cad)
  }

  lemma ParseBoolText(b: bool)
    ensures ParseBool(BoolText(b)) == Some(b)
  {
  }

  /** The parameter list reads back as the report it lists. */
  lemma DecodeReportParams(r: Report)
    ensures DecodeParams(ReportParams(r)) == Some(r)
  {
    var ps := ReportParams(r);
    ParseBoolText(r.first);
    assert ParseChannel(ChannelName(r.isRelease)) == Some(r.isRelease);
    match r.cadence {
      case None =>
        assert |ps| == 4;
      case Some(cad) =>
        assert |ps| == 7;
        ParseBoolText(cad.daily);
        ParseBoolText(cad.weekly);
        ParseBoolText(cad.monthly);
    }
  }

  lemma BoolTextSeparable(key: string, b: bool)
    requires '=' !in key && '&' !in key
    ensures Separable(Param(key, BoolText(b)))
  {
    assert '&' !in "true" && '&' !in "false";
  }

  lemma BaseParamsSeparable(isRelease: bool, version: string, first: bool)
    requires '&' !in version
    ensures Separable(Param("platform", "ios"))
    ensures Separable(Param("channel", ChannelName(isRelease)))
    ensures Separable(Param("version", version))
    ensures Separable(Param("first", BoolText(first)))
  {
    assert '&' !in "stable" && '&' !in "beta";
    BoolTextSeparable("first", first);
  }

  lemma CadenceParamsSeparable(cad: Cadence)
    ensures forall k :: 0 <= k < 3 ==> Separable(CadenceParams(cad)[k])
  {
    BoolTextSeparable("daily", cad.daily);
    BoolTextSeparable("weekly", cad.weekly);
    BoolTextSeparable("monthly", cad.monthly);
  }

  lemma ReportParamsSeparable(r: Report)
    requires '&' !in r.version
    ensures forall k :: 0 <= k < |ReportParams(r)| ==> Separable(ReportParams(r)[k])
  {
    BaseParamsSeparable(r.isRelease, r.version, r.first);
    match r.cadence {
      case None =>
      case Some(cad) =>
        CadenceParamsSeparable(cad);
    }
  }

  /** Every report URL decodes to the report it was built from, provided the version string has no `&`. */
  lemma DecodeEncode(r: Report)
    requires '&' !in r.version
    ensures DecodeReport(ReportUrl(r)) == Some(r)
  {
    var ps := ReportParams(r);
    ReportParamsSeparable(r);
    ParseJoin(ps);
    var url := ReportUrl(r);
    var n := |UsageEndpoint| + 1;
    assert url[..n] == UsageEndpoint + "?";
    assert url[n..] == JoinParams(ps);
    DecodeReportParams(r);
  }

  /** The `as? [Int]` cast with its `count == 3` guard. */
  function StoredTriple(stored: Option<PrefValue>): (t: Option<seq<int>>)
    ensures t.Some? ==> |t.value| == 3 && stored == Some(IntArrayPref(t.value))
    ensures t.None? ==> forall items :: stored == Some(IntArrayPref(items)) ==> |items| != 3
  {
    if stored.Some? && stored.value.IntArrayPref? && |stored.value.items| == 3
    then Some(stored.value.items) else None
  }

  /** The three flags for a previous report `[secs, month, year]`. */
  function CadenceSince(last: seq<int>, c: Clock): (cad: Cadence)
    requires |last| == 3
    ensures cad.weekly ==> cad.daily
  {
    var elapsed := c.now - last[0];
    Cadence(elapsed >= SecondsInADay, elapsed >= SecondsInAWeek, c.month != last[1] || c.year != last[2])
  }

  /** A report is due when at least one cadence flag holds. */
  predicate Due(cad: Cadence) {
    cad.daily || cad.weekly || cad.monthly
  }

  /** The weekly flag never decides whether a report is due: a day, or a change of month or year, does. */
  lemma DueSince(last: seq<int>, c: Clock)
    requires |last| == 3
    ensures Due(CadenceSince(last, c)) <==>
      c.now - last[0] >= SecondsInADay || c.month != last[1] || c.year != last[2]
  {
  }

  /** One evaluation of `updateDauStat` on the value stored under `dau_stat`. */
  function EvaluateDau(stored: Option<PrefValue>, c: Clock, isRelease: bool, version: string): (step: DauStep)
    ensures step.Send? ==> step.newStat == [c.now, c.month, c.year]
  {
    var first := stored.Some? && IsArray(stored.value);
    var triple := StoredTriple(stored);
    if triple.Some? && !Due(CadenceSince(triple.value, c)) then Skip
    else
      var cadence := if triple.Some? then Some(CadenceSince(triple.value, c)) else None;
      Send([c.now, c.month, c.year], ReportUrl(Report(isRelease, version, first, cadence)))
  }

  /**
   * Nothing is sent and nothing stored exactly when a well-formed triple is stored,
   * less than a day has passed and the month and year are unchanged.
   */
  lemma SkipsExactlyWhenNotDue(stored: Option<PrefValue>, c: Clock, isRelease: bool, version: string)
    ensures EvaluateDau(stored, c, isRelease, version).Skip? <==>
      (stored.Some? && stored.value.IntArrayPref? && |stored.value.items| == 3
       && c.now - stored.value.items[0] < SecondsInADay
       && c.month == stored.value.items[1] && c.year == stored.value.items[2])
  {
  }

  /**
   * What a sent report says: `first` is whether any array was stored (not whether
   * this is the first report); the cadence flags are present exactly when a
   * well-formed triple was stored, follow the day and week thresholds and the
   * calendar, and at least one of them holds.
   */
  lemma SentReportDecodes(stored: Option<PrefValue>, c: Clock, isRelease: bool, version: string)
    requires '&' !in version
    ensures var step := EvaluateDau(stored, c, isRelease, version);
      step.Send? ==>
        var r := DecodeReport(step.url);
        && r.Some?
        && r.value.isRelease == isRelease
        && r.value.version == version
        && (r.value.first <==> stored.Some? && IsArray(stored.value))
        && (r.value.cadence.Some? <==> StoredTriple(stored).Some?)
        && (r.value.cadence.Some? ==>
              var t := stored.value.items;
              var cad := r.value.cadence.value;
              && (cad.daily <==> c.now - t[0] >= 86400)
              && (cad.weekly <==> c.now - t[0] >= 604800)
              && (cad.monthly <==> c.month != t[1] || c.year != t[2])
              && (cad.daily || cad.monthly))
  {
    var step := EvaluateDau(stored, c, isRelease, version);
    if step.Send? {
      var first := stored.Some? && IsArray(stored.value);
      var triple := StoredTriple(stored);
      var cadence := if triple.Some? then Some(CadenceSince(triple.value, c)) else None;
      DecodeEncode(Report(isRelease, version, first, cadence));
    }
  }

  /** Once a report is stored, an evaluation less than a day after it (or with the clock set back), in the same month and year, sends nothing. */
  lemma NoSecondReportWithinADay(stored: Option<PrefValue>, c1: Clock, c2: Clock, isRelease: bool, version: string)
    requires EvaluateDau(stored, c1, isRelease, version).Send?
    requires c2.now < c1.now + SecondsInADay
    requires c2.month == c1.month && c2.year == c1.year
    ensures EvaluateDau(Some(IntArrayPref(EvaluateDau(stored, c1, isRelease, version).newStat)), c2, isRelease, version).Skip?
  {
    SkipsExactlyWhenNotDue(Some(IntArrayPref(EvaluateDau(stored, c1, isRelease, version).newStat)), c2, isRelease, version);
  }

  /** Last report at `t0` in January 2024, evaluated 90000 seconds later in the same month: a daily-only report. */
  lemma DailyOnlyScenario(t0: int, isRelease: bool, version: string)
    requires '&' !in version
    ensures var step := EvaluateDau(Some(IntArrayPref([t0, 1, 2024])), Clock(t0 + 90000, 1, 2024), isRelease, version);
      && step.Send?
      && step.newStat == [t0 + 90000, 1, 2024]
      && DecodeReport(step.url) == Some(Report(isRelease, version, true, Some(Cadence(true, false, false))))
  {
    SentReportDecodes(Some(IntArrayPref([t0, 1, 2024])), Clock(t0 + 90000, 1, 2024), isRelease, version);
  }

  /** Last report in December 2024, evaluated in January 2025 less than a day later: a monthly-only report. */
  lemma MonthBoundaryScenario(t0: int, elapsed: int, isRelease: bool, version: string)
    requires '&' !in version
    requires 0 <= elapsed < SecondsInADay
    ensures var step := EvaluateDau(Some(IntArrayPref([t0, 12, 2024])), Clock(t0 + elapsed, 1, 2025), isRelease, version);
      && step.Send?
      && DecodeReport(step.url) == Some(Report(isRelease, version, true, Some(Cadence(false, false, true))))
  {
    SentReportDecodes(Some(IntArrayPref([t0, 12, 2024])), Clock(t0 + elapsed, 1, 2025), isRelease, version);
  }

  /** Nothing stored: a report without cadence flags is sent, and it says `first=false`. */
  lemma NothingStoredScenario(c: Clock, isRelease: bool, version: string)
    requires '&' !in version
    ensures var step := EvaluateDau(None, c, isRelease, version);
      && step.Send?
      && step.newStat == [c.now, c.month, c.year]
      && DecodeReport(step.url) == Some(Report(isRelease, version, false, None))
  {
    SentReportDecodes(None, c, isRelease, version);
  }
}
