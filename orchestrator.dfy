/**
  The main part of each script: build the timestamp list, fill the template,
  open the log, and for each window rewrite the three window keys, clear an
  existing output file, run the bounded-retry extraction and append one log
  line.

  The download client is the oracle `client(request, k)`; the current
  directory's files are the set `files` that `os.path.isfile` and
  `os.remove` see; the log file is the sequence of strings written to it.
 */
module Orchestrator {
  import opened Wrappers
  import opened Calendar
  import opened Format
  import opened Retry
  import opened Options
  import opened Products

  type Client = (Request, nat) -> Outcome

  /** What stops a run before its last window. */
  datatype RunError =
    | DateOverflow     // a timestamp past year 9999 (OverflowError / ValueError while building the list)
    | NoVariables      // `var_list[0]` on an empty list (IndexError)
    | OutNameUnbound   // no branch of the physics naming chain matched (NameError on `out_fn`)

  /**
    What a run leaves behind: the lines written to `log.txt` (`None` when the
    log was never opened), the error that ended it, and the files left in the
    current directory.
   */
  datatype RunOutcome = RunOutcome(log: Option<seq<string>>, error: Option<RunError>, files: set<string>)

  const HEADER := "\n\n** Working on GLORYS extraction **"

  /** `'\n ' + label + ' ' + result` */
  function LogLine(windowLabel: string, result: Token): string {
    "\n " + windowLabel + " " + TokenText(result)
  }

  /** The reanalysis `get_extraction(dt, …)`: the timestamp takes no part. */
  method GetExtractionForDate(dt: DateTime, request: Request, client: Client) returns (result: Token, calls: nat)
    ensures result == ExtractionResult(client, request)
    ensures calls == CallCount(client, request)
  {
    result, calls := GetExtraction(request, client);
  }

  /** The naming scheme of a run; `None` when the physics forecast's first variable matches no branch. */
  function SchemeOf(p: Product, c: Config): Option<Scheme>
    requires p == PhysicsForecastDaily ==> |c.variables| > 0
  {
    match p
    case BiogeochemMonthly => Some(MonthlyBiogeochem)
    case ReanalysisDaily => Some(DailyReanalysis)
    case PhysicsForecastDaily =>
      match TagOf(c.variables[0])
      case Some(t) => Some(DailyPhysics(t))
      case None => None
  }

  /** The template as it stands when the loop starts (after the physics product selection). */
  function LoopTemplate(p: Product, c: Config): Request
    requires p == PhysicsForecastDaily ==> |c.variables| > 0
  {
    if p == PhysicsForecastDaily && TagOf(c.variables[0]).Some? then
      Template(p, c)[PRODUCT_ID := Text(TagProduct(TagOf(c.variables[0]).value))]
    else
      Template(p, c)
  }

  predicate AllInRange(ts: seq<DateTime>) {
    forall i :: 0 <= i < |ts| ==> InRange(ts[i].date)
  }

  function Windows(s: Scheme, ts: seq<DateTime>): (ws: seq<Window>)
    requires AllInRange(ts)
    ensures |ws| == |ts|
  {
    seq(|ts|, i requires 0 <= i < |ts| => WindowOf(s, ts[i]))
  }

  /** The request the client receives for window `w`. */
  function RequestFor(base: Request, w: Window): Request {
    WithWindow(base, w.outName, w.dateMin, w.dateMax)
  }

  /** Whether window `w` reaches `get_extraction`: the file was removed, or was never there. */
  predicate Extracts(w: Window, files: set<string>, force: bool) {
    force || w.outName !in files
  }

  /** The log lines written for windows `ws`, in order. */
  function LogLines(ws: seq<Window>, base: Request, client: Client, files: set<string>, force: bool): seq<string>
  {
    if ws == [] then []
    else
      var w := ws[|ws| - 1];
      LogLines(ws[..|ws| - 1], base, client, files, force)
      + (if Extracts(w, files, force) then [LogLine(w.logLabel, ExtractionResult(client, RequestFor(base, w)))] else [])
  }

  /** The files of the current directory after windows `ws`. */
  function FilesAfter(ws: seq<Window>, files: set<string>, force: bool): set<string> {
    if force then files - set w | w in ws :: w.outName else files
  }

  /** The whole run, as a function of the configuration, the client and the directory. */
  function ExpectedRun(p: Product, c: Config, client: Client, files: set<string>, force: bool): RunOutcome
    requires ValidTime(c.start) && InRange(c.start.date)
  {
    match DtList(p, c.start, c.count)
    case None => RunOutcome(None, Some(DateOverflow), files)
    case Some(ts) =>
      if p == PhysicsForecastDaily && |c.variables| == 0 then
        RunOutcome(None, Some(NoVariables), files)
      else
        match SchemeOf(p, c)
        case None =>
          RunOutcome(Some([HEADER]), if |ts| > 0 then Some(OutNameUnbound) else None, files)
        case Some(s) =>
          DtListInRange(p, c.start, c.count);
          var ws := Windows(s, ts);
          RunOutcome(Some([HEADER] + LogLines(ws, LoopTemplate(p, c), client, files, force)), None,
                     FilesAfter(ws, files, force))
  }

  lemma LogLinesStep(ws: seq<Window>, i: nat, base: Request, client: Client, files: set<string>, force: bool)
    requires i < |ws|
    ensures LogLines(ws[..i + 1], base, client, files, force)
            == LogLines(ws[..i], base, client, files, force)
               + (if Extracts(ws[i], files, force)
                  then [LogLine(ws[i].logLabel, ExtractionResult(client, RequestFor(base, ws[i])))] else [])
  {
    assert ws[..i + 1][..i] == ws[..i];
  }

  lemma FilesAfterStep(ws: seq<Window>, i: nat, files: set<string>, force: bool)
    requires i < |ws|
    ensures FilesAfter(ws[..i + 1], files, force)
            == if force then FilesAfter(ws[..i], files, force) - {ws[i].outName} else files
  {
    if force {
      var before := set w | w in ws[..i] :: w.outName;
      var after := set w | w in ws[..i + 1] :: w.outName;
      assert ws[..i + 1] == ws[..i] + [ws[i]];
      assert after == before + {ws[i].outName};
    }
  }

  // ---------------------------------------------------------------------
  // Properties of a run

  /** With the output files forced out, every window writes exactly one log line, in timestamp order. */
  lemma {:induction false} ForcedLogLines(ws: seq<Window>, base: Request, client: Client, files: set<string>)
    ensures |LogLines(ws, base, client, files, true)| == |ws|
    ensures forall i :: 0 <= i < |ws| ==>
              LogLines(ws, base, client, files, true)[i]
              == LogLine(ws[i].logLabel, ExtractionResult(client, RequestFor(base, ws[i])))
  {
    if ws != [] {
      var front := ws[..|ws| - 1];
      ForcedLogLines(front, base, client, files);
      forall i | 0 <= i < |ws|
        ensures LogLines(ws, base, client, files, true)[i]
                == LogLine(ws[i].logLabel, ExtractionResult(client, RequestFor(base, ws[i])))
      {
        if i < |ws| - 1 {
          assert front[i] == ws[i];
        }
      }
    }
  }

  /** A window whose file already exists is skipped without a log line when files are kept. */
  lemma {:induction false} KeptFilesSkipped(ws: seq<Window>, base: Request, client: Client, files: set<string>)
    requires forall i :: 0 <= i < |ws| ==> ws[i].outName in files
    ensures LogLines(ws, base, client, files, false) == []
    ensures FilesAfter(ws, files, false) == files
  {
    if ws != [] {
      KeptFilesSkipped(ws[..|ws| - 1], base, client, files);
    }
  }

  /** When no output file exists yet, keeping or forcing makes no difference to the log or the directory. */
  lemma {:induction false} AbsentFilesIgnoreForce(ws: seq<Window>, base: Request, client: Client, files: set<string>, force: bool)
    requires forall i :: 0 <= i < |ws| ==> ws[i].outName !in files
    ensures LogLines(ws, base, client, files, force) == LogLines(ws, base, client, files, true)
    ensures FilesAfter(ws, files, force) == files
  {
    if ws != [] {
      AbsentFilesIgnoreForce(ws[..|ws| - 1], base, client, files, force);
    }
    if force {
      var names := set w | w in ws :: w.outName;
      forall f | f in names
        ensures f !in files
      {
        var w :| w in ws && w.outName == f;
        var i :| 0 <= i < |ws| && ws[i] == w;
      }
    }
  }

  /** Two timestamps of one list are distinct as calendar days (daily lists) or months (the monthly list). */
  lemma DtListDistinct(p: Product, start: DateTime, n: nat, i: nat, j: nat)
    requires ValidTime(start) && InRange(start.date)
    requires DtList(p, start, n).Some?
    requires i < j < n
    ensures var ts := DtList(p, start, n).value;
            if p == BiogeochemMonthly
            then (ts[i].date.year, ts[i].date.month) != (ts[j].date.year, ts[j].date.month)
            else ts[i].date != ts[j].date
  {
    var ts := DtList(p, start, n).value;
    if p != BiogeochemMonthly {
      assert Seconds(ts[i]) < Seconds(ts[j]);
      assert ts[i].hour == ts[j].hour && ts[i].minute == ts[j].minute && ts[i].second == ts[j].second;
    }
  }

  /** No two windows of one run share an output file, so no window overwrites another's download. */
  lemma WindowNamesDistinct(p: Product, c: Config, i: nat, j: nat)
    requires ValidTime(c.start) && InRange(c.start.date)
    requires p == PhysicsForecastDaily ==> |c.variables| > 0
    requires DtList(p, c.start, c.count).Some? && SchemeOf(p, c).Some?
    requires i < j < c.count
    ensures var ts := DtList(p, c.start, c.count).value;
            AllInRange(ts) && Windows(SchemeOf(p, c).value, ts)[i].outName != Windows(SchemeOf(p, c).value, ts)[j].outName
  {
    DtListInRange(p, c.start, c.count);
    var ts := DtList(p, c.start, c.count).value;
    DtListDistinct(p, c.start, c.count, i, j);
    var d1, d2 := ts[i].date, ts[j].date;
    match SchemeOf(p, c).value
    case MonthlyBiogeochem => BiogeochemNameInjective(d1.year, d1.month, d2.year, d2.month);
    case DailyPhysics(t) => PhysicsNameInjective(t, d1, t, d2);
    case DailyReanalysis => ReanalysisNameInjective(d1, d2);
  }

  /**
    The log of a run: absent when the run stops before opening it, the
    header alone when no physics naming branch matches, and otherwise the
    header followed by one line per extracted window; forced, that is one
    line per timestamp.
   */
  lemma RunLog(p: Product, c: Config, client: Client, files: set<string>, force: bool)
    requires ValidTime(c.start) && InRange(c.start.date)
    ensures var r := ExpectedRun(p, c, client, files, force);
            && (r.log.None? <==> DtList(p, c.start, c.count).None? || (p == PhysicsForecastDaily && |c.variables| == 0))
            && (r.log.Some? ==> |r.log.value| >= 1 && r.log.value[0] == HEADER)
            && (r.error.None? <==> r.log.Some? && (SchemeOf(p, c).Some? || c.count == 0))
            && (r.error.None? && force ==> |r.log.value| == c.count + 1)
  {
    var r := ExpectedRun(p, c, client, files, force);
    match DtList(p, c.start, c.count)
    case None =>
    case Some(ts) =>
      if !(p == PhysicsForecastDaily && |c.variables| == 0) && SchemeOf(p, c).Some? {
        DtListInRange(p, c.start, c.count);
        var ws := Windows(SchemeOf(p, c).value, ts);
        ForcedLogLines(ws, LoopTemplate(p, c), client, files);
      }
  }

  /**
    Only the three window keys change from one request to the next: every
    request has exactly the template's keys, and every other key keeps the
    template's value (the product selected beforehand in the physics forecast).
   */
  lemma RequestKeepsTemplate(p: Product, c: Config, w: Window)
    requires p == PhysicsForecastDaily ==> |c.variables| > 0
    ensures RequestFor(LoopTemplate(p, c), w).Keys == Template(p, c).Keys
    ensures forall k :: k in Template(p, c) && k !in WINDOW_KEYS && k != PRODUCT_ID ==>
              RequestFor(LoopTemplate(p, c), w)[k] == Template(p, c)[k]
    ensures RequestFor(LoopTemplate(p, c), w)[PRODUCT_ID] == LoopTemplate(p, c)[PRODUCT_ID]
    ensures RequestFor(LoopTemplate(p, c), w)[OUT_NAME] == Text(w.outName)
    ensures RequestFor(LoopTemplate(p, c), w)[DATE_MIN] == Text(w.dateMin)
    ensures RequestFor(LoopTemplate(p, c), w)[DATE_MAX] == Text(w.dateMax)
  {
    var t, b := Template(p, c), LoopTemplate(p, c);
    TemplateHasKeys(p, c);
    assert b.Keys == t.Keys;
    assert forall k :: k in t && k != PRODUCT_ID ==> b[k] == t[k];
    assert PRODUCT_ID !in WINDOW_KEYS;
  }

  lemma TemplateHasKeys(p: Product, c: Config)
    ensures WINDOW_KEYS <= Template(p, c).Keys && PRODUCT_ID in Template(p, c)
  {
    match p
    case BiogeochemMonthly =>
      TemplateWithHasKeys("GLOBAL_ANALYSIS_FORECAST_BIO_001_028-TDS", "global-analysis-forecast-bio-001-028-monthly",
                          c.depthMin, c.depthMax, "https://nrt.cmems-du.eu/motu-web/Motu", c);
    case PhysicsForecastDaily =>
      TemplateWithHasKeys("GLOBAL_ANALYSISFORECAST_PHY_001_024-TDS", " ",
                          c.depthMin, c.depthMax, "https://nrt.cmems-du.eu/motu-web/Motu", c);
    case ReanalysisDaily =>
      TemplateWithHasKeys("GLOBAL_MULTIYEAR_PHY_001_030-TDS", "cmems_mod_glo_phy_my_0.083_P1D-m",
                          REANALYSIS_DEPTH_MIN, REANALYSIS_DEPTH_MAX, "https://my.cmems-du.eu/motu-web/Motu", c);
  }

  lemma TemplateWithHasKeys(service: string, productId: string, depthMin: real, depthMax: real,
                            motu: string, c: Config)
    ensures WINDOW_KEYS <= TemplateWith(service, productId, depthMin, depthMax, motu, c).Keys
    ensures PRODUCT_ID in TemplateWith(service, productId, depthMin, depthMax, motu, c)
  {
  }

  lemma DtListInRange(p: Product, start: DateTime, n: nat)
    requires ValidTime(start) && InRange(start.date)
    requires DtList(p, start, n).Some?
    ensures AllInRange(DtList(p, start, n).value)
  {
  }

  /**
    One pass of the loop body for window `w`: rewrite the three window keys,
    remove an existing output file when `force`, extract when the file is
    absent, and give the log line written (none when the file was kept).
   */
  method ProcessWindow(request: Dict, w: Window, dt: DateTime, byDate: bool,
                       client: Client, files: set<string>, force: bool)
    returns (line: seq<string>, current: set<string>)
    modifies request
    ensures request.entries == WithWindow(old(request.entries), w.outName, w.dateMin, w.dateMax)
    ensures current == if force then files - {w.outName} else files
    ensures line == if force || w.outName !in files
                    then [LogLine(w.logLabel, ExtractionResult(client, request.entries))] else []
  {
    request.Put(OUT_NAME, Text(w.outName));
    request.Put(DATE_MIN, Text(w.dateMin));
    request.Put(DATE_MAX, Text(w.dateMax));
    current := files;
    if w.outName in current {
      if force {
        current := current - {w.outName};
      }
    }
    line := [];
    if w.outName !in current {
      var result, calls;
      if byDate {
        result, calls := GetExtractionForDate(dt, request.entries, client);
      } else {
        result, calls := GetExtraction(request.entries, client);
      }
      line := [LogLine(w.logLabel, result)];
    }
  }

  /**
    The `for` loop over the timestamps, window by window; the request keeps
    the template's other keys throughout.
   */
  method ProcessWindows(request: Dict, s: Scheme, ts: seq<DateTime>, byDate: bool,
                        client: Client, files: set<string>, force: bool)
    returns (lines: seq<string>, current: set<string>)
    requires AllInRange(ts)
    modifies request
    ensures lines == LogLines(Windows(s, ts), old(request.entries), client, files, force)
    ensures current == FilesAfter(Windows(s, ts), files, force)
    ensures |ts| == 0 ==> request.entries == old(request.entries)
    ensures |ts| > 0 ==> request.entries == RequestFor(old(request.entries), WindowOf(s, ts[|ts| - 1]))
  {
    ghost var base := request.entries;
    ghost var ws := Windows(s, ts);
    lines := [];
    current := files;
    for i := 0 to |ts|
      invariant i == 0 ==> request.entries == base
      invariant 0 < i ==> request.entries == RequestFor(base, ws[i - 1])
      invariant lines == LogLines(ws[..i], base, client, files, force)
      invariant current == FilesAfter(ws[..i], files, force)
    {
      var w := WindowOf(s, ts[i]);
      assert w == ws[i];
      ghost var before := current;
      var line;
      line, current := ProcessWindow(request, w, ts[i], byDate, client, current, force);
      if i > 0 {
        WindowOverwritesWindow(base, ws[i - 1].outName, ws[i - 1].dateMin, ws[i - 1].dateMax,
                               w.outName, w.dateMin, w.dateMax);
      }
      assert request.entries == RequestFor(base, w);
      assert force || w.outName !in before <==> Extracts(w, files, force);
      LogLinesStep(ws, i, base, client, files, force);
      FilesAfterStep(ws, i, files, force);
      lines := lines + line;
    }
    assert ws[..|ts|] == ws;
  }

  /**
    One run of a script. The template dictionary is a `Dict` rewritten in
    place window by window; the log is the list of lines written to it.
   */
  method Run(p: Product, c: Config, client: Client, files: set<string>, force: bool) returns (r: RunOutcome)
    requires ValidTime(c.start) && InRange(c.start.date)
    ensures r == ExpectedRun(p, c, client, files, force)
  {
    var dtList := DtList(p, c.start, c.count);
    if dtList.None? {
      return RunOutcome(None, Some(DateOverflow), files);
    }
    var ts := dtList.value;
    DtListInRange(p, c.start, c.count);
    var request := new Dict(Template(p, c));
    if p == PhysicsForecastDaily {
      if |c.variables| == 0 {
        return RunOutcome(None, Some(NoVariables), files);
      }
      SelectProduct(request, c.variables[0]);
    }
    assert request.entries == LoopTemplate(p, c);
    var scheme := SchemeOf(p, c);
    if scheme.None? {
      return RunOutcome(Some([HEADER]), if |ts| > 0 then Some(OutNameUnbound) else None, files);
    }
    var lines, current := ProcessWindows(request, scheme.value, ts, p == ReanalysisDaily, client, files, force);
    return RunOutcome(Some([HEADER] + lines), None, current);
  }
}
