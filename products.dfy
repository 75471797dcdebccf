/**
  What distinguishes the three scripts: the request template each one fills
  in, how the physics forecast picks its product from the first variable,
  the list of window timestamps (monthly or daily), and the text each window
  gets (output file name, `date_min`, `date_max`, log label).
 */
module Products {
  import opened Wrappers
  import opened Calendar
  import opened Format
  import opened Options

  /** The three scripts. */
  datatype Product = BiogeochemMonthly | PhysicsForecastDaily | ReanalysisDaily

  /** The user-input section of a script, with the credentials it prompts for. */
  datatype Config = Config(
    outputDirectory: string,
    variables: seq<string>,
    north: real, south: real, west: real, east: real,
    start: DateTime,
    count: nat,
    depthMin: real, depthMax: real,
    user: string, password: string)

  const PRODUCT_ID := "product_id"

  /** Reanalysis depth grid bounds, fixed in that script. */
  const REANALYSIS_DEPTH_MIN: real := 0.49402499198913574
  const REANALYSIS_DEPTH_MAX: real := 5727.9169921875

  function TemplateWith(service: string, productId: string, depthMin: real, depthMax: real,
                        motu: string, c: Config): Request
  {
    map[
      "service_id" := Text(service),
      PRODUCT_ID := Text(productId),
      DATE_MIN := Text(" "),
      DATE_MAX := Text(" "),
      "longitude_min" := Number(c.west),
      "longitude_max" := Number(c.east),
      "latitude_min" := Number(c.south),
      "latitude_max" := Number(c.north),
      "depth_min" := Number(depthMin),
      "depth_max" := Number(depthMax),
      "variable" := Names(c.variables),
      "motu" := Text(motu),
      "out_dir" := Text(c.outputDirectory),
      OUT_NAME := Text(" "),
      "auth_mode" := Text("cas"),
      "user" := Text(c.user),
      "pwd" := Text(c.password)]
  }

  /** `data_request_options_dict_manual` as each script builds it before the loop. */
  function Template(p: Product, c: Config): Request {
    match p
    case BiogeochemMonthly =>
      TemplateWith("GLOBAL_ANALYSIS_FORECAST_BIO_001_028-TDS", "global-analysis-forecast-bio-001-028-monthly",
                   c.depthMin, c.depthMax, "https://nrt.cmems-du.eu/motu-web/Motu", c)
    case PhysicsForecastDaily =>
      TemplateWith("GLOBAL_ANALYSISFORECAST_PHY_001_024-TDS", " ",
                   c.depthMin, c.depthMax, "https://nrt.cmems-du.eu/motu-web/Motu", c)
    case ReanalysisDaily =>
      TemplateWith("GLOBAL_MULTIYEAR_PHY_001_030-TDS", "cmems_mod_glo_phy_my_0.083_P1D-m",
                   REANALYSIS_DEPTH_MIN, REANALYSIS_DEPTH_MAX, "https://my.cmems-du.eu/motu-web/Motu", c)
  }

  /** The reanalysis request does not depend on the configured depths: its depth range and product are fixed. */
  lemma ReanalysisFixedFields(c1: Config, c2: Config)
    ensures Template(ReanalysisDaily, c1)["depth_min"] == Template(ReanalysisDaily, c2)["depth_min"]
            == Number(REANALYSIS_DEPTH_MIN)
    ensures Template(ReanalysisDaily, c1)["depth_max"] == Template(ReanalysisDaily, c2)["depth_max"]
            == Number(REANALYSIS_DEPTH_MAX)
    ensures Template(ReanalysisDaily, c1)[PRODUCT_ID] == Template(ReanalysisDaily, c2)[PRODUCT_ID]
    ensures 0.0 < REANALYSIS_DEPTH_MIN < REANALYSIS_DEPTH_MAX
  {
  }

  // ---------------------------------------------------------------------
  // Physics forecast: product and file tag chosen by the first variable

  datatype Tag = So | Thetao | UoVo | Zos

  /** The `if`/`elif` chain on `var_list[0]`; `None` when no branch is taken. */
  function TagOf(v: string): Option<Tag> {
    if v == "so" then Some(So)
    else if v == "thetao" then Some(Thetao)
    else if v == "uo" || v == "vo" then Some(UoVo)
    else if v == "zos" then Some(Zos)
    else None
  }

  function TagProduct(t: Tag): string {
    match t
    case So => "cmems_mod_glo_phy-so_anfc_0.083deg_P1D-m"
    case Thetao => "cmems_mod_glo_phy-thetao_anfc_0.083deg_P1D-m"
    case UoVo => "cmems_mod_glo_phy-cur_anfc_0.083deg_P1D-m"
    case Zos => "cmems_mod_glo_phy_anfc_0.083deg_P1D-m"
  }

  /** The tag written into physics file names. */
  function TagText(t: Tag): (s: string)
    ensures 2 <= |s|
  {
    match t
    case So => "so"
    case Thetao => "thetao"
    case UoVo => "uovo"
    case Zos => "zos"
  }

  /**
    Five variables are recognised; `uo` and `vo` share the currents tag and
    every other recognised variable has its own, so two first variables
    select the same product exactly when they select the same tag.
   */
  lemma TagVocabulary(v: string, w: string)
    ensures TagOf(v).Some? <==> v in {"so", "thetao", "uo", "vo", "zos"}
    ensures TagOf(v) == Some(UoVo) <==> v == "uo" || v == "vo"
    ensures TagOf(v).Some? && TagOf(w).Some? ==>
              (TagOf(v) == TagOf(w) <==> v == w || {v, w} == {"uo", "vo"})
  {
  }

  lemma TagProductInjective(t1: Tag, t2: Tag)
    ensures TagProduct(t1) == TagProduct(t2) <==> t1 == t2
    ensures TagText(t1) == TagText(t2) <==> t1 == t2
  {
    if t1 != t2 {
      assert |TagText(t1)| != |TagText(t2)|;
      assert TagProduct(t1)[18] != TagProduct(t2)[18] || |TagProduct(t1)| != |TagProduct(t2)|;
    }
  }

  /** The product selection of the physics forecast script, done on the dictionary in place. */
  method SelectProduct(request: Dict, first: string)
    modifies request
    ensures TagOf(first).Some? ==>
              request.entries == old(request.entries)[PRODUCT_ID := Text(TagProduct(TagOf(first).value))]
    ensures TagOf(first).None? ==> request.entries == old(request.entries)
  {
    if first == "so" {
      request.Put(PRODUCT_ID, Text("cmems_mod_glo_phy-so_anfc_0.083deg_P1D-m"));
    } else if first == "thetao" {
      request.Put(PRODUCT_ID, Text("cmems_mod_glo_phy-thetao_anfc_0.083deg_P1D-m"));
    } else if first == "uo" || first == "vo" {
      request.Put(PRODUCT_ID, Text("cmems_mod_glo_phy-cur_anfc_0.083deg_P1D-m"));
    } else if first == "zos" {
      request.Put(PRODUCT_ID, Text("cmems_mod_glo_phy_anfc_0.083deg_P1D-m"));
    }
  }

  // ---------------------------------------------------------------------
  // Window timestamps

  /** `[base + timedelta(hours=24*x) for x in range(n)]`; `None` when Python's date range is exceeded. */
  function DailyDtList(start: DateTime, n: nat): (r: Option<seq<DateTime>>)
    requires ValidTime(start) && InRange(start.date)
    ensures r.None? <==> n > 0 && AddDays(start.date, n - 1).year > MAX_YEAR
    ensures r.Some? ==> |r.value| == n
    ensures r.Some? ==> forall i :: 0 <= i < n ==>
              ValidTime(r.value[i]) && InRange(r.value[i].date)
              && Seconds(r.value[i]) == Seconds(start) + i * SECONDS_PER_DAY
              && r.value[i].hour == start.hour && r.value[i].minute == start.minute
              && r.value[i].second == start.second
  {
    if n > 0 && AddDays(start.date, n - 1).year > MAX_YEAR then
      None
    else
      DailyInRange(start, n);
      Some(seq(n, i requires 0 <= i < n => AddDaysTime(start, i)))
  }

  lemma DailyInRange(start: DateTime, n: nat)
    requires ValidTime(start) && InRange(start.date)
    requires n > 0 ==> AddDays(start.date, n - 1).year <= MAX_YEAR
    ensures forall i :: 0 <= i < n ==> InRange(AddDays(start.date, i))
  {
    forall i | 0 <= i < n
      ensures InRange(AddDays(start.date, i))
    {
      OrdinalOrder(AddDays(start.date, n - 1), AddDays(start.date, i));
    }
  }

  /** `[base + relativedelta(months=x) for x in range(n)]`; `None` when Python's date range is exceeded. */
  function MonthlyDtList(start: DateTime, n: nat): (r: Option<seq<DateTime>>)
    requires ValidTime(start) && InRange(start.date)
    ensures r.None? <==> n > 0 && AddMonths(start, n - 1).date.year > MAX_YEAR
    ensures r.Some? ==> |r.value| == n
    ensures r.Some? ==> forall i :: 0 <= i < n ==>
              ValidTime(r.value[i]) && InRange(r.value[i].date)
              && MonthIndex(r.value[i].date.year, r.value[i].date.month)
                 == MonthIndex(start.date.year, start.date.month) + i
              && r.value[i].date.day == Min(start.date.day, DaysInMonth(r.value[i].date.year, r.value[i].date.month))
              && r.value[i].hour == start.hour && r.value[i].minute == start.minute
              && r.value[i].second == start.second
  {
    if n > 0 && AddMonths(start, n - 1).date.year > MAX_YEAR then
      None
    else
      Some(seq(n, i requires 0 <= i < n => AddMonths(start, i)))
  }

  /** Monthly timestamps are strictly increasing. */
  lemma MonthlyIncreasing(start: DateTime, n: nat)
    requires ValidTime(start) && InRange(start.date)
    requires MonthlyDtList(start, n).Some?
    ensures forall i, j :: 0 <= i < j < n ==>
              Seconds(MonthlyDtList(start, n).value[i]) < Seconds(MonthlyDtList(start, n).value[j])
  {
    var ts := MonthlyDtList(start, n).value;
    forall i, j | 0 <= i < j < n
      ensures Seconds(ts[i]) < Seconds(ts[j])
    {
      MonthOrderIsTimeOrder(ts[i], ts[j]);
    }
  }

  function DtList(p: Product, start: DateTime, n: nat): Option<seq<DateTime>>
    requires ValidTime(start) && InRange(start.date)
  {
    if p == BiogeochemMonthly then MonthlyDtList(start, n) else DailyDtList(start, n)
  }

  // ---------------------------------------------------------------------
  // Window text

  /** `dt.strftime('%Y-%m-%d 00:00:00')` */
  function DayStartText(d: Date): string
    requires InRange(d)
  {
    DateText(d) + " 00:00:00"
  }

  /** `dt.strftime('%Y-%m-%d 23:59:59')` */
  function DayEndText(d: Date): string
    requires InRange(d)
  {
    DateText(d) + " 23:59:59"
  }

  /** `dt.strftime('%Y-%m-01 00:00:00')` */
  function MonthStartText(y: int, m: int): string
    requires MIN_YEAR <= y <= MAX_YEAR && 1 <= m <= 12
  {
    Pad4(y) + "-" + Pad2(m) + "-01 00:00:00"
  }

  /** `dt.strftime('%Y-%m-' + str(monthrange(y, m)[1]) + ' 23:59:59')` */
  function MonthEndText(y: int, m: int): string
    requires MIN_YEAR <= y <= MAX_YEAR && 1 <= m <= 12
  {
    Pad4(y) + "-" + Pad2(m) + "-" + Decimal(DaysInMonth(y, m)) + " 23:59:59"
  }

  /** A daily window is the whole calendar day: it reads back as 00:00:00 to 23:59:59 of that date. */
  lemma DayWindowBounds(d: Date)
    requires InRange(d)
    ensures ParseStamp(DayStartText(d)) == Some(DateTime(d, 0, 0, 0))
    ensures ParseStamp(DayEndText(d)) == Some(DateTime(d, 23, 59, 59))
    ensures Seconds(DateTime(d, 23, 59, 59)) == Seconds(DateTime(d, 0, 0, 0)) + SECONDS_PER_DAY - 1
  {
    assert Pad2(0) == "00" && Pad2(23) == "23" && Pad2(59) == "59";
    assert StampText(DateTime(d, 0, 0, 0)) == DayStartText(d);
    assert StampText(DateTime(d, 23, 59, 59)) == DayEndText(d);
    StampRoundTrip(DateTime(d, 0, 0, 0));
    StampRoundTrip(DateTime(d, 23, 59, 59));
  }

  /**
    A monthly window reads back as the first of the month at 00:00:00 to the
    month's last day (28, 29, 30 or 31) at 23:59:59, so it spans exactly the
    month's days less one second.
   */
  lemma MonthWindowBounds(y: int, m: int)
    requires MIN_YEAR <= y <= MAX_YEAR && 1 <= m <= 12
    ensures ParseStamp(MonthStartText(y, m)) == Some(DateTime(Date(y, m, 1), 0, 0, 0))
    ensures ParseStamp(MonthEndText(y, m)) == Some(DateTime(Date(y, m, DaysInMonth(y, m)), 23, 59, 59))
    ensures Seconds(DateTime(Date(y, m, DaysInMonth(y, m)), 23, 59, 59))
            == Seconds(DateTime(Date(y, m, 1), 0, 0, 0)) + DaysInMonth(y, m) * SECONDS_PER_DAY - 1
  {
    var first := DateTime(Date(y, m, 1), 0, 0, 0);
    var last := DateTime(Date(y, m, DaysInMonth(y, m)), 23, 59, 59);
    assert Pad2(0) == "00" && Pad2(1) == "01" && Pad2(23) == "23" && Pad2(59) == "59";
    DecimalTwoDigits(DaysInMonth(y, m));
    assert StampText(first) == MonthStartText(y, m);
    assert StampText(last) == MonthEndText(y, m);
    StampRoundTrip(first);
    StampRoundTrip(last);
  }

  // ---------------------------------------------------------------------
  // Output file names

  /** `strftime(dt, 'glorys_biogeochem_%Y_%m') + '.nc'` */
  function BiogeochemName(y: int, m: int): string
    requires MIN_YEAR <= y <= MAX_YEAR && 1 <= m <= 12
  {
    "glorys_biogeochem_" + MonthLabel(y, m) + ".nc"
  }

  /** `strftime(dt, 'glorys_<tag>_%Y_%m_%d') + '.nc'` */
  function PhysicsName(t: Tag, d: Date): string
    requires InRange(d)
  {
    "glorys_" + TagText(t) + "_" + DateLabel(d) + ".nc"
  }

  /** `strftime(dt, 'glorys_%Y_%m_%d') + '.nc'` */
  function ReanalysisName(d: Date): string
    requires InRange(d)
  {
    "glorys_" + DateLabel(d) + ".nc"
  }

  lemma BiogeochemNameInjective(y1: int, m1: int, y2: int, m2: int)
    requires MIN_YEAR <= y1 <= MAX_YEAR && 1 <= m1 <= 12
    requires MIN_YEAR <= y2 <= MAX_YEAR && 1 <= m2 <= 12
    ensures BiogeochemName(y1, m1) == BiogeochemName(y2, m2) <==> y1 == y2 && m1 == m2
  {
    MonthLabelRoundTrip("glorys_biogeochem_", y1, m1, ".nc");
    MonthLabelRoundTrip("glorys_biogeochem_", y2, m2, ".nc");
  }

  /** Physics file names differ whenever the tag or the date differs. */
  lemma PhysicsNameInjective(t1: Tag, d1: Date, t2: Tag, d2: Date)
    requires InRange(d1) && InRange(d2)
    ensures PhysicsName(t1, d1) == PhysicsName(t2, d2) <==> t1 == t2 && d1 == d2
  {
    var p1, p2 := "glorys_" + TagText(t1) + "_", "glorys_" + TagText(t2) + "_";
    assert PhysicsName(t1, d1) == p1 + DateLabel(d1) + ".nc";
    assert PhysicsName(t2, d2) == p2 + DateLabel(d2) + ".nc";
    DateLabelRoundTrip(p1, d1, ".nc");
    DateLabelRoundTrip(p2, d2, ".nc");
    if PhysicsName(t1, d1) == PhysicsName(t2, d2) {
      assert |p1| == |p2|;
      assert |TagText(t1)| == |TagText(t2)|;
    }
  }

  lemma ReanalysisNameInjective(d1: Date, d2: Date)
    requires InRange(d1) && InRange(d2)
    ensures ReanalysisName(d1) == ReanalysisName(d2) <==> d1 == d2
  {
    DateLabelRoundTrip("glorys_", d1, ".nc");
    DateLabelRoundTrip("glorys_", d2, ".nc");
  }

  // ---------------------------------------------------------------------
  // One window of a run

  /** How a run names and bounds its windows; the physics forecast carries its tag. */
  datatype Scheme = MonthlyBiogeochem | DailyPhysics(tag: Tag) | DailyReanalysis

  datatype Window = Window(outName: string, dateMin: string, dateMax: string, logLabel: string)

  /** `out_fn`, `dstr_min`, `dstr_max` and the log label for timestamp `t`. */
  function WindowOf(s: Scheme, t: DateTime): Window
    requires InRange(t.date)
  {
    var d := t.date;
    match s
    case MonthlyBiogeochem =>
      Window(BiogeochemName(d.year, d.month), MonthStartText(d.year, d.month),
             MonthEndText(d.year, d.month), MonthLabel(d.year, d.month))
    case DailyPhysics(tag) =>
      Window(PhysicsName(tag, d), DayStartText(d), DayEndText(d), DateLabel(d))
    case DailyReanalysis =>
      Window(ReanalysisName(d), DayStartText(d), DayEndText(d), DateLabel(d))
  }

  // ---------------------------------------------------------------------
  // Worked examples: February 2022 (28 days) and the 2020 leap day

  /**
    2022-01-01, two months: the windows are January and February 2022, read
    back as 2022-01-01 00:00:00 to 2022-01-31 23:59:59 and 2022-02-01 00:00:00
    to 2022-02-28 23:59:59 (2022 is not a leap year).
   */
  lemma MonthlyExample()
    ensures var ts := MonthlyDtList(DateTime(Date(2022, 1, 1), 0, 0, 0), 2);
            ts.Some? && |ts.value| == 2
            && ts.value[0].date == Date(2022, 1, 1) && ts.value[1].date == Date(2022, 2, 1)
            && ParseStamp(WindowOf(MonthlyBiogeochem, ts.value[0]).dateMin) == Some(DateTime(Date(2022, 1, 1), 0, 0, 0))
            && ParseStamp(WindowOf(MonthlyBiogeochem, ts.value[0]).dateMax) == Some(DateTime(Date(2022, 1, 31), 23, 59, 59))
            && ParseStamp(WindowOf(MonthlyBiogeochem, ts.value[1]).dateMin) == Some(DateTime(Date(2022, 2, 1), 0, 0, 0))
            && ParseStamp(WindowOf(MonthlyBiogeochem, ts.value[1]).dateMax) == Some(DateTime(Date(2022, 2, 28), 23, 59, 59))
  {
    var ts := MonthlyDtList(DateTime(Date(2022, 1, 1), 0, 0, 0), 2).value;
    assert ts[0].date == Date(2022, 1, 1);
    assert ts[1].date == Date(2022, 2, 1);
    MonthWindowBounds(2022, 1);
    MonthWindowBounds(2022, 2);
  }

  /** 2020-02-28, two days: the second window is 2020-02-29, 00:00:00 to 23:59:59 (2020 is a leap year). */
  lemma DailyExample()
    ensures var ts := DailyDtList(DateTime(Date(2020, 2, 28), 0, 0, 0), 2);
            ts.Some? && |ts.value| == 2
            && ts.value[0].date == Date(2020, 2, 28) && ts.value[1].date == Date(2020, 2, 29)
            && ParseStamp(WindowOf(DailyReanalysis, ts.value[1]).dateMin) == Some(DateTime(Date(2020, 2, 29), 0, 0, 0))
            && ParseStamp(WindowOf(DailyReanalysis, ts.value[1]).dateMax) == Some(DateTime(Date(2020, 2, 29), 23, 59, 59))
  {
    var start := DateTime(Date(2020, 2, 28), 0, 0, 0);
    assert AddDays(start.date, 1) == NextDay(AddDays(start.date, 0)) == Date(2020, 2, 29);
    var ts := DailyDtList(start, 2).value;
    assert ts[1].date == Date(2020, 2, 29);
    DayWindowBounds(Date(2020, 2, 29));
  }
}
