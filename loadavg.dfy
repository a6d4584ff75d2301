/**
 * The load-average monitor: three optional ceilings (1, 5 and 10 minutes)
 * checked against a reading of the OS load average, the status it writes
 * into the shared map, and the optional store of the reading.
 *
 * Load averages are `real`s; the only operation on them is `>`.  Rust's
 * `{}` rendering of an `f32` is the parameter `fmt`.
 */
module LoadAvg {
  import opened Wrappers
  import opened MonitorStatuses
  import opened Registry

  /** One reading of the OS load average (`ProcsLoadavg`); every field may be missing. */
  datatype ProcsLoadavg = ProcsLoadavg(
    loadavg1min: Option<real>,
    loadavg5min: Option<real>,
    loadavg10min: Option<real>,
    currentRunningProcesses: Option<nat>,
    totalNumberOfProcesses: Option<nat>)

  /** How a load value is written into a message (Rust's `{}` for `f32`). */
  type Formatter = real -> string

  /** The configured store level; the monitor carries it and never inspects it. */
  type DatabaseStoreLevel(==)

  /** Text of a failed sub-check. */
  function ExceedMessage(current: real, max: real, fmt: Formatter): string {
    "Load average " + fmt(current) + " is greater than max load average " + fmt(max)
  }

  /** A sub-check fails only when both the ceiling and the reading are present and the reading is above it. */
  predicate Exceeds(max: Option<real>, current: Option<real>) {
    max.Some? && current.Some? && current.value > max.value
  }

  /** `check_loadavg_values`: one sub-metric against its optional ceiling. */
  function CheckLoadavgValues(max: Option<real>, current: Option<real>, fmt: Formatter): (r: Status)
    ensures current.None? ==> r == Ok
    ensures max.None? ==> r == Ok
    ensures r == Ok <==> current.None? || max.None? || current.value <= max.value
    ensures r != Ok ==> r == Error(ExceedMessage(current.value, max.value, fmt))
  {
    match current
    case None => Ok
    case Some(c) =>
      match max
      case None => Ok
      case Some(m) =>
        if c > m then Error(ExceedMessage(c, m, fmt)) else Ok
  }

  const AggregateHead: string := "Load average check failed: 1min: "
  const Separator5: string := ", 5min: "
  const Separator10: string := ", 10min: "

  /** The combined message: every sub-result in `Debug` form, 1min, 5min, 10min. */
  function AggregateMessage(s1: Status, s5: Status, s10: Status): string {
    AggregateHead + DebugText(s1) + Separator5 + DebugText(s5) + Separator10 + DebugText(s10)
  }

  /** Reads `sep` and then one `Debug`-rendered status from the front of `s`. */
  function ParseField(sep: string, s: string): Option<(Status, string)> {
    if StartsWith(s, sep) then ParseDebug(s[|sep|..]) else None
  }

  /** Reads the three sub-results back out of a combined message. */
  function ParseAggregateMessage(text: string): Option<(Status, Status, Status)> {
    match ParseField(AggregateHead, text)
    case None => None
    case Some(p1) =>
      match ParseField(Separator5, p1.1)
      case None => None
      case Some(p5) =>
        match ParseField(Separator10, p5.1)
        case None => None
        case Some(p10) => if p10.1 == [] then Some((p1.0, p5.0, p10.0)) else None
  }

  lemma ParseFieldText(sep: string, st: Status, rest: string)
    ensures ParseField(sep, sep + (DebugText(st) + rest)) == Some((st, rest))
  {
    var s := sep + (DebugText(st) + rest);
    assert s[..|sep|] == sep;
    assert s[|sep|..] == DebugText(st) + rest;
    ParseDebugText(st, rest);
  }

  lemma Reassociate(a: string, b: string, c: string, d: string, e: string, f: string)
    ensures a + b + c + d + e + f == a + (b + (c + (d + (e + f))))
  {
  }

  /** The combined message names each sub-result, in the order 1min, 5min, 10min. */
  lemma AggregateMessageRoundTrip(s1: Status, s5: Status, s10: Status)
    ensures ParseAggregateMessage(AggregateMessage(s1, s5, s10)) == Some((s1, s5, s10))
  {
    var t1, t5, t10 := DebugText(s1), DebugText(s5), DebugText(s10);
    var r5 := Separator10 + (t10 + []);
    var r1 := Separator5 + (t5 + r5);
    assert t10 + [] == t10;
    Reassociate(AggregateHead, t1, Separator5, t5, Separator10, t10);
    ParseFieldText(AggregateHead, s1, r1);
    ParseFieldText(Separator5, s5, r5);
    ParseFieldText(Separator10, s10, []);
  }

  /** The status `check_loadavg` writes for a reading under the three ceilings. */
  function ClassifyLoadavg(max1: Option<real>, max5: Option<real>, max10: Option<real>,
                           loadavg: ProcsLoadavg, fmt: Formatter): (r: Status)
    ensures r != Unknown
    ensures r == Ok <==>
      !Exceeds(max1, loadavg.loadavg1min) && !Exceeds(max5, loadavg.loadavg5min) &&
      !Exceeds(max10, loadavg.loadavg10min)
    ensures r.Error? ==> ParseAggregateMessage(r.message) == Some((
      CheckLoadavgValues(max1, loadavg.loadavg1min, fmt),
      CheckLoadavgValues(max5, loadavg.loadavg5min, fmt),
      CheckLoadavgValues(max10, loadavg.loadavg10min, fmt)))
  {
    var s1 := CheckLoadavgValues(max1, loadavg.loadavg1min, fmt);
    var s5 := CheckLoadavgValues(max5, loadavg.loadavg5min, fmt);
    var s10 := CheckLoadavgValues(max10, loadavg.loadavg10min, fmt);
    if s1 != Ok || s5 != Ok || s10 != Ok then
      AggregateMessageRoundTrip(s1, s5, s10);
      Error(AggregateMessage(s1, s5, s10))
    else
      Ok
  }

  /** The five cases of the unit test of `check_loadavg_values`. */
  lemma CheckLoadavgValuesCases(fmt: Formatter)
    requires fmt(1.0) == "1" && fmt(2.0) == "2"
    ensures CheckLoadavgValues(Some(1.0), Some(1.0), fmt) == Ok
    ensures CheckLoadavgValues(Some(1.0), Some(2.0), fmt) ==
      Error("Load average " + "2" + " is greater than max load average " + "1")
    ensures CheckLoadavgValues(Some(1.0), None, fmt) == Ok
    ensures CheckLoadavgValues(None, Some(1.0), fmt) == Ok
    ensures CheckLoadavgValues(None, None, fmt) == Ok
  {
  }

  /** Four pieces without special characters need no escape once joined. */
  lemma EscapePlainPieces(a: string, b: string, c: string, d: string)
    requires Plain(a) && Plain(b) && Plain(c) && Plain(d)
    ensures Escape(a + b + c + d) == a + b + c + d
  {
    EscapePlain(a);
    EscapePlain(b);
    EscapePlain(c);
    EscapePlain(d);
    EscapeAppend(a, b);
    EscapeAppend(a + b, c);
    EscapeAppend(a + b + c, d);
  }

  /** The fixed words of a sub-check message need no escape. */
  lemma PlainMessageWords()
    ensures Plain("Load average ") && Plain(" is greater than max load average ")
  {
    PlainAppend(" is greater", " than max");
    PlainAppend(" is greater than max", " load average ");
  }

  /** A sub-check message whose rendered numbers hold no special character appears unescaped. */
  lemma ExceedMessagePlain(current: real, max: real, fmt: Formatter)
    requires Plain(fmt(current)) && Plain(fmt(max))
    ensures Escape(ExceedMessage(current, max, fmt)) == ExceedMessage(current, max, fmt)
  {
    PlainMessageWords();
    EscapePlainPieces("Load average ", fmt(current), " is greater than max load average ", fmt(max));
  }

  /** The load values the unit tests write into their messages need no escape. */
  lemma PlainTestNumbers()
    ensures Plain("1.1") && Plain("1") && Plain("2.1") && Plain("2") && Plain("3.1") && Plain("3")
  {
  }

  /** A reading with all three averages present, as the unit tests of `check_loadavg` build it. */
  function TestReading(l1: real, l5: real, l10: real): ProcsLoadavg {
    ProcsLoadavg(Some(l1), Some(l5), Some(l10), Some(1), Some(10))
  }

  /** A sub-check message once its two numbers are rendered as `c` and `m`. */
  lemma RenderedExceed(current: real, max: real, fmt: Formatter, c: string, m: string)
    requires fmt(current) == c && fmt(max) == m && Plain(c) && Plain(m)
    ensures ExceedMessage(current, max, fmt) == "Load average " + c + " is greater than max load average " + m
    ensures Escape(ExceedMessage(current, max, fmt)) == ExceedMessage(current, max, fmt)
  {
    ExceedMessagePlain(current, max, fmt);
  }

  /** Test `check_loadavg_1min_higher`: which sub-check fails, and in which position of the message. */
  lemma OneMinuteHigherSubResults(fmt: Formatter)
    ensures ClassifyLoadavg(Some(1.0), Some(2.0), Some(3.0), TestReading(1.1, 2.0, 3.0), fmt) ==
      Error(AggregateMessage(Error(ExceedMessage(1.1, 1.0, fmt)), Ok, Ok))
  {
  }

  /** Test `check_loadavg_1min_higher`: the exact message written. */
  lemma OneMinuteHigher(fmt: Formatter)
    requires fmt(1.1) == "1.1" && fmt(1.0) == "1"
    ensures ClassifyLoadavg(Some(1.0), Some(2.0), Some(3.0), TestReading(1.1, 2.0, 3.0), fmt) ==
      Error("Load average check failed: 1min: " +
            ("Error { message: \"" + ("Load average " + "1.1" + " is greater than max load average " + "1") + "\"" + " }") +
            ", 5min: " + "Ok" + ", 10min: " + "Ok")
  {
    OneMinuteHigherSubResults(fmt);
    PlainTestNumbers();
    RenderedExceed(1.1, 1.0, fmt, "1.1", "1");
  }

  /** Test `check_loadavg_5min_higher`: which sub-check fails, and in which position of the message. */
  lemma FiveMinutesHigherSubResults(fmt: Formatter)
    ensures ClassifyLoadavg(Some(1.0), Some(2.0), Some(3.0), TestReading(1.0, 2.1, 3.0), fmt) ==
      Error(AggregateMessage(Ok, Error(ExceedMessage(2.1, 2.0, fmt)), Ok))
  {
  }

  /** Test `check_loadavg_5min_higher`: the exact message written. */
  lemma FiveMinutesHigher(fmt: Formatter)
    requires fmt(2.1) == "2.1" && fmt(2.0) == "2"
    ensures ClassifyLoadavg(Some(1.0), Some(2.0), Some(3.0), TestReading(1.0, 2.1, 3.0), fmt) ==
      Error("Load average check failed: 1min: " + "Ok" + ", 5min: " +
            ("Error { message: \"" + ("Load average " + "2.1" + " is greater than max load average " + "2") + "\"" + " }") +
            ", 10min: " + "Ok")
  {
    FiveMinutesHigherSubResults(fmt);
    PlainTestNumbers();
    RenderedExceed(2.1, 2.0, fmt, "2.1", "2");
  }

  /** Test `check_loadavg_10min_higher`: which sub-check fails, and in which position of the message. */
  lemma TenMinutesHigherSubResults(fmt: Formatter)
    ensures ClassifyLoadavg(Some(1.0), Some(2.0), Some(3.0), TestReading(1.0, 2.0, 3.1), fmt) ==
      Error(AggregateMessage(Ok, Ok, Error(ExceedMessage(3.1, 3.0, fmt))))
  {
  }

  /** Test `check_loadavg_10min_higher`: the exact message written. */
  lemma TenMinutesHigher(fmt: Formatter)
    requires fmt(3.1) == "3.1" && fmt(3.0) == "3"
    ensures ClassifyLoadavg(Some(1.0), Some(2.0), Some(3.0), TestReading(1.0, 2.0, 3.1), fmt) ==
      Error("Load average check failed: 1min: " + "Ok" + ", 5min: " + "Ok" + ", 10min: " +
            ("Error { message: \"" + ("Load average " + "3.1" + " is greater than max load average " + "3") + "\"" + " }"))
  {
    TenMinutesHigherSubResults(fmt);
    PlainTestNumbers();
    RenderedExceed(3.1, 3.0, fmt, "3.1", "3");
  }

  /** Result of `MariaDbService::store_loadavg`. */
  datatype StoreResult = Stored | StoreFailed(error: string)

  /**
   * The database service, as far as this monitor sees it: the sequence of
   * readings it has been asked to store.  Whether a store succeeds is decided
   * outside the model and passed in.
   */
  class MariaDbService {
    var storeCalls: seq<ProcsLoadavg>

    constructor ()
      ensures storeCalls == []
    {
      storeCalls := [];
    }

    method StoreLoadavg(loadavg: ProcsLoadavg, outcome: StoreResult) returns (r: StoreResult)
      modifies this
      ensures storeCalls == old(storeCalls) + [loadavg]
      ensures r == outcome
    {
      storeCalls := storeCalls + [loadavg];
      r := outcome;
    }
  }

  /** `ApplicationError` as returned when a job cannot be built. */
  datatype ApplicationError = ApplicationError(message: string)

  /** The error mapping of `get_loadavg_monitor_job`; the job itself is opaque (`J`). */
  function JobResult<J>(created: Result<J, string>): (r: Result<J, ApplicationError>)
    ensures r.Success? <==> created.Success?
    ensures created.Success? ==> r.value == created.value
    ensures created.Failure? ==> r.error.message == "Could not create job: " + created.error
  {
    match created
    case Success(job) => Success(job)
    case Failure(err) => Failure(ApplicationError("Could not create job: " + err))
  }

  class LoadAvgMonitor {
    const name: string
    const loadavg1minMax: Option<real>
    const loadavg5minMax: Option<real>
    const loadavg10minMax: Option<real>
    /** The shared status map. */
    const status: StatusRegistry
    /** `Arc<Option<MariaDbService>>`: `null` when no database is configured. */
    const databaseService: MariaDbService?
    const databaseStoreLevel: DatabaseStoreLevel
    const storeCurrentLoadavg: bool

    /** The readings handed to the database so far (none without a database). */
    ghost function Stored(): seq<ProcsLoadavg>
      reads databaseService
    {
      if databaseService == null then [] else databaseService.storeCalls
    }

    /** The status this monitor's check writes for `loadavg`. */
    function Classify(loadavg: ProcsLoadavg, fmt: Formatter): Status {
      ClassifyLoadavg(loadavg1minMax, loadavg5minMax, loadavg10minMax, loadavg, fmt)
    }

    /** `new`: registers `Unknown` under `name`, unless the lock fails. */
    constructor (name: string, loadavg1minMax: Option<real>, loadavg5minMax: Option<real>,
                 loadavg10minMax: Option<real>, status: StatusRegistry,
                 databaseService: MariaDbService?, databaseStoreLevel: DatabaseStoreLevel,
                 storeCurrentLoadavg: bool)
      requires status.Valid()
      modifies status
      ensures status.Valid()
      ensures status.statuses ==
        if status.poisoned then old(status.statuses)
        else old(status.statuses)[name := MonitorStatus(name, Unknown)]
      ensures this.name == name && this.status == status
      ensures this.loadavg1minMax == loadavg1minMax && this.loadavg5minMax == loadavg5minMax
      ensures this.loadavg10minMax == loadavg10minMax
      ensures this.databaseService == databaseService
      ensures this.databaseStoreLevel == databaseStoreLevel
      ensures this.storeCurrentLoadavg == storeCurrentLoadavg
    {
      if !status.poisoned {
        status.statuses := status.statuses[name := MonitorStatus(name, Unknown)];
      }
      // otherwise the error is logged and the monitor is built anyway
      this.name := name;
      this.loadavg1minMax := loadavg1minMax;
      this.loadavg5minMax := loadavg5minMax;
      this.loadavg10minMax := loadavg10minMax;
      this.status := status;
      this.databaseService := databaseService;
      this.databaseStoreLevel := databaseStoreLevel;
      this.storeCurrentLoadavg := storeCurrentLoadavg;
    }

    /** `set_status`: files `s` under this monitor's name, unless the lock fails. */
    method SetStatus(s: Status)
      requires status.Valid()
      modifies status
      ensures status.Valid()
      ensures status.statuses ==
        if status.poisoned then old(status.statuses)
        else old(status.statuses)[name := MonitorStatus(name, s)]
    {
      if !status.poisoned {
        status.statuses := status.statuses[name := MonitorStatus(name, s)];
      }
    }

    /** `check_loadavg`: classify the reading and record the status. */
    method CheckLoadavg(loadavg: ProcsLoadavg, fmt: Formatter)
      requires status.Valid()
      modifies status
      ensures status.Valid()
      ensures status.statuses ==
        if status.poisoned then old(status.statuses)
        else old(status.statuses)[name := MonitorStatus(name, Classify(loadavg, fmt))]
    {
      var status1min := CheckLoadavgValues(loadavg1minMax, loadavg.loadavg1min, fmt);
      var status5min := CheckLoadavgValues(loadavg5minMax, loadavg.loadavg5min, fmt);
      var status10min := CheckLoadavgValues(loadavg10minMax, loadavg.loadavg10min, fmt);
      if status1min != Ok || status5min != Ok || status10min != Ok {
        SetStatus(Error(AggregateMessage(status1min, status5min, status10min)));
      } else {
        SetStatus(Ok);
      }
    }

    /** `store_current_loadavg`: hand the reading to the database if there is one; a failure is only logged. */
    method StoreCurrentLoadavg(loadavg: ProcsLoadavg, outcome: StoreResult)
      modifies if databaseService == null then {} else {databaseService}
      ensures Stored() == if databaseService == null then old(Stored()) else old(Stored()) + [loadavg]
    {
      if databaseService != null {
        var result := databaseService.StoreLoadavg(loadavg, outcome);
        // a StoreFailed result is logged and dropped
      }
    }

    /** `check_store_current_loadavg`: store only when the monitor is configured to. */
    method CheckStoreCurrentLoadavg(loadavg: ProcsLoadavg, outcome: StoreResult)
      modifies if databaseService == null then {} else {databaseService}
      ensures Stored() ==
        if storeCurrentLoadavg && databaseService != null then old(Stored()) + [loadavg]
        else old(Stored())
    {
      if storeCurrentLoadavg {
        StoreCurrentLoadavg(loadavg, outcome);
      }
    }

    /**
     * `check`: read the load average (`read`, the result of
     * `ProcsLoadavg::get_loadavg`), store it, then classify it.  A failed read
     * is only logged.
     */
    method Check(read: Result<ProcsLoadavg, string>, outcome: StoreResult, fmt: Formatter)
      requires status.Valid()
      modifies status, if databaseService == null then {} else {databaseService}
      ensures status.Valid()
      ensures read.Failure? ==> status.statuses == old(status.statuses) && Stored() == old(Stored())
      ensures read.Success? ==>
        Stored() ==
          (if storeCurrentLoadavg && databaseService != null then old(Stored()) + [read.value]
           else old(Stored()))
      ensures read.Success? ==>
        status.statuses ==
          if status.poisoned then old(status.statuses)
          else old(status.statuses)[name := MonitorStatus(name, Classify(read.value, fmt))]
    {
      match read
      case Success(loadavg) =>
        CheckStoreCurrentLoadavg(loadavg, outcome);
        CheckLoadavg(loadavg, fmt);
      case Failure(err) =>
        // logged only
    }
  }

  /**
   * Test `check_loadavg_lower_on_all`, run through a monitor: a fresh map,
   * registration, one check with every reading at its ceiling, then a lookup.
   */
  method LowerOnAll(level: DatabaseStoreLevel, fmt: Formatter) returns (entry: Option<MonitorStatus>)
    ensures entry == Some(MonitorStatus("test", Ok))
  {
    var statuses := new StatusRegistry(false);
    var monitor := new LoadAvgMonitor("test", Some(1.0), Some(2.0), Some(3.0), statuses, null, level, false);
    monitor.CheckLoadavg(TestReading(1.0, 2.0, 3.0), fmt);
    entry := statuses.Get("test");
  }
}
