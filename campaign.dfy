/**
  The campaign lifecycle of `CampaignService`: `start` plans the ticks and pre-generates
  one file per tick, a scheduled sender posts one file per tick until the campaign's
  end or the last file, and `stop` cancels it. The state is a class whose fields are
  those of the service and of its sender; each method is specified by a function on a
  snapshot of that state, and the lemmas below are about those functions.
 */
module Campaign {
  import opened Wrappers
  import opened JavaLang
  import opened JsonTree
  import opened Durations
  import opened Planning
  import opened Counts
  import opened Generation
  import opened Delivery

  /** `Instant.MIN.getEpochSecond()` and `Instant.MAX.getEpochSecond()`. */
  const INSTANT_MIN_SECOND: int := -31_557_014_167_219_200
  const INSTANT_MAX_SECOND: int := 31_556_889_864_403_199

  /** An instant, in milliseconds since the epoch, that `Instant` can hold. */
  predicate InstantInRange(ms: int)
  {
    INSTANT_MIN_SECOND * 1000 <= ms < (INSTANT_MAX_SECOND + 1) * 1000
  }

  /** The settings `start` demands with `Objects.requireNonNull`. */
  datatype Setting = Endpoint | SamplePath | OutputDir

  /** Why `start` throws. */
  datatype StartError =
    /** A required setting is `null`. */
    | Missing(setting: Setting)
    /** `parseDuration` of the duration or the interval throws. */
    | BadDuration(cause: DurationError)
    /** `startedAt.plus(duration)` leaves the range of `Instant`. */
    | EndOutOfRange
    /** `preGenerateAll` throws. */
    | GenerationFailed(failure: GenError)

  /** The configuration properties the service reads. */
  datatype Settings = Settings(
    duration: string,
    interval: string,
    maxOutagesTotal: Int32,
    avgNodesPerFile: Int32,
    endpoint: Option<string>,
    auth: Option<Auth>,
    samplePath: Option<string>,
    outputDir: Option<string>)

  /** The defaults of `SchedulerProperties` and `TargetProperties`, with the three required settings given. */
  function DefaultSettings(endpoint: string, samplePath: string, outputDir: string): Settings
  {
    Settings("4h", "10m", 500, 120, Some(endpoint), Some(DefaultAuth()), Some(samplePath), Some(outputDir))
  }

  /** The settings and the collaborators the service calls: the ramp curve and the clock's formatters. */
  datatype Config = Config(
    settings: Settings,
    ramp: (int, int) -> Intensity,
    /** `OffsetDateTime.now(ZoneOffset.UTC).toString()` at an instant, in milliseconds. */
    utcText: int -> string,
    /** `OffsetDateTime.now(PHOENIX).toString()` at an instant, in milliseconds. */
    phoenixText: int -> string,
    /** The Phoenix local time of an epoch second as `yyyy-MM-dd'T'HH-mm-ssXXX`, `None` out of range. */
    stamp: int -> Option<string>)

  /** `CampaignService.Status`. */
  datatype StatusView = StatusView(
    running: bool,
    sentCount: int,
    totalPlanned: int,
    endpoint: Option<string>,
    startedAt: Option<int>,
    endsAt: Option<int>)

  /**
    The state of the service and its sender: `scheduled` says that a sender is scheduled
    and not cancelled, `idx` is that sender's cursor into `pregenFiles`. Instants are
    milliseconds since the epoch.
   */
  datatype State = State(
    running: bool,
    sent: int,
    totalPlanned: int,
    startedAt: Option<int>,
    endsAt: Option<int>,
    pregenFiles: seq<PregenFile>,
    scheduled: bool,
    idx: int)

  /** A freshly constructed service. */
  function InitialState(): State
  {
    State(false, 0, 0, None, None, [], false, 0)
  }

  /**
    `status()`: the running flag, the counters, the endpoint and both instants as they
    stand (`SentNeverExceedsPlan` bounds the reported successes).
   */
  function StatusOf(c: Config, s: State): (v: StatusView)
    ensures v.running == s.running && v.sentCount == s.sent && v.totalPlanned == s.totalPlanned
    ensures v.endpoint == c.settings.endpoint && v.startedAt == s.startedAt && v.endsAt == s.endsAt
  {
    StatusView(s.running, s.sent, s.totalPlanned, c.settings.endpoint, s.startedAt, s.endsAt)
  }

  /**
    What holds between the calls: the sender's cursor never passes the files and no
    more files were posted successfully than handed to the sender; a scheduled sender
    belongs to a running campaign with an end and an endpoint; and while a sender is
    scheduled, or once anything was sent, the files are those of the current plan.
   */
  predicate Invariant(c: Config, s: State)
  {
    && 0 <= s.sent <= s.idx <= |s.pregenFiles|
    && (s.scheduled ==> s.running && s.endsAt.Some? && c.settings.endpoint.Some?)
    && (s.sent > 0 || s.scheduled ==> |s.pregenFiles| == Max(0, s.totalPlanned))
  }

  /** The parsed durations of a campaign, in milliseconds. */
  datatype Plan = Plan(durationMs: int, periodMs: int)

  /** The checks and parses at the head of `start`, in their order. */
  function PlanOf(st: Settings): (r: Result<Plan, StartError>)
    ensures r.Ok? <==> && st.endpoint.Some? && st.samplePath.Some? && st.outputDir.Some?
                       && ParseDuration(st.duration).Ok? && ParseDuration(st.interval).Ok?
    ensures r.Ok? ==> ParseDuration(st.duration) == Ok(r.value.durationMs) && ParseDuration(st.interval) == Ok(r.value.periodMs)
  {
    if st.endpoint.None? then Err(Missing(Endpoint))
    else if st.samplePath.None? then Err(Missing(SamplePath))
    else if st.outputDir.None? then Err(Missing(OutputDir))
    else
      match ParseDuration(st.duration)
      case Err(e) => Err(BadDuration(e))
      case Ok(d) =>
        match ParseDuration(st.interval)
        case Err(e) => Err(BadDuration(e))
        case Ok(p) => Ok(Plan(d, p))
  }

  /** An interval of at least one whole minute, whenever it parses. */
  predicate IntervalUsable(st: Settings)
  {
    ParseDuration(st.interval).Ok? ==> WholeMinutes(ParseDuration(st.interval).value) >= 1
  }

  /** The generator of a campaign started at `now`. */
  function GeneratorAt(c: Config, now: int): Generator
  {
    Generator(c.settings.maxOutagesTotal, c.settings.avgNodesPerFile, c.ramp, WholeSeconds(now),
              c.utcText(now), c.phoenixText(now), c.stamp)
  }

  /**
    `start()` at instant `now`, with the sample file's document as read and the
    send-enabled flag: the new state and the status returned, or what is thrown. The
    fields assigned before a throw keep their new values.
   */
  function Started(c: Config, s: State, now: int, sample: Option<Json>, sendEnabled: bool): (State, Result<StatusView, StartError>)
    requires IntervalUsable(c.settings)
  {
    if s.running then (s, Ok(StatusOf(c, s)))
    else
      match PlanOf(c.settings)
      case Err(e) => (s, Err(e))
      case Ok(p) => Launched(c, s, now, p, sample, sendEnabled)
  }

  /** The rest of `start()` once the settings are checked and the durations parsed. */
  function Launched(c: Config, s: State, now: int, p: Plan, sample: Option<Json>, sendEnabled: bool): (State, Result<StatusView, StartError>)
    requires WholeMinutes(p.periodMs) >= 1 && c.settings.endpoint.Some?
  {
    var n := TotalPlanned(p.durationMs, p.periodMs);
    var s1 := s.(totalPlanned := n, sent := 0, startedAt := Some(now));
    var end := now + p.durationMs;
    if !InstantInRange(end) then (s1, Err(EndOutOfRange))
    else
      var s2 := s1.(endsAt := Some(end));
      match Pregenerated(sample, n, WholeSeconds(p.periodMs), GeneratorAt(c, now))
      case Err(e) => (s2, Err(GenerationFailed(e)))
      case Ok(files) =>
        var s3 := s2.(pregenFiles := files, running := true, scheduled := sendEnabled, idx := 0);
        (s3, Ok(StatusOf(c, s3)))
  }

  /** `stop()`: the sender is cancelled and the campaign no longer runs. */
  function Stopped(s: State): State
  {
    s.(running := false, scheduled := false)
  }

  /** The sender is done: the campaign's end has passed, or every file was handed over. */
  predicate SenderDone(s: State, now: int)
    requires s.endsAt.Some?
  {
    now > s.endsAt.value || s.idx >= |s.pregenFiles|
  }

  /**
    One run of the sender at instant `now`; `postOk` says whether reading the file and
    `postPayload` returned normally. The new state and the request posted, if any.
   */
  function Ticked(c: Config, s: State, now: int, postOk: bool): (State, Option<Request>)
    requires Invariant(c, s) && s.scheduled
  {
    if SenderDone(s, now) then (Stopped(s), None)
    else
      var request := PostRequest(c.settings.endpoint.value, c.settings.auth, s.pregenFiles[s.idx].body);
      (s.(idx := s.idx + 1, sent := if postOk then s.sent + 1 else s.sent), Some(request))
  }

  /** One run of the sender. */
  datatype TickInput = TickInput(now: int, postOk: bool)

  /** Runs of the sender while it stays scheduled; the outcomes of the posts made, in order. */
  function Run(c: Config, s: State, ticks: seq<TickInput>): (State, seq<bool>)
    requires Invariant(c, s)
    decreases |ticks|
  {
    if ticks == [] || !s.scheduled then (s, [])
    else
      TickKeepsInvariant(c, s, ticks[0].now, ticks[0].postOk);
      var (s1, request) := Ticked(c, s, ticks[0].now, ticks[0].postOk);
      var (s2, outcomes) := Run(c, s1, ticks[1..]);
      (s2, (if request.Some? then [ticks[0].postOk] else []) + outcomes)
  }

  /** The number of successful posts among `outcomes`. */
  function Successes(outcomes: seq<bool>): nat
  {
    if outcomes == [] then 0 else (if outcomes[0] then 1 else 0) + Successes(outcomes[1..])
  }

  // ---------------------------------------------------------------------------
  // The service
  // ---------------------------------------------------------------------------

  class CampaignService {
    const config: Config
    var running: bool
    var sent: int
    var totalPlanned: int
    var startedAt: Option<int>
    var endsAt: Option<int>
    var pregenFiles: seq<PregenFile>
    var scheduled: bool
    var idx: int

    function Snapshot(): State
      reads this
    {
      State(running, sent, totalPlanned, startedAt, endsAt, pregenFiles, scheduled, idx)
    }

    predicate Valid()
      reads this
    {
      Invariant(config, Snapshot())
    }

    constructor(config: Config)
      ensures this.config == config
      ensures Snapshot() == InitialState()
      ensures Valid()
    {
      this.config := config;
      running := false;
      sent := 0;
      totalPlanned := 0;
      startedAt := None;
      endsAt := None;
      pregenFiles := [];
      scheduled := false;
      idx := 0;
    }

    /** `status()`. */
    function Status(): (v: StatusView)
      reads this
      ensures v.running == running && v.sentCount == sent && v.totalPlanned == totalPlanned
      ensures v.endpoint == config.settings.endpoint && v.startedAt == startedAt && v.endsAt == endsAt
      ensures Valid() ==> 0 <= v.sentCount <= Max(0, v.totalPlanned)
    {
      StatusOf(config, Snapshot())
    }

    /** `start()`: the checks and parses come first, in `PlanOf`. */
    method Start(now: int, sample: Option<Json>, sendEnabled: bool) returns (res: Result<StatusView, StartError>)
      requires Valid() && IntervalUsable(config.settings)
      modifies this
      ensures Valid()
      ensures (Snapshot(), res) == Started(config, old(Snapshot()), now, sample, sendEnabled)
    {
      if running {
        return Ok(Status());
      }
      var plan := PlanOf(config.settings);
      if plan.Err? {
        return Err(plan.error);
      }
      res := Launch(now, plan.value, sample, sendEnabled);
    }

    /** The part of `start()` after the parses: plan, record the start and end, pre-generate, schedule. */
    method Launch(now: int, p: Plan, sample: Option<Json>, sendEnabled: bool) returns (res: Result<StatusView, StartError>)
      requires Valid() && !running && WholeMinutes(p.periodMs) >= 1 && config.settings.endpoint.Some?
      modifies this
      ensures Valid()
      ensures (Snapshot(), res) == Launched(config, old(Snapshot()), now, p, sample, sendEnabled)
    {
      LaunchKeepsInvariant(config, Snapshot(), now, p, sample, sendEnabled);
      totalPlanned := TotalPlanned(p.durationMs, p.periodMs);
      sent := 0;
      startedAt := Some(now);
      var end := now + p.durationMs;
      if !InstantInRange(end) {
        return Err(EndOutOfRange);
      }
      endsAt := Some(end);
      var files := PreGenerateAll(sample, totalPlanned, WholeSeconds(p.periodMs), GeneratorAt(config, now));
      if files.Err? {
        return Err(GenerationFailed(files.error));
      }
      pregenFiles := files.value;
      running := true;
      scheduled := sendEnabled;
      idx := 0;
      return Ok(Status());
    }

    /** `stop()`. */
    method Stop() returns (st: StatusView)
      requires Valid()
      modifies this
      ensures Valid()
      ensures Snapshot() == Stopped(old(Snapshot()))
      ensures st == StatusOf(config, Snapshot())
    {
      scheduled := false;
      running := false;
      return Status();
    }

    /** `Sender.run()`. */
    method Tick(now: int, postOk: bool) returns (request: Option<Request>)
      requires Valid() && scheduled
      modifies this
      ensures Valid()
      ensures (Snapshot(), request) == Ticked(config, old(Snapshot()), now, postOk)
    {
      TickKeepsInvariant(config, Snapshot(), now, postOk);
      if now > endsAt.value {
        var _ := Stop();
        return None;
      }
      if idx >= |pregenFiles| {
        var _ := Stop();
        return None;
      }
      var next := pregenFiles[idx];
      idx := idx + 1;
      request := Some(PostRequest(config.settings.endpoint.value, config.settings.auth, next.body));
      if postOk {
        sent := sent + 1;
      }
    }
  }

  // ---------------------------------------------------------------------------
  // Lemmas
  // ---------------------------------------------------------------------------

  /** The part of `start` after the parses keeps the invariant, whichever way it ends. */
  lemma LaunchKeepsInvariant(c: Config, s: State, now: int, p: Plan, sample: Option<Json>, sendEnabled: bool)
    requires Invariant(c, s) && !s.running && WholeMinutes(p.periodMs) >= 1 && c.settings.endpoint.Some?
    ensures Invariant(c, Launched(c, s, now, p, sample, sendEnabled).0)
  {
    var n := TotalPlanned(p.durationMs, p.periodMs);
    var result := Pregenerated(sample, n, WholeSeconds(p.periodMs), GeneratorAt(c, now));
    if InstantInRange(now + p.durationMs) && result.Ok? {
      PregeneratedTicks(sample, n, WholeSeconds(p.periodMs), GeneratorAt(c, now));
    }
  }

  /** `start` keeps the invariant, whichever way it ends. */
  lemma StartKeepsInvariant(c: Config, s: State, now: int, sample: Option<Json>, sendEnabled: bool)
    requires Invariant(c, s) && IntervalUsable(c.settings)
    ensures Invariant(c, Started(c, s, now, sample, sendEnabled).0)
  {
    if !s.running && PlanOf(c.settings).Ok? {
      LaunchKeepsInvariant(c, s, now, PlanOf(c.settings).value, sample, sendEnabled);
    }
  }

  /** A run of the sender keeps the invariant. */
  lemma TickKeepsInvariant(c: Config, s: State, now: int, postOk: bool)
    requires Invariant(c, s) && s.scheduled
    ensures Invariant(c, Ticked(c, s, now, postOk).0)
  {
  }

  /** `start` while running returns the current status and changes nothing. */
  lemma StartWhileRunning(c: Config, s: State, now: int, sample: Option<Json>, sendEnabled: bool)
    requires s.running && IntervalUsable(c.settings)
    ensures Started(c, s, now, sample, sendEnabled) == (s, Ok(StatusOf(c, s)))
  {
  }

  /**
    What a successful `start` at `now` with plan `p` yields: the count is reset, the start
    and end are recorded, `ceil(minutes / interval minutes)` ticks are planned with one
    file per tick, the file of tick `i + 1` at index `i`; the campaign runs whether or not
    sending is enabled, a sender is scheduled only when it is, and the status returned is
    that of the new state.
   */
  predicate StartedWith(c: Config, now: int, p: Plan, sample: Option<Json>, sendEnabled: bool, outcome: (State, Result<StatusView, StartError>))
    requires WholeMinutes(p.periodMs) >= 1
  {
    var s1 := outcome.0;
    && s1.running && s1.scheduled == sendEnabled
    && s1.sent == 0 && s1.idx == 0
    && s1.startedAt == Some(now) && s1.endsAt == Some(now + p.durationMs)
    && s1.totalPlanned == TotalPlanned(p.durationMs, p.periodMs)
    && |s1.pregenFiles| == Max(0, s1.totalPlanned)
    && sample.Some?
    && (forall i :: 0 <= i < |s1.pregenFiles| ==>
          PlannedFile(sample.value, i + 1, s1.totalPlanned, WholeSeconds(p.periodMs), GeneratorAt(c, now)) == Ok(s1.pregenFiles[i]))
    && outcome.1 == Ok(StatusOf(c, s1))
  }

  /** A successful `start` of a stopped campaign yields `StartedWith` its parsed plan. */
  lemma StartSucceeds(c: Config, s: State, now: int, sample: Option<Json>, sendEnabled: bool)
    requires !s.running && IntervalUsable(c.settings)
    requires Started(c, s, now, sample, sendEnabled).1.Ok?
    ensures PlanOf(c.settings).Ok?
    ensures StartedWith(c, now, PlanOf(c.settings).value, sample, sendEnabled, Started(c, s, now, sample, sendEnabled))
  {
    var p := PlanOf(c.settings).value;
    assert Started(c, s, now, sample, sendEnabled) == Launched(c, s, now, p, sample, sendEnabled);
    LaunchSucceeds(c, s, now, p, sample, sendEnabled);
  }

  /** `StartSucceeds`, for the part of `start` after the parses. */
  lemma LaunchSucceeds(c: Config, s: State, now: int, p: Plan, sample: Option<Json>, sendEnabled: bool)
    requires WholeMinutes(p.periodMs) >= 1 && c.settings.endpoint.Some?
    requires Launched(c, s, now, p, sample, sendEnabled).1.Ok?
    ensures StartedWith(c, now, p, sample, sendEnabled, Launched(c, s, now, p, sample, sendEnabled))
  {
    PregeneratedTicks(sample, TotalPlanned(p.durationMs, p.periodMs), WholeSeconds(p.periodMs), GeneratorAt(c, now));
  }

  /**
    A failed `start` of a stopped campaign leaves it stopped with its files; a missing
    setting or a bad duration changes nothing at all.
   */
  lemma StartFailureLeavesStopped(c: Config, s: State, now: int, sample: Option<Json>, sendEnabled: bool)
    requires Invariant(c, s) && !s.running && IntervalUsable(c.settings)
    requires Started(c, s, now, sample, sendEnabled).1.Err?
    ensures var s1 := Started(c, s, now, sample, sendEnabled).0;
      !s1.running && !s1.scheduled && s1.pregenFiles == s.pregenFiles && s1.idx == s.idx
    ensures PlanOf(c.settings).Err? ==> Started(c, s, now, sample, sendEnabled).0 == s
  {
    if PlanOf(c.settings).Ok? {
      var p := PlanOf(c.settings).value;
      assert Started(c, s, now, sample, sendEnabled) == Launched(c, s, now, p, sample, sendEnabled);
      LaunchFailureLeavesStopped(c, s, now, p, sample, sendEnabled);
    }
  }

  /** `StartFailureLeavesStopped`, for the part of `start` after the parses. */
  lemma LaunchFailureLeavesStopped(c: Config, s: State, now: int, p: Plan, sample: Option<Json>, sendEnabled: bool)
    requires !s.running && !s.scheduled && WholeMinutes(p.periodMs) >= 1 && c.settings.endpoint.Some?
    requires Launched(c, s, now, p, sample, sendEnabled).1.Err?
    ensures var s1 := Launched(c, s, now, p, sample, sendEnabled).0;
      !s1.running && !s1.scheduled && s1.pregenFiles == s.pregenFiles && s1.idx == s.idx
  {
  }

  /** `stop` is idempotent, and it never changes the count of files sent. */
  lemma StopIdempotent(s: State)
    ensures Stopped(Stopped(s)) == Stopped(s)
    ensures !Stopped(s).running && Stopped(s).sent == s.sent && Stopped(s).idx == s.idx
  {
  }

  /**
    A run of the sender past the end, or with every file handed over, stops the campaign
    and posts nothing; otherwise it posts the next file, advances the cursor by one, and
    counts the post only when it succeeded.
   */
  lemma TickFacts(c: Config, s: State, now: int, postOk: bool)
    requires Invariant(c, s) && s.scheduled
    ensures var (s1, request) := Ticked(c, s, now, postOk);
      if now > s.endsAt.value || s.idx >= |s.pregenFiles| then
        s1 == Stopped(s) && request == None
      else
        && s1.idx == s.idx + 1
        && s1.sent == (if postOk then s.sent + 1 else s.sent)
        && s1.running && s1.scheduled && s1.pregenFiles == s.pregenFiles && s1.endsAt == s.endsAt
        && request == Some(PostRequest(c.settings.endpoint.value, c.settings.auth, s.pregenFiles[s.idx].body))
  {
  }

  /**
    With the default settings "4h" and "10m", `start` plans a campaign of four hours at
    ten-minute intervals: 24 ticks.
   */
  lemma DefaultSettingsPlan(endpoint: string, samplePath: string, outputDir: string)
    ensures IntervalUsable(DefaultSettings(endpoint, samplePath, outputDir))
    ensures PlanOf(DefaultSettings(endpoint, samplePath, outputDir)) == Ok(Plan(14_400_000, 600_000))
    ensures TotalPlanned(14_400_000, 600_000) == 24
  {
    var st := DefaultSettings(endpoint, samplePath, outputDir);
    HoursExample(st.duration);
    MinutesExample(st.interval);
    DefaultCampaignPlan();
  }

  /** The status never reports more files sent than planned. */
  lemma SentNeverExceedsPlan(c: Config, s: State)
    requires Invariant(c, s)
    ensures 0 <= StatusOf(c, s).sentCount <= Max(0, StatusOf(c, s).totalPlanned)
  {
  }

  /**
    Over any run of the sender, each post advances the cursor and only the successful
    ones are counted: `sent` counts successful posts, not attempts.
   */
  lemma {:induction false} RunCountsSuccesses(c: Config, s: State, ticks: seq<TickInput>)
    requires Invariant(c, s)
    ensures var (s1, outcomes) := Run(c, s, ticks);
      && Invariant(c, s1)
      && s1.idx == s.idx + |outcomes|
      && s1.sent == s.sent + Successes(outcomes)
    decreases |ticks|
  {
    if ticks != [] && s.scheduled {
      TickKeepsInvariant(c, s, ticks[0].now, ticks[0].postOk);
      var (s1, request) := Ticked(c, s, ticks[0].now, ticks[0].postOk);
      RunCountsSuccesses(c, s1, ticks[1..]);
      var (s2, outcomes) := Run(c, s1, ticks[1..]);
      var head := if request.Some? then [ticks[0].postOk] else [];
      assert Run(c, s, ticks) == (s2, head + outcomes);
      SuccessesAppend(head, outcomes);
    }
  }

  lemma {:induction false} SuccessesAppend(a: seq<bool>, b: seq<bool>)
    ensures Successes(a + b) == Successes(a) + Successes(b)
    decreases |a|
  {
    if a != [] {
      assert a + b != [] && (a + b)[0] == a[0];
      assert (a + b)[1..] == a[1..] + b;
      SuccessesAppend(a[1..], b);
    } else {
      assert a + b == b;
    }
  }
}
