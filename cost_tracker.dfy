/**
 * The usage meter: a price table, the per-request cost, and a tracker
 * object holding four in-memory sections (daily, monthly, sessions,
 * tool_usage) that accumulate requests and tool invocations.
 *
 * The current date, the current timestamp and the budget settings read
 * from the environment are parameters. Money is `real`.
 */
module CostTracking {
  import opened Wrappers

  // ---------------------------------------------------------------------
  // Price table and request cost
  // ---------------------------------------------------------------------

  /** Prices of one model, in dollars per million tokens. */
  datatype Rates = Rates(input: real, output: real)

  const DefaultModel: string := "claude-4-sonnet"
  const HaikuModel: string := "claude-3.5-haiku"

  /** The static price table. */
  const Pricing: map<string, Rates> :=
    map[DefaultModel := Rates(3.00, 15.00), HaikuModel := Rates(0.80, 4.00)]

  /** Price lookup with fallback: an unknown model is priced as the default one. */
  function RatesFor(model: string): (r: Rates)
    ensures model == HaikuModel ==> r == Rates(0.80, 4.00)
    ensures model != HaikuModel ==> r == Rates(3.00, 15.00)
  {
    if model in Pricing then Pricing[model] else Pricing[DefaultModel]
  }

  /** Estimated cost of one request: tokens / 1e6 times the per-million rate, input plus output. */
  function RequestCost(model: string, inputTokens: int, outputTokens: int): (c: real)
    ensures inputTokens == 0 && outputTokens == 0 ==> c == 0.0
    ensures inputTokens >= 0 && outputTokens >= 0 ==> c >= 0.0
    ensures inputTokens > 0 && outputTokens >= 0 ==> c > 0.0
  {
    var rates := RatesFor(model);
    (inputTokens as real / 1000000.0) * rates.input
      + (outputTokens as real / 1000000.0) * rates.output
  }

  /** Splitting a request's tokens into two requests does not change the total cost. */
  lemma RequestCostAdditive(model: string, in1: int, out1: int, in2: int, out2: int)
    ensures RequestCost(model, in1 + in2, out1 + out2)
         == RequestCost(model, in1, out1) + RequestCost(model, in2, out2)
  {
    var r := RatesFor(model);
    assert ((in1 + in2) as real / 1000000.0) * r.input
        == (in1 as real / 1000000.0) * r.input + (in2 as real / 1000000.0) * r.input;
    assert ((out1 + out2) as real / 1000000.0) * r.output
        == (out1 as real / 1000000.0) * r.output + (out2 as real / 1000000.0) * r.output;
  }

  /** The worked example: 1000 input and 500 output tokens on the haiku model cost 0.0028. */
  lemma HaikuExample()
    ensures RequestCost(HaikuModel, 1000, 500) == 0.0028
  {
  }

  // ---------------------------------------------------------------------
  // Buckets and the ghost log that explains them
  // ---------------------------------------------------------------------

  /** What one tracked request contributes to every bucket it lands in. */
  datatype Usage = Usage(cost: real, inputTokens: int, outputTokens: int)

  /** The accumulated record of one day, month or session bucket. */
  datatype Totals = Totals(cost: real, inputTokens: int, outputTokens: int, requests: int)

  /** A bucket as it is created on first write. */
  const Zero: Totals := Totals(0.0, 0, 0, 0)

  /** A session bucket also records when it was started. */
  datatype SessionRecord = SessionRecord(totals: Totals, started: string)

  /** One request added into a bucket. */
  function Add(t: Totals, u: Usage): Totals
  {
    Totals(t.cost + u.cost, t.inputTokens + u.inputTokens, t.outputTokens + u.outputTokens, t.requests + 1)
  }

  /** A bucket's current record, or a zeroed one when it does not exist yet. */
  function BucketOr(m: map<string, Totals>, key: string): Totals
  {
    if key in m then m[key] else Zero
  }

  /** The month bucket a date falls in: the first seven characters of the date (Python's `today[:7]`). */
  function MonthOf(day: string): (m: string)
    ensures |m| <= 7 && m <= day
    ensures |day| >= 7 ==> |m| == 7
  {
    if |day| >= 7 then day[..7] else day
  }

  /** Python truthiness of the optional session id: neither None nor the empty string. */
  predicate IsTruthy(sessionId: Option<string>)
  {
    sessionId.Some? && sessionId.value != ""
  }

  /** One tracked request, as the tracker's ghost log remembers it. */
  datatype Event = Event(day: string, sessionId: Option<string>, usage: Usage)

  /** The three kinds of cost bucket. */
  datatype Window = ByDay | ByMonth | BySession

  /** The key of the bucket of kind `w` that event `e` lands in, if any. */
  function BucketKey(w: Window, e: Event): Option<string>
  {
    match w
    case ByDay => Some(e.day)
    case ByMonth => Some(MonthOf(e.day))
    case BySession => if IsTruthy(e.sessionId) then e.sessionId else None
  }

  /** The usages of the logged events that land in bucket `key` of kind `w`, in log order. */
  ghost function InBucket(log: seq<Event>, w: Window, key: string): seq<Usage>
    decreases |log|
  {
    if log == [] then []
    else
      var last := log[|log| - 1];
      InBucket(log[..|log| - 1], w, key) + (if BucketKey(w, last) == Some(key) then [last.usage] else [])
  }

  /** A sequence of usages accumulated into a fresh bucket, in order. */
  ghost function Sum(us: seq<Usage>): Totals
    decreases |us|
  {
    if us == [] then Zero else Add(Sum(us[..|us| - 1]), us[|us| - 1])
  }

  /** The plain sum of the request costs. */
  ghost function CostSum(us: seq<Usage>): real
    decreases |us|
  {
    if us == [] then 0.0 else us[0].cost + CostSum(us[1..])
  }

  /** The plain sum of the input tokens. */
  ghost function InputSum(us: seq<Usage>): int
    decreases |us|
  {
    if us == [] then 0 else us[0].inputTokens + InputSum(us[1..])
  }

  /** The plain sum of the output tokens. */
  ghost function OutputSum(us: seq<Usage>): int
    decreases |us|
  {
    if us == [] then 0 else us[0].outputTokens + OutputSum(us[1..])
  }

  /**
   * The bucket map `m` of kind `w` is exactly what the log accounts for:
   * every bucket has received at least one request and holds the sum of
   * them, and every logged request has its bucket.
   */
  ghost predicate Accounts(m: map<string, Totals>, log: seq<Event>, w: Window)
  {
    && (forall key {:trigger m[key]} | key in m :: InBucket(log, w, key) != [] && m[key] == Sum(InBucket(log, w, key)))
    && (forall i | 0 <= i < |log| && BucketKey(w, log[i]).Some? :: BucketKey(w, log[i]).value in m)
  }

  /** The bucket map after one request lands in bucket `key` (nowhere when `key` is None). */
  function Record(m: map<string, Totals>, key: Option<string>, u: Usage): map<string, Totals>
  {
    if key.None? then m else m[key.value := Add(BucketOr(m, key.value), u)]
  }

  lemma InBucketSnoc(log: seq<Event>, e: Event, w: Window, key: string)
    ensures InBucket(log + [e], w, key)
         == InBucket(log, w, key) + (if BucketKey(w, e) == Some(key) then [e.usage] else [])
  {
    assert (log + [e])[..|log|] == log;
  }

  lemma SumSnoc(us: seq<Usage>, u: Usage)
    ensures Sum(us + [u]) == Add(Sum(us), u)
  {
    assert (us + [u])[..|us|] == us;
  }

  /** A bucket that no logged request lands in has no usages. */
  lemma {:induction false} InBucketEmpty(log: seq<Event>, w: Window, key: string)
    requires forall i | 0 <= i < |log| :: BucketKey(w, log[i]) != Some(key)
    ensures InBucket(log, w, key) == []
  {
    if log != [] {
      InBucketEmpty(log[..|log| - 1], w, key);
    }
  }

  /** A bucket with usages has a logged request that lands in it. */
  lemma {:induction false} InBucketWitness(log: seq<Event>, w: Window, key: string)
    requires InBucket(log, w, key) != []
    ensures exists i | 0 <= i < |log| :: BucketKey(w, log[i]) == Some(key)
  {
    if log != [] {
      var last := log[|log| - 1];
      if BucketKey(w, last) != Some(key) {
        InBucketWitness(log[..|log| - 1], w, key);
        var i :| 0 <= i < |log| - 1 && BucketKey(w, log[..|log| - 1][i]) == Some(key);
        assert log[i] == log[..|log| - 1][i];
      }
    }
  }

  /** Recording one request keeps a bucket map accounted for by the extended log. */
  lemma RecordAccounts(m: map<string, Totals>, log: seq<Event>, w: Window, e: Event)
    requires Accounts(m, log, w)
    ensures Accounts(Record(m, BucketKey(w, e), e.usage), log + [e], w)
  {
    var m' := Record(m, BucketKey(w, e), e.usage);
    var log' := log + [e];
    forall key | key in m'
      ensures InBucket(log', w, key) != [] && m'[key] == Sum(InBucket(log', w, key))
    {
      InBucketSnoc(log, e, w, key);
      if BucketKey(w, e) == Some(key) {
        if key !in m {
          forall i | 0 <= i < |log| ensures BucketKey(w, log[i]) != Some(key) {
            if BucketKey(w, log[i]).Some? {
              assert BucketKey(w, log[i]).value in m;
            }
          }
          InBucketEmpty(log, w, key);
        }
        SumSnoc(InBucket(log, w, key), e.usage);
        assert BucketOr(m, key) == Sum(InBucket(log, w, key));
        assert m'[key] == Add(BucketOr(m, key), e.usage);
        assert InBucket(log', w, key) == InBucket(log, w, key) + [e.usage];
      } else {
        assert key in m && m'[key] == m[key];
        assert InBucket(log', w, key) == InBucket(log, w, key);
        assert InBucket(log, w, key) != [];
      }
    }
    forall i | 0 <= i < |log'| && BucketKey(w, log'[i]).Some?
      ensures BucketKey(w, log'[i]).value in m'
    {
      if i < |log| {
        assert log'[i] == log[i];
      }
    }
  }

  /** The bucket map of kind `w` obtained by recording the logged requests one by one into empty sections. */
  ghost function Tallied(log: seq<Event>, w: Window): map<string, Totals>
    decreases |log|
  {
    if log == [] then map[]
    else
      var last := log[|log| - 1];
      Record(Tallied(log[..|log| - 1], w), BucketKey(w, last), last.usage)
  }

  lemma TalliedSnoc(log: seq<Event>, e: Event, w: Window)
    ensures Tallied(log + [e], w) == Record(Tallied(log, w), BucketKey(w, e), e.usage)
  {
    assert (log + [e])[..|log|] == log;
  }

  /**
   * Replaying a log gives exactly the buckets it accounts for: a bucket
   * exists if and only if some logged request landed in it, and its record
   * is the sum of those requests.
   */
  lemma {:induction false} TalliedAccounts(log: seq<Event>, w: Window)
    ensures Accounts(Tallied(log, w), log, w)
  {
    if log != [] {
      var init, last := log[..|log| - 1], log[|log| - 1];
      assert init + [last] == log;
      TalliedAccounts(init, w);
      assert Tallied(log, w) == Record(Tallied(init, w), BucketKey(w, last), last.usage);
      RecordAccounts(Tallied(init, w), init, w, last);
    }
  }

  /**
   * A bucket's record is the plain sum of the requests recorded into it:
   * the cost is the sum of their costs, the token counters are the sums of
   * their tokens and `requests` is how many there were.
   */
  lemma {:induction false} SumIsTotal(us: seq<Usage>)
    ensures Sum(us).cost == CostSum(us)
    ensures Sum(us).inputTokens == InputSum(us)
    ensures Sum(us).outputTokens == OutputSum(us)
    ensures Sum(us).requests == |us|
  {
    if us != [] {
      var init := us[..|us| - 1];
      var last := us[|us| - 1];
      SumIsTotal(init);
      SumsSnoc(init, last);
      assert init + [last] == us;
    }
  }

  lemma {:induction false} SumsSnoc(us: seq<Usage>, u: Usage)
    ensures CostSum(us + [u]) == CostSum(us) + u.cost
    ensures InputSum(us + [u]) == InputSum(us) + u.inputTokens
    ensures OutputSum(us + [u]) == OutputSum(us) + u.outputTokens
  {
    if us != [] {
      SumsSnoc(us[1..], u);
      assert (us + [u])[1..] == us[1..] + [u];
    }
  }

  /** Every existing bucket holds the plain sums of the requests that landed in it, and their number. */
  lemma BucketTotals(log: seq<Event>, w: Window, key: string)
    requires key in Tallied(log, w)
    ensures var us := InBucket(log, w, key);
      Tallied(log, w)[key] == Totals(CostSum(us), InputSum(us), OutputSum(us), |us|)
  {
    TalliedAccounts(log, w);
    SumIsTotal(InBucket(log, w, key));
  }

  /**
   * Reading a bucket's cost, with a missing bucket counting as 0, gives
   * the sum of the costs of the requests that landed in it.
   */
  lemma BucketCost(log: seq<Event>, w: Window, key: string)
    ensures BucketOr(Tallied(log, w), key).cost == CostSum(InBucket(log, w, key))
  {
    var m := Tallied(log, w);
    TalliedAccounts(log, w);
    SumIsTotal(InBucket(log, w, key));
    if key !in m {
      forall i | 0 <= i < |log| ensures BucketKey(w, log[i]) != Some(key) {
        if BucketKey(w, log[i]).Some? {
          assert BucketKey(w, log[i]).value in m;
        }
      }
      InBucketEmpty(log, w, key);
    }
  }

  /** The usages of all logged requests, in order. */
  ghost function Usages(log: seq<Event>): seq<Usage>
    decreases |log|
  {
    if log == [] then [] else Usages(log[..|log| - 1]) + [log[|log| - 1].usage]
  }

  /**
   * After n requests all tracked on the same day, that day's bucket exists,
   * its cost is the sum of the n request costs and it counts n requests.
   */
  lemma {:induction false} SameDayTotals(log: seq<Event>, day: string)
    requires log != []
    requires forall i | 0 <= i < |log| :: log[i].day == day
    ensures day in Tallied(log, ByDay)
    ensures Tallied(log, ByDay)[day].cost == CostSum(Usages(log))
    ensures Tallied(log, ByDay)[day].requests == |log|
  {
    SameDayBucket(log, day);
    assert day in Tallied(log, ByDay);
    BucketTotals(log, ByDay, day);
    UsagesLength(log);
  }

  lemma {:induction false} SameDayBucket(log: seq<Event>, day: string)
    requires forall i | 0 <= i < |log| :: log[i].day == day
    ensures InBucket(log, ByDay, day) == Usages(log)
  {
    if log != [] {
      SameDayBucket(log[..|log| - 1], day);
    }
  }

  lemma {:induction false} UsagesLength(log: seq<Event>)
    ensures |Usages(log)| == |log|
  {
    if log != [] {
      UsagesLength(log[..|log| - 1]);
    }
  }

  /** Events of one day all fall into the month bucket of that day. */
  lemma {:induction false} DayWithinMonth(log: seq<Event>, day: string)
    ensures |InBucket(log, ByDay, day)| <= |InBucket(log, ByMonth, MonthOf(day))|
  {
    if log != [] {
      DayWithinMonth(log[..|log| - 1], day);
    }
  }

  /**
   * The day and month sections replayed from the same log: every day
   * bucket has its month bucket, and that month has served at least as
   * many requests as the day.
   */
  lemma MonthCoversDay(log: seq<Event>, day: string)
    requires day in Tallied(log, ByDay)
    ensures MonthOf(day) in Tallied(log, ByMonth)
    ensures Tallied(log, ByDay)[day].requests <= Tallied(log, ByMonth)[MonthOf(day)].requests
  {
    TalliedAccounts(log, ByDay);
    TalliedAccounts(log, ByMonth);
    InBucketWitness(log, ByDay, day);
    var i :| 0 <= i < |log| && BucketKey(ByDay, log[i]) == Some(day);
    assert BucketKey(ByMonth, log[i]) == Some(MonthOf(day));
    DayWithinMonth(log, day);
    SumIsTotal(InBucket(log, ByDay, day));
    SumIsTotal(InBucket(log, ByMonth, MonthOf(day)));
  }

  /** The session section seen as plain bucket records. */
  ghost function SessionTotals(sessions: map<string, SessionRecord>): map<string, Totals>
  {
    map s | s in sessions :: sessions[s].totals
  }

  /** How the session section changes under one request, seen as plain bucket records. */
  lemma SessionsRecord(sessions: map<string, SessionRecord>, sid: string, r: SessionRecord)
    ensures SessionTotals(sessions[sid := r]) == SessionTotals(sessions)[sid := r.totals]
  {
  }

  // ---------------------------------------------------------------------
  // Tool usage
  // ---------------------------------------------------------------------

  /** One tool invocation, as the tracker's ghost log remembers it. */
  datatype ToolCall = ToolCall(day: string, tool: string)

  /** How many logged invocations of `tool` happened on `day`. */
  ghost function Count(log: seq<ToolCall>, day: string, tool: string): nat
    decreases |log|
  {
    if log == [] then 0
    else Count(log[..|log| - 1], day, tool) + (if log[|log| - 1] == ToolCall(day, tool) then 1 else 0)
  }

  lemma CountSnoc(log: seq<ToolCall>, c: ToolCall, day: string, tool: string)
    ensures Count(log + [c], day, tool) == Count(log, day, tool) + (if c == ToolCall(day, tool) then 1 else 0)
  {
    assert (log + [c])[..|log|] == log;
  }

  /** A count is positive exactly when some logged invocation matches it. */
  lemma {:induction false} CountPositive(log: seq<ToolCall>, day: string, tool: string)
    ensures Count(log, day, tool) > 0 <==> exists i | 0 <= i < |log| :: log[i] == ToolCall(day, tool)
  {
    if log != [] {
      var init := log[..|log| - 1];
      CountPositive(init, day, tool);
      if exists i | 0 <= i < |init| :: init[i] == ToolCall(day, tool) {
        var i :| 0 <= i < |init| && init[i] == ToolCall(day, tool);
        assert log[i] == init[i];
      }
      if exists i | 0 <= i < |log| :: log[i] == ToolCall(day, tool) {
        var i :| 0 <= i < |log| && log[i] == ToolCall(day, tool);
        if i < |init| {
          assert init[i] == log[i];
        }
      }
    }
  }

  /**
   * The tool section is exactly what the tool log accounts for: every
   * counter holds the number of logged invocations, and every logged
   * invocation has its counter.
   */
  ghost predicate ToolsAccounted(tu: map<string, map<string, nat>>, log: seq<ToolCall>)
  {
    && (forall day, tool | day in tu && tool in tu[day] :: tu[day][tool] == Count(log, day, tool) >= 1)
    && (forall i | 0 <= i < |log| :: log[i].day in tu && log[i].tool in tu[log[i].day])
  }

  /** The counters of one day, or none when the day has no bucket yet. */
  function DayCounts(tu: map<string, map<string, nat>>, day: string): map<string, nat>
  {
    if day in tu then tu[day] else map[]
  }

  /** The counters after one more invocation of `tool` on `day`. */
  function Increment(tu: map<string, map<string, nat>>, day: string, tool: string): map<string, map<string, nat>>
  {
    var counts := DayCounts(tu, day);
    tu[day := counts[tool := (if tool in counts then counts[tool] else 0) + 1]]
  }

  /** Counting one more invocation keeps the tool section accounted for by the extended log. */
  lemma IncrementAccounts(tu: map<string, map<string, nat>>, log: seq<ToolCall>, day: string, tool: string)
    requires ToolsAccounted(tu, log)
    ensures ToolsAccounted(Increment(tu, day, tool), log + [ToolCall(day, tool)])
  {
    var tu' := Increment(tu, day, tool);
    var log' := log + [ToolCall(day, tool)];
    forall d, t | d in tu' && t in tu'[d]
      ensures tu'[d][t] == Count(log', d, t) >= 1
    {
      CountSnoc(log, ToolCall(day, tool), d, t);
      if d == day && t == tool && !(day in tu && tool in tu[day]) {
        forall i | 0 <= i < |log| ensures log[i] != ToolCall(day, tool) {
          assert log[i].day in tu && log[i].tool in tu[log[i].day];
        }
        CountPositive(log, day, tool);
      }
    }
    forall i | 0 <= i < |log'| ensures log'[i].day in tu' && log'[i].tool in tu'[log'[i].day] {
      if i < |log| {
        assert log'[i] == log[i];
      }
    }
  }

  /** The tool section obtained by counting the logged invocations one by one into an empty section. */
  ghost function ToolTally(log: seq<ToolCall>): map<string, map<string, nat>>
    decreases |log|
  {
    if log == [] then map[]
    else Increment(ToolTally(log[..|log| - 1]), log[|log| - 1].day, log[|log| - 1].tool)
  }

  lemma ToolTallySnoc(log: seq<ToolCall>, c: ToolCall)
    ensures ToolTally(log + [c]) == Increment(ToolTally(log), c.day, c.tool)
  {
    assert (log + [c])[..|log|] == log;
  }

  /**
   * Replaying the tool log gives exactly the counters it accounts for:
   * each counter is the number of logged invocations, at least one, and
   * every logged invocation has its counter.
   */
  lemma {:induction false} ToolTallyAccounts(log: seq<ToolCall>)
    ensures ToolsAccounted(ToolTally(log), log)
  {
    if log != [] {
      var init := log[..|log| - 1];
      var last := log[|log| - 1];
      ToolTallyAccounts(init);
      IncrementAccounts(ToolTally(init), init, last.day, last.tool);
      assert init + [ToolCall(last.day, last.tool)] == log;
    }
  }

  // ---------------------------------------------------------------------
  // Budget
  // ---------------------------------------------------------------------

  const DefaultDailyLimit: real := 1.00
  const DefaultMonthlyLimit: real := 10.00

  /** The outcome of a budget check. */
  datatype BudgetStatus = BudgetStatus(
    dailyOk: bool, monthlyOk: bool,
    dailyUsed: real, dailyLimit: real,
    monthlyUsed: real, monthlyLimit: real)

  /** What `track_request` returns. */
  datatype CostInfo = CostInfo(requestCost: real, dailyCost: real, monthlyCost: real)

  /** How a tool-usage call ends: `Saved` when it returns normally, `Raised` when it fails on a missing attribute. */
  datatype ToolOutcome = Saved | Raised(missingAttribute: string)

  /** The summary of today's tool usage. */
  datatype ToolSummary = NoToolsToday | Uses(counts: map<string, nat>)

  // ---------------------------------------------------------------------
  // The tracker
  // ---------------------------------------------------------------------

  class CostTracker {
    var daily: map<string, Totals>
    var monthly: map<string, Totals>
    var sessions: map<string, SessionRecord>
    var toolUsage: map<string, map<string, nat>>

    /** Every request tracked so far, in order. */
    ghost var requestLog: seq<Event>
    /** Every tool invocation tracked so far, in order. */
    ghost var toolLog: seq<ToolCall>

    /**
     * Each section is what replaying the logs into empty sections gives;
     * TalliedAccounts and ToolTallyAccounts say what that means bucket by
     * bucket.
     */
    ghost predicate Valid()
      reads this
    {
      && daily == Tallied(requestLog, ByDay)
      && monthly == Tallied(requestLog, ByMonth)
      && SessionTotals(sessions) == Tallied(requestLog, BySession)
      && toolUsage == ToolTally(toolLog)
    }

    /** A tracker with no backing file starts with four empty sections. */
    constructor ()
      ensures Valid()
      ensures daily == map[] && monthly == map[] && sessions == map[] && toolUsage == map[]
      ensures requestLog == [] && toolLog == []
    {
      daily, monthly, sessions, toolUsage := map[], map[], map[], map[];
      requestLog, toolLog := [], [];
      new;
      assert SessionTotals(sessions) == map[];
    }

    /**
     * Budget admission: read-only; a missing bucket counts as 0; each
     * flag is a strict comparison against its limit, and an unset limit
     * takes its default.
     */
    method CheckBudget(today: string, dailySetting: Option<real>, monthlySetting: Option<real>)
      returns (status: BudgetStatus)
      ensures status.dailyLimit == dailySetting.GetOr(DefaultDailyLimit)
      ensures status.monthlyLimit == monthlySetting.GetOr(DefaultMonthlyLimit)
      ensures status.dailyUsed == BucketOr(daily, today).cost
      ensures status.monthlyUsed == BucketOr(monthly, MonthOf(today)).cost
      ensures Valid() ==> status.dailyUsed == CostSum(InBucket(requestLog, ByDay, today))
      ensures Valid() ==> status.monthlyUsed == CostSum(InBucket(requestLog, ByMonth, MonthOf(today)))
      ensures status.dailyOk <==> status.dailyUsed < status.dailyLimit
      ensures status.monthlyOk <==> status.monthlyUsed < status.monthlyLimit
    {
      var dailyLimit := dailySetting.GetOr(DefaultDailyLimit);
      var monthlyLimit := monthlySetting.GetOr(DefaultMonthlyLimit);
      var month := MonthOf(today);
      var dailyCost := if today in daily then daily[today].cost else 0.0;
      var monthlyCost := if month in monthly then monthly[month].cost else 0.0;
      if Valid() {
        BucketCost(requestLog, ByDay, today);
        BucketCost(requestLog, ByMonth, month);
      }
      status := BudgetStatus(dailyCost < dailyLimit, monthlyCost < monthlyLimit,
                             dailyCost, dailyLimit, monthlyCost, monthlyLimit);
    }

    /**
     * Track one request: price it, add it to today's bucket, to this
     * month's bucket and, when the session id is truthy, to that session's
     * bucket, creating each zeroed on first write; nothing else changes.
     */
    method TrackRequest(model: string, inputTokens: int, outputTokens: int,
                        sessionId: Option<string>, today: string, now: string)
      returns (info: CostInfo)
      requires Valid()
      modifies this
      ensures Valid()
      ensures requestLog == old(requestLog)
        + [Event(today, sessionId, Usage(RequestCost(model, inputTokens, outputTokens), inputTokens, outputTokens))]
      ensures toolLog == old(toolLog) && toolUsage == old(toolUsage)
      ensures daily == old(daily)[today := Add(BucketOr(old(daily), today),
                 Usage(info.requestCost, inputTokens, outputTokens))]
      ensures monthly == old(monthly)[MonthOf(today) := Add(BucketOr(old(monthly), MonthOf(today)),
                 Usage(info.requestCost, inputTokens, outputTokens))]
      ensures !IsTruthy(sessionId) ==> sessions == old(sessions)
      ensures IsTruthy(sessionId) ==>
        var sid := sessionId.value;
        var u := Usage(info.requestCost, inputTokens, outputTokens);
        sessions == old(sessions)[sid :=
          if sid in old(sessions) then SessionRecord(Add(old(sessions)[sid].totals, u), old(sessions)[sid].started)
          else SessionRecord(Add(Zero, u), now)]
      ensures info.requestCost == RequestCost(model, inputTokens, outputTokens)
      ensures info.dailyCost == daily[today].cost
      ensures info.monthlyCost == monthly[MonthOf(today)].cost
    {
      var totalCost := RequestCost(model, inputTokens, outputTokens);
      var usage := Usage(totalCost, inputTokens, outputTokens);
      var month := MonthOf(today);
      var e := Event(today, sessionId, usage);

      ghost var log := requestLog;
      ghost var daily0, monthly0, sessions0 := daily, monthly, sessions;

      // each bucket is created zeroed on first write, then accumulated
      var day := if today in daily then daily[today] else Zero;
      daily := daily[today := Add(day, usage)];

      var monthBucket := if month in monthly then monthly[month] else Zero;
      monthly := monthly[month := Add(monthBucket, usage)];

      if IsTruthy(sessionId) {
        var sid := sessionId.value;
        var session := if sid in sessions then sessions[sid] else SessionRecord(Zero, now);
        sessions := sessions[sid := SessionRecord(Add(session.totals, usage), session.started)];
      }

      requestLog := log + [e];
      info := CostInfo(totalCost, daily[today].cost, monthly[month].cost);
      assert daily == Tallied(requestLog, ByDay) by {
        TalliedSnoc(log, e, ByDay);
      }
      assert monthly == Tallied(requestLog, ByMonth) by {
        TalliedSnoc(log, e, ByMonth);
      }
      assert SessionTotals(sessions) == Tallied(requestLog, BySession) by {
        TalliedSnoc(log, e, BySession);
        if IsTruthy(sessionId) {
          SessionsRecord(sessions0, sessionId.value, sessions[sessionId.value]);
        }
      }
    }

    /**
     * Count one invocation of `tool` today, creating missing levels at 0.
     * The counter is raised in memory, then the call fails: it invokes a
     * `save_data` attribute the tracker does not have. The session id is
     * accepted and ignored.
     */
    method TrackToolUsage(toolName: string, sessionId: Option<string>, today: string) returns (outcome: ToolOutcome)
      requires Valid()
      modifies this
      ensures Valid()
      ensures toolLog == old(toolLog) + [ToolCall(today, toolName)]
      ensures toolUsage == Increment(old(toolUsage), today, toolName)
      ensures daily == old(daily) && monthly == old(monthly) && sessions == old(sessions)
      ensures requestLog == old(requestLog)
      ensures outcome == Raised("save_data")
    {
      ToolTallySnoc(toolLog, ToolCall(today, toolName));
      // the day's table and the tool's counter are created on first use
      var counts := if today in toolUsage then toolUsage[today] else map[];
      var n := if toolName in counts then counts[toolName] else 0;
      toolUsage := toolUsage[today := counts[toolName := n + 1]];
      toolLog := toolLog + [ToolCall(today, toolName)];
      outcome := Raised("save_data");
    }

    /**
     * Count one invocation as intended: the same in-memory update, after
     * which the sections are saved and the call returns normally.
     */
    method TrackToolUsageIntended(toolName: string, sessionId: Option<string>, today: string) returns (outcome: ToolOutcome)
      requires Valid()
      modifies this
      ensures Valid()
      ensures toolLog == old(toolLog) + [ToolCall(today, toolName)]
      ensures toolUsage == Increment(old(toolUsage), today, toolName)
      ensures daily == old(daily) && monthly == old(monthly) && sessions == old(sessions)
      ensures requestLog == old(requestLog)
      ensures outcome == Saved
    {
      ToolTallySnoc(toolLog, ToolCall(today, toolName));
      var counts := if today in toolUsage then toolUsage[today] else map[];
      var n := if toolName in counts then counts[toolName] else 0;
      toolUsage := toolUsage[today := counts[toolName := n + 1]];
      toolLog := toolLog + [ToolCall(today, toolName)];
      outcome := Saved;
    }

    /**
     * Today's tool counts, or the "no tools used today" case when there
     * are none: that case happens exactly when no invocation was tracked
     * today, and otherwise each listed count is the number of tracked
     * invocations of that tool today.
     */
    function GetToolSummary(today: string): (s: ToolSummary)
      reads this
      requires Valid()
      ensures s == NoToolsToday <==> forall i | 0 <= i < |toolLog| :: toolLog[i].day != today
      ensures s.Uses? ==> today in toolUsage && s.counts == toolUsage[today]
      ensures s.Uses? ==> forall tool | tool in s.counts :: s.counts[tool] == Count(toolLog, today, tool) >= 1
    {
      ToolTallyAccounts(toolLog);
      if today !in toolUsage || toolUsage[today] == map[] then
        assert forall i | 0 <= i < |toolLog| :: toolLog[i].day != today by {
          forall i | 0 <= i < |toolLog| ensures toolLog[i].day != today {
            assert toolLog[i].day in toolUsage && toolLog[i].tool in toolUsage[toolLog[i].day];
          }
        }
        NoToolsToday
      else
        assert exists i | 0 <= i < |toolLog| :: toolLog[i].day == today by {
          var tool :| tool in toolUsage[today];
          CountPositive(toolLog, today, tool);
          var i :| 0 <= i < |toolLog| && toolLog[i] == ToolCall(today, tool);
        }
        Uses(toolUsage[today])
    }
  }

  // ---------------------------------------------------------------------
  // Worked scenarios
  // ---------------------------------------------------------------------

  /**
   * Two haiku requests of 1000/500 tokens on one day, the second in
   * session "s1": each costs 0.0028, the day ends at 0.0056 over two
   * requests, and only session "s1" exists, holding one request.
   */
  method TwoRequestScenario() returns (first: CostInfo, second: CostInfo, dayRequests: int, sessionKeys: set<string>, s1Requests: int)
    ensures first.requestCost == 0.0028 && first.dailyCost == 0.0028
    ensures second.requestCost == 0.0028 && second.dailyCost == 0.0056 && second.monthlyCost == 0.0056
    ensures dayRequests == 2
    ensures sessionKeys == {"s1"} && s1Requests == 1
  {
    var tracker := new CostTracker();
    first := tracker.TrackRequest(HaikuModel, 1000, 500, None, "2025-10-15", "2025-10-15T09:00:00");
    second := tracker.TrackRequest(HaikuModel, 1000, 500, Some("s1"), "2025-10-15", "2025-10-15T09:05:00");
    dayRequests := tracker.daily["2025-10-15"].requests;
    sessionKeys := tracker.sessions.Keys;
    s1Requests := tracker.sessions["s1"].totals.requests;
  }

  /**
   * As written, counting a tool invocation raises after the in-memory
   * update: the call fails, yet the counter has moved.
   */
  method ToolUsageRaisesScenario() returns (outcome: ToolOutcome, summary: ToolSummary)
    ensures outcome == Raised("save_data")
    ensures summary == Uses(map["calculator" := 1])
  {
    var tracker := new CostTracker();
    outcome := tracker.TrackToolUsage("calculator", None, "2025-10-15");
    summary := tracker.GetToolSummary("2025-10-15");
  }

  /** Three calculator calls and one system-info call on one day, counted into an empty section. */
  lemma FourIncrements(day: string, calculator: string, systemInfo: string)
    requires calculator != systemInfo
    ensures Increment(Increment(Increment(Increment(map[], day, calculator), day, calculator), day, systemInfo), day, calculator)
         == map[day := map[calculator := 3, systemInfo := 1]]
  {
    var one := Increment(map[], day, calculator);
    assert one == map[day := map[calculator := 1]];
    var two := Increment(one, day, calculator);
    assert two == map[day := map[calculator := 2]] by {
      assert map[calculator := 1][calculator := 2] == map[calculator := 2];
    }
    var three := Increment(two, day, systemInfo);
    assert three == map[day := map[calculator := 2, systemInfo := 1]];
    assert Increment(three, day, calculator) == map[day := map[calculator := 3, systemInfo := 1]] by {
      assert map[calculator := 2, systemInfo := 1][calculator := 3] == map[calculator := 3, systemInfo := 1];
    }
  }

  /** Three calculator calls and one system-info call on one day summarise to {calculator: 3, get_system_info: 1}. */
  method ToolUsageScenario() returns (summary: ToolSummary)
    ensures summary == Uses(map["calculator" := 3, "get_system_info" := 1])
  {
    var tracker := new CostTracker();
    var day, calculator, systemInfo := "2025-10-15", "calculator", "get_system_info";
    assert calculator != systemInfo by {
      assert |calculator| != |systemInfo|;
    }
    var outcome := tracker.TrackToolUsageIntended(calculator, None, day);
    outcome := tracker.TrackToolUsageIntended(calculator, None, day);
    outcome := tracker.TrackToolUsageIntended(systemInfo, Some("s1"), day);
    outcome := tracker.TrackToolUsageIntended(calculator, None, day);
    FourIncrements(day, calculator, systemInfo);
    assert tracker.toolLog[0].day == day;
    summary := tracker.GetToolSummary(day);
  }
}
