/** What the campaign loop promises about resuming: where the resume point
    ends up, which customers it never skips, which recorded successes it
    never repeats, and how the counters add up. */
module Resume {
  import opened Strings
  import opened Results
  import opened CsvInput
  import opened Dispatch
  import opened CampaignProgress
  import opened Campaign

  /** Customers arrive in increasing order of their index. */
  predicate Increasing(cs: seq<Customer>) {
    forall i, j :: 0 <= i < j < |cs| ==> cs[i].index < cs[j].index
  }

  /** Every customer from `k` on lies beyond the resume point `last`. */
  predicate AllAbove(cs: seq<Customer>, k: nat, last: int) {
    forall j :: k <= j < |cs| ==> cs[j].index > last
  }

  /** Customer `j`'s send succeeded and the success was recorded. */
  predicate SentAt(cs: seq<Customer>, j: nat, template: string, env: nat -> Event) {
    j < |cs| && Recorded(env(cs[j].index).fault)
    && SendEmail(cs[j].name, template, env(cs[j].index).reply).Sent?
  }

  /** Indices, in order, of the customers from `k` on whose success the
      run recorded. */
  function Delivered(cs: seq<Customer>, k: nat, template: string, env: nat -> Event): seq<nat>
    decreases |cs| - k
  {
    if k >= |cs| then []
    else
      var here := if SentAt(cs, k, template, env) then [cs[k].index] else [];
      if Stops(env(cs[k].index).fault) then here
      else here + Delivered(cs, k + 1, template, env)
  }

  /** Indices, in order, of the customers from `k` on whose send outcome
      (success or failure) the run recorded. */
  function Attempted(cs: seq<Customer>, k: nat, template: string, env: nat -> Event): seq<nat>
    decreases |cs| - k
  {
    if k >= |cs| then []
    else
      var f := env(cs[k].index).fault;
      var here := if Recorded(f) then [cs[k].index] else [];
      if Stops(f) then here
      else here + Attempted(cs, k + 1, template, env)
  }

  /** How many catch-all errors the run from `k` on meets. */
  function UnexpectedErrors(cs: seq<Customer>, k: nat, env: nat -> Event): nat
    decreases |cs| - k
  {
    if k >= |cs| then 0
    else
      var f := env(cs[k].index).fault;
      var here := if Unexpected(f) then 1 else 0;
      if Stops(f) then here else here + UnexpectedErrors(cs, k + 1, env)
  }

  function LastOr(d: seq<nat>, default: int): int {
    if d == [] then default else d[|d| - 1]
  }

  lemma LastOrAppend(a: seq<nat>, b: seq<nat>, default: int)
    ensures LastOr(a + b, default) == LastOr(b, LastOr(a, default))
  {
    if b != [] {
      assert (a + b)[|a + b| - 1] == b[|b| - 1];
    } else {
      assert a + b == a;
    }
  }

  /** The resume point a run leaves is the index of the last customer whose
      success it recorded, or where it started when there was none: failures
      never move it. */
  lemma {:induction false} RunLastIsLastDelivered(s: Snapshot, cs: seq<Customer>, k: nat, pauses: nat,
                                                  template: string, env: nat -> Event)
    ensures Run(s, cs, k, pauses, template, env).state.lastProcessedIndex
         == LastOr(Delivered(cs, k, template, env), s.lastProcessedIndex)
    decreases |cs| - k
  {
    if k < |cs| {
      var ev := env(cs[k].index);
      var s' := Step(s, cs[k], template, ev);
      var here := if SentAt(cs, k, template, env) then [cs[k].index] else [];
      assert s'.lastProcessedIndex == LastOr(here, s.lastProcessedIndex);
      if Stops(ev.fault) {
        RunStops(s, cs, k, pauses, template, env, ev);
      } else {
        RunStep(s, cs, k, pauses, template, env, ev);
        RunLastIsLastDelivered(s', cs, k + 1, pauses + PauseAfter(cs, k, ev.fault), template, env);
        LastOrAppend(here, Delivered(cs, k + 1, template, env), s.lastProcessedIndex);
      }
    }
  }

  /** Every delivered index belongs to a customer from `k` on whose success
      was recorded. */
  lemma {:induction false} DeliveredAt(cs: seq<Customer>, k: nat, x: nat, template: string, env: nat -> Event)
    returns (j: nat)
    requires x in Delivered(cs, k, template, env)
    ensures k <= j < |cs| && cs[j].index == x && SentAt(cs, j, template, env)
    decreases |cs| - k
  {
    if SentAt(cs, k, template, env) && x == cs[k].index {
      j := k;
    } else {
      j := DeliveredAt(cs, k + 1, x, template, env);
    }
  }

  predicate Ascending(d: seq<nat>) {
    forall a, b :: 0 <= a < b < |d| ==> d[a] < d[b]
  }

  lemma AscendingPrepend(x: nat, rest: seq<nat>)
    requires Ascending(rest) && forall y :: y in rest ==> x < y
    ensures Ascending([x] + rest)
  {
    var d := [x] + rest;
    forall a, b | 0 <= a < b < |d| ensures d[a] < d[b] {
      assert d[b] == rest[b - 1] && rest[b - 1] in rest;
      if a > 0 {
        assert d[a] == rest[a - 1];
      }
    }
  }

  /** With customers in increasing order, the delivered indices increase too. */
  lemma {:induction false} DeliveredIncreasing(cs: seq<Customer>, k: nat, template: string, env: nat -> Event)
    requires Increasing(cs)
    ensures Ascending(Delivered(cs, k, template, env))
    decreases |cs| - k
  {
    if k < |cs| && !Stops(env(cs[k].index).fault) {
      DeliveredIncreasing(cs, k + 1, template, env);
      var rest := Delivered(cs, k + 1, template, env);
      if SentAt(cs, k, template, env) {
        forall y | y in rest ensures cs[k].index < y {
          var j := DeliveredAt(cs, k + 1, y, template, env);
        }
        AscendingPrepend(cs[k].index, rest);
      } else {
        assert Delivered(cs, k, template, env) == [] + rest;
      }
    }
  }

  /** No customer whose success a run recorded lies beyond the resume point
      it leaves, so a resumed run never sends to them again. */
  lemma RunNeverResends(s: Snapshot, cs: seq<Customer>, template: string, env: nat -> Event)
    requires Increasing(cs)
    ensures var last := Run(s, cs, 0, 0, template, env).state.lastProcessedIndex;
      forall x :: x in Delivered(cs, 0, template, env) ==> x <= last
  {
    RunLastIsLastDelivered(s, cs, 0, 0, template, env);
    DeliveredIncreasing(cs, 0, template, env);
    var d := Delivered(cs, 0, template, env);
    if d != [] {
      AscendingLastIsMax(d);
    }
  }

  /** Within a run the resume point never moves back. */
  lemma RunMonotone(s: Snapshot, cs: seq<Customer>, template: string, env: nat -> Event)
    requires AllAbove(cs, 0, s.lastProcessedIndex)
    ensures Run(s, cs, 0, 0, template, env).state.lastProcessedIndex >= s.lastProcessedIndex
  {
    RunLastIsLastDelivered(s, cs, 0, 0, template, env);
    var d := Delivered(cs, 0, template, env);
    if d != [] {
      var j := DeliveredAt(cs, 0, d[|d| - 1], template, env);
    }
  }

  /** Unless the catch-all handler fires before a send, every customer up
      to the resume point a run leaves had its outcome recorded: resuming
      skips nobody. */
  lemma {:induction false} RunNeverSkips(s: Snapshot, cs: seq<Customer>, k: nat, pauses: nat,
                                         template: string, env: nat -> Event)
    requires Increasing(cs) && AllAbove(cs, k, s.lastProcessedIndex)
    requires forall j :: k <= j < |cs| ==> !env(cs[j].index).fault.ErrorBeforeRecord?
    ensures var last := Run(s, cs, k, pauses, template, env).state.lastProcessedIndex;
      forall j :: k <= j < |cs| && cs[j].index <= last ==> cs[j].index in Attempted(cs, k, template, env)
    decreases |cs| - k
  {
    if k < |cs| {
      var ev := env(cs[k].index);
      if Stops(ev.fault) {
        InterruptedRunSkipsNobody(s, cs, k, pauses, template, env);
      } else {
        var s' := Step(s, cs[k], template, ev);
        var p' := pauses + PauseAfter(cs, k, ev.fault);
        RunStep(s, cs, k, pauses, template, env, ev);
        assert Attempted(cs, k, template, env) == [cs[k].index] + Attempted(cs, k + 1, template, env);
        StepKeepsAbove(s, cs, k, template, ev);
        RunNeverSkips(s', cs, k + 1, p', template, env);
        AttemptedPrepend(cs, k, Run(s', cs, k + 1, p', template, env).state.lastProcessedIndex,
                         Attempted(cs, k + 1, template, env));
      }
    }
  }

  lemma AttemptedPrepend(cs: seq<Customer>, k: nat, last: int, rest: seq<nat>)
    requires k < |cs|
    requires forall j :: k + 1 <= j < |cs| && cs[j].index <= last ==> cs[j].index in rest
    ensures forall j :: k <= j < |cs| && cs[j].index <= last ==> cs[j].index in [cs[k].index] + rest
  {
  }

  /** After customer `k`, the resume point is still below every later
      customer. */
  lemma StepKeepsAbove(s: Snapshot, cs: seq<Customer>, k: nat, template: string, ev: Event)
    requires Increasing(cs) && k < |cs| && AllAbove(cs, k, s.lastProcessedIndex)
    ensures AllAbove(cs, k + 1, Step(s, cs[k], template, ev).lastProcessedIndex)
  {
    forall j | k + 1 <= j < |cs| ensures cs[j].index > Step(s, cs[k], template, ev).lastProcessedIndex {
      assert cs[k].index < cs[j].index;
    }
  }

  /** The step of `RunNeverSkips` where the run stops at customer `k`. */
  lemma InterruptedRunSkipsNobody(s: Snapshot, cs: seq<Customer>, k: nat, pauses: nat,
                                  template: string, env: nat -> Event)
    requires Increasing(cs) && AllAbove(cs, k, s.lastProcessedIndex) && k < |cs|
    requires Stops(env(cs[k].index).fault)
    ensures var last := Run(s, cs, k, pauses, template, env).state.lastProcessedIndex;
      forall j :: k <= j < |cs| && cs[j].index <= last ==> cs[j].index in Attempted(cs, k, template, env)
  {
    var ev := env(cs[k].index);
    var s' := Step(s, cs[k], template, ev);
    RunStops(s, cs, k, pauses, template, env, ev);
    StepKeepsAbove(s, cs, k, template, ev);
    assert s'.lastProcessedIndex != s.lastProcessedIndex ==> Recorded(ev.fault);
  }

  /** A run in which nothing raises: one count per customer, a listed entry
      for every failure, and a pause between consecutive customers but none
      after the last. */
  lemma {:induction false} RunWithoutFaults(s: Snapshot, cs: seq<Customer>, k: nat, pauses: nat,
                                            template: string, env: nat -> Event)
    requires k <= |cs|
    requires forall j :: k <= j < |cs| ==> env(cs[j].index).fault.NoFault?
    ensures var r := Run(s, cs, k, pauses, template, env);
      && !r.interrupted
      && r.state.sentCount + r.state.failedCount == s.sentCount + s.failedCount + (|cs| - k)
      && r.state.failedCount - |r.state.failedEmails| == s.failedCount - |s.failedEmails|
      && r.pauses == pauses + (if k < |cs| then |cs| - k - 1 else 0)
    decreases |cs| - k
  {
    if k < |cs| {
      var ev := env(cs[k].index);
      var s' := Step(s, cs[k], template, ev);
      var p' := pauses + PauseAfter(cs, k, ev.fault);
      RunStep(s, cs, k, pauses, template, env, ev);
      assert p' == pauses + (if k + 1 < |cs| then 1 else 0);
      RunWithoutFaults(s', cs, k + 1, p', template, env);
    }
  }

  /** Failures not listed in `failed_emails` come only from the catch-all
      handler, one per error. */
  lemma {:induction false} RunUnlistedFailures(s: Snapshot, cs: seq<Customer>, k: nat, pauses: nat,
                                               template: string, env: nat -> Event)
    ensures var r := Run(s, cs, k, pauses, template, env).state;
      r.failedCount - |r.failedEmails| == s.failedCount - |s.failedEmails| + UnexpectedErrors(cs, k, env)
    decreases |cs| - k
  {
    if k < |cs| {
      var ev := env(cs[k].index);
      if Stops(ev.fault) {
        RunStops(s, cs, k, pauses, template, env, ev);
      } else {
        RunStep(s, cs, k, pauses, template, env, ev);
        RunUnlistedFailures(Step(s, cs[k], template, ev), cs, k + 1,
                            pauses + PauseAfter(cs, k, ev.fault), template, env);
      }
    }
  }

  lemma {:induction false} RunKeepsStartTime(s: Snapshot, cs: seq<Customer>, k: nat, pauses: nat,
                                             template: string, env: nat -> Event)
    ensures Run(s, cs, k, pauses, template, env).state.startTime == s.startTime
    decreases |cs| - k
  {
    if k < |cs| {
      var ev := env(cs[k].index);
      if Stops(ev.fault) {
        RunStops(s, cs, k, pauses, template, env, ev);
      } else {
        RunStep(s, cs, k, pauses, template, env, ev);
        RunKeepsStartTime(Step(s, cs[k], template, ev), cs, k + 1,
                          pauses + PauseAfter(cs, k, ev.fault), template, env);
      }
    }
  }

  // ------------------------------------------------------ whole campaigns

  /** With nobody left to send to, the run ends without touching the
      progress file. */
  lemma NothingLeftLeavesProgress(stored: Option<Snapshot>, content: string, parse: string -> seq<Row>,
                                  template: string, env: nat -> Event, now: string)
    requires Resumed(stored, content, parse) == Ok([])
    ensures CampaignOutcome(stored, content, parse, template, env, now) == CampaignEnd(NothingToDo, stored, 0)
  {
  }

  /** A run that sends saves a start time: the saved one when there was
      one, otherwise the clock reading at the start of this run. */
  lemma CampaignStartTime(stored: Option<Snapshot>, content: string, parse: string -> seq<Row>,
                          template: string, env: nat -> Event, now: string)
    requires Resumed(stored, content, parse).Ok? && Resumed(stored, content, parse).value != []
    ensures var e := CampaignOutcome(stored, content, parse, template, env, now);
      && e.stored.Some?
      && e.stored.value.startTime
         == (if LoadProgress(stored).startTime.Some? then LoadProgress(stored).startTime else Some(now))
  {
    var cs := Resumed(stored, content, parse).value;
    RunKeepsStartTime(Started(LoadProgress(stored), now), cs, 0, 0, template, env);
  }

  /** The customers of a resumed run, read from the same export. */
  lemma ResumedCustomers(stored: Option<Snapshot>, content: string, parse: string -> seq<Row>)
    requires Resumed(stored, content, parse).Ok?
    ensures var cs := Resumed(stored, content, parse).value;
      var first := Max(0, LoadProgress(stored).lastProcessedIndex + 1);
      && |cs| == Max(0, |parse(StripBom(content))| - first)
      && Increasing(cs)
      && AllAbove(cs, 0, LoadProgress(stored).lastProcessedIndex)
      && (forall k :: 0 <= k < |cs| ==> cs[k].index == first + k)
      && (cs != [] ==> cs[|cs| - 1].index == |parse(StripBom(content))| - 1)
  {
    CustomersSpec(parse(StripBom(content)), LoadProgress(stored).lastProcessedIndex + 1);
  }

  /** When the last customer's success is recorded, the run ends with the
      resume point on that customer. */
  lemma RunEndsOnDeliveredLast(s: Snapshot, cs: seq<Customer>, template: string, env: nat -> Event)
    requires Increasing(cs) && cs != []
    requires cs[|cs| - 1].index in Delivered(cs, 0, template, env)
    ensures Run(s, cs, 0, 0, template, env).state.lastProcessedIndex == cs[|cs| - 1].index
  {
    RunLastIsLastDelivered(s, cs, 0, 0, template, env);
    LastDeliveredIsLastCustomer(cs, template, env);
  }

  lemma LastDeliveredIsLastCustomer(cs: seq<Customer>, template: string, env: nat -> Event)
    requires Increasing(cs) && cs != []
    requires cs[|cs| - 1].index in Delivered(cs, 0, template, env)
    ensures var d := Delivered(cs, 0, template, env);
      d != [] && d[|d| - 1] == cs[|cs| - 1].index
  {
    var d := Delivered(cs, 0, template, env);
    var j := DeliveredAt(cs, 0, d[|d| - 1], template, env);
    IncreasingLast(cs, j);
    DeliveredIncreasing(cs, 0, template, env);
    AscendingLastIsMax(d);
  }

  lemma IncreasingLast(cs: seq<Customer>, j: nat)
    requires Increasing(cs) && j < |cs|
    ensures cs[j].index <= cs[|cs| - 1].index
  {
    if j < |cs| - 1 {
      assert cs[j].index < cs[|cs| - 1].index;
    }
  }

  lemma AscendingLastIsMax(d: seq<nat>)
    requires Ascending(d) && d != []
    ensures forall x :: x in d ==> x <= d[|d| - 1]
  {
    forall x | x in d ensures x <= d[|d| - 1] {
      var a :| 0 <= a < |d| && d[a] == x;
      if a < |d| - 1 {
        assert d[a] < d[|d| - 1];
      }
    }
  }

  /** When the last customer's success is not recorded, the run ends with
      the resume point below that customer. */
  lemma RunEndsBelowUndeliveredLast(s: Snapshot, cs: seq<Customer>, template: string, env: nat -> Event)
    requires Increasing(cs) && cs != [] && AllAbove(cs, 0, s.lastProcessedIndex)
    requires !SentAt(cs, |cs| - 1, template, env)
    ensures var last := Run(s, cs, 0, 0, template, env).state.lastProcessedIndex;
      s.lastProcessedIndex <= last < cs[|cs| - 1].index
  {
    RunLastIsLastDelivered(s, cs, 0, 0, template, env);
    RunMonotone(s, cs, template, env);
    var d := Delivered(cs, 0, template, env);
    if d != [] {
      var j := DeliveredAt(cs, 0, d[|d| - 1], template, env);
      assert j != |cs| - 1;
      assert cs[j].index < cs[|cs| - 1].index;
    }
  }

  /** Resuming at or past the last row reads nobody. */
  lemma CustomersPastEnd(rows: seq<Row>, start: int)
    requires start >= |rows|
    ensures Customers(rows, start) == Ok([])
  {
    CustomersSpec(rows, start);
  }

  /** Resuming later in an export that reads cleanly reads cleanly too, and
      still ends with its last row. */
  lemma CustomersLater(rows: seq<Row>, start: int, start': int)
    requires Customers(rows, start).Ok? && start <= start' && Max(0, start') < |rows|
    ensures Customers(rows, start').Ok?
    ensures var cs := Customers(rows, start).value;
      var cs' := Customers(rows, start').value;
      cs != [] && cs' != [] && cs'[|cs'| - 1] == cs[|cs| - 1]
  {
    CustomersSpec(rows, start);
    CustomersSpec(rows, start');
    var cs := Customers(rows, start).value;
    var r' := Customers(rows, start');
    forall j | Max(0, start') <= j < |rows| ensures ToCustomer(rows[j], j).Ok? {
      assert ToCustomer(rows[j], j) == Ok(cs[j - Max(0, start)]);
    }
    var cs' := r'.value;
    assert ToCustomer(rows[|rows| - 1], |rows| - 1) == Ok(cs'[|cs'| - 1]);
    assert ToCustomer(rows[|rows| - 1], |rows| - 1) == Ok(cs[|cs| - 1]);
  }

  /** Once the last row's send has been recorded as a success, running the
      campaign again finds nothing to do and leaves the progress file as it
      is. */
  lemma ResumeIsIdempotent(stored: Option<Snapshot>, content: string, parse: string -> seq<Row>,
                           template: string, env: nat -> Event, now: string,
                           env': nat -> Event, now': string)
    requires Resumed(stored, content, parse).Ok? && Resumed(stored, content, parse).value != []
    requires var cs := Resumed(stored, content, parse).value;
      cs[|cs| - 1].index in Delivered(cs, 0, template, env)
    ensures var e := CampaignOutcome(stored, content, parse, template, env, now);
      CampaignOutcome(e.stored, content, parse, template, env', now') == CampaignEnd(NothingToDo, e.stored, 0)
  {
    var rows := parse(StripBom(content));
    SavedPointIsLastRow(stored, content, parse, template, env, now);
    var e := CampaignOutcome(stored, content, parse, template, env, now);
    CustomersPastEnd(rows, |rows|);
    assert Resumed(e.stored, content, parse) == Ok([]);
    NothingLeftLeavesProgress(e.stored, content, parse, template, env', now');
  }

  /** Once the last row's success is recorded, the saved resume point is
      the export's last row. */
  lemma SavedPointIsLastRow(stored: Option<Snapshot>, content: string, parse: string -> seq<Row>,
                            template: string, env: nat -> Event, now: string)
    requires Resumed(stored, content, parse).Ok? && Resumed(stored, content, parse).value != []
    requires var cs := Resumed(stored, content, parse).value;
      cs[|cs| - 1].index in Delivered(cs, 0, template, env)
    ensures var e := CampaignOutcome(stored, content, parse, template, env, now);
      e.stored.Some? && e.stored.value.lastProcessedIndex == |parse(StripBom(content))| - 1
  {
    var cs := Resumed(stored, content, parse).value;
    ResumedCustomers(stored, content, parse);
    RunEndsOnDeliveredLast(Started(LoadProgress(stored), now), cs, template, env);
    CampaignSavesRun(stored, content, parse, template, env, now);
  }

  /** A campaign with customers to send to saves the state its run ends in,
      so the next campaign resumes after that state's resume point. */
  lemma CampaignSavesRun(stored: Option<Snapshot>, content: string, parse: string -> seq<Row>,
                         template: string, env: nat -> Event, now: string)
    requires Resumed(stored, content, parse).Ok? && Resumed(stored, content, parse).value != []
    ensures var cs := Resumed(stored, content, parse).value;
      var r := Run(Started(LoadProgress(stored), now), cs, 0, 0, template, env);
      var e := CampaignOutcome(stored, content, parse, template, env, now);
      e.stored == Some(r.state)
  {
  }

  /** After a run that leaves the last customer's success unrecorded,
      reading the export again from the new resume point still ends with
      that customer. */
  lemma {:induction false} RetryAfterRun(rows: seq<Row>, s: Snapshot, cs: seq<Customer>, template: string, env: nat -> Event)
    requires Customers(rows, s.lastProcessedIndex + 1) == Ok(cs) && cs != []
    requires !SentAt(cs, |cs| - 1, template, env)
    ensures var last := Run(s, cs, 0, 0, template, env).state.lastProcessedIndex;
      && Customers(rows, last + 1).Ok?
      && var cs' := Customers(rows, last + 1).value;
         cs' != [] && cs'[|cs'| - 1] == cs[|cs| - 1]
  {
    var last := RetryPoint(rows, s, cs, template, env);
    CustomersLater(rows, s.lastProcessedIndex + 1, last + 1);
  }

  /** The resume point that run leaves lies between the old one and the
      export's last row. */
  lemma RetryPoint(rows: seq<Row>, s: Snapshot, cs: seq<Customer>, template: string, env: nat -> Event)
    returns (last: int)
    requires Customers(rows, s.lastProcessedIndex + 1) == Ok(cs) && cs != []
    requires !SentAt(cs, |cs| - 1, template, env)
    ensures last == Run(s, cs, 0, 0, template, env).state.lastProcessedIndex
    ensures s.lastProcessedIndex <= last && last + 1 < |rows|
  {
    CustomersShape(rows, s.lastProcessedIndex + 1, cs);
    RunEndsBelowUndeliveredLast(s, cs, template, env);
    last := Run(s, cs, 0, 0, template, env).state.lastProcessedIndex;
  }

  /** The customers read from `start` on come in increasing order, all at
      or after `start`, and end with the export's last row. */
  lemma CustomersShape(rows: seq<Row>, start: int, cs: seq<Customer>)
    requires Customers(rows, start) == Ok(cs) && cs != []
    ensures Increasing(cs) && AllAbove(cs, 0, start - 1) && cs[|cs| - 1].index == |rows| - 1
  {
    CustomersSpec(rows, start);
  }

  /** Whatever happens during a campaign, the resume point it leaves in the
      progress file is never below the one it started from. */
  lemma CampaignMonotone(stored: Option<Snapshot>, content: string, parse: string -> seq<Row>,
                         template: string, env: nat -> Event, now: string)
    ensures var e := CampaignOutcome(stored, content, parse, template, env, now);
      LoadProgress(e.stored).lastProcessedIndex >= LoadProgress(stored).lastProcessedIndex
  {
    var r := Resumed(stored, content, parse);
    if r.Ok? && r.value != [] {
      ResumedCustomers(stored, content, parse);
      CampaignSavesRun(stored, content, parse, template, env, now);
      RunMonotone(Started(LoadProgress(stored), now), r.value, template, env);
    }
  }

  /** When the last customer's success is not recorded, whatever else
      happens, the saved resume point stays below the export's last row, so
      the next run reads that row again (see `RetryAfterRun`). */
  lemma UnsentLastCustomerRetried(stored: Option<Snapshot>, content: string, parse: string -> seq<Row>,
                                  template: string, env: nat -> Event, now: string)
    requires Resumed(stored, content, parse).Ok? && Resumed(stored, content, parse).value != []
    requires var cs := Resumed(stored, content, parse).value;
      !SentAt(cs, |cs| - 1, template, env)
    ensures var e := CampaignOutcome(stored, content, parse, template, env, now);
      && e.stored.Some?
      && LoadProgress(stored).lastProcessedIndex <= e.stored.value.lastProcessedIndex
      && e.stored.value.lastProcessedIndex < |parse(StripBom(content))| - 1
  {
    var cs := Resumed(stored, content, parse).value;
    var s1 := Started(LoadProgress(stored), now);
    var last := Run(s1, cs, 0, 0, template, env).state.lastProcessedIndex;
    assert s1.lastProcessedIndex <= last < |parse(StripBom(content))| - 1 by {
      ResumedCustomers(stored, content, parse);
      RunEndsBelowUndeliveredLast(s1, cs, template, env);
    }
    CampaignSavesRun(stored, content, parse, template, env, now);
  }

  // ------------------------------------------------------------ scenarios

  /** A customer whose first name can be taken (an empty name falls back
      to the default) is sent to exactly when the provider
      accepts, and otherwise fails with the status code as reason. */
  lemma SendEmailStatus(name: string, template: string, code: int)
    requires FirstName(name).Ok?
    ensures SendEmail(name, template, Status(code))
         == if Accepted(code) then Sent else Failed(StatusReason(code))
  {
    if !Accepted(code) {
      RejectedStatusReason(name, template, code, code);
    }
  }

  /** Handling a customer without fault records the outcome, then saves. */
  lemma StepWithoutFault(s: Snapshot, c: Customer, template: string, ev: Event)
    requires ev.fault.NoFault?
    ensures Step(s, c, template, ev) == Stamp(ApplyAttempt(s, c, SendEmail(c.name, template, ev.reply), ev.now), ev.now)
  {
  }

  /** The replies of a three-customer run whose second send is rejected. */
  function MiddleRejected(now: string): nat -> Event {
    i => Event(Status(if i == 1 then 500 else 202), now, NoFault)
  }

  /** A fresh campaign over three customers whose sends answer 202, 500 and
      202 ends with two sent, one failed and listed with the second
      customer's address, and the resume point on the third customer. */
  lemma ThreeCustomerScenario(cs: seq<Customer>, template: string, now: string)
    requires |cs| == 3 && forall k :: 0 <= k < 3 ==> cs[k].index == k && FirstName(cs[k].name).Ok?
    ensures var r := Run(Started(LoadProgress(None), now), cs, 0, 0, template, MiddleRejected(now));
      && !r.interrupted && r.pauses == 2
      && r.state.sentCount == 2 && r.state.failedCount == 1 && r.state.lastProcessedIndex == 2
      && r.state.failedEmails == [FailureRecord(cs[1].email, cs[1].name, StatusReason(500), now)]
  {
    var env := MiddleRejected(now);
    var s0 := Snapshot(-1, 0, 0, [], Some(now), None);
    assert Started(LoadProgress(None), now) == s0;
    var failure := FailureRecord(cs[1].email, cs[1].name, StatusReason(500), now);
    var s1 := Snapshot(0, 1, 0, [], Some(now), Some(now));
    var s2 := Snapshot(0, 1, 1, [failure], Some(now), Some(now));
    var s3 := Snapshot(2, 2, 1, [failure], Some(now), Some(now));
    ThreeCustomerSteps(cs, template, now);
    assert Run(s0, cs, 0, 0, template, env) == Run(s1, cs, 1, 1, template, env);
    assert Run(s1, cs, 1, 1, template, env) == Run(s2, cs, 2, 2, template, env);
    assert Run(s2, cs, 2, 2, template, env) == RunEnd(s3, 2, false);
  }

  lemma ThreeCustomerSteps(cs: seq<Customer>, template: string, now: string)
    requires |cs| == 3 && forall k :: 0 <= k < 3 ==> cs[k].index == k && FirstName(cs[k].name).Ok?
    ensures var env := MiddleRejected(now);
      var failure := FailureRecord(cs[1].email, cs[1].name, StatusReason(500), now);
      var s1 := Snapshot(0, 1, 0, [], Some(now), Some(now));
      var s2 := Snapshot(0, 1, 1, [failure], Some(now), Some(now));
      && Step(Snapshot(-1, 0, 0, [], Some(now), None), cs[0], template, env(0)) == s1
      && Step(s1, cs[1], template, env(1)) == s2
      && Step(s2, cs[2], template, env(2)) == Snapshot(2, 2, 1, [failure], Some(now), Some(now))
  {
    var env := MiddleRejected(now);
    SendEmailStatus(cs[0].name, template, 202);
    SendEmailStatus(cs[1].name, template, 500);
    SendEmailStatus(cs[2].name, template, 202);
    var failure := FailureRecord(cs[1].email, cs[1].name, StatusReason(500), now);
    var s1 := Snapshot(0, 1, 0, [], Some(now), Some(now));
    var s2 := Snapshot(0, 1, 1, [failure], Some(now), Some(now));
    StepWithoutFault(Snapshot(-1, 0, 0, [], Some(now), None), cs[0], template, env(0));
    StepWithoutFault(s1, cs[1], template, env(1));
    StepWithoutFault(s2, cs[2], template, env(2));
  }

  /** Customer 0 succeeds, then the run is interrupted before customer 1's
      outcome is recorded. */
  function InterruptedAtSecond(now: string): nat -> Event {
    i => Event(Status(202), now, if i == 0 then NoFault else InterruptBeforeRecord)
  }

  /** A fresh campaign interrupted while the second customer is handled
      saves the first customer as the resume point, so the next run starts
      at the second customer. */
  lemma InterruptScenario(rows: seq<Row>, cs: seq<Customer>, template: string, now: string)
    requires Customers(rows, 0) == Ok(cs) && |cs| >= 2 && FirstName(cs[0].name).Ok?
    ensures var r := Run(Started(LoadProgress(None), now), cs, 0, 0, template, InterruptedAtSecond(now));
      && r.interrupted && r.state.lastProcessedIndex == 0 && r.state.sentCount == 1
      && Customers(rows, r.state.lastProcessedIndex + 1) == Ok(cs[1..])
  {
    CustomersSpec(rows, 0);
    var env := InterruptedAtSecond(now);
    var s0 := Snapshot(-1, 0, 0, [], Some(now), None);
    assert Started(LoadProgress(None), now) == s0;
    SendEmailStatus(cs[0].name, template, 202);
    StepWithoutFault(s0, cs[0], template, env(0));
    var s1 := Snapshot(0, 1, 0, [], Some(now), Some(now));
    assert Step(s0, cs[0], template, env(0)) == s1;
    assert env(cs[1].index).fault == InterruptBeforeRecord;
    assert Run(s0, cs, 0, 0, template, env) == Run(s1, cs, 1, 1, template, env);
    assert Run(s1, cs, 1, 1, template, env) == RunEnd(Stamp(s1, now), 1, true);
    CustomersSuffix(rows, 0, 1);
  }

  /** Reading from one row later drops exactly the first recipient. */
  lemma CustomersSuffix(rows: seq<Row>, start: nat, d: nat)
    requires Customers(rows, start).Ok? && d <= |Customers(rows, start).value|
    ensures Customers(rows, start + d) == Ok(Customers(rows, start).value[d..])
  {
    CustomersSpec(rows, start);
    CustomersSpec(rows, start + d);
    var cs := Customers(rows, start).value;
    forall j | start + d <= j < |rows| ensures ToCustomer(rows[j], j).Ok? {
      assert ToCustomer(rows[j], j) == Ok(cs[j - start]);
    }
    assert Customers(rows, start + d).Ok?;
    var cs' := Customers(rows, start + d).value;
    assert |cs'| == |cs[d..]|;
    forall k | 0 <= k < |cs'| ensures cs'[k] == cs[d..][k] {
      assert ToCustomer(rows[start + d + k], start + d + k) == Ok(cs'[k]);
      assert ToCustomer(rows[start + (d + k)], start + (d + k)) == Ok(cs[d + k]);
    }
    assert cs' == cs[d..];
  }

  /** A logging error before the first customer's send, then a success for
      the second. */
  function FirstLogFails(now: string): nat -> Event {
    i => Event(Status(202), now, if i == 0 then ErrorBeforeRecord else NoFault)
  }

  /** The catch-all handler can lose a customer for good: when the error
      strikes before the first customer's send and the second succeeds, the
      resume point passes the first customer although no outcome of theirs
      was recorded. */
  lemma UnexpectedErrorSkips(cs: seq<Customer>, template: string, now: string)
    requires |cs| == 2 && cs[0].index == 0 && cs[1].index == 1 && FirstName(cs[1].name).Ok?
    ensures var r := Run(Started(LoadProgress(None), now), cs, 0, 0, template, FirstLogFails(now));
      && r.state.lastProcessedIndex == 1
      && 0 !in Attempted(cs, 0, template, FirstLogFails(now))
      && r.state.failedCount == 1 && r.state.failedEmails == []
  {
    var env := FirstLogFails(now);
    var s0 := Started(LoadProgress(None), now);
    assert SendEmail(cs[1].name, template, env(1).reply) == Sent;
    var s1 := Step(s0, cs[0], template, env(0));
    var s2 := Step(s1, cs[1], template, env(1));
    assert Run(s0, cs, 0, 0, template, env) == Run(s1, cs, 1, 0, template, env);
    assert Run(s1, cs, 1, 0, template, env) == RunEnd(s2, 0, false);
    assert Attempted(cs, 0, template, env) == [] + Attempted(cs, 1, template, env);
    assert Attempted(cs, 1, template, env) == [1] + [];
  }
}
