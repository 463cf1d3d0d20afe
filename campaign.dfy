/** The campaign script's `main`: resume from the saved progress, send to
    every remaining customer in order, and save the progress after each
    one. */
module Campaign {
  import opened Results
  import opened CsvInput
  import opened Dispatch
  import opened CampaignProgress

  /** What, besides the provider's reply, happens while one customer is
      handled. An `Error...` is an exception that escapes to the loop's
      catch-all handler (a failing log write, progress write or pause); an
      `Interrupt...` is a `KeyboardInterrupt`. "Before record" means before
      the send outcome reached the progress dict, "after record" after it. */
  datatype Fault =
    | NoFault
    | ErrorBeforeRecord
    | ErrorAfterRecord
    | InterruptBeforeRecord
    | InterruptAfterRecord

  /** Everything the outside world contributes while one customer is handled:
      the provider's reply, the clock reading used for the failure record and
      the saves, and any fault. */
  datatype Event = Event(reply: SendReply, now: string, fault: Fault)

  /** The send outcome reached the progress dict. */
  predicate Recorded(f: Fault) {
    f.NoFault? || f.ErrorAfterRecord? || f.InterruptAfterRecord?
  }

  predicate Unexpected(f: Fault) {
    f.ErrorBeforeRecord? || f.ErrorAfterRecord?
  }

  /** The progress dict after one customer has been handled, saves included:
      only a recorded success moves the resume point; each recorded outcome
      counts once, and each catch-all error counts one more failure that is
      not listed in `failed_emails`. */
  function Step(s: Snapshot, c: Customer, template: string, ev: Event): (r: Snapshot)
    ensures r.lastRunTime == Some(ev.now) && r.startTime == s.startTime
    ensures r.lastProcessedIndex ==
      if Recorded(ev.fault) && SendEmail(c.name, template, ev.reply).Sent? then c.index
      else s.lastProcessedIndex
    ensures ev.fault.InterruptBeforeRecord? ==> r == Stamp(s, ev.now)
    ensures ev.fault.ErrorBeforeRecord? ==>
      r == Stamp(s, ev.now).(failedCount := s.failedCount + 1)
    ensures Recorded(ev.fault) ==>
      r.sentCount + r.failedCount
        == s.sentCount + s.failedCount + (if ev.fault.ErrorAfterRecord? then 2 else 1)
    ensures r.failedCount - |r.failedEmails|
      == s.failedCount - |s.failedEmails| + (if Unexpected(ev.fault) then 1 else 0)
    ensures |r.failedEmails| == |s.failedEmails|
      + (if Recorded(ev.fault) && SendEmail(c.name, template, ev.reply).Failed? then 1 else 0)
  {
    var handled :=
      if ev.fault.ErrorBeforeRecord? then WithUnexpected(s)
      else if ev.fault.InterruptBeforeRecord? then s
      else
        var r := ApplyAttempt(s, c, SendEmail(c.name, template, ev.reply), ev.now);
        if ev.fault.ErrorAfterRecord? then WithUnexpected(r) else r;
    Stamp(handled, ev.now)
  }

  predicate Stops(f: Fault) {
    f.InterruptBeforeRecord? || f.InterruptAfterRecord?
  }

  /** A pause follows a customer handled without fault, unless it is the
      last one of the run. */
  function PauseAfter(cs: seq<Customer>, k: nat, f: Fault): nat {
    if f.NoFault? && k + 1 < |cs| then 1 else 0
  }

  datatype RunEnd = RunEnd(state: Snapshot, pauses: nat, interrupted: bool)

  /** The loop over `cs[k..]`, starting from `s` with `pauses` pauses taken. */
  function Run(s: Snapshot, cs: seq<Customer>, k: nat, pauses: nat, template: string, env: nat -> Event): RunEnd
    decreases |cs| - k
  {
    if k >= |cs| then RunEnd(s, pauses, false)
    else
      var ev := env(cs[k].index);
      var s' := Step(s, cs[k], template, ev);
      if Stops(ev.fault) then RunEnd(s', pauses, true)
      else Run(s', cs, k + 1, pauses + PauseAfter(cs, k, ev.fault), template, env)
  }

  /** A turn of the loop that the customer's fault does not stop: the run
      from the state after it reaches the same end. */
  lemma RunStep(s: Snapshot, cs: seq<Customer>, k: nat, pauses: nat, template: string,
                env: nat -> Event, ev: Event)
    requires k < |cs| && ev == env(cs[k].index) && !Stops(ev.fault)
    ensures Run(s, cs, k, pauses, template, env)
         == Run(Step(s, cs[k], template, ev), cs, k + 1, pauses + PauseAfter(cs, k, ev.fault), template, env)
  {
  }

  /** The turn of the loop that an interrupt ends. */
  lemma RunStops(s: Snapshot, cs: seq<Customer>, k: nat, pauses: nat, template: string,
                 env: nat -> Event, ev: Event)
    requires k < |cs| && ev == env(cs[k].index) && Stops(ev.fault)
    ensures Run(s, cs, k, pauses, template, env) == RunEnd(Step(s, cs[k], template, ev), pauses, true)
  {
  }

  datatype Exit = KeyError(column: string) | NothingToDo | Completed | Interrupted

  /** How `main` ends: its exit, the progress file afterwards, and the
      number of pauses it took. */
  datatype CampaignEnd = CampaignEnd(exit: Exit, stored: Option<Snapshot>, pauses: nat)

  /** The customers a run reads: every row after the saved resume point. */
  function Resumed(stored: Option<Snapshot>, content: string, parse: string -> seq<Row>): Result<seq<Customer>, string> {
    Customers(parse(StripBom(content)), LoadProgress(stored).lastProcessedIndex + 1)
  }

  function CampaignOutcome(stored: Option<Snapshot>, content: string, parse: string -> seq<Row>,
                    template: string, env: nat -> Event, now: string): CampaignEnd
  {
    match Resumed(stored, content, parse)
    case Err(column) => CampaignEnd(KeyError(column), stored, 0)
    case Ok(cs) =>
      if cs == [] then CampaignEnd(NothingToDo, stored, 0)
      else
        var r := Run(Started(LoadProgress(stored), now), cs, 0, 0, template, env);
        CampaignEnd(if r.interrupted then Interrupted else Completed, Some(r.state), r.pauses)
  }

  /** `main`, from loading the progress to the end of the loop. */
  method RunCampaign(file: ProgressFile, content: string, parse: string -> seq<Row>,
                     template: string, env: nat -> Event, now: string)
    returns (exit: Exit, pauses: nat)
    modifies file
    ensures CampaignEnd(exit, file.contents, pauses)
         == CampaignOutcome(old(file.contents), content, parse, template, env, now)
  {
    var progress := new ProgressRecord.Load(file);
    progress.MarkStarted(now);
    var start := progress.lastProcessedIndex + 1;
    var customers := ReadCustomers(content, parse, start);
    if customers.Err? {
      return KeyError(customers.error), 0;
    }
    var cs := customers.value;
    if |cs| == 0 {
      return NothingToDo, 0;
    }
    var interrupted;
    interrupted, pauses := SendAll(progress, file, cs, template, env);
    exit := if interrupted then Interrupted else Completed;
  }

  /** The `for customer in customers` loop. */
  method SendAll(progress: ProgressRecord, file: ProgressFile, cs: seq<Customer>,
                 template: string, env: nat -> Event)
    returns (interrupted: bool, pauses: nat)
    requires cs != []
    modifies progress, file
    ensures RunEnd(progress.State(), pauses, interrupted)
         == Run(old(progress.State()), cs, 0, 0, template, env)
    ensures file.contents == Some(progress.State())
  {
    pauses := 0;
    var k := 0;
    while k < |cs|
      invariant 0 <= k <= |cs|
      invariant Run(progress.State(), cs, k, pauses, template, env)
             == Run(old(progress.State()), cs, 0, 0, template, env)
      invariant k > 0 ==> file.contents == Some(progress.State())
    {
      var ev := env(cs[k].index);
      if Stops(ev.fault) {
        RunStops(progress.State(), cs, k, pauses, template, env, ev);
      } else {
        RunStep(progress.State(), cs, k, pauses, template, env, ev);
      }
      Handle(progress, file, cs[k], template, ev);
      if Stops(ev.fault) {
        return true, pauses;
      }
      pauses := pauses + PauseAfter(cs, k, ev.fault);
      k := k + 1;
    }
    return false, pauses;
  }

  /** The body of the loop for one customer, up to the pause. */
  method Handle(progress: ProgressRecord, file: ProgressFile, c: Customer, template: string, ev: Event)
    modifies progress, file
    ensures progress.State() == Step(old(progress.State()), c, template, ev)
    ensures file.contents == Some(progress.State())
  {
    if ev.fault.ErrorBeforeRecord? {
      progress.CountUnexpected();
    } else if !ev.fault.InterruptBeforeRecord? {
      var attempt := SendEmail(c.name, template, ev.reply);
      progress.Record(c, attempt, ev.now);
      if ev.fault.ErrorAfterRecord? {
        progress.CountUnexpected();
      }
    }
    progress.Save(file, ev.now);
  }
}
