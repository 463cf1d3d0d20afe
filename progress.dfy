/** The campaign's progress record (`load_progress`, `save_progress` and the
    updates the dispatch loop makes to the progress dict). */
module CampaignProgress {
  import opened Results
  import opened Dispatch

  /** One entry of `failed_emails`. */
  datatype FailureRecord = FailureRecord(email: string, name: string, error: string, timestamp: string)

  /** The progress dict's six fields as one value; timestamps are opaque
      ISO strings and `None` is Python's `None`. */
  datatype Snapshot = Snapshot(
    lastProcessedIndex: int,
    sentCount: int,
    failedCount: int,
    failedEmails: seq<FailureRecord>,
    startTime: Option<string>,
    lastRunTime: Option<string>)

  /** `load_progress`: the saved record when the progress file exists,
      otherwise a record that has processed nothing yet. */
  function LoadProgress(stored: Option<Snapshot>): (s: Snapshot)
    ensures stored.Some? ==> s == stored.value
    ensures stored.None? ==>
      && s.lastProcessedIndex == -1 && s.sentCount == 0 && s.failedCount == 0
      && s.failedEmails == [] && s.startTime == None && s.lastRunTime == None
  {
    match stored
    case Some(saved) => saved
    case None => Snapshot(-1, 0, 0, [], None, None)
  }

  /** The start time is set on the first run and kept on every resume. */
  function Started(s: Snapshot, now: string): (r: Snapshot)
    ensures r.startTime.Some?
    ensures s.startTime.None? ==> r.startTime == Some(now)
    ensures s.startTime.Some? ==> r == s
    ensures r == s.(startTime := r.startTime)
  {
    if s.startTime.None? then s.(startTime := Some(now)) else s
  }

  /** The progress update for one attempt: a success counts as sent and
      moves the resume point to this customer; a failure is counted and
      listed but leaves the resume point where it was. */
  function ApplyAttempt(s: Snapshot, c: Customer, a: Attempt, timestamp: string): (r: Snapshot)
    ensures r.sentCount + r.failedCount == s.sentCount + s.failedCount + 1
    ensures r.failedCount - |r.failedEmails| == s.failedCount - |s.failedEmails|
    ensures r.lastProcessedIndex == (if a.Sent? then c.index else s.lastProcessedIndex)
    ensures a.Sent? ==> r.sentCount == s.sentCount + 1 && r.failedEmails == s.failedEmails
    ensures a.Failed? ==>
      r.sentCount == s.sentCount && r.failedEmails == s.failedEmails + [FailureRecord(c.email, c.name, a.reason, timestamp)]
    ensures r.startTime == s.startTime && r.lastRunTime == s.lastRunTime
  {
    match a
    case Sent =>
      s.(sentCount := s.sentCount + 1, lastProcessedIndex := c.index)
    case Failed(reason) =>
      s.(failedCount := s.failedCount + 1,
         failedEmails := s.failedEmails + [FailureRecord(c.email, c.name, reason, timestamp)])
  }

  /** The catch-all handler's update: one more failure, nothing listed. */
  function WithUnexpected(s: Snapshot): (r: Snapshot)
    ensures r.failedCount == s.failedCount + 1
    ensures r == s.(failedCount := r.failedCount)
  {
    s.(failedCount := s.failedCount + 1)
  }

  /** What `save_progress` changes in the dict before writing it. */
  function Stamp(s: Snapshot, now: string): (r: Snapshot)
    ensures r.lastRunTime == Some(now)
    ensures r == s.(lastRunTime := r.lastRunTime)
  {
    s.(lastRunTime := Some(now))
  }

  /** The progress file: absent, or holding the last record written. */
  class ProgressFile {
    var contents: Option<Snapshot>

    constructor (contents: Option<Snapshot>)
      ensures this.contents == contents
    {
      this.contents := contents;
    }
  }

  /** The in-memory progress dict the campaign loop updates in place. */
  class ProgressRecord {
    var lastProcessedIndex: int
    var sentCount: int
    var failedCount: int
    var failedEmails: seq<FailureRecord>
    var startTime: Option<string>
    var lastRunTime: Option<string>

    function State(): Snapshot
      reads this
    {
      Snapshot(lastProcessedIndex, sentCount, failedCount, failedEmails, startTime, lastRunTime)
    }

    /** `load_progress()` */
    constructor Load(file: ProgressFile)
      ensures State() == LoadProgress(file.contents)
    {
      var s := LoadProgress(file.contents);
      lastProcessedIndex := s.lastProcessedIndex;
      sentCount := s.sentCount;
      failedCount := s.failedCount;
      failedEmails := s.failedEmails;
      startTime := s.startTime;
      lastRunTime := s.lastRunTime;
    }

    /** `if progress['start_time'] is None: progress['start_time'] = now` */
    method MarkStarted(now: string)
      modifies this
      ensures State() == Started(old(State()), now)
    {
      if startTime.None? {
        startTime := Some(now);
      }
    }

    /** The success and failure branches of the dispatch loop. */
    method Record(c: Customer, a: Attempt, timestamp: string)
      modifies this
      ensures State() == ApplyAttempt(old(State()), c, a, timestamp)
    {
      match a
      case Sent =>
        sentCount := sentCount + 1;
        lastProcessedIndex := c.index;
      case Failed(reason) =>
        failedCount := failedCount + 1;
        failedEmails := failedEmails + [FailureRecord(c.email, c.name, reason, timestamp)];
    }

    /** `progress['failed_count'] += 1` in the catch-all handler. */
    method CountUnexpected()
      modifies this
      ensures State() == WithUnexpected(old(State()))
    {
      failedCount := failedCount + 1;
    }

    /** `save_progress`: stamp the run time, then overwrite the file with
      the whole record. */
    method Save(file: ProgressFile, now: string)
      modifies this, file
      ensures State() == Stamp(old(State()), now)
      ensures file.contents == Some(State())
    {
      lastRunTime := Some(now);
      file.contents := Some(State());
    }
  }
}
