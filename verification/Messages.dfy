/** MemoryMessagesWorker.Process: one maintenance job per fact the language model finds. */
module Messages {
  import opened Tables
  import opened Embeddings
  import opened Store
  import opened Runs

  datatype Message = Message(role: string, content: string)

  /** What the job carries; `messages` is absent when the entry is missing or unreadable. */
  datatype Progress = Progress(principal: string, messages: Option<seq<Message>>)

  /** The language model together with the reading of its answer. */
  type FactFinder = string -> Result<seq<string>>

  function Transcript(messages: seq<Message>): string {
    if messages == [] then ""
    else
      var m := messages[|messages| - 1];
      Transcript(messages[..|messages| - 1]) + m.role + ": " + m.content + "\n"
  }

  function FanOut(db: Db, facts: seq<string>): Db {
    if facts == [] then db
    else
      var before := FanOut(db, facts[..|facts| - 1]);
      if facts[|facts| - 1] == "" then before else InsertJob(before, None, MemoryMaintenance)
  }

  function MessagesJob(db: Db, progress: Progress, finder: FactFinder): (Db, JobOutcome) {
    if progress.principal == "" || progress.messages.None? then (db, FailedWith(Invalid))
    else if progress.messages.value == [] then (db, Succeeded)
    else
      match finder(Transcript(progress.messages.value))
      case Err(e) => (db, FailedWith(e))
      case Ok(facts) => (FanOut(db, facts), Succeeded)
  }

  class MemoryMessagesWorker {
    const db: Database

    constructor (db: Database)
      ensures this.db == db
    {
      this.db := db;
    }

    method Process(progress: Progress, finder: FactFinder) returns (outcome: JobOutcome)
      modifies db
      ensures (db.State(), outcome) == MessagesJob(old(db.State()), progress, finder)
    {
      if progress.principal == "" || progress.messages.None? {
        return FailedWith(Invalid);
      }
      var messages := progress.messages.value;
      if messages == [] {
        return Succeeded;
      }
      var transcript := "";
      for i := 0 to |messages|
        invariant transcript == Transcript(messages[..i])
      {
        assert messages[..i + 1][..i] == messages[..i];
        transcript := transcript + messages[i].role + ": " + messages[i].content + "\n";
      }
      assert messages[..|messages|] == messages;
      var facts := finder(transcript);
      if facts.Err? {
        return FailedWith(facts.error);
      }
      for i := 0 to |facts.value|
        invariant db.State() == FanOut(old(db.State()), facts.value[..i])
      {
        assert facts.value[..i + 1][..i] == facts.value[..i];
        if facts.value[i] == "" {
          continue;
        }
        db.CreateJob(None, MemoryMaintenance);
      }
      assert facts.value[..|facts.value|] == facts.value;
      outcome := Succeeded;
    }
  }

  // ----- what the model is asked, and what comes of it ---------------------------------------

  /** One message is a line of its role and its content, and the lines follow one another. */
  lemma {:induction false} TranscriptIsLines(before: seq<Message>, m: Message, rest: seq<Message>)
    ensures Transcript([m]) == m.role + ": " + m.content + "\n"
    ensures Transcript(before + rest) == Transcript(before) + Transcript(rest)
  {
    assert [m][..0] == [] && Transcript([]) + m.role == m.role;
    if rest == [] {
      assert before + rest == before;
    } else {
      var n := |rest| - 1;
      TranscriptIsLines(before, m, rest[..n]);
      assert (before + rest)[..|before + rest| - 1] == before + rest[..n];
    }
  }

  /** Where the facts stand that are not empty. */
  function NotEmpty(facts: seq<string>): set<nat> {
    set i: nat | i < |facts| && facts[i] != ""
  }

  lemma {:induction false} FactsCount(facts: seq<string>)
    ensures Facts(facts) == |NotEmpty(facts)|
  {
    if facts != [] {
      var n := |facts| - 1;
      FactsCount(facts[..n]);
      assert NotEmpty(facts) == NotEmpty(facts[..n]) + if facts[n] == "" then {} else {n};
    }
  }

  /** The job fails without a principal or readable messages and when the model fails, has
      nothing to do without a message, and otherwise asks for the facts of the transcript and
      inserts a job for each that is not empty. */
  lemma MessagesOutcome(db: Db, progress: Progress, finder: FactFinder)
    ensures var (after, outcome) := MessagesJob(db, progress, finder);
            if progress.principal == "" || progress.messages.None? then outcome == FailedWith(Invalid) && after == db
            else if progress.messages.value == [] then outcome == Succeeded && after == db
            else
              var answer := finder(Transcript(progress.messages.value));
              if answer.Err? then outcome == FailedWith(answer.error) && after == db
              else
                && outcome == Succeeded
                && after == db.(jobs := db.jobs + Copies(|NotEmpty(answer.value)|, Job(None, MemoryMaintenance, Queued, db.now)))
  {
    if progress.messages.Some? && finder(Transcript(progress.messages.value)).Ok? {
      var facts := finder(Transcript(progress.messages.value)).value;
      FanOutInserts(db, facts);
      FactsCount(facts);
    }
  }

  // ----- how many jobs ---------------------------------------------------------------------

  function Facts(facts: seq<string>): nat {
    if facts == [] then 0 else Facts(facts[..|facts| - 1]) + if facts[|facts| - 1] == "" then 0 else 1
  }

  /** One job per fact that is not empty. */
  lemma {:induction false} FanOutInserts(db: Db, facts: seq<string>)
    ensures FanOut(db, facts) == db.(jobs := db.jobs + Copies(Facts(facts), Job(None, MemoryMaintenance, Queued, db.now)))
  {
    if facts != [] {
      FanOutInserts(db, facts[..|facts| - 1]);
    }
  }
}
