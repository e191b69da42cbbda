/**
 One game with its only job and that job's stored runs: finalization publishes a result,
 the owner's read consumes it, terminal failures clean up. Each transaction is one atomic
 step; a transaction that raises is rolled back. `analysis_jobs` allows one job per game.
 */
module Release {
  import opened Common
  import opened Chess
  import opened FullGame
  import opened EngineConfig
  import opened JobLifecycle
  import opened Retry
  import opened Persistence
  import J = JobRuns

  datatype GameRow = GameRow(
    game: GameId, owner: UserId, status: GameStatus, verified: bool, availableAt: Option<int>,
    moves: Option<seq<Uci>>, initialFen: Option<nat>, payloadHash: Option<nat>)

  /** What `create_for_completed_game` asks of a game. */
  predicate Eligible(game: GameRow) {
    && game.status == FINISHED && game.verified
    && game.moves.Some? && game.moves.value != []
    && game.payloadHash.Some? && game.availableAt.None?
  }

  /** `TerminalGameDataCleanup.delete_for_job` */
  function Clean(game: GameRow): GameRow {
    game.(moves := None, initialFen := None, payloadHash := None)
  }

  predicate Cleaned(game: GameRow) {
    game.moves.None? && game.initialFen.None? && game.payloadHash.None?
  }

  datatype Record = Record(id: JobId, entry: Entry, game: GameRow, runs: map<nat, StoredRun>)

  datatype Write = Write(
    worker: WorkerId, generation: nat, result: AnalysisResult, configuration: Configuration,
    started: int, finished: int)

  datatype FinalizeReply = Existing | Published | RolledBack(error: PersistError)

  /** The authority check of `replace_owned_generation`. */
  predicate MayWrite(r: Record, w: Write) {
    var job := r.entry.job;
    && job.status == RUNNING && job.OwnsLease(w.worker, w.generation)
    && job.leaseExpires.Some? && job.leaseExpires.value > w.finished
    && r.game.game == w.result.game
    && r.game.status in {FINISHED, DEEP_ANALYSIS_RUNNING} && r.game.verified
  }

  /** `replace_owned_generation` */
  function Replace(r: Record, w: Write): Result<Record, PersistError> {
    if !OnlyComplete(w.result) then Err(NotComplete)
    else if !MayWrite(r, w) then Err(NoAuthority)
    else if !Consistent(w.result) then Err(Contract)
    else if !Resolvable(w.result) then Err(MissingPosition)
    else Ok(r.(runs := r.runs[w.generation :=
                 Stored(RunId(r.id, w.generation), w.result, w.configuration, w.started, w.finished)]))
  }

  /** `get_idempotent_available_generation` finds this generation published. */
  predicate AlreadyPublished(r: Record, g: nat) {
    && g in r.runs && r.runs[g].run.complete
    && r.entry.job.status == SUCCEEDED && r.entry.job.generation == g
    && r.game.status == ANALYSIS_AVAILABLE && r.game.availableAt.Some?
  }

  /** The counts of the run row are those of the rows, and nothing is missing. */
  predicate FullCounts(stored: StoredRun) {
    && |stored.positions| == stored.run.evaluatedPositions == stored.run.totalPositions
    && |stored.moves| == stored.run.completedMoves == stored.run.totalMoves
  }

  /** The checks of `make_owned_generation_available`. */
  predicate MayRelease(r: Record, g: nat) {
    && r.entry.job.status == SUCCEEDED && r.entry.job.generation == g && g in r.runs
    && r.runs[g].run.id == RunId(r.id, g) && r.runs[g].run.game == r.game.game
    && r.runs[g].run.complete && r.runs[g].run.failure.None?
    && FullCounts(r.runs[g])
    && r.game.status in {FINISHED, DEEP_ANALYSIS_RUNNING} && r.game.verified
    && r.game.moves.Some? && r.game.payloadHash.Some?
    && |r.game.moves.value| == r.runs[g].run.completedMoves
  }

  /** The checks the service makes before it opens the transaction. */
  predicate ProperCall(w: Write) {
    w.generation >= 1 && w.started <= w.finished
  }

  /** `persist_owned_generation` */
  function PersistRecord(r: Record, w: Write): Result<Record, PersistError> {
    if !OnlyComplete(w.result) then Err(NotComplete)
    else if !ProperCall(w) then Err(BadCall)
    else Replace(r, w)
  }

  /** The transaction after the replacement: complete the job, publish, clean up; None if a check fails. */
  function CompleteAndRelease(r: Record, w: Write): Option<Record> {
    var completed := CompleteJob(r.entry, w.worker, w.generation, w.finished);
    if !completed.Applied? then None else
    var done := r.(entry := completed.entry);
    if MayRelease(done, w.generation) then Some(done.(game := PublishedGame(done.game, w.finished))) else None
  }

  /** `persist_and_complete_owned_generation`: all of its writes or none. */
  function FinalizeRecord(r: Record, w: Write): (Record, FinalizeReply) {
    if !OnlyComplete(w.result) then (r, RolledBack(NotComplete))
    else if !ProperCall(w) then (r, RolledBack(BadCall))
    else if AlreadyPublished(r, w.generation) then (r, Existing)
    else
      var replaced := Replace(r, w);
      if replaced.Err? then (r, RolledBack(replaced.error)) else
      var released := CompleteAndRelease(replaced.value, w);
      if released.None? then (r, RolledBack(NoAuthority)) else (released.value, Published)
  }

  /** The availability transition and the cleanup that follows it. */
  function PublishedGame(game: GameRow, now: int): GameRow {
    Clean(game.(status := ANALYSIS_AVAILABLE, availableAt := Some(now)))
  }

  /** `consume_public_generation` */
  function ConsumeRun(r: Record, g: nat): (Record, bool) {
    if g !in r.runs then (r, false)
    else (r.(runs := r.runs - {g}, game := r.game.(status := FINISHED, availableAt := None)), true)
  }

  // ---------------------------------------------------------------- runs of one game

  /**
   `seen` are the generations some reader has loaded and not consumed yet, with what it
   read; `released` and `delivered` record what was ever published and handed out.
   */
  datatype State = State(
    record: Record, seen: set<(nat, StoredRun)>, released: Option<StoredRun>, delivered: seq<StoredRun>)

  datatype Act =
    | OnJob(ev: Event)
    | FailAndClean(worker: WorkerId, generation: nat, now: int)
    | TerminalizeAndClean(target: Status, now: int)
    | Persist(write: Write)
    | Finalize(write: Write)
    | Load
    | Consume(generation: nat, content: StoredRun)

  /** Only finalization completes a job; failing and terminalizing come with their cleanup. */
  predicate Bare(ev: Event) {
    !ev.Complete? && !ev.Fail? && !ev.Terminalize?
  }

  /** The cleanup commits with the accepted mutation, or neither does. */
  function WithCleanup(r: Record, ev: Event): Record {
    var verdict := Decide(r.entry, ev);
    if verdict.Applied? then r.(entry := verdict.entry, game := Clean(r.game)) else r
  }

  function TakeAct(s: State, act: Act): State {
    match act
    case OnJob(ev) => if Bare(ev) then s.(record := s.record.(entry := After(s.record.entry, ev))) else s
    case FailAndClean(w, g, now) => s.(record := WithCleanup(s.record, Fail(w, g, now)))
    case TerminalizeAndClean(target, now) => s.(record := WithCleanup(s.record, Terminalize(target, now)))
    case Persist(w) =>
      var replaced := PersistRecord(s.record, w);
      if replaced.Ok? then s.(record := replaced.value) else s
    case Finalize(w) =>
      var (record, reply) := FinalizeRecord(s.record, w);
      if reply.Published? then s.(record := record, released := Some(record.runs[w.generation])) else s
    case Load =>
      var g := s.record.entry.job.generation;
      if s.record.entry.job.status == SUCCEEDED && g in s.record.runs
      then s.(seen := s.seen + {(g, s.record.runs[g])}) else s
    case Consume(g, content) =>
      var (record, consumed) := ConsumeRun(s.record, g);
      if (g, content) in s.seen && consumed then s.(record := record, delivered := s.delivered + [content]) else s
  }

  function RunActs(s: State, acts: seq<Act>): State
    decreases |acts|
  {
    if acts == [] then s else RunActs(TakeAct(s, acts[0]), acts[1..])
  }

  /** A job as `create_if_absent` inserts it for an eligible game. */
  function Created(id: JobId, game: GameRow, maxAttempts: nat): State {
    State(Record(id, Fresh(id.owner, maxAttempts), game, map[]), {}, None, [])
  }

  // ---------------------------------------------------------------- the law of the release

  /** What was published is a whole, readable run of this generation. */
  predicate Whole(stored: StoredRun, run: RunId) {
    && stored.run.id == run && stored.run.complete && stored.run.failure.None?
    && FullCounts(stored) && Rebuild(stored).Ok?
  }

  /** Before success nothing was published, seen or delivered. */
  predicate Unreleased(s: State) {
    s.seen == {} && s.released == None && s.delivered == [] && s.record.game.status != ANALYSIS_AVAILABLE
  }

  /** After it one run was: it is stored, or it was delivered and is gone. */
  ghost predicate ReleasedOnce(s: State) {
    var g := s.record.entry.job.generation;
    && s.released.Some? && Whole(s.released.value, RunId(s.record.id, g))
    && (forall p :: p in s.seen ==> p == (g, s.released.value))
    && if s.record.game.status == ANALYSIS_AVAILABLE
       then s.delivered == [] && s.record.game.availableAt.Some?
            && g in s.record.runs && s.record.runs[g] == s.released.value
       else s.delivered == [s.released.value] && g !in s.record.runs
  }

  ghost predicate Inv(s: State) {
    && Lawful(s.record.entry)
    && (if s.record.entry.job.status == SUCCEEDED then ReleasedOnce(s) else Unreleased(s))
    && (if s.record.entry.job.finishedAt.Some? then Cleaned(s.record.game) else Eligible(s.record.game))
  }

  lemma BareFacts(e: Entry, ev: Event)
    requires Lawful(e) && Bare(ev)
    ensures var job := After(e, ev).job;
            && (job.status == SUCCEEDED <==> e.job.status == SUCCEEDED)
            && (job.status == SUCCEEDED ==> job.generation == e.job.generation)
            && (job.finishedAt.Some? <==> e.job.finishedAt.Some?)
  {
  }

  lemma OnJobInv(s: State, ev: Event)
    requires Inv(s)
    ensures Inv(TakeAct(s, OnJob(ev)))
  {
    if Bare(ev) {
      StepLawful(s.record.entry, ev);
      BareFacts(s.record.entry, ev);
    }
  }

  lemma CleanupInv(s: State, ev: Event)
    requires Inv(s) && (ev.Fail? || ev.Terminalize?)
    ensures Inv(s.(record := WithCleanup(s.record, ev)))
  {
    StepLawful(s.record.entry, ev);
  }

  lemma PersistInv(s: State, w: Write)
    requires Inv(s)
    ensures Inv(TakeAct(s, Persist(w)))
  {
  }

  /** What the rows of a storable result count. */
  lemma StoredCounts(run: RunId, w: Write)
    requires Consistent(w.result)
    ensures var stored := Stored(run, w.result, w.configuration, w.started, w.finished);
            && |stored.positions| == stored.run.evaluatedPositions
            && |stored.moves| == stored.run.completedMoves
  {
    PositionRowsAt(run, SortedPositions(w.result));
    MoveRowsAt(run, SortedMoves(w.result));
  }

  lemma ReplacedIsReadable(r: Record, w: Write)
    requires Replace(r, w).Ok?
    ensures var stored := Replace(r, w).value.runs[w.generation];
            && stored.run.id == RunId(r.id, w.generation) && stored.run.complete && stored.run.failure.None?
            && Rebuild(stored).Ok?
  {
    ReadBack(RunId(r.id, w.generation), w.result, w.configuration, w.started, w.finished);
  }

  lemma CompleteVerdict(e: Entry, w: WorkerId, g: nat, now: int)
    ensures Decide(e, Event.Complete(w, g, now)) == CompleteJob(e, w, g, now)
  {
  }

  /** A successful release completed the job and published the game. */
  lemma ReleasedSteps(r: Record, w: Write)
    requires CompleteAndRelease(r, w).Some?
    ensures var e := After(r.entry, Event.Complete(w.worker, w.generation, w.finished));
            && CompleteJob(r.entry, w.worker, w.generation, w.finished) == Applied(e)
            && MayRelease(r.(entry := e), w.generation)
            && CompleteAndRelease(r, w).value == r.(entry := e, game := PublishedGame(r.game, w.finished))
  {
    CompleteVerdict(r.entry, w.worker, w.generation, w.finished);
  }

  /** The steps a successful finalization went through. */
  lemma PublishedSteps(r: Record, w: Write)
    requires FinalizeRecord(r, w).1.Published?
    ensures Replace(r, w).Ok? && CompleteAndRelease(Replace(r, w).value, w) == Some(FinalizeRecord(r, w).0)
  {
  }

  /** The one record a successful finalization leads to. */
  lemma PublishedRecord(r: Record, w: Write)
    ensures FinalizeRecord(r, w).1.Published? ==>
            var r' := FinalizeRecord(r, w).0;
            && r.entry.job.status == RUNNING && r.entry.job.generation == w.generation
            && r'.id == r.id && r'.entry == After(r.entry, Event.Complete(w.worker, w.generation, w.finished))
            && r'.entry.job.status == SUCCEEDED && r'.entry.job.generation == w.generation
            && r'.entry.job.finishedAt.Some?
            && w.generation in r'.runs && Whole(r'.runs[w.generation], RunId(r.id, w.generation))
            && r'.game.status == ANALYSIS_AVAILABLE && r'.game.availableAt.Some? && Cleaned(r'.game)
  {
    if FinalizeRecord(r, w).1.Published? {
      PublishedSteps(r, w);
      ReleasedSteps(Replace(r, w).value, w);
      ReplacedIsReadable(r, w);
    }
  }

  /** What the finalizing transaction writes is the record of its act, also when it publishes nothing. */
  lemma FinalizeIsAct(s: State, write: Write)
    ensures FinalizeRecord(s.record, write).0 == TakeAct(s, Finalize(write)).record
  {
    var (record, reply) := FinalizeRecord(s.record, write);
    assert !reply.Published? ==> record == s.record;
  }

  lemma FinalizeInv(s: State, w: Write)
    requires Inv(s)
    ensures Inv(TakeAct(s, Finalize(w)))
  {
    if FinalizeRecord(s.record, w).1.Published? {
      PublishedRecord(s.record, w);
      StepLawful(s.record.entry, Event.Complete(w.worker, w.generation, w.finished));
    }
  }

  lemma ReaderInv(s: State, act: Act)
    requires Inv(s) && (act.Load? || act.Consume?)
    ensures Inv(TakeAct(s, act))
  {
  }

  lemma ActInv(s: State, act: Act)
    requires Inv(s)
    ensures Inv(TakeAct(s, act))
  {
    match act
    case OnJob(ev) => OnJobInv(s, ev);
    case FailAndClean(w, g, now) => CleanupInv(s, Fail(w, g, now));
    case TerminalizeAndClean(target, now) => CleanupInv(s, Terminalize(target, now));
    case Persist(w) => PersistInv(s, w);
    case Finalize(w) => FinalizeInv(s, w);
    case _ => ReaderInv(s, act);
  }

  lemma {:induction false} ActsInv(s: State, acts: seq<Act>)
    requires Inv(s)
    ensures Inv(RunActs(s, acts))
    decreases |acts|
  {
    if acts != [] {
      ActInv(s, acts[0]);
      ActsInv(TakeAct(s, acts[0]), acts[1..]);
    }
  }

  /**
   At most once, for every run of an eligible game: an available game has a succeeded job
   and a whole stored run of that job's generation, at most one result is ever delivered,
   and it is the one finalization published.
   */
  lemma AtMostOnce(id: JobId, game: GameRow, maxAttempts: nat, acts: seq<Act>)
    requires Eligible(game)
    ensures var s := RunActs(Created(id, game, maxAttempts), acts);
            var g := s.record.entry.job.generation;
            && |s.delivered| <= 1
            && (s.delivered != [] ==> s.released == Some(s.delivered[0]))
            && (s.record.game.status == ANALYSIS_AVAILABLE ==>
                  && s.record.entry.job.status == SUCCEEDED && s.delivered == []
                  && g in s.record.runs && Whole(s.record.runs[g], RunId(s.record.id, g)))
  {
    FreshLawful(id.owner, maxAttempts);
    ActsInv(Created(id, game, maxAttempts), acts);
  }

  /** The game will not become available, now or later. */
  predicate Spent(s: State) {
    s.delivered != [] || s.record.entry.job.status in {FAILED, CANCELLED}
  }

  lemma SpentStays(s: State, act: Act)
    requires Inv(s) && Spent(s)
    ensures Spent(TakeAct(s, act)) && TakeAct(s, act).delivered == s.delivered
    ensures act.Finalize? ==> TakeAct(s, act) == s && FinalizeRecord(s.record, act.write).1.RolledBack?
  {
    assert s.record.entry.job.Terminal();
    if act.OnJob? {
      J.StepFacts(s.record.entry, act.ev);
    }
  }

  /** After a delivery or a terminal failure no run makes the game available again, and finalizing is refused. */
  lemma {:induction false} NeverAgain(s: State, acts: seq<Act>, w: Write)
    requires Inv(s) && Spent(s)
    ensures var s' := RunActs(s, acts);
            && s'.record.game.status != ANALYSIS_AVAILABLE && s'.delivered == s.delivered
            && FinalizeRecord(s'.record, w).0 == s'.record && FinalizeRecord(s'.record, w).1.RolledBack?
    decreases |acts|
  {
    if acts == [] {
      SpentStays(s, Finalize(w));
    } else {
      SpentStays(s, acts[0]);
      ActInv(s, acts[0]);
      NeverAgain(TakeAct(s, acts[0]), acts[1..], w);
    }
  }

  /** Until the delivery, finalizing the published generation again, by anyone, answers with it and changes nothing. */
  lemma FinalizeAgain(s: State, w: Write)
    requires Inv(s) && s.record.game.status == ANALYSIS_AVAILABLE && OnlyComplete(w.result) && ProperCall(w)
    ensures FinalizeRecord(s.record, w)
            == (s.record, if w.generation == s.record.entry.job.generation then Existing else RolledBack(NoAuthority))
  {
  }

  /** Finalization publishes exactly for the lease holder in time, with a storable result that covers the whole game. */
  lemma PublishesExactly(s: State, w: Write)
    requires Inv(s)
    ensures FinalizeRecord(s.record, w).1 == Published <==>
            && ProperCall(w) && MayWrite(s.record, w)
            && Consistent(w.result) && Resolvable(w.result)
            && w.result.checkpoint.totalPositions == w.result.checkpoint.evaluatedPositions
            && w.result.checkpoint.totalMoves == w.result.checkpoint.completedMoves == |s.record.game.moves.value|
  {
    if Consistent(w.result) {
      StoredCounts(RunId(s.record.id, w.generation), w);
    }
    CompleteVerdict(s.record.entry, w.worker, w.generation, w.finished);
  }

  /** The input the worker builds from the stored game. */
  function StoredInput(game: GameRow): GameInput {
    GameInput(game.game, game.status, game.verified, game.initialFen, if game.moves.Some? then game.moves.value else [])
  }

  /** The analyzer's COMPLETE result on the stored game is published exactly when the lease still holds. */
  lemma AnalysisPublishes(s: State, w: Write, rules: Rules, budget: Budget, started: int,
                          replay: seq<ReplayPosition>, tape: seq<Turn>, requests: seq<Request>)
    requires Inv(s) && s.record.game.moves.Some? && ProperCall(w)
    requires Replays(rules, StoredInput(s.record.game), replay) && |replay| <= |tape|
    requires Analyses(StoredInput(s.record.game), budget, started, replay, tape, w.result, requests)
    requires w.result.complete
    ensures FinalizeRecord(s.record, w).1 == Published <==> MayWrite(s.record, w)
  {
    var input := StoredInput(s.record.game);
    forall k | 0 <= k < |replay|
      ensures replay[k].ply == k
    {
      assert replay[k] == PositionAt(rules, StartOf(rules, input).value, input.moves, k);
    }
    AnalyzerResultStorable(input, budget, started, replay, tape, w.result, requests);
    PublishesExactly(s, w);
  }

  // ---------------------------------------------------------------- fencing of result writes

  /** The job event an act fires, if it fires any. */
  function EventIn(act: Act): Option<Event> {
    match act
    case OnJob(ev) => Some(ev)
    case FailAndClean(w, g, now) => Some(Fail(w, g, now))
    case TerminalizeAndClean(target, now) => Some(Terminalize(target, now))
    case Finalize(w) => Some(Event.Complete(w.worker, w.generation, w.finished))
    case _ => None
  }

  lemma ActOnEntry(s: State, act: Act)
    ensures var e, e' := s.record.entry, TakeAct(s, act).record.entry;
            e' == e || (EventIn(act).Some? && e' == After(e, EventIn(act).value))
  {
    if act.Finalize? && FinalizeRecord(s.record, act.write).1.Published? {
      PublishedRecord(s.record, act.write);
    }
  }

  /** Once generation g is over, no result write carrying g changes anything, in any later state. */
  lemma {:induction false} ResultFencing(s: State, acts: seq<Act>, w: Write)
    requires Inv(s) && J.Over(s.record.entry.job, w.generation)
    ensures var r := RunActs(s, acts).record;
            && J.Over(r.entry.job, w.generation)
            && PersistRecord(r, w).Err? && FinalizeRecord(r, w).0 == r
    decreases |acts|
  {
    if acts != [] {
      ActOnEntry(s, acts[0]);
      if EventIn(acts[0]).Some? {
        J.StepFacts(s.record.entry, EventIn(acts[0]).value);
      }
      ActInv(s, acts[0]);
      ResultFencing(TakeAct(s, acts[0]), acts[1..], w);
    }
  }

  // ---------------------------------------------------------------- cleanup

  /** The act is the lease recovery, the one way to end a job without its cleanup. */
  predicate Recovers(act: Act) {
    act.OnJob? && act.ev.Recover?
  }

  /** The act that ends a job deletes its game's data exactly unless it is the lease recovery. */
  lemma CleanupExactly(s: State, act: Act)
    requires Inv(s) && !s.record.entry.job.Terminal() && TakeAct(s, act).record.entry.job.Terminal()
    ensures Cleaned(TakeAct(s, act).record.game) <==> !Recovers(act)
    ensures Recovers(act) ==> TakeAct(s, act).record.game == s.record.game
  {
    ActInv(s, act);
    if act.OnJob? {
      J.FinishTimestamp(s.record.entry, act.ev);
    }
  }

  /** The act of the run that ends the job is a lease recovery. */
  predicate EndsInRecovery(s: State, acts: seq<Act>)
    decreases |acts|
  {
    acts != []
    && if TakeAct(s, acts[0]).record.entry.job.Terminal() then Recovers(acts[0])
       else EndsInRecovery(TakeAct(s, acts[0]), acts[1..])
  }

  lemma {:induction false} EndedStays(s: State, acts: seq<Act>)
    requires Inv(s) && s.record.entry.job.Terminal()
    ensures Cleaned(RunActs(s, acts).record.game) <==> Cleaned(s.record.game)
    decreases |acts|
  {
    if acts != [] {
      ActOnEntry(s, acts[0]);
      if EventIn(acts[0]).Some? {
        J.StepFacts(s.record.entry, EventIn(acts[0]).value);
      }
      ActInv(s, acts[0]);
      EndedStays(TakeAct(s, acts[0]), acts[1..]);
    }
  }

  /** Over any run that ends the job, the game's data is gone exactly unless a lease recovery ended it. */
  lemma {:induction false} CleanedExactly(s: State, acts: seq<Act>)
    requires Inv(s) && !s.record.entry.job.Terminal()
    ensures var r := RunActs(s, acts).record;
            if r.entry.job.Terminal() then Cleaned(r.game) <==> !EndsInRecovery(s, acts) else Eligible(r.game)
    decreases |acts|
  {
    if acts != [] {
      ActInv(s, acts[0]);
      if TakeAct(s, acts[0]).record.entry.job.Terminal() {
        CleanupExactly(s, acts[0]);
        EndedStays(TakeAct(s, acts[0]), acts[1..]);
        TerminalStays(TakeAct(s, acts[0]), acts[1..]);
      } else {
        CleanedExactly(TakeAct(s, acts[0]), acts[1..]);
      }
    }
  }

  lemma {:induction false} TerminalStays(s: State, acts: seq<Act>)
    requires Inv(s) && s.record.entry.job.Terminal()
    ensures RunActs(s, acts).record.entry.job.Terminal()
    decreases |acts|
  {
    if acts != [] {
      ActOnEntry(s, acts[0]);
      if EventIn(acts[0]).Some? {
        J.StepFacts(s.record.entry, EventIn(acts[0]).value);
      }
      ActInv(s, acts[0]);
      TerminalStays(TakeAct(s, acts[0]), acts[1..]);
    }
  }

  function OnJobs(evs: seq<Event>): seq<Act> {
    if evs == [] then [] else [OnJob(evs[0])] + OnJobs(evs[1..])
  }

  /** Acts on the job alone run its row and leave its game. */
  lemma {:induction false} OnJobsRun(s: State, evs: seq<Event>)
    requires forall ev :: ev in evs ==> Bare(ev)
    ensures RunActs(s, OnJobs(evs)).record.entry == Run(s.record.entry, evs)
    ensures RunActs(s, OnJobs(evs)).record.game == s.record.game
    decreases |evs|
  {
    if evs != [] {
      assert OnJobs(evs)[1..] == OnJobs(evs[1..]);
      OnJobsRun(TakeAct(s, OnJob(evs[0])), evs[1..]);
    }
  }

  /** The input that fails: the only lease of a new job runs out, and its recovery keeps the game as it was. */
  lemma RecoveryKeepsData(id: JobId, game: GameRow)
    requires Eligible(game)
    ensures var acts := OnJobs([EnsureOutbox, Publish(0, 0), Claim(0, 0, 1), Recover(5, RetryPolicy(1, 1, 0), 0)]);
            var r := RunActs(Created(id, game, 1), acts).record;
            r.entry.job.status == FAILED && r.game == game && !Cleaned(r.game)
  {
    J.RecoveryForgetsFinishTime(id.owner);
    OnJobsRun(Created(id, game, 1), [EnsureOutbox, Publish(0, 0), Claim(0, 0, 1), Recover(5, RetryPolicy(1, 1, 0), 0)]);
  }

  /** A load followed by the consumption of what was loaded delivers the published run. */
  lemma LoadThenConsume(s: State)
    requires Inv(s) && s.record.game.status == ANALYSIS_AVAILABLE
    ensures var g := s.record.entry.job.generation;
            && g in s.record.runs && s.released == Some(s.record.runs[g]) && s.delivered == []
            && var s' := RunActs(s, [Load, Consume(g, s.record.runs[g])]);
            && s'.record == ConsumeRun(s.record, g).0 && s'.delivered == [s.record.runs[g]]
            && s'.record.game.status == FINISHED
  {
    var g := s.record.entry.job.generation;
    var acts := [Load, Consume(g, s.record.runs[g])];
    assert acts[1..] == [Consume(g, s.record.runs[g])];
    assert acts[1..][1..] == [];
    assert RunActs(s, acts) == RunActs(TakeAct(s, Load), acts[1..]);
    assert RunActs(TakeAct(s, Load), acts[1..]) == TakeAct(TakeAct(s, Load), acts[1]);
  }

  lemma {:induction false} SeenStays(s: State, acts: seq<Act>, seen: (nat, StoredRun))
    requires seen in s.seen
    ensures seen in RunActs(s, acts).seen
    decreases |acts|
  {
    if acts != [] {
      assert seen in TakeAct(s, acts[0]).seen;
      SeenStays(TakeAct(s, acts[0]), acts[1..], seen);
    }
  }

  /** What a reader has loaded can be consumed exactly until somebody is served, and it has not changed. */
  lemma SeenIsServed(s: State, g: nat, content: StoredRun)
    requires Inv(s) && (g, content) in s.seen
    ensures ConsumeRun(s.record, g).1 <==> s.delivered == []
    ensures s.delivered == [] ==> s.record.runs[g] == content
    ensures s.delivered == [] ==>
              && TakeAct(s, Consume(g, content)).record == ConsumeRun(s.record, g).0
              && TakeAct(s, Consume(g, content)).delivered == [content]
  {
    assert ReleasedOnce(s);
  }

  /** A reader of an available game, and whatever transactions come before it consumes what it read. */
  lemma LoadedIsServedOnce(s: State, acts: seq<Act>)
    requires Inv(s) && s.record.game.status == ANALYSIS_AVAILABLE
    ensures var g := s.record.entry.job.generation;
            && g in s.record.runs
            && var t := RunActs(TakeAct(s, Load), acts);
            && (ConsumeRun(t.record, g).1 <==> t.delivered == [])
            && (ConsumeRun(t.record, g).1 ==>
                  && t.record.runs[g] == s.record.runs[g]
                  && TakeAct(t, Consume(g, s.record.runs[g])).record == ConsumeRun(t.record, g).0
                  && TakeAct(t, Consume(g, s.record.runs[g])).delivered == [s.record.runs[g]])
  {
    var g := s.record.entry.job.generation;
    assert (g, s.record.runs[g]) in TakeAct(s, Load).seen;
    ActInv(s, Load);
    ActsInv(TakeAct(s, Load), acts);
    SeenStays(TakeAct(s, Load), acts, (g, s.record.runs[g]));
    SeenIsServed(RunActs(TakeAct(s, Load), acts), g, s.record.runs[g]);
  }
}
