/**
 What the transactions of `services/analysis_results.py` leave of a game, its job and its
 runs, column by column, and which of their exceptions they raise.
 */
module ReleaseEffects {
  import opened Common
  import opened FullGame
  import opened JobLifecycle
  import opened Persistence
  import opened Release
  import E = JobEffects

  /** The columns of the game no transaction writes. */
  predicate SameGame(game: GameRow, game': GameRow) {
    game'.game == game.game && game'.owner == game.owner && game'.verified == game.verified
  }

  predicate DataKept(game: GameRow, game': GameRow) {
    game'.moves == game.moves && game'.initialFen == game.initialFen && game'.payloadHash == game.payloadHash
  }

  predicate SameRelease(game: GameRow, game': GameRow) {
    game'.status == game.status && game'.availableAt == game.availableAt
  }

  /** The run reads back as the result that was written, with its configuration and its times. */
  ghost predicate ReadsBack(stored: StoredRun, run: RunId, w: Write) {
    var read := Rebuild(stored);
    && read.Ok? && read.value.run == run && ReadsAs(w.result, read.value.result)
    && read.value.configuration == w.configuration
    && read.value.started == w.started && read.value.finished == w.finished
  }

  /** The run of the generation is the one written; those of other generations stay. */
  ghost predicate RunWritten(r: Record, r': Record, w: Write) {
    && r'.id == r.id && r'.runs.Keys == r.runs.Keys + {w.generation}
    && (forall g :: g in r.runs && g != w.generation ==> r'.runs[g] == r.runs[g])
    && ReadsBack(r'.runs[w.generation], RunId(r.id, w.generation), w)
  }

  /** The worker holds the RUNNING job past the time it finished, and the game is still to be analysed. */
  predicate HoldsJob(r: Record, w: Write) {
    var job := r.entry.job;
    && job.status == RUNNING && job.worker == Some(w.worker) && job.generation == w.generation
    && job.leaseExpires.Some? && w.finished < job.leaseExpires.value
    && w.result.game == r.game.game && r.game.verified
    && (r.game.status == FINISHED || r.game.status == DEEP_ANALYSIS_RUNNING)
  }

  /** Why nothing is written; the checks in order. */
  function Refusal(r: Record, w: Write): Option<PersistError> {
    if !w.result.complete || w.result.failure.Some? then Some(NotComplete)
    else if w.generation < 1 || w.finished < w.started then Some(BadCall)
    else if !HoldsJob(r, w) then Some(NoAuthority)
    else if !Consistent(w.result) then Some(Contract)
    else if w.result.moves != [] && |w.result.positions| <= |w.result.moves| then Some(MissingPosition)
    else None
  }

  /** Persisting writes the run and nothing else, or names the first check that fails. */
  lemma PersistsExactly(r: Record, w: Write)
    ensures PersistRecord(r, w).Err? <==> Refusal(r, w).Some?
    ensures PersistRecord(r, w).Err? ==> PersistRecord(r, w).error == Refusal(r, w).value
    ensures PersistRecord(r, w).Ok? ==>
              var r' := PersistRecord(r, w).value;
              RunWritten(r, r', w) && r'.entry == r.entry && r'.game == r.game
  {
    if Consistent(w.result) {
      ResolvableExactly(w.result);
      if Resolvable(w.result) {
        ReadBack(RunId(r.id, w.generation), w.result, w.configuration, w.started, w.finished);
      }
    }
  }

  /** The job is completed and the game available from the time of the write on, its submitted data gone. */
  ghost predicate Publication(r: Record, r': Record, w: Write) {
    && RunWritten(r, r', w)
    && r'.entry.job.status == SUCCEEDED && r'.entry.job.generation == w.generation
    && r'.entry.job.completedAt == Some(w.finished) && r'.entry.job.finishedAt == Some(w.finished)
    && E.LeaseDropped(r.entry.job, r'.entry.job) && E.SameIdentity(r.entry.job, r'.entry.job)
    && r'.entry.outbox == r.entry.outbox
    && r'.game.status == ANALYSIS_AVAILABLE && r'.game.availableAt == Some(w.finished)
    && Cleaned(r'.game) && SameGame(r.game, r'.game)
  }

  lemma PublicationExactly(r: Record, w: Write)
    requires FinalizeRecord(r, w).1.Published?
    ensures Publication(r, FinalizeRecord(r, w).0, w)
  {
    PublishedSteps(r, w);
    PersistsExactly(r, w);
    ReleasedSteps(Replace(r, w).value, w);
    E.CompleteExactly(r.entry, w.worker, w.generation, w.finished);
  }

  /** The result covers the whole submitted game, by all its counts. */
  predicate CoversGame(r: Record, w: Write) {
    && w.result.checkpoint.totalPositions == w.result.checkpoint.evaluatedPositions
    && w.result.checkpoint.totalMoves == w.result.checkpoint.completedMoves
    && r.game.moves.Some? && w.result.checkpoint.completedMoves == |r.game.moves.value|
  }

  /** The call asks for the run that is published already. */
  predicate AsksAgain(r: Record, w: Write) {
    && w.result.complete && w.result.failure.None? && w.generation >= 1 && w.started <= w.finished
    && r.game.status == ANALYSIS_AVAILABLE && r.entry.job.generation == w.generation
  }

  /**
   The three answers of a finalization over every reachable history: the run that is already
   published, its own publication, or the first check that fails, with nothing changed.
   */
  lemma FinalizeReplies(s: State, w: Write)
    requires Release.Inv(s)
    ensures var (r', reply) := FinalizeRecord(s.record, w);
            && (reply.Existing? <==> AsksAgain(s.record, w))
            && (reply.Published? <==> Refusal(s.record, w).None? && CoversGame(s.record, w))
            && (reply.RolledBack? ==>
                  reply.error == if Refusal(s.record, w).Some? then Refusal(s.record, w).value else NoAuthority)
            && (if reply.Published? then Publication(s.record, r', w) else r' == s.record)
  {
    PublishesExactly(s, w);
    PersistsExactly(s.record, w);
    if FinalizeRecord(s.record, w).1.Published? {
      PublicationExactly(s.record, w);
    }
  }

  /** Consuming takes the run away and locks the game; a missing run is left alone. */
  lemma ConsumesExactly(r: Record, g: nat)
    ensures ConsumeRun(r, g).1 <==> g in r.runs
    ensures var r' := ConsumeRun(r, g).0;
            && r'.id == r.id && r'.entry == r.entry && g !in r'.runs
            && (forall h :: h != g ==> (h in r'.runs <==> h in r.runs) && (h in r.runs ==> r'.runs[h] == r.runs[h]))
            && SameGame(r.game, r'.game) && DataKept(r.game, r'.game)
            && if g in r.runs then r'.game.status == FINISHED && r'.game.availableAt.None? else r' == r
  {
  }

  /** A terminal failure that is accepted deletes the submitted data with it, and nothing else. */
  lemma CleansExactly(r: Record, ev: Event)
    ensures var r' := WithCleanup(r, ev);
            if Decide(r.entry, ev).Applied?
            then && r'.id == r.id && r'.entry == After(r.entry, ev) && r'.runs == r.runs
                 && Cleaned(r'.game) && SameGame(r.game, r'.game) && SameRelease(r.game, r'.game)
            else r' == r
  {
  }
}
