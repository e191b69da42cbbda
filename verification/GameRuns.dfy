/**
 Runs of the shared tables: many games, each with its only job, and transactions on any of
 them in any order. Each method of `ResultStore` is proved to take one step of a world of
 `Release` histories, so the release law holds for all jobs of the tables at once.
 */
module GameRuns {
  import opened Common
  import opened FullGame
  import opened JobLifecycle
  import opened JobTable
  import opened Persistence
  import opened Release
  import R = ResultStore

  /** The history of every job whose game was submitted. */
  type World = map<JobId, State>

  datatype Call = Submit(id: JobId, game: GameRow) | On(id: JobId, act: Act)

  /** The tables, as `ResultStore.Results.View` groups them. */
  function ViewOf(w: World): map<JobId, Record> {
    map id | id in w :: w[id].record
  }

  /** A job is created for an eligible game that has none; other transactions concern an existing job. */
  predicate Possible(w: World, call: Call) {
    match call
    case Submit(id, game) =>
      id !in w && Eligible(game) && forall j :: j in w ==> w[j].record.game.game != game.game
    case On(id, _) => id in w
  }

  function Do(w: World, call: Call): World {
    if !Possible(w, call) then w else
    match call
    case Submit(id, game) => w[id := Created(id, game, 1)]
    case On(id, act) => w[id := TakeAct(w[id], act)]
  }

  function DoAll(w: World, calls: seq<Call>): World
    decreases |calls|
  {
    if calls == [] then w else DoAll(Do(w, calls[0]), calls[1..])
  }

  // ---------------------------------------------------------------- what calls do to the view

  /** A call on a job changes its record of the view to that of the act, and no other. */
  lemma CallChangesOneRecord(w: World, id: JobId, act: Act)
    requires id in w
    ensures ViewOf(Do(w, On(id, act))) == ViewOf(w)[id := TakeAct(w[id], act).record]
  {
  }

  /** A mutator of the job table that leaves the game alone is the act on the job. */
  lemma RowEventsAreActs(t: R.Tables, db: Ledger, id: JobId, s: State, ev: Event)
    requires id in db && R.Known(t, id) && Bare(ev) && s.record == R.Records(t, db)[id]
    ensures R.Records(t, Fire(db, id, ev)) == R.Records(t, db)[id := TakeAct(s, OnJob(ev)).record]
  {
    R.RecordsSetEntry(t, db, id, After(db[id], ev));
  }

  // ---------------------------------------------------------------- projection

  /** The acts a run performs on one job. */
  function ActsOn(w: World, calls: seq<Call>, id: JobId): seq<Act>
    decreases |calls|
  {
    if calls == [] then [] else
    (if calls[0].On? && calls[0].id == id && Possible(w, calls[0]) then [calls[0].act] else [])
    + ActsOn(Do(w, calls[0]), calls[1..], id)
  }

  /** Seen from one job, a run of the tables is a run of its release. */
  lemma {:induction false} SeenFromOneJob(w: World, calls: seq<Call>, id: JobId)
    requires id in w
    ensures id in DoAll(w, calls)
    ensures DoAll(w, calls)[id] == RunActs(w[id], ActsOn(w, calls, id))
    decreases |calls|
  {
    if calls != [] {
      var w' := Do(w, calls[0]);
      var rest := ActsOn(w', calls[1..], id);
      SeenFromOneJob(w', calls[1..], id);
      if calls[0].On? && calls[0].id == id {
        assert ([calls[0].act] + rest)[1..] == rest;
      } else {
        assert [] + rest == rest;
      }
    }
  }

  ghost predicate Inv(w: World) {
    && (forall id :: id in w ==> Release.Inv(w[id]))
    && (forall i, j :: i in w && j in w && w[i].record.game.game == w[j].record.game.game ==> i == j)
  }

  lemma ActKeepsGame(s: State, act: Act)
    ensures TakeAct(s, act).record.game.game == s.record.game.game
  {
  }

  lemma SubmitInv(w: World, id: JobId, game: GameRow)
    requires Inv(w) && Possible(w, Submit(id, game))
    ensures Inv(w[id := Created(id, game, 1)])
  {
    FreshLawful(id.owner, 1);
    assert Release.Inv(Created(id, game, 1));
  }

  lemma OnInv(w: World, id: JobId, act: Act)
    requires Inv(w) && id in w
    ensures Inv(w[id := TakeAct(w[id], act)])
  {
    ActInv(w[id], act);
    ActKeepsGame(w[id], act);
  }

  lemma DoInv(w: World, call: Call)
    requires Inv(w)
    ensures Inv(Do(w, call))
  {
    if Possible(w, call) {
      match call
      case Submit(id, game) => SubmitInv(w, id, game);
      case On(id, act) => OnInv(w, id, act);
    }
  }

  lemma {:induction false} DoAllInv(w: World, calls: seq<Call>)
    requires Inv(w)
    ensures Inv(DoAll(w, calls))
    decreases |calls|
  {
    if calls != [] {
      DoInv(w, calls[0]);
      DoAllInv(Do(w, calls[0]), calls[1..]);
    }
  }

  /**
   At most once over the shared tables: after any calls, every game belongs to one job, every
   job delivered at most one result, which is the one published for it, and every available
   game has a succeeded job and a whole stored run.
   */
  lemma SharedAtMostOnce(calls: seq<Call>, id: JobId, other: JobId)
    requires id in DoAll(map[], calls) && other in DoAll(map[], calls)
    ensures var w := DoAll(map[], calls);
            var s := w[id];
            var g := s.record.entry.job.generation;
            && (s.record.game.game == w[other].record.game.game ==> id == other)
            && |s.delivered| <= 1 && (s.delivered != [] ==> s.released == Some(s.delivered[0]))
            && (s.record.game.status == ANALYSIS_AVAILABLE ==>
                  && s.record.entry.job.status == SUCCEEDED && s.delivered == []
                  && g in s.record.runs && Whole(s.record.runs[g], RunId(s.record.id, g)))
  {
    DoAllInv(map[], calls);
  }

  /** And what is spent stays spent, whatever happens to this or any other game. */
  lemma SharedNeverAgain(w: World, calls: seq<Call>, id: JobId, write: Write)
    requires Inv(w) && id in w && Spent(w[id])
    ensures id in DoAll(w, calls)
    ensures var s := DoAll(w, calls)[id];
            && s.record.game.status != ANALYSIS_AVAILABLE && s.delivered == w[id].delivered
            && FinalizeRecord(s.record, write).1.RolledBack?
  {
    SeenFromOneJob(w, calls, id);
    NeverAgain(w[id], ActsOn(w, calls, id), write);
  }

  // ---------------------------------------------------------------- the tables take these steps

  /** The tables stand where the world says. */
  ghost predicate Linked(results: R.Results, table: Table, w: World)
    reads results, table
  {
    results.Valid(table) && results.View(table) == ViewOf(w)
  }

  /** A job has a history exactly if it has a row, and the history is of that row and its game. */
  lemma LinkedAt(results: R.Results, table: Table, w: World, id: JobId)
    requires Linked(results, table, w)
    ensures id in w <==> id in table.jobs
    ensures id in w ==>
              && id in results.View(table) && results.View(table)[id] == w[id].record
              && R.Known(results.tables, id)
              && w[id].record == R.RecordOf(results.tables, table.View()[id], id)
              && w[id].record.game.game == results.tables.gameOf[id]
  {
    assert id in w <==> id in ViewOf(w);
    assert id in table.jobs <==> id in table.View();
  }

  /** A call on the job, and the record of its act put into the view. */
  lemma CallPuts(w: World, id: JobId, act: Act, r: Record)
    requires id in w && r == TakeAct(w[id], act).record
    ensures ViewOf(Do(w, On(id, act))) == ViewOf(w)[id := r]
    ensures r == w[id].record ==> ViewOf(Do(w, On(id, act))) == ViewOf(w)
  {
    CallChangesOneRecord(w, id, act);
    if r == w[id].record {
      UpdateSame(ViewOf(w), id);
    }
  }

  /** A call that leaves the record of its job leaves the view. */
  lemma CallKeepsView(w: World, id: JobId, act: Act)
    requires id in w ==> TakeAct(w[id], act).record == w[id].record
    ensures ViewOf(Do(w, On(id, act))) == ViewOf(w)
  {
    if id in w {
      CallPuts(w, id, act, w[id].record);
    }
  }

  lemma EventKeepsLinks(t: R.Tables, db: Ledger, id: JobId, ev: Event)
    requires R.Joined(t, db) && id in db
    ensures R.Joined(t, Fire(db, id, ev))
  {
  }

  method ServeEvent(results: R.Results, table: Table, id: JobId, ev: Event, ghost w: World)
    requires Linked(results, table, w)
    modifies table
    ensures Linked(results, table, Do(w, On(id, OnJob(ev))))
  {
    LinkedAt(results, table, w, id);
    if id !in table.jobs || ev.Complete? || ev.Fail? || ev.Terminalize? {
      CallKeepsView(w, id, OnJob(ev));
      return;
    }
    ghost var after := TakeAct(w[id], OnJob(ev)).record;
    RowEventsAreActs(results.tables, table.View(), id, w[id], ev);
    CallPuts(w, id, OnJob(ev), after);
    EventKeepsLinks(results.tables, table.View(), id, ev);
    table.Mutate(id, ev);
    assert results.View(table) == ViewOf(w)[id := after];
  }

  method ServeFinalize(results: R.Results, table: Table, id: JobId, write: Write, ghost w: World)
    returns (reply: FinalizeReply)
    requires Linked(results, table, w)
    modifies results, table
    ensures Linked(results, table, Do(w, On(id, Finalize(write))))
    ensures id in w ==> reply == FinalizeRecord(w[id].record, write).1
  {
    LinkedAt(results, table, w, id);
    if id in table.jobs {
      FinalizeIsAct(w[id], write);
      CallPuts(w, id, Finalize(write), FinalizeRecord(w[id].record, write).0);
    }
    reply := results.PersistAndComplete(table, id, write);
  }

  lemma PersistIsAct(s: State, write: Write)
    ensures var replaced := PersistRecord(s.record, write);
            TakeAct(s, Persist(write)).record == if replaced.Ok? then replaced.value else s.record
  {
  }

  method ServePersist(results: R.Results, table: Table, id: JobId, write: Write, ghost w: World)
    requires Linked(results, table, w)
    modifies results
    ensures Linked(results, table, Do(w, On(id, Persist(write))))
  {
    LinkedAt(results, table, w, id);
    if id in table.jobs {
      PersistIsAct(w[id], write);
      CallPuts(w, id, Persist(write), TakeAct(w[id], Persist(write)).record);
    }
    var _ := results.PersistOwned(table, id, write);
  }

  method ServeFail(results: R.Results, table: Table, id: JobId, worker: WorkerId, g: nat, now: int, ghost w: World)
    requires Linked(results, table, w)
    modifies results, table
    ensures Linked(results, table, Do(w, On(id, FailAndClean(worker, g, now))))
  {
    LinkedAt(results, table, w, id);
    if id in table.jobs {
      CallPuts(w, id, FailAndClean(worker, g, now), WithCleanup(w[id].record, Fail(worker, g, now)));
    }
    var _ := results.FailAndClean(table, id, worker, g, now);
  }

  /** An unsupported target raises and leaves the record. */
  lemma TargetIsChecked(r: Record, target: Status, now: int)
    requires target !in {FAILED, CANCELLED}
    ensures WithCleanup(r, Terminalize(target, now)) == r
  {
  }

  method ServeTerminalize(results: R.Results, table: Table, id: JobId, target: Status, now: int, ghost w: World)
    requires Linked(results, table, w)
    modifies results, table
    ensures Linked(results, table, Do(w, On(id, TerminalizeAndClean(target, now))))
  {
    LinkedAt(results, table, w, id);
    if id in table.jobs {
      if target !in {FAILED, CANCELLED} {
        TargetIsChecked(w[id].record, target, now);
      }
      CallPuts(w, id, TerminalizeAndClean(target, now), WithCleanup(w[id].record, Terminalize(target, now)));
    }
    var _ := results.TerminalizeAndClean(table, id, target, now);
  }

  lemma LoadIsAct(s: State)
    ensures var g := s.record.entry.job.generation;
            TakeAct(s, Load) == s.(seen := s.seen + if s.record.entry.job.status == SUCCEEDED && g in s.record.runs
                                                    then {(g, s.record.runs[g])} else {})
  {
  }

  /** What a reader finds published, if anything. */
  method ServeLoad(results: R.Results, table: Table, id: JobId, ghost w: World) returns (found: set<(nat, StoredRun)>)
    requires Linked(results, table, w)
    ensures Linked(results, table, Do(w, On(id, Load)))
    ensures if id in w then Do(w, On(id, Load))[id].seen == w[id].seen + found else found == {}
  {
    LinkedAt(results, table, w, id);
    if id in w {
      LoadIsAct(w[id]);
    }
    CallKeepsView(w, id, Load);
    if id !in table.jobs {
      return {};
    }
    var job, runs := table.jobs[id], R.RunsOf(results.tables, id);
    return if job.status == SUCCEEDED && job.generation in runs then {(job.generation, runs[job.generation])} else {};
  }

  lemma ConsumeIsAct(s: State, g: nat, content: StoredRun)
    requires (g, content) in s.seen
    ensures ConsumeRun(s.record, g).0 == TakeAct(s, Consume(g, content)).record
  {
  }

  /** A reader consumes what it has loaded. */
  method ServeConsume(results: R.Results, table: Table, id: JobId, g: nat, content: StoredRun, ghost w: World)
    returns (served: bool)
    requires Linked(results, table, w) && id in w && (g, content) in w[id].seen
    modifies results
    ensures Linked(results, table, Do(w, On(id, Consume(g, content))))
    ensures served <==> ConsumeRun(w[id].record, g).1
  {
    LinkedAt(results, table, w, id);
    ConsumeIsAct(w[id], g, content);
    CallPuts(w, id, Consume(g, content), ConsumeRun(w[id].record, g).0);
    var game := results.tables.gameOf[id];
    served := results.ConsumePublicGeneration(table, RunId(id, g), game);
  }

  lemma SubmitPuts(w: World, id: JobId, row: GameRow)
    requires Possible(w, Submit(id, row))
    ensures ViewOf(Do(w, Submit(id, row))) == ViewOf(w)[id := Created(id, row, 1).record]
  {
  }

  lemma SubmitIsPossible(results: R.Results, table: Table, w: World, id: JobId, row: GameRow)
    requires results.Valid(table) && row.game in results.tables.games && id !in w && Eligible(row)
    requires results.View(table) == ViewOf(w)[id := Created(id, row, 1).record]
    requires id in results.tables.gameOf && results.tables.gameOf[id] == row.game
    ensures Possible(w, Submit(id, row))
  {
    forall j | j in w
      ensures w[j].record.game.game != row.game
    {
      assert j in ViewOf(w) && results.View(table)[j] == w[j].record;
      assert w[j].record == R.RecordOf(results.tables, table.View()[j], j);
    }
  }

  /** A job is created for an eligible game without one; `row` is the game, if it exists and the id is new. */
  method ServeCreate(results: R.Results, table: Table, id: JobId, game: GameId, ghost w: World)
    returns (ghost row: Option<GameRow>)
    requires Linked(results, table, w)
    modifies results, table
    ensures Linked(results, table, if row.Some? then Do(w, Submit(id, row.value)) else w)
  {
    LinkedAt(results, table, w, id);
    if game !in results.tables.games || id in table.jobs {
      return None;
    }
    row := Some(results.tables.games[game]);
    var job := results.CreateForCompletedGame(table, game, id);
    if job == Some(id) {
      SubmitIsPossible(results, table, w, id, row.value);
      SubmitPuts(w, id, row.value);
    } else if job.Some? {
      HasItsJob(results, table, w, job.value, row.value);
    }
  }

  lemma HasItsJob(results: R.Results, table: Table, w: World, id: JobId, row: GameRow)
    requires Linked(results, table, w) && id in results.tables.gameOf && results.tables.gameOf[id] == row.game
    ensures forall other :: !Possible(w, Submit(other, row))
  {
    assert id in table.View();
    LinkedAt(results, table, w, id);
  }

  // ---------------------------------------------------------------- a whole service

  datatype Request = Create(id: JobId, game: GameId) | Ask(id: JobId, act: Act)

  /** What readers hold is what the histories say they have seen. */
  ghost predicate Held(held: set<(JobId, nat, StoredRun)>, w: World) {
    forall id, g, content :: (id, g, content) in held ==> id in w && (g, content) in w[id].seen
  }

  /** Who was served so far: no job twice, each with the run published for it. */
  ghost predicate ServedOnce(served: seq<(JobId, StoredRun)>, w: World) {
    && (forall i, j :: 0 <= i < j < |served| ==> served[i].0 != served[j].0)
    && (forall i :: 0 <= i < |served| ==>
          && served[i].0 in w && w[served[i].0].delivered == [served[i].1]
          && w[served[i].0].released == Some(served[i].1))
  }

  /** Every available game has a succeeded job and a whole stored run of its generation. */
  ghost predicate AvailableIsWhole(view: map<JobId, Record>) {
    forall id :: id in view && view[id].game.status == ANALYSIS_AVAILABLE ==>
      var job := view[id].entry.job;
      && job.status == SUCCEEDED && job.generation in view[id].runs
      && Whole(view[id].runs[job.generation], RunId(view[id].id, job.generation))
  }

  lemma InvIsWhole(w: World)
    requires Inv(w)
    ensures AvailableIsWhole(ViewOf(w))
  {
  }

  lemma {:induction false} DoAllSnoc(w: World, calls: seq<Call>, call: Call)
    ensures DoAll(w, calls + [call]) == Do(DoAll(w, calls), call)
    decreases |calls|
  {
    if calls == [] {
      assert calls + [call] == [call];
      assert DoAll(Do(w, call), [call][1..]) == Do(w, call);
    } else {
      assert (calls + [call])[1..] == calls[1..] + [call];
      DoAllSnoc(Do(w, calls[0]), calls[1..], call);
    }
  }

  lemma SeenGrows(s: State, act: Act)
    ensures s.seen <= TakeAct(s, act).seen
  {
  }

  lemma SpentKeepsRelease(s: State, act: Act)
    requires Release.Inv(s) && Spent(s)
    ensures TakeAct(s, act).released == s.released
  {
    if act.Finalize? {
      SpentStays(s, act);
    }
  }

  /** No call forgets what readers have seen, and after a delivery nothing is delivered or published any more. */
  lemma CallKeepsHistory(w: World, call: Call, id: JobId)
    requires Inv(w) && id in w
    ensures id in Do(w, call) && w[id].seen <= Do(w, call)[id].seen
    ensures w[id].delivered != [] ==>
              Do(w, call)[id].delivered == w[id].delivered && Do(w, call)[id].released == w[id].released
  {
    if Possible(w, call) && call.On? && call.id == id {
      SeenGrows(w[id], call.act);
      if w[id].delivered != [] {
        SpentStays(w[id], call.act);
        SpentKeepsRelease(w[id], call.act);
      }
    }
  }

  lemma HistoryStays(w: World, call: Call, held: set<(JobId, nat, StoredRun)>, served: seq<(JobId, StoredRun)>)
    requires Inv(w) && Held(held, w) && ServedOnce(served, w)
    ensures Inv(Do(w, call)) && Held(held, Do(w, call)) && ServedOnce(served, Do(w, call))
  {
    DoInv(w, call);
    forall id, g, content | (id, g, content) in held
      ensures id in Do(w, call) && (g, content) in Do(w, call)[id].seen
    {
      CallKeepsHistory(w, call, id);
    }
    forall i | 0 <= i < |served|
      ensures served[i].0 in Do(w, call) && Do(w, call)[served[i].0].delivered == [served[i].1]
      ensures Do(w, call)[served[i].0].released == Some(served[i].1)
    {
      CallKeepsHistory(w, call, served[i].0);
    }
  }

  lemma SeenIsReleased(s: State, g: nat, content: StoredRun)
    requires Release.Inv(s) && (g, content) in s.seen
    ensures s.released == Some(content)
    ensures TakeAct(s, Consume(g, content)).released == s.released
  {
    assert ReleasedOnce(s);
  }

  /** The consumption that serves is the first of its job, and hands out what was published. */
  lemma ServedAnew(w: World, id: JobId, g: nat, content: StoredRun, served: seq<(JobId, StoredRun)>)
    requires Inv(w) && id in w && (g, content) in w[id].seen && ConsumeRun(w[id].record, g).1
    requires ServedOnce(served, w)
    ensures ServedOnce(served + [(id, content)], Do(w, On(id, Consume(g, content))))
  {
    var call := On(id, Consume(g, content));
    SeenIsServed(w[id], g, content);
    SeenIsReleased(w[id], g, content);
    assert Do(w, call) == w[id := TakeAct(w[id], Consume(g, content))];
    forall i | 0 <= i < |served|
      ensures served[i].0 != id && Do(w, call)[served[i].0] == w[served[i].0]
    {
      assert w[served[i].0].delivered == [served[i].1];
    }
  }

  /** One request on one job, whatever it is, as its transaction serves it. */
  method ServeAct(results: R.Results, table: Table, id: JobId, act: Act,
                  held: set<(JobId, nat, StoredRun)>, ghost w: World)
    returns (found: set<(nat, StoredRun)>, served: bool)
    requires Linked(results, table, w) && Held(held, w)
    requires act.Consume? ==> (id, act.generation, act.content) in held
    modifies results, table
    ensures Linked(results, table, Do(w, On(id, act)))
    ensures forall seen :: seen in found ==> id in w && seen in Do(w, On(id, act))[id].seen
    ensures served ==> act.Consume? && id in w && (act.generation, act.content) in w[id].seen
                       && ConsumeRun(w[id].record, act.generation).1
  {
    found, served := {}, false;
    match act
    case OnJob(ev) => ServeEvent(results, table, id, ev, w);
    case FailAndClean(worker, g, now) => ServeFail(results, table, id, worker, g, now, w);
    case TerminalizeAndClean(target, now) => ServeTerminalize(results, table, id, target, now, w);
    case Persist(write) => ServePersist(results, table, id, write, w);
    case Finalize(write) => var _ := ServeFinalize(results, table, id, write, w);
    case Load => found := ServeLoad(results, table, id, w);
    case Consume(g, content) => served := ServeConsume(results, table, id, g, content, w);
  }

  /** Remember what a reader found. */
  method Remember(held: set<(JobId, nat, StoredRun)>, id: JobId, found: set<(nat, StoredRun)>, ghost w: World)
    returns (more: set<(JobId, nat, StoredRun)>)
    requires Held(held, w) && forall seen :: seen in found ==> id in w && seen in w[id].seen
    ensures Held(more, w)
  {
    more := held + set seen | seen in found :: (id, seen.0, seen.1);
  }

  /** One request, and what it makes of the readers' memory and of the deliveries. */
  method Serve(results: R.Results, table: Table, request: Request, held: set<(JobId, nat, StoredRun)>,
               served: seq<(JobId, StoredRun)>, ghost w: World)
    returns (held': set<(JobId, nat, StoredRun)>, served': seq<(JobId, StoredRun)>, ghost call: Option<Call>)
    requires Linked(results, table, w) && Inv(w) && Held(held, w) && ServedOnce(served, w)
    modifies results, table
    ensures var w' := if call.Some? then Do(w, call.value) else w;
            Linked(results, table, w') && Inv(w') && Held(held', w') && ServedOnce(served', w')
  {
    held', served', call := held, served, None;
    match request
    case Create(id, game) =>
      var row := ServeCreate(results, table, id, game, w);
      if row.Some? {
        call := Some(Submit(id, row.value));
        HistoryStays(w, call.value, held, served);
      }
    case Ask(id, act) =>
      if act.Consume? && (id, act.generation, act.content) !in held {
        return;
      }
      call := Some(On(id, act));
      HistoryStays(w, On(id, act), held, served);
      var found, handedOut := ServeAct(results, table, id, act, held, w);
      held' := Remember(held, id, found, Do(w, On(id, act)));
      if handedOut {
        ServedAnew(w, id, act.generation, act.content, served);
        served' := served + [(id, act.content)];
      }
  }

  /**
   At most once, on the tables themselves: from empty job tables, any requests in any order
   are a run of the world; no job is served twice, what is served is the run published for
   it, and every available game has a succeeded job and a whole stored run.
   */
  method ServeAll(results: R.Results, table: Table, requests: seq<Request>)
    returns (served: seq<(JobId, StoredRun)>, ghost calls: seq<Call>)
    requires results.Valid(table) && table.jobs == map[]
    modifies results, table
    ensures Linked(results, table, DoAll(map[], calls))
    ensures ServedOnce(served, DoAll(map[], calls))
    ensures AvailableIsWhole(results.View(table))
  {
    served, calls := [], [];
    var held: set<(JobId, nat, StoredRun)> := {};
    ghost var w: World := map[];
    for i := 0 to |requests|
      invariant w == DoAll(map[], calls)
      invariant Linked(results, table, w) && Inv(w) && Held(held, w) && ServedOnce(served, w)
    {
      ghost var call: Option<Call>;
      held, served, call := Serve(results, table, requests[i], held, served, w);
      if call.Some? {
        DoAllSnoc(map[], calls, call.value);
        calls := calls + [call.value];
        w := Do(w, call.value);
      }
    }
    InvIsWhole(w);
  }
}
