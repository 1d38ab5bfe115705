/** The store under concurrent requests: each request is an Open and, later, a Finish or an Abandon,
    and the requests interleave in any way. */
module SyncProfileRuns {
  import opened Options
  import opened SyncProfileStore

  datatype System = System(db: Db, sessions: map<int, Transaction>)

  datatype Event =
    | AddConnection(connection: Connection)
    | Open(slot: int, request: Request)
    | Close(slot: int)
    | Abandon(slot: int)

  const START := System(EMPTY, map[])

  ghost predicate Safe(system: System) {
    && DbSafe(system.db)
    && (forall slot :: slot in system.sessions ==> SessionSafe(system.db, system.sessions[slot]))
  }

  ghost function Step(system: System, event: Event, defaultInterval: int): System
    requires DbSafe(system.db)
  {
    match event
    case AddConnection(connection) => system.(db := WithConnection(system.db, connection))
    case Open(slot, request) =>
      var begun := Begin(system.db, request, defaultInterval);
      if slot in system.sessions || begun.Rejected? then system
      else system.(sessions := system.sessions[slot := begun.session])
    case Close(slot) =>
      if slot !in system.sessions then system
      else System(Finish(system.db, system.sessions[slot]).0, system.sessions - {slot})
    case Abandon(slot) => system.(sessions := system.sessions - {slot})
  }

  lemma StepIsSafe(system: System, event: Event, defaultInterval: int)
    requires Safe(system) && defaultInterval > 0
    ensures Safe(Step(system, event, defaultInterval))
    ensures Grows(system.db, Step(system, event, defaultInterval).db)
  {
    var after := Step(system, event, defaultInterval);
    match event {
      case AddConnection(connection) => ConnectionIsSafe(system.db, connection);
      case Open(slot, request) => BeginIsSafe(system.db, request, defaultInterval);
      case Close(slot) =>
        if slot in system.sessions {
          FinishIsSafe(system.db, system.sessions[slot]);
        }
      case Abandon(slot) =>
    }
    forall slot | slot in after.sessions
      ensures SessionSafe(after.db, after.sessions[slot])
    {
      if slot in system.sessions {
        SessionStaysSafe(system.db, after.db, system.sessions[slot]);
      }
    }
  }

  /** The state after any sequence of events. In every one of them profiles are unique per connection
      and project, every profile's connection exists and permits its project, and every stored value
      is valid. */
  ghost function Run(system: System, events: seq<Event>, defaultInterval: int): (after: System)
    requires Safe(system) && defaultInterval > 0
    ensures Safe(after)
  {
    if events == [] then system
    else
      var before := Run(system, events[..|events| - 1], defaultInterval);
      StepIsSafe(before, events[|events| - 1], defaultInterval);
      Step(before, events[|events| - 1], defaultInterval)
  }

  /** Once stored, a connection never changes, its allowlist included, and a profile never moves to
      another connection or project. */
  lemma {:induction false} NothingMoves(system: System, events: seq<Event>, defaultInterval: int)
    requires Safe(system) && defaultInterval > 0
    ensures Grows(system.db, Run(system, events, defaultInterval).db)
  {
    if events != [] {
      NothingMoves(system, events[..|events| - 1], defaultInterval);
      StepIsSafe(Run(system, events[..|events| - 1], defaultInterval), events[|events| - 1], defaultInterval);
    }
  }

  lemma RunOfNothing(system: System, defaultInterval: int)
    requires Safe(system) && defaultInterval > 0
    ensures Run(system, [], defaultInterval) == system
  {
  }

  lemma RunOfPrefix(system: System, events: seq<Event>, k: nat, defaultInterval: int)
    requires Safe(system) && defaultInterval > 0 && k < |events|
    ensures Run(system, events[..k + 1], defaultInterval)
         == Step(Run(system, events[..k], defaultInterval), events[k], defaultInterval)
  {
    assert events[..k + 1][..k] == events[..k];
  }

  // ----- Concurrent commits

  /** Commits that write different columns of the row, or different rows, can go in either order. */
  lemma DisjointCommitsCommute(db: Db, first: Transaction, second: Transaction)
    requires first.Edit? && second.Edit?
    requires first.id == second.id ==>
               Written(first.snapshot, first.draft).Keys !! Written(second.snapshot, second.draft).Keys
    ensures Finish(Finish(db, first).0, second).0 == Finish(Finish(db, second).0, first).0
  {
    var w := Written(first.snapshot, first.draft);
    var v := Written(second.snapshot, second.draft);
    if first.id !in db.profiles || WritesNull(w) || second.id !in db.profiles || WritesNull(v) {
    } else if first.id == second.id {
      var row := db.profiles[first.id].settings;
      assert (row + w) + v == (row + v) + w;
      assert Finish(Finish(db, first).0, second).0.profiles == Finish(Finish(db, second).0, first).0.profiles;
    } else {
      assert Finish(Finish(db, first).0, second).0.profiles == Finish(Finish(db, second).0, first).0.profiles;
    }
  }

  /** A commit writes only columns the request named, so what others wrote to the remaining columns
      meanwhile survives. A value the request did name reaches the row except where it equals the
      value that was read: then it is not written, and a concurrent change of that column stands. */
  lemma CommitKeepsOthersWork(db: Db, session: Transaction, c: Column)
    requires session.Edit? && session.id in db.profiles && Complete(db.profiles[session.id].settings)
    requires HasColumns(session.snapshot) && HasColumns(session.draft)
    requires Finish(db, session).1.Accepted?
    ensures var current := db.profiles[session.id].settings;
            var after := Finish(db, session).0.profiles[session.id].settings;
            && c in after
            && (session.draft[c] == session.snapshot[c] ==> after[c] == current[c])
            && (after[c] == session.draft[c] <==>
                session.draft[c] != session.snapshot[c] || current[c] == session.draft[c])
  {
  }

  /** Of two pending creations for one connection and project at most one goes through. */
  lemma OneCreationWins(db: Db, first: Transaction, second: Transaction)
    requires first.Insert? && second.Insert?
    requires first.profile.connection == second.profile.connection && first.profile.project == second.profile.project
    ensures Finish(Finish(db, first).0, second) == (Finish(db, first).0, Conflict)
  {
    var after := Finish(db, first).0;
    if !Taken(db.profiles, first.profile.connection, first.profile.project) {
      assert after.profiles[db.nextProfile] == first.profile;
    }
  }

  // ----- At least one source

  ghost predicate AllSourced(db: Db)
    requires DbSafe(db)
  {
    forall id :: id in db.profiles ==> Sourced(db, id)
  }

  ghost predicate Sourced(db: Db, id: int)
    requires DbSafe(db) && id in db.profiles
  {
    assert ProfileSafe(db, id);
    HasSource(db.profiles[id].settings)
  }

  /** The request read both sources on and turns `dropped` off; since then `kept` was turned off. */
  predicate Drops(session: Transaction, current: Settings, dropped: Column, kept: Column)
    requires session.Edit? && HasColumns(session.snapshot) && HasColumns(session.draft) && HasColumns(current)
  {
    && !Off(session.snapshot[dropped]) && Off(session.draft[dropped])
    && session.draft[kept] == session.snapshot[kept] && Off(current[kept])
  }

  /** The commit would go through and leave the row without a source. */
  ghost predicate Overtaken(db: Db, session: Transaction)
    requires DbSafe(db) && SessionSafe(db, session)
  {
    session.Edit? && !WritesNull(Written(session.snapshot, session.draft)) &&
    assert ProfileSafe(db, session.id);
    var current := db.profiles[session.id].settings;
    || Drops(session, current, SyncRfis, SyncSubmittals)
    || Drops(session, current, SyncSubmittals, SyncRfis)
  }

  /** The source check looks at the copy a request made when it began, so it holds of the row after
      the commit exactly when the request was not overtaken. */
  lemma CommitKeepsSourcesIff(db: Db, session: Transaction)
    requires DbSafe(db) && SessionSafe(db, session) && AllSourced(db)
    ensures DbSafe(Finish(db, session).0)
    ensures AllSourced(Finish(db, session).0) <==> !Overtaken(db, session)
  {
    FinishIsSafe(db, session);
    var after := Finish(db, session).0;
    forall id | id in db.profiles && !(session.Edit? && session.id == id)
      ensures Sourced(after, id)
    {
      assert ProfileSafe(db, id) && Sourced(db, id);
    }
    match session
    case Insert(profile) =>
      forall id | id in after.profiles
        ensures Sourced(after, id)
      {
      }
    case Edit(id, snapshot, draft) =>
      assert ProfileSafe(db, id) && Sourced(db, id);
      CommittedSources(db, session);
      assert AllSourced(after) <==> Sourced(after, id);
  }

  lemma CommittedSources(db: Db, session: Transaction)
    requires DbSafe(db) && SessionSafe(db, session) && session.Edit? && Sourced(db, session.id)
    ensures DbSafe(Finish(db, session).0) && session.id in Finish(db, session).0.profiles
    ensures Sourced(Finish(db, session).0, session.id) <==> !Overtaken(db, session)
  {
    FinishIsSafe(db, session);
    assert ProfileSafe(db, session.id);
    var written := Written(session.snapshot, session.draft);
    var current := db.profiles[session.id].settings;
    forall c | c == SyncRfis || c == SyncSubmittals
      ensures (current + written)[c] == if session.draft[c] != session.snapshot[c] then session.draft[c] else current[c]
      ensures Fits(c, current[c]) && Fits(c, session.snapshot[c])
    {
    }
  }

  /** The event is a commit that finds its request overtaken. */
  ghost predicate Loses(system: System, event: Event)
    requires Safe(system)
  {
    event.Close? && event.slot in system.sessions && Overtaken(system.db, system.sessions[event.slot])
  }

  lemma StepKeepsSourcesIff(system: System, event: Event, defaultInterval: int)
    requires Safe(system) && AllSourced(system.db) && defaultInterval > 0
    ensures Safe(Step(system, event, defaultInterval))
    ensures AllSourced(Step(system, event, defaultInterval).db) <==> !Loses(system, event)
  {
    StepIsSafe(system, event, defaultInterval);
    var after := Step(system, event, defaultInterval);
    match event
    case Close(slot) =>
      if slot in system.sessions {
        CommitKeepsSourcesIff(system.db, system.sessions[slot]);
      }
    case AddConnection(_) => SameProfilesSameSources(system.db, after.db);
    case Open(_, _) =>
    case Abandon(_) =>
  }

  lemma SameProfilesSameSources(db: Db, after: Db)
    requires DbSafe(db) && DbSafe(after) && after.profiles == db.profiles && AllSourced(db)
    ensures AllSourced(after)
  {
    forall id | id in after.profiles
      ensures Sourced(after, id)
    {
      assert Sourced(db, id);
    }
  }

  ghost predicate SourcedAt(events: seq<Event>, k: nat, defaultInterval: int)
    requires defaultInterval > 0 && k <= |events|
  {
    AllSourced(Run(START, events[..k], defaultInterval).db)
  }

  ghost predicate LosesAt(events: seq<Event>, k: nat, defaultInterval: int)
    requires defaultInterval > 0 && k < |events|
  {
    Loses(Run(START, events[..k], defaultInterval), events[k])
  }

  lemma OneMoreEvent(events: seq<Event>, k: nat, defaultInterval: int)
    requires defaultInterval > 0 && k < |events| && SourcedAt(events, k, defaultInterval)
    ensures SourcedAt(events, k + 1, defaultInterval) <==> !LosesAt(events, k, defaultInterval)
  {
    RunOfPrefix(START, events, k, defaultInterval);
    StepKeepsSourcesIff(Run(START, events[..k], defaultInterval), events[k], defaultInterval);
  }

  lemma {:induction false} KeptIff(n: nat, holds: nat -> bool, breaks: nat -> bool)
    requires holds(0)
    requires forall k: nat :: k < n && holds(k) ==> (holds(k + 1) <==> !breaks(k))
    ensures (forall k: nat :: k <= n ==> holds(k)) <==> (forall k: nat :: k < n ==> !breaks(k))
  {
    if n > 0 {
      var m: nat := n - 1;
      KeptIff(m, holds, breaks);
      if holds(m) {
        assert holds(m + 1) <==> !breaks(m);
      }
    }
  }

  /** Over a whole run: every profile has a source in every state exactly when no commit finds its
      request overtaken. */
  lemma SourcesAreKeptIff(events: seq<Event>, defaultInterval: int)
    requires defaultInterval > 0
    ensures (forall k: nat :: k <= |events| ==> SourcedAt(events, k, defaultInterval))
       <==> (forall k: nat :: k < |events| ==> !LosesAt(events, k, defaultInterval))
  {
    var holds := (k: nat) => k <= |events| && SourcedAt(events, k, defaultInterval);
    var breaks := (k: nat) => k < |events| && LosesAt(events, k, defaultInterval);
    forall k: nat | k < |events| && holds(k)
      ensures holds(k + 1) <==> !breaks(k)
    {
      OneMoreEvent(events, k, defaultInterval);
    }
    assert AllSourced(START.db);
    KeptIff(|events|, holds, breaks);
    assert forall k: nat | k <= |events| :: holds(k) <==> SourcedAt(events, k, defaultInterval);
    assert forall k: nat | k < |events| :: breaks(k) <==> LosesAt(events, k, defaultInterval);
  }

  // ----- Requests that take turns

  predicate Edits(session: Transaction, id: int) {
    session.Edit? && session.id == id
  }

  /** An update begins only while no other update of the same profile is under way. */
  ghost predicate TakesTurn(system: System, event: Event) {
    event.Open? && event.request.Update? ==>
      forall slot :: slot in system.sessions ==> !Edits(system.sessions[slot], event.request.id)
  }

  /** Every open update works on the row as it is, and no two on the same row. */
  ghost predicate UpToDate(system: System)
    requires Safe(system)
  {
    && (forall slot :: slot in system.sessions && system.sessions[slot].Edit? ==>
         SessionSafe(system.db, system.sessions[slot]) &&
         system.sessions[slot].snapshot == system.db.profiles[system.sessions[slot].id].settings)
    && (forall a, b ::
         (a in system.sessions && b in system.sessions && system.sessions[a].Edit?
          && Edits(system.sessions[b], system.sessions[a].id)) ==> a == b)
  }

  lemma OpenStaysUpToDate(system: System, slot: int, request: Request, defaultInterval: int)
    requires Safe(system) && UpToDate(system) && TakesTurn(system, Open(slot, request)) && defaultInterval > 0
    ensures Safe(Step(system, Open(slot, request), defaultInterval))
    ensures UpToDate(Step(system, Open(slot, request), defaultInterval))
  {
    hide Complete, ValidCreate, ValidUpdate, Applied, HasSource, Grows, DbSafe;
    StepIsSafe(system, Open(slot, request), defaultInterval);
  }

  lemma CloseStaysUpToDate(system: System, slot: int, defaultInterval: int)
    requires Safe(system) && UpToDate(system) && defaultInterval > 0
    ensures Safe(Step(system, Close(slot), defaultInterval)) && UpToDate(Step(system, Close(slot), defaultInterval))
  {
    hide Complete, Fits, HasSource, Written, WritesNull, Taken, Begin, WithConnection, ValidConnection;
    StepIsSafe(system, Close(slot), defaultInterval);
  }

  lemma StepStaysUpToDate(system: System, event: Event, defaultInterval: int)
    requires Safe(system) && UpToDate(system) && TakesTurn(system, event) && defaultInterval > 0
    ensures Safe(Step(system, event, defaultInterval)) && UpToDate(Step(system, event, defaultInterval))
  {
    hide Complete, HasSource, Begin, Finish, Grows, DbSafe;
    match event
    case Open(slot, request) => OpenStaysUpToDate(system, slot, request, defaultInterval);
    case Close(slot) => CloseStaysUpToDate(system, slot, defaultInterval);
    case _ => StepIsSafe(system, event, defaultInterval);
  }

  lemma UpToDateIsNotOvertaken(system: System, slot: int)
    requires Safe(system) && UpToDate(system) && slot in system.sessions
    ensures !Overtaken(system.db, system.sessions[slot])
  {
    if system.sessions[slot].Edit? {
      assert ProfileSafe(system.db, system.sessions[slot].id);
    }
  }

  lemma StartIsUpToDate()
    ensures Safe(START) && UpToDate(START)
  {
  }

  lemma {:induction false} TurnsStayUpToDate(events: seq<Event>, k: nat, defaultInterval: int)
    requires defaultInterval > 0 && k <= |events|
    requires forall i: nat :: i < |events| ==> TakesTurn(Run(START, events[..i], defaultInterval), events[i])
    ensures UpToDate(Run(START, events[..k], defaultInterval))
  {
    hide *;
    StartIsUpToDate();
    if k > 0 {
      TurnsStayUpToDate(events, k - 1, defaultInterval);
      RunOfPrefix(START, events, k - 1, defaultInterval);
      StepStaysUpToDate(Run(START, events[..k - 1], defaultInterval), events[k - 1], defaultInterval);
    } else {
      RunOfNothing(START, defaultInterval);
      assert events[..k] == [];
    }
  }

  /** When updates of one profile take turns, every profile has a source in every state. */
  lemma TurnsKeepSources(events: seq<Event>, defaultInterval: int)
    requires defaultInterval > 0
    requires forall i: nat :: i < |events| ==> TakesTurn(Run(START, events[..i], defaultInterval), events[i])
    ensures forall k: nat :: k <= |events| ==> SourcedAt(events, k, defaultInterval)
  {
    forall k: nat | k < |events|
      ensures !LosesAt(events, k, defaultInterval)
    {
      TurnsStayUpToDate(events, k, defaultInterval);
      var before := Run(START, events[..k], defaultInterval);
      if events[k].Close? && events[k].slot in before.sessions {
        UpToDateIsNotOvertaken(before, events[k].slot);
      }
    }
    SourcesAreKeptIff(events, defaultInterval);
  }

  // ----- Two updates at once

  const BOTH_SOURCES: Settings := map[
    Name := Text("p"), Enabled := Flag(true), SyncRfis := Flag(true), SyncSubmittals := Flag(true),
    PollingInterval := Number(30), Mode := Text("mock")]

  const CONNECTION := Connection("c", "g", "sandbox", ["1"], [], None, "s")

  const NO_RFIS := Edit(1, BOTH_SOURCES, BOTH_SOURCES[SyncRfis := Flag(false)])
  const NO_SUBMITTALS := Edit(1, BOTH_SOURCES, BOTH_SOURCES[SyncSubmittals := Flag(false)])

  /** Two clients read a profile with both sources on, and each turns a different one off. */
  function TwoUpdates(): seq<Event> {
    [ AddConnection(CONNECTION), Open(1, Create(1, "1", BOTH_SOURCES)), Close(1),
      Open(1, Update(1, [Change(SyncRfis, Flag(false))])), Open(2, Update(1, [Change(SyncSubmittals, Flag(false))])),
      Close(1), Close(2) ]
  }

  function Tables(settings: Settings): Db {
    Db(map[1 := CONNECTION], map[1 := Profile(1, "1", settings)], 2, 2)
  }

  lemma ProfileIsCreated()
    ensures Run(START, TwoUpdates()[..3], 30) == System(Tables(BOTH_SOURCES), map[])
  {
    var created := System(Db(map[1 := CONNECTION], map[], 2, 1), map[]);
    var pending := created.(sessions := map[1 := Insert(Profile(1, "1", BOTH_SOURCES))]);
    FirstSteps(created, pending);
    RunOfPrefix(START, TwoUpdates(), 0, 30);
    RunOfPrefix(START, TwoUpdates(), 1, 30);
    RunOfPrefix(START, TwoUpdates(), 2, 30);
  }

  lemma BothSourcesAreValid()
    ensures Complete(BOTH_SOURCES) && HasSource(BOTH_SOURCES)
  {
    forall c: Column
      ensures c in BOTH_SOURCES && Fits(c, BOTH_SOURCES[c])
    {
      match c
      case Name =>
      case Enabled =>
      case SyncRfis =>
      case SyncSubmittals =>
      case PollingInterval =>
      case Mode =>
    }
  }

  lemma FirstSteps(created: System, pending: System)
    requires created == System(Db(map[1 := CONNECTION], map[], 2, 1), map[])
    requires pending == created.(sessions := map[1 := Insert(Profile(1, "1", BOTH_SOURCES))])
    ensures Step(START, AddConnection(CONNECTION), 30) == created
    ensures DbSafe(created.db) && Step(created, Open(1, Create(1, "1", BOTH_SOURCES)), 30) == pending
    ensures Step(pending, Close(1), 30) == System(Tables(BOTH_SOURCES), map[])
  {
    ConnectionIsSafe(EMPTY, CONNECTION);
    assert BOTH_SOURCES[PollingInterval := Number(30)] == BOTH_SOURCES;
    BothSourcesAreValid();
    assert pending.sessions - {1} == map[];
  }

  lemma UpdatesBegin()
    requires DbSafe(Tables(BOTH_SOURCES))
    ensures Begin(Tables(BOTH_SOURCES), Update(1, [Change(SyncRfis, Flag(false))]), 30) == Pending(NO_RFIS)
    ensures Begin(Tables(BOTH_SOURCES), Update(1, [Change(SyncSubmittals, Flag(false))]), 30) == Pending(NO_SUBMITTALS)
  {
    OneChange(BOTH_SOURCES, Change(SyncRfis, Flag(false)));
    OneChange(BOTH_SOURCES, Change(SyncSubmittals, Flag(false)));
  }

  lemma OneChange(settings: Settings, change: Change)
    ensures Applied(settings, [change]) == settings[change.column := change.value]
  {
    assert [change][..0] == [];
  }

  lemma FirstFinishes(rest: Settings)
    requires rest == BOTH_SOURCES[SyncRfis := Flag(false)]
    ensures Finish(Tables(BOTH_SOURCES), NO_RFIS).0 == Tables(rest)
  {
    assert Written(NO_RFIS.snapshot, NO_RFIS.draft) == map[SyncRfis := Flag(false)];
    assert BOTH_SOURCES + map[SyncRfis := Flag(false)] == rest;
  }

  lemma SecondFinishes(rest: Settings, none: Settings)
    requires none == rest[SyncSubmittals := Flag(false)]
    ensures Finish(Tables(rest), NO_SUBMITTALS).0 == Tables(none)
  {
    assert Written(NO_SUBMITTALS.snapshot, NO_SUBMITTALS.draft) == map[SyncSubmittals := Flag(false)];
    assert rest + map[SyncSubmittals := Flag(false)] == none;
  }

  lemma Advance(events: seq<Event>, k: nat, before: System, after: System)
    requires k < |events| && Run(START, events[..k], 30) == before && Step(before, events[k], 30) == after
    ensures Run(START, events[..k + 1], 30) == after
  {
    RunOfPrefix(START, events, k, 30);
  }

  lemma AdvanceByClosing(events: seq<Event>, k: nat, before: System, slot: int, db: Db)
    requires k < |events| && events[k] == Close(slot) && Run(START, events[..k], 30) == before
    requires slot in before.sessions && Finish(before.db, before.sessions[slot]).0 == db
    ensures Run(START, events[..k + 1], 30) == System(db, before.sessions - {slot})
  {
    RunOfPrefix(START, events, k, 30);
  }

  lemma BothUpdatesAreOpen(events: seq<Event>)
    requires |events| == 7 && Run(START, events[..3], 30) == System(Tables(BOTH_SOURCES), map[])
    requires events[3] == Open(1, Update(1, [Change(SyncRfis, Flag(false))]))
    requires events[4] == Open(2, Update(1, [Change(SyncSubmittals, Flag(false))]))
    ensures Run(START, events[..5], 30) == System(Tables(BOTH_SOURCES), map[1 := NO_RFIS, 2 := NO_SUBMITTALS])
  {
    UpdatesBegin();
    var db := Tables(BOTH_SOURCES);
    Advance(events, 3, System(db, map[]), System(db, map[1 := NO_RFIS]));
    Advance(events, 4, System(db, map[1 := NO_RFIS]), System(db, map[1 := NO_RFIS, 2 := NO_SUBMITTALS]));
  }

  lemma BothUpdatesAreClosed(events: seq<Event>, rest: Settings, none: Settings)
    requires |events| == 7 && events[5] == Close(1) && events[6] == Close(2)
    requires Run(START, events[..5], 30) == System(Tables(BOTH_SOURCES), map[1 := NO_RFIS, 2 := NO_SUBMITTALS])
    requires Finish(Tables(BOTH_SOURCES), NO_RFIS).0 == Tables(rest)
    requires Finish(Tables(rest), NO_SUBMITTALS).0 == Tables(none)
    ensures Run(START, events[..7], 30).db == Tables(none)
  {
    var open := map[1 := NO_RFIS, 2 := NO_SUBMITTALS];
    AdvanceByClosing(events, 5, System(Tables(BOTH_SOURCES), open), 1, Tables(rest));
    AdvanceByClosing(events, 6, System(Tables(rest), open - {1}), 2, Tables(none));
  }

  /** Each update passes the source check, and the profile they share ends without a source. */
  lemma TwoUpdatesLoseBothSources()
    ensures !AllSourced(Run(START, TwoUpdates(), 30).db)
  {
    hide Step, Begin, Finish, WithConnection, Fits, AllSourced;
    var rest := BOTH_SOURCES[SyncRfis := Flag(false)];
    BothSourcesAreValid();
    ProfileIsCreated();
    BothUpdatesAreOpen(TwoUpdates());
    FirstFinishes(rest);
    SecondFinishes(rest, rest[SyncSubmittals := Flag(false)]);
    SourcesAreLost(TwoUpdates(), rest, rest[SyncSubmittals := Flag(false)]);
  }

  lemma SourcesAreLost(events: seq<Event>, rest: Settings, none: Settings)
    requires |events| == 7 && events[5] == Close(1) && events[6] == Close(2)
    requires Run(START, events[..5], 30) == System(Tables(BOTH_SOURCES), map[1 := NO_RFIS, 2 := NO_SUBMITTALS])
    requires Finish(Tables(BOTH_SOURCES), NO_RFIS).0 == Tables(rest)
    requires Finish(Tables(rest), NO_SUBMITTALS).0 == Tables(none) && HasColumns(none) && !HasSource(none)
    ensures !AllSourced(Run(START, events, 30).db)
  {
    hide Step, Begin, Finish, WithConnection, Fits, AllSourced, Tables, HasColumns, HasSource;
    BothUpdatesAreClosed(events, rest, none);
    WholeRun(events);
    NoSourceLeft(Run(START, events, 30).db, none);
  }

  lemma WholeRun(events: seq<Event>)
    ensures Run(START, events[..|events|], 30) == Run(START, events, 30)
  {
    assert events[..|events|] == events;
  }

  lemma NoSourceLeft(db: Db, settings: Settings)
    requires DbSafe(db) && db == Tables(settings) && HasColumns(settings) && !HasSource(settings)
    ensures !AllSourced(db)
  {
    assert !Sourced(db, 1);
  }
}
