/** What requests to the store are answered and what they change, said of the payload and the columns:
    the reference for both halves of a request and for the events of a run. */
module SyncProfileRules {
  import opened Options
  import opened SyncProfileStore
  import opened SyncProfileRuns

  // ----- Payloads

  lemma FitsMeans(value: Value)
    ensures Fits(Name, value) <==> exists t :: value == Text(t) && t != "" && |t| <= 200
    ensures forall c :: c in {Enabled, SyncRfis, SyncSubmittals} ==>
              (Fits(c, value) <==> value == Flag(true) || value == Flag(false))
    ensures Fits(PollingInterval, value) <==> exists n :: value == Number(n) && n >= 1
    ensures Fits(Mode, value) <==> value in {Text("mock"), Text("live")}
  {
  }

  /** Of two flags or NULLs, one is on. */
  lemma HasSourceMeans(settings: Settings)
    requires HasColumns(settings)
    requires forall c :: c in {SyncRfis, SyncSubmittals} ==> settings[c] == Null || Fits(c, settings[c])
    ensures HasSource(settings) <==> settings[SyncRfis] == Flag(true) || settings[SyncSubmittals] == Flag(true)
  {
  }

  /** The fields of a creation, each under its own constraint; only the interval may be missing. */
  predicate IsCreatePayload(project: string, settings: Settings) {
    && project != "" && |project| <= 100
    && (forall c: Column :: c in settings)
    && settings[Name].Text? && settings[Name].text != "" && |settings[Name].text| <= 200
    && settings[Enabled].Flag? && settings[SyncRfis].Flag? && settings[SyncSubmittals].Flag?
    && (settings[PollingInterval] != Null ==> settings[PollingInterval].Number? && settings[PollingInterval].n >= 1)
    && settings[Mode] in {Text("mock"), Text("live")}
    && (settings[SyncRfis].on || settings[SyncSubmittals].on)
  }

  lemma CreatePayloadMeans(project: string, settings: Settings)
    ensures ValidCreate(project, settings) <==> IsCreatePayload(project, settings)
  {
    if IsCreatePayload(project, settings) {
      forall c: Column
        ensures Fits(c, settings[c]) || (c == PollingInterval && settings[c] == Null)
      {
        match c
        case Name =>
        case Enabled =>
        case SyncRfis =>
        case SyncSubmittals =>
        case PollingInterval =>
        case Mode =>
      }
    }
  }

  predicate Holds(profile: Profile, connection: int, project: string) {
    profile.connection == connection && profile.project == project
  }

  predicate SomeRowHolds(profiles: map<int, Profile>, connection: int, project: string) {
    exists id :: id in profiles && Holds(profiles[id], connection, project)
  }

  /** The four answers to a creation that nobody interrupts. */
  lemma CreateAnswers(db: Db, connection: int, project: string, settings: Settings, defaultInterval: int)
    requires DbSafe(db)
    ensures var answer := Handle(db, Create(connection, project, settings), defaultInterval).1;
            if !IsCreatePayload(project, settings) then answer == Unprocessable
            else if connection !in db.connections then answer == NotFound
            else if project !in db.connections[connection].permitted then answer == Unprocessable
            else if SomeRowHolds(db.profiles, connection, project) then answer == Conflict
            else answer == Accepted(db.nextProfile)
  {
    hide ValidCreate, IsCreatePayload;
    CreatePayloadMeans(project, settings);
    if ValidCreate(project, settings) {
      CreateNeedsColumns(project, settings);
    }
    TakenMeans(db.profiles, connection, project);
    hide Taken, SomeRowHolds;
  }

  lemma TakenMeans(profiles: map<int, Profile>, connection: int, project: string)
    ensures Taken(profiles, connection, project) <==> SomeRowHolds(profiles, connection, project)
  {
    if id :| id in profiles && Holds(profiles[id], connection, project) {
      assert profiles[id].connection == connection && profiles[id].project == project;
    }
    if id :| id in profiles && profiles[id].connection == connection && profiles[id].project == project {
      assert Holds(profiles[id], connection, project);
    }
  }

  lemma CreateNeedsColumns(project: string, settings: Settings)
    requires ValidCreate(project, settings)
    ensures HasColumns(settings)
  {
  }

  predicate IsUpdatePayload(changes: seq<Change>) {
    forall k :: 0 <= k < |changes| && changes[k].value != Null ==>
      var value := changes[k].value;
      match changes[k].column
      case Name => value.Text? && value.text != "" && |value.text| <= 200
      case Enabled => value.Flag?
      case SyncRfis => value.Flag?
      case SyncSubmittals => value.Flag?
      case PollingInterval => value.Number? && value.n >= 1
      case Mode => value in {Text("mock"), Text("live")}
  }

  lemma UpdatePayloadMeans(changes: seq<Change>)
    ensures ValidUpdate(changes) <==> IsUpdatePayload(changes)
  {
  }

  /** A stored row, which has every column. */
  ghost function Row(db: Db, id: int): (settings: Settings)
    requires DbSafe(db) && id in db.profiles
    ensures settings == db.profiles[id].settings && Complete(settings)
  {
    assert ProfileSafe(db, id);
    db.profiles[id].settings
  }

  /** What a column will hold: the value sent for it, and without one the value it has. */
  predicate WillBeOn(settings: Settings, changes: seq<Change>, c: Column)
    requires HasColumns(settings)
  {
    || (exists k :: 0 <= k < |changes| && changes[k] == Change(c, Flag(true)))
    || (settings[c] == Flag(true) && forall k :: 0 <= k < |changes| ==> changes[k].column != c)
  }

  lemma WillBeOnMeans(settings: Settings, changes: seq<Change>, c: Column)
    requires Complete(settings) && IsDictionary(changes)
    ensures HasColumns(Applied(settings, changes))
    ensures Applied(settings, changes)[c] == Flag(true) <==> WillBeOn(settings, changes, c)
  {
    AppliedReflects(settings, changes);
    if k :| 0 <= k < |changes| && changes[k].column == c {
      assert Applied(settings, changes)[c] == changes[k].value;
    } else {
      assert !Mentions(changes, c);
    }
  }

  /** The five answers to an update that nobody interrupts. */
  lemma UpdateAnswers(db: Db, id: int, changes: seq<Change>, defaultInterval: int)
    requires DbSafe(db) && IsDictionary(changes)
    ensures var answer := Handle(db, Update(id, changes), defaultInterval).1;
            if !IsUpdatePayload(changes) then answer == Unprocessable
            else if id !in db.profiles then answer == NotFound
            else if !WillBeOn(Row(db, id), changes, SyncRfis)
                    && !WillBeOn(Row(db, id), changes, SyncSubmittals)
            then answer == Unprocessable
            else if exists k :: 0 <= k < |changes| && changes[k].value == Null then answer == ServerError
            else answer == Accepted(id)
  {
    hide Fits, Written, WritesNull, Applied, WillBeOn, IsUpdatePayload, ValidUpdate;
    UpdatePayloadMeans(changes);
    if id in db.profiles && ValidUpdate(changes) {
      var settings := Row(db, id);
      AppliedFits(settings, changes);
      WillBeOnMeans(settings, changes, SyncRfis);
      WillBeOnMeans(settings, changes, SyncSubmittals);
      HasSourceMeans(Applied(settings, changes));
      NullIsWritten(settings, changes);
    }
  }

  // ----- The events of a run

  /** A valid connection is stored as it was sent, under the next id, and nothing else changes. */
  lemma AddingAConnection(system: System, connection: Connection, defaultInterval: int)
    requires DbSafe(system.db)
    ensures var after := Step(system, AddConnection(connection), defaultInterval);
            && after.sessions == system.sessions
            && after.db.profiles == system.db.profiles && after.db.nextProfile == system.db.nextProfile
            && if ValidConnection(connection)
               then after.db.nextConnection == system.db.nextConnection + 1
                    && after.db.connections == system.db.connections[system.db.nextConnection := connection]
               else after.db.nextConnection == system.db.nextConnection
                    && after.db.connections == system.db.connections
  {
  }

  /** Opening a request never touches the tables. In a slot that is taken, or with a request that is
      refused, it does nothing. */
  lemma OpeningARequest(system: System, slot: int, request: Request, defaultInterval: int)
    requires DbSafe(system.db)
    ensures var after := Step(system, Open(slot, request), defaultInterval);
            && after.db == system.db
            && (forall other :: other in system.sessions ==>
                 other in after.sessions && after.sessions[other] == system.sessions[other])
            && (forall other :: other in after.sessions ==> other == slot || other in system.sessions)
  {
  }

  /** A creation is under way after its opening exactly when its payload is right, its connection is
      there and permits the project; it then holds the row as sent, with the interval filled in. */
  lemma OpeningACreation(
      system: System, slot: int, connection: int, project: string, settings: Settings, defaultInterval: int)
    requires DbSafe(system.db) && slot !in system.sessions
    ensures var after := Step(system, Open(slot, Create(connection, project, settings)), defaultInterval);
            && (slot in after.sessions <==>
                && IsCreatePayload(project, settings) && connection in system.db.connections
                && project in system.db.connections[connection].permitted)
            && (slot in after.sessions ==>
                 && PollingInterval in settings
                 && after.sessions[slot] == Insert(Profile(connection, project,
                      if settings[PollingInterval] == Null
                      then settings[PollingInterval := Number(defaultInterval)] else settings)))
  {
    hide ValidCreate, IsCreatePayload;
    CreatePayloadMeans(project, settings);
    if ValidCreate(project, settings) {
      CreateNeedsColumns(project, settings);
      IntervalIsPositive(project, settings);
      assert settings[PollingInterval := settings[PollingInterval]] == settings;
    }
  }

  lemma IntervalIsPositive(project: string, settings: Settings)
    requires ValidCreate(project, settings)
    ensures settings[PollingInterval] == Null || (settings[PollingInterval].Number? && settings[PollingInterval].n > 0)
  {
    assert settings[PollingInterval] == Null || Fits(PollingInterval, settings[PollingInterval]);
  }

  /** An update is under way after its opening exactly when its payload is right, its profile is
      there and a source will be on; it then holds the row it read and that row with what was sent. */
  lemma OpeningAnUpdate(system: System, slot: int, id: int, changes: seq<Change>, defaultInterval: int)
    requires DbSafe(system.db) && slot !in system.sessions && IsDictionary(changes)
    ensures var after := Step(system, Open(slot, Update(id, changes)), defaultInterval);
            && (slot in after.sessions <==>
                && IsUpdatePayload(changes) && id in system.db.profiles
                && (WillBeOn(Row(system.db, id), changes, SyncRfis)
                    || WillBeOn(Row(system.db, id), changes, SyncSubmittals)))
            && (slot in after.sessions ==>
                 && after.sessions[slot].Edit? && after.sessions[slot].id == id
                 && after.sessions[slot].snapshot == Row(system.db, id)
                 && HasColumns(after.sessions[slot].draft)
                 && Reflects(after.sessions[slot].draft, Row(system.db, id), changes))
  {
    hide Fits, Applied, WillBeOn, IsUpdatePayload, ValidUpdate, Reflects;
    UpdatePayloadMeans(changes);
    if id in system.db.profiles && ValidUpdate(changes) {
      var settings := Row(system.db, id);
      AppliedFits(settings, changes);
      WillBeOnMeans(settings, changes, SyncRfis);
      WillBeOnMeans(settings, changes, SyncSubmittals);
      HasSourceMeans(Applied(settings, changes));
      AppliedReflects(settings, changes);
    }
  }

  /** Closing or abandoning a request frees its slot and no other. */
  lemma FreeingASlot(system: System, slot: int, defaultInterval: int)
    requires DbSafe(system.db)
    ensures Step(system, Abandon(slot), defaultInterval).db == system.db
    ensures slot !in system.sessions ==> Step(system, Close(slot), defaultInterval) == system
    ensures forall event :: event in {Close(slot), Abandon(slot)} ==>
              var after := Step(system, event, defaultInterval);
              && slot !in after.sessions
              && (forall other :: other in after.sessions ==> other in system.sessions)
              && (forall other :: other in system.sessions && other != slot ==>
                   other in after.sessions && after.sessions[other] == system.sessions[other])
  {
  }

  /** A creation commits its row under the next id unless some row has its connection and project. */
  lemma ClosingACreation(system: System, slot: int, defaultInterval: int)
    requires DbSafe(system.db) && slot in system.sessions && system.sessions[slot].Insert?
    ensures var after := Step(system, Close(slot), defaultInterval).db;
            var profile := system.sessions[slot].profile;
            && after.connections == system.db.connections && after.nextConnection == system.db.nextConnection
            && if SomeRowHolds(system.db.profiles, profile.connection, profile.project)
               then after.profiles == system.db.profiles && after.nextProfile == system.db.nextProfile
               else after.profiles == system.db.profiles[system.db.nextProfile := profile]
                    && after.nextProfile == system.db.nextProfile + 1
  {
    var profile := system.sessions[slot].profile;
    TakenMeans(system.db.profiles, profile.connection, profile.project);
    hide Taken, SomeRowHolds;
  }

  /** The request changed a column to NULL. */
  predicate SetsNull(snapshot: Settings, draft: Settings) {
    exists c :: c in snapshot && c in draft && draft[c] == Null && snapshot[c] != Null
  }

  /** An update that sets no NULL writes the columns it changed into the row as it is by then, and
      touches no other column, row or table; one that does changes nothing. */
  lemma ClosingAnUpdate(system: System, slot: int, defaultInterval: int)
    requires Safe(system) && slot in system.sessions && system.sessions[slot].Edit?
    ensures var after := Step(system, Close(slot), defaultInterval).db;
            var (id, snapshot, draft) :=
              (system.sessions[slot].id, system.sessions[slot].snapshot, system.sessions[slot].draft);
            if SetsNull(snapshot, draft) then after == system.db
            else
              && after == system.db.(profiles := after.profiles) && after.profiles.Keys == system.db.profiles.Keys
              && (forall other :: other in system.db.profiles && other != id ==>
                   after.profiles[other] == system.db.profiles[other])
              && Holds(after.profiles[id], system.db.profiles[id].connection, system.db.profiles[id].project)
              && (forall c: Column ::
                   && c in after.profiles[id].settings
                   && after.profiles[id].settings[c]
                      == if draft[c] == snapshot[c] then Row(system.db, id)[c] else draft[c])
  {
    var (snapshot, draft) := (system.sessions[slot].snapshot, system.sessions[slot].draft);
    var written := Written(snapshot, draft);
    if SetsNull(snapshot, draft) {
      var c :| c in snapshot && c in draft && draft[c] == Null && snapshot[c] != Null;
      assert c in written && written[c] == Null;
    }
  }

  // ----- Whole runs

  /** In every state of every interleaving: no two profiles share connection and project, and every
      profile belongs to a stored connection that permits its project and has a proper value in
      every column. */
  lemma EveryReachableState(events: seq<Event>, defaultInterval: int, id: int)
    requires defaultInterval > 0 && id in Run(START, events, defaultInterval).db.profiles
    ensures var db := Run(START, events, defaultInterval).db;
            var (profile, settings) := (db.profiles[id], db.profiles[id].settings);
            && (forall other :: other in db.profiles && other != id ==>
                 !Holds(db.profiles[other], profile.connection, profile.project))
            && profile.connection in db.connections
            && profile.project in db.connections[profile.connection].permitted
            && (forall c: Column :: c in settings)
            && settings[Name].Text? && settings[Name].text != "" && |settings[Name].text| <= 200
            && settings[Enabled].Flag? && settings[SyncRfis].Flag? && settings[SyncSubmittals].Flag?
            && settings[PollingInterval].Number? && settings[PollingInterval].n >= 1
            && settings[Mode] in {Text("mock"), Text("live")}
  {
    hide Run;
    var db := Run(START, events, defaultInterval).db;
    assert DbSafe(db);
    assert ProfileSafe(db, id);
    CompleteMeans(db.profiles[id].settings);
  }

  lemma CompleteMeans(settings: Settings)
    requires Complete(settings)
    ensures settings[Name].Text? && settings[Name].text != "" && |settings[Name].text| <= 200
    ensures settings[Enabled].Flag? && settings[SyncRfis].Flag? && settings[SyncSubmittals].Flag?
    ensures settings[PollingInterval].Number? && settings[PollingInterval].n >= 1
    ensures settings[Mode] in {Text("mock"), Text("live")}
  {
    assert Fits(Name, settings[Name]) && Fits(Mode, settings[Mode]) && Fits(PollingInterval, settings[PollingInterval]);
    assert Fits(Enabled, settings[Enabled]) && Fits(SyncRfis, settings[SyncRfis]);
    assert Fits(SyncSubmittals, settings[SyncSubmittals]);
  }

  lemma GrowthAdds(older: Db, mid: Db, newer: Db)
    requires Grows(older, mid) && Grows(mid, newer)
    ensures Grows(older, newer)
  {
  }

  lemma {:induction false} LaterStatesGrow(events: seq<Event>, k: nat, defaultInterval: int)
    requires defaultInterval > 0 && k <= |events|
    ensures Grows(Run(START, events[..k], defaultInterval).db, Run(START, events, defaultInterval).db)
    decreases |events| - k
  {
    hide Step, Run, Grows;
    var older := Run(START, events[..k], defaultInterval);
    if k < |events| {
      LaterStatesGrow(events, k + 1, defaultInterval);
      RunOfPrefix(START, events, k, defaultInterval);
      StepIsSafe(older, events[k], defaultInterval);
      GrowthAdds(older.db, Step(older, events[k], defaultInterval).db, Run(START, events, defaultInterval).db);
    } else {
      assert events[..k] == events;
      NothingMoves(older, [], defaultInterval);
      RunOfNothing(older, defaultInterval);
    }
  }

  /** A connection that some state of a run has stored is in every later one as it was. */
  lemma StoredConnectionsStay(events: seq<Event>, k: nat, defaultInterval: int, id: int)
    requires defaultInterval > 0 && k <= |events|
    requires id in Run(START, events[..k], defaultInterval).db.connections
    ensures id in Run(START, events, defaultInterval).db.connections
    ensures Run(START, events, defaultInterval).db.connections[id]
         == Run(START, events[..k], defaultInterval).db.connections[id]
  {
    LaterStatesGrow(events, k, defaultInterval);
  }

  /** And so is a profile, under its connection and project. */
  lemma StoredProfilesStay(events: seq<Event>, k: nat, defaultInterval: int, id: int)
    requires defaultInterval > 0 && k <= |events|
    requires id in Run(START, events[..k], defaultInterval).db.profiles
    ensures id in Run(START, events, defaultInterval).db.profiles
    ensures var profile := Run(START, events[..k], defaultInterval).db.profiles[id];
            Holds(Run(START, events, defaultInterval).db.profiles[id], profile.connection, profile.project)
  {
    LaterStatesGrow(events, k, defaultInterval);
  }

  predicate SyncsSomething(profile: Profile) {
    && (SyncRfis in profile.settings && SyncSubmittals in profile.settings)
    && (profile.settings[SyncRfis] == Flag(true) || profile.settings[SyncSubmittals] == Flag(true))
  }

  predicate EveryProfileSyncs(system: System) {
    forall id :: id in system.db.profiles ==> SyncsSomething(system.db.profiles[id])
  }

  lemma SourcedAtMeans(events: seq<Event>, k: nat, defaultInterval: int)
    requires defaultInterval > 0 && k <= |events|
    ensures SourcedAt(events, k, defaultInterval) <==> EveryProfileSyncs(Run(START, events[..k], defaultInterval))
  {
    hide Run;
    var db := Run(START, events[..k], defaultInterval).db;
    assert DbSafe(db);
    forall id | id in db.profiles
      ensures Sourced(db, id) <==> SyncsSomething(db.profiles[id])
    {
      assert ProfileSafe(db, id);
      HasSourceMeans(db.profiles[id].settings);
    }
  }

  /** A commit that leaves a row without a source: the request read one source, switches it off and
      keeps another, which is off by now; and it sets no NULL. */
  predicate SwitchesLastOff(session: Transaction, current: Settings, dropped: Column, kept: Column)
    requires session.Edit? && HasColumns(session.snapshot) && HasColumns(session.draft) && HasColumns(current)
  {
    && !SetsNull(session.snapshot, session.draft)
    && session.snapshot[dropped] == Flag(true) && session.draft[dropped] == Flag(false)
    && session.draft[kept] == session.snapshot[kept] == Flag(true) && current[kept] == Flag(false)
  }

  ghost predicate SwitchesOff(system: System, event: Event)
    requires Safe(system)
  {
    && event.Close? && event.slot in system.sessions && system.sessions[event.slot].Edit?
    && var (session, current) := (system.sessions[event.slot], Row(system.db, system.sessions[event.slot].id));
    (SwitchesLastOff(session, current, SyncRfis, SyncSubmittals)
     || SwitchesLastOff(session, current, SyncSubmittals, SyncRfis))
  }

  lemma LosesMeans(system: System, event: Event)
    requires Safe(system)
    ensures Loses(system, event) <==> SwitchesOff(system, event)
  {
    if event.Close? && event.slot in system.sessions && system.sessions[event.slot].Edit? {
      OvertakenMeans(system.db, system.sessions[event.slot]);
    }
  }

  lemma OvertakenMeans(db: Db, session: Transaction)
    requires DbSafe(db) && SessionSafe(db, session) && session.Edit?
    ensures Overtaken(db, session) <==>
            || SwitchesLastOff(session, Row(db, session.id), SyncRfis, SyncSubmittals)
            || SwitchesLastOff(session, Row(db, session.id), SyncSubmittals, SyncRfis)
  {
    hide Complete, Written, WritesNull, SetsNull;
    WritesNullMeans(session.snapshot, session.draft);
    if !SetsNull(session.snapshot, session.draft) {
      FlagsMean(Row(db, session.id), session.snapshot, session.draft);
    }
  }

  lemma FlagsMean(current: Settings, snapshot: Settings, draft: Settings)
    requires Complete(current) && Complete(snapshot) && HasColumns(draft) && !SetsNull(snapshot, draft)
    requires forall c: Column :: draft[c] == Null || Fits(c, draft[c])
    ensures forall c :: c in {SyncRfis, SyncSubmittals} ==>
              && current[c].Flag? && snapshot[c].Flag? && draft[c].Flag?
  {
    CompleteMeans(current);
    CompleteMeans(snapshot);
    assert draft[SyncRfis] == Null || Fits(SyncRfis, draft[SyncRfis]);
    assert draft[SyncSubmittals] == Null || Fits(SyncSubmittals, draft[SyncSubmittals]);
  }

  lemma WritesNullMeans(snapshot: Settings, draft: Settings)
    ensures WritesNull(Written(snapshot, draft)) <==> SetsNull(snapshot, draft)
  {
    if c :| c in snapshot && c in draft && draft[c] == Null && snapshot[c] != Null {
      assert Written(snapshot, draft)[c] == Null;
    }
  }

  /** The rule over whole runs, in terms of the columns: in every state every profile syncs something
      exactly when no commit switches off the last source of its row. */
  lemma EveryProfileSyncsIff(events: seq<Event>, defaultInterval: int)
    requires defaultInterval > 0
    ensures (forall k: nat :: k <= |events| ==> EveryProfileSyncs(Run(START, events[..k], defaultInterval)))
       <==> (forall k: nat :: k < |events| ==>
              !SwitchesOff(Run(START, events[..k], defaultInterval), events[k]))
  {
    hide Run, SourcedAt, EveryProfileSyncs, Loses, SwitchesOff;
    SourcesAreKeptIff(events, defaultInterval);
    forall k: nat | k <= |events|
      ensures SourcedAt(events, k, defaultInterval) <==> EveryProfileSyncs(Run(START, events[..k], defaultInterval))
    {
      SourcedAtMeans(events, k, defaultInterval);
    }
    forall k: nat | k < |events|
      ensures LosesAt(events, k, defaultInterval)
         <==> SwitchesOff(Run(START, events[..k], defaultInterval), events[k])
    {
      LosesMeans(Run(START, events[..k], defaultInterval), events[k]);
    }
  }
}
