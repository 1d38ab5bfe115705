/** Connections and sync profiles: requests read the committed tables, change their own copy of a
    row, and commit it or give it up; any number of requests may be under way at once. */
module SyncProfileStore {
  import opened Options

  /** The columns of a profile that a request may set. */
  datatype Column = Name | Enabled | SyncRfis | SyncSubmittals | PollingInterval | Mode

  datatype Value = Null | Text(text: string) | Flag(on: bool) | Number(n: int)

  type Settings = map<Column, Value>

  /** The payload of a connection, which is stored as it is sent. */
  datatype Connection = Connection(
    name: string, company: string, environment: string, permitted: seq<string>, tools: seq<string>,
    clientIdRef: Option<string>, secretName: string)

  datatype Profile = Profile(connection: int, project: string, settings: Settings)

  datatype Db = Db(
    connections: map<int, Connection>, profiles: map<int, Profile>, nextConnection: int, nextProfile: int)

  const EMPTY := Db(map[], map[], 1, 1)

  /** One entry of the update payload; the client may send an explicit NULL. */
  datatype Change = Change(column: Column, value: Value)

  datatype Request =
    | Create(connection: int, project: string, settings: Settings)
    | Update(id: int, changes: seq<Change>)

  /** What a request holds between its reads and its commit: a new row, or the row it read and the
      copy it changed. */
  datatype Transaction = Insert(profile: Profile) | Edit(id: int, snapshot: Settings, draft: Settings)

  datatype Answer = Accepted(id: int) | NotFound | Unprocessable | Conflict | ServerError

  datatype Opened = Pending(session: Transaction) | Rejected(answer: Answer)

  // ----- Values and payloads

  predicate Fits(column: Column, value: Value) {
    match column
    case Name => value.Text? && 1 <= |value.text| <= 200
    case Enabled | SyncRfis | SyncSubmittals => value.Flag?
    case PollingInterval => value.Number? && value.n > 0
    case Mode => value == Text("mock") || value == Text("live")
  }

  predicate HasColumns(settings: Settings) {
    forall c: Column :: c in settings
  }

  /** A row the table accepts and the schema describes: every column present, typed and not NULL. */
  predicate Complete(settings: Settings) {
    forall c: Column :: c in settings && Fits(c, settings[c])
  }

  predicate Off(value: Value) {
    value == Null || value == Flag(false)
  }

  predicate HasSource(settings: Settings)
    requires HasColumns(settings)
  {
    !(Off(settings[SyncRfis]) && Off(settings[SyncSubmittals]))
  }

  predicate ValidConnection(c: Connection) {
    && 1 <= |c.name| <= 200 && 1 <= |c.company| <= 100
    && c.environment in {"sandbox", "production"}
    && 1 <= |c.permitted|
    && (forall tool :: tool in c.tools ==> tool in {"rfis", "submittals"})
    && (c.clientIdRef.Some? ==> 1 <= |c.clientIdRef.value|)
    && 1 <= |c.secretName|
  }

  predicate ValidCreate(project: string, settings: Settings) {
    && 1 <= |project| <= 100
    && (forall c: Column :: c in settings &&
         (Fits(c, settings[c]) || (c == PollingInterval && settings[c] == Null)))
    && HasSource(settings)
  }

  predicate ValidUpdate(changes: seq<Change>) {
    forall k :: 0 <= k < |changes| ==> changes[k].value == Null || Fits(changes[k].column, changes[k].value)
  }

  /** The payload is a dictionary: no column twice. */
  predicate IsDictionary(changes: seq<Change>) {
    forall i, j :: 0 <= i < j < |changes| ==> changes[i].column != changes[j].column
  }

  /** `payload.polling_interval_minutes or default`. */
  function IntervalOrDefault(value: Value, defaultInterval: int): Value {
    if value == Null || value == Number(0) then Number(defaultInterval) else value
  }

  /** The attributes assigned one by one, in the order of the payload. */
  function Applied(settings: Settings, changes: seq<Change>): Settings {
    if changes == [] then settings
    else
      var last := changes[|changes| - 1];
      Applied(settings, changes[..|changes| - 1])[last.column := last.value]
  }

  // ----- The two halves of a request

  /** Everything up to the commit, against the tables as they are when the request reads them. */
  function Begin(db: Db, request: Request, defaultInterval: int): Opened
    requires DbSafe(db)
  {
    match request
    case Create(connection, project, settings) =>
      if !ValidCreate(project, settings) then Rejected(Unprocessable)
      else if connection !in db.connections then Rejected(NotFound)
      else if project !in db.connections[connection].permitted then Rejected(Unprocessable)
      else
        var interval := IntervalOrDefault(settings[PollingInterval], defaultInterval);
        Pending(Insert(Profile(connection, project, settings[PollingInterval := interval])))
    case Update(id, changes) =>
      if !ValidUpdate(changes) then Rejected(Unprocessable)
      else if id !in db.profiles then Rejected(NotFound)
      else
        var snapshot := db.profiles[id].settings;
        AppliedKeepsColumns(snapshot, changes);
        var draft := Applied(snapshot, changes);
        if !HasSource(draft) then Rejected(Unprocessable) else Pending(Edit(id, snapshot, draft))
  }

  predicate Taken(profiles: map<int, Profile>, connection: int, project: string) {
    exists id :: id in profiles && profiles[id].connection == connection && profiles[id].project == project
  }

  /** The columns of the UPDATE statement: those whose value differs from the one that was read. */
  function Written(snapshot: Settings, draft: Settings): Settings {
    map c | c in draft && c in snapshot && draft[c] != snapshot[c] :: draft[c]
  }

  /** Every column is declared NOT NULL. */
  predicate WritesNull(written: Settings) {
    exists c :: c in written && written[c] == Null
  }

  /** The commit, against the tables as they are by then. */
  function Finish(db: Db, session: Transaction): (Db, Answer) {
    match session
    case Insert(profile) =>
      if Taken(db.profiles, profile.connection, profile.project) then (db, Conflict)
      else
        (db.(profiles := db.profiles[db.nextProfile := profile], nextProfile := db.nextProfile + 1),
         Accepted(db.nextProfile))
    case Edit(id, snapshot, draft) =>
      var written := Written(snapshot, draft);
      if id !in db.profiles || WritesNull(written) then (db, ServerError)
      else
        var row := db.profiles[id];
        (db.(profiles := db.profiles[id := row.(settings := row.settings + written)]), Accepted(id))
  }

  /** A request nobody interrupts: both halves against the same tables. */
  function Handle(db: Db, request: Request, defaultInterval: int): (Db, Answer)
    requires DbSafe(db)
  {
    match Begin(db, request, defaultInterval)
    case Rejected(answer) => (db, answer)
    case Pending(session) => Finish(db, session)
  }

  function WithConnection(db: Db, connection: Connection): Db {
    if ValidConnection(connection)
    then db.(connections := db.connections[db.nextConnection := connection], nextConnection := db.nextConnection + 1)
    else db
  }

  // ----- What every committed state satisfies

  predicate ProfileSafe(db: Db, id: int)
    requires id in db.profiles
  {
    var p := db.profiles[id];
    && id < db.nextProfile
    && p.connection in db.connections && p.project in db.connections[p.connection].permitted
    && Complete(p.settings)
  }

  ghost predicate UniquePairs(profiles: map<int, Profile>) {
    forall i, j ::
      (i in profiles && j in profiles && profiles[i].connection == profiles[j].connection
       && profiles[i].project == profiles[j].project) ==> i == j
  }

  ghost predicate DbSafe(db: Db) {
    && (forall id :: id in db.connections ==> id < db.nextConnection)
    && (forall id :: id in db.profiles ==> ProfileSafe(db, id))
    && UniquePairs(db.profiles)
  }

  predicate SessionSafe(db: Db, session: Transaction) {
    match session
    case Insert(p) =>
      && p.connection in db.connections && p.project in db.connections[p.connection].permitted
      && Complete(p.settings) && HasSource(p.settings)
    case Edit(id, snapshot, draft) =>
      && id in db.profiles && Complete(snapshot) && HasColumns(draft) && HasSource(draft)
      && (forall c: Column :: draft[c] == Null || Fits(c, draft[c]))
  }

  /** Nothing already stored is lost or moved: connections stay as they are, and a profile keeps its
      connection and its project. */
  ghost predicate Grows(older: Db, newer: Db) {
    && (forall id :: id in older.connections ==>
         id in newer.connections && newer.connections[id] == older.connections[id])
    && (forall id :: id in older.profiles ==>
         && id in newer.profiles && newer.profiles[id].connection == older.profiles[id].connection
         && newer.profiles[id].project == older.profiles[id].project)
  }

  lemma {:induction false} AppliedKeepsColumns(settings: Settings, changes: seq<Change>)
    requires HasColumns(settings)
    ensures HasColumns(Applied(settings, changes))
  {
    if changes != [] {
      AppliedKeepsColumns(settings, changes[..|changes| - 1]);
    }
  }

  lemma {:induction false} AppliedFits(settings: Settings, changes: seq<Change>)
    requires Complete(settings) && ValidUpdate(changes)
    ensures HasColumns(Applied(settings, changes))
    ensures forall c: Column :: Applied(settings, changes)[c] == Null || Fits(c, Applied(settings, changes)[c])
  {
    AppliedKeepsColumns(settings, changes);
    if changes != [] {
      AppliedFits(settings, changes[..|changes| - 1]);
    }
  }

  lemma BeginIsSafe(db: Db, request: Request, defaultInterval: int)
    requires DbSafe(db) && defaultInterval > 0
    ensures var begun := Begin(db, request, defaultInterval); begun.Pending? ==> SessionSafe(db, begun.session)
  {
    if request.Update? && request.id in db.profiles && ValidUpdate(request.changes) {
      assert ProfileSafe(db, request.id);
      AppliedFits(db.profiles[request.id].settings, request.changes);
    }
  }

  lemma WrittenKeepsComplete(current: Settings, snapshot: Settings, draft: Settings)
    requires Complete(current) && Complete(snapshot) && HasColumns(draft)
    requires forall c: Column :: draft[c] == Null || Fits(c, draft[c])
    requires !WritesNull(Written(snapshot, draft))
    ensures Complete(current + Written(snapshot, draft))
  {
    var written := Written(snapshot, draft);
    forall c: Column
      ensures c in current + written && Fits(c, (current + written)[c])
    {
      if c in written {
        assert written[c] == draft[c];
      }
    }
  }

  lemma FinishIsSafe(db: Db, session: Transaction)
    requires DbSafe(db) && SessionSafe(db, session)
    ensures DbSafe(Finish(db, session).0) && Grows(db, Finish(db, session).0)
  {
    var after := Finish(db, session).0;
    match session
    case Insert(profile) =>
      forall id | id in after.profiles
        ensures ProfileSafe(after, id)
      {
        if id in db.profiles {
          assert ProfileSafe(db, id);
        }
      }
    case Edit(id, snapshot, draft) =>
      assert ProfileSafe(db, id);
      if after != db {
        WrittenKeepsComplete(db.profiles[id].settings, snapshot, draft);
      }
      forall other | other in after.profiles
        ensures ProfileSafe(after, other)
      {
        assert ProfileSafe(db, other);
      }
  }

  lemma SessionStaysSafe(older: Db, newer: Db, session: Transaction)
    requires SessionSafe(older, session) && Grows(older, newer)
    ensures SessionSafe(newer, session)
  {
  }

  // ----- What a request that is not interrupted does

  predicate Mentions(changes: seq<Change>, column: Column) {
    exists k :: 0 <= k < |changes| && changes[k].column == column
  }

  /** `after` carries every supplied value, and the old one in every other column. */
  ghost predicate Reflects(after: Settings, before: Settings, changes: seq<Change>)
    requires HasColumns(before) && HasColumns(after)
  {
    && (forall k :: 0 <= k < |changes| ==> after[changes[k].column] == changes[k].value)
    && (forall c: Column :: !Mentions(changes, c) ==> after[c] == before[c])
  }

  lemma AppliedReflects(settings: Settings, changes: seq<Change>)
    requires HasColumns(settings) && IsDictionary(changes)
    ensures HasColumns(Applied(settings, changes)) && Reflects(Applied(settings, changes), settings, changes)
  {
    AppliedKeepsColumns(settings, changes);
    forall k | 0 <= k < |changes|
      ensures Applied(settings, changes)[changes[k].column] == changes[k].value
    {
      AppliedSets(settings, changes, k);
    }
    forall c: Column | !Mentions(changes, c)
      ensures Applied(settings, changes)[c] == settings[c]
    {
      AppliedKeeps(settings, changes, c);
    }
  }

  lemma {:induction false} AppliedSets(settings: Settings, changes: seq<Change>, k: nat)
    requires HasColumns(settings) && IsDictionary(changes) && k < |changes|
    ensures HasColumns(Applied(settings, changes))
    ensures Applied(settings, changes)[changes[k].column] == changes[k].value
  {
    AppliedKeepsColumns(settings, changes);
    if k < |changes| - 1 {
      AppliedSets(settings, changes[..|changes| - 1], k);
    }
  }

  lemma {:induction false} AppliedKeeps(settings: Settings, changes: seq<Change>, c: Column)
    requires HasColumns(settings) && !Mentions(changes, c)
    ensures HasColumns(Applied(settings, changes)) && Applied(settings, changes)[c] == settings[c]
  {
    AppliedKeepsColumns(settings, changes);
    if changes != [] {
      assert changes[|changes| - 1].column != c;
      AppliedKeeps(settings, changes[..|changes| - 1], c);
    }
  }

  lemma MentionsAreShared(xs: seq<Change>, ys: seq<Change>, c: Column)
    requires multiset(xs) == multiset(ys)
    ensures Mentions(xs, c) ==> Mentions(ys, c)
  {
    if Mentions(xs, c) {
      var k :| 0 <= k < |xs| && xs[k].column == c;
      assert xs[k] in multiset(ys);
      assert xs[k] in ys;
    }
  }

  lemma OneResultReflects(first: Settings, second: Settings, before: Settings, xs: seq<Change>, ys: seq<Change>)
    requires HasColumns(before) && HasColumns(first) && HasColumns(second)
    requires Reflects(first, before, xs) && Reflects(second, before, ys)
    requires multiset(xs) == multiset(ys)
    ensures first == second
  {
    assert forall x :: x in xs <==> x in multiset(xs);
    assert forall y :: y in ys <==> y in multiset(ys);
    forall c: Column
      ensures first[c] == second[c]
    {
      MentionsAreShared(xs, ys, c);
      MentionsAreShared(ys, xs, c);
      if Mentions(xs, c) {
        var k :| 0 <= k < |xs| && xs[k].column == c;
        assert xs[k] in ys;
      }
    }
  }

  lemma PermutedDictionary(xs: seq<Change>, ys: seq<Change>)
    requires IsDictionary(xs) && multiset(xs) == multiset(ys)
    ensures IsDictionary(ys)
  {
    forall i, j | 0 <= i < j < |ys|
      ensures ys[i].column != ys[j].column
    {
      assert ys[i] in multiset(ys) && ys[j] in multiset(ys);
      AtMostOnce(xs, ys[j]);
      if ys[i].column == ys[j].column {
        OneEntryPerColumn(xs, ys[i], ys[j]);
        Repeated(ys, i, j);
      }
    }
  }

  lemma Repeated<T>(s: seq<T>, i: nat, j: nat)
    requires i < j < |s| && s[i] == s[j]
    ensures multiset(s)[s[i]] >= 2
  {
    assert s == s[..j] + s[j..];
    assert s[i] in s[..j] && s[j] in s[j..];
    assert multiset(s) == multiset(s[..j]) + multiset(s[j..]);
  }

  lemma OneEntryPerColumn(xs: seq<Change>, x: Change, y: Change)
    requires IsDictionary(xs) && x in xs && y in xs && x.column == y.column
    ensures x == y
  {
  }

  lemma {:induction false} AtMostOnce(xs: seq<Change>, x: Change)
    requires IsDictionary(xs)
    ensures multiset(xs)[x] <= 1
  {
    if xs != [] {
      assert xs == [xs[0]] + xs[1..];
      AtMostOnce(xs[1..], x);
      assert xs[0] == x ==> x !in xs[1..];
    }
  }

  lemma WrittenCompletes(snapshot: Settings, draft: Settings)
    requires HasColumns(snapshot) && HasColumns(draft)
    ensures snapshot + Written(snapshot, draft) == draft
  {
    var merged := snapshot + Written(snapshot, draft);
    assert forall c: Column :: c in merged && merged[c] == draft[c];
    assert merged.Keys == draft.Keys;
  }

  /** An update is accepted exactly when the payload is valid and free of NULLs, the profile exists
      and a source stays on. Accepted, it sets the supplied fields of that one profile and nothing
      else; refused at any point, even after the assignments, it leaves the tables as they were. */
  lemma UpdateSetsWhatWasSent(db: Db, id: int, changes: seq<Change>, defaultInterval: int)
    requires DbSafe(db) && IsDictionary(changes)
    ensures var (after, answer) := Handle(db, Update(id, changes), defaultInterval);
            && (answer == Accepted(id) <==>
                && ValidUpdate(changes) && id in db.profiles
                && !SendsNull(changes)
                && (AppliedKeepsColumns(db.profiles[id].settings, changes);
                    HasSource(Applied(db.profiles[id].settings, changes))))
            && (answer != Accepted(id) ==> !answer.Accepted? && after == db)
    ensures var (after, answer) := Handle(db, Update(id, changes), defaultInterval);
            answer == Accepted(id) ==>
              && after == db.(profiles := after.profiles)
              && after.profiles.Keys == db.profiles.Keys
              && (forall other :: other in db.profiles && other != id ==> after.profiles[other] == db.profiles[other])
              && after.profiles[id] == db.profiles[id].(settings := after.profiles[id].settings)
              && HasColumns(after.profiles[id].settings)
              && Reflects(after.profiles[id].settings, db.profiles[id].settings, changes)
              && HasSource(after.profiles[id].settings)
  {
    if id in db.profiles && ValidUpdate(changes) {
      assert ProfileSafe(db, id);
      var snapshot := db.profiles[id].settings;
      var draft := Applied(snapshot, changes);
      AppliedReflects(snapshot, changes);
      WrittenCompletes(snapshot, draft);
      NullIsWritten(snapshot, changes);
    }
  }

  predicate SendsNull(changes: seq<Change>) {
    exists k :: 0 <= k < |changes| && changes[k].value == Null
  }

  /** A NULL that was sent always reaches the UPDATE statement, and no other NULL does. */
  lemma NullIsWritten(snapshot: Settings, changes: seq<Change>)
    requires Complete(snapshot) && IsDictionary(changes)
    ensures WritesNull(Written(snapshot, Applied(snapshot, changes))) <==> SendsNull(changes)
  {
    AppliedReflects(snapshot, changes);
    if SendsNull(changes) {
      var k :| 0 <= k < |changes| && changes[k].value == Null;
      NullDiffers(snapshot, Applied(snapshot, changes), changes[k].column);
    }
    if WritesNull(Written(snapshot, Applied(snapshot, changes))) {
      var c :| c in Written(snapshot, Applied(snapshot, changes)) && Applied(snapshot, changes)[c] == Null;
      assert Mentions(changes, c);
    }
  }

  /** An update fails at its commit, with the integrity error that nothing catches, exactly when it
      passes every check before and carries a NULL; the tables then stay as they were. */
  lemma UpdateFailsAtCommitIff(db: Db, id: int, changes: seq<Change>, defaultInterval: int)
    requires DbSafe(db) && IsDictionary(changes)
    ensures var (after, answer) := Handle(db, Update(id, changes), defaultInterval);
            && (answer == ServerError <==>
                && ValidUpdate(changes) && id in db.profiles && SendsNull(changes)
                && (AppliedKeepsColumns(db.profiles[id].settings, changes);
                    HasSource(Applied(db.profiles[id].settings, changes))))
            && (answer == ServerError ==> after == db)
  {
    if id in db.profiles && ValidUpdate(changes) {
      assert ProfileSafe(db, id);
      AppliedKeepsColumns(db.profiles[id].settings, changes);
      NullIsWritten(db.profiles[id].settings, changes);
    }
  }

  /** An explicit NULL for `enabled` fails at the commit for every profile that has a source on. */
  lemma NullEnabledFails(db: Db, id: int, defaultInterval: int)
    requires DbSafe(db) && id in db.profiles && HasColumns(db.profiles[id].settings)
    requires HasSource(db.profiles[id].settings)
    ensures Handle(db, Update(id, [Change(Enabled, Null)]), defaultInterval) == (db, ServerError)
  {
    var changes := [Change(Enabled, Null)];
    var settings := db.profiles[id].settings;
    assert changes[..0] == [];
    assert Applied(settings, changes) == settings[Enabled := Null];
    assert changes[0].value == Null;
    UpdateFailsAtCommitIff(db, id, changes, defaultInterval);
  }

  lemma NullDiffers(snapshot: Settings, draft: Settings, c: Column)
    requires Complete(snapshot) && c in draft && draft[c] == Null
    ensures WritesNull(Written(snapshot, draft))
  {
    assert Fits(c, snapshot[c]);
    assert c in Written(snapshot, draft);
  }

  /** The order in which the payload names its fields makes no difference. */
  lemma FieldOrderIsIrrelevant(db: Db, id: int, xs: seq<Change>, ys: seq<Change>, defaultInterval: int)
    requires DbSafe(db) && IsDictionary(xs) && multiset(xs) == multiset(ys)
    ensures Handle(db, Update(id, xs), defaultInterval) == Handle(db, Update(id, ys), defaultInterval)
  {
    assert forall x :: x in xs <==> x in multiset(xs);
    assert forall y :: y in ys <==> y in multiset(ys);
    assert ValidUpdate(xs) <==> ValidUpdate(ys) by {
      assert ValidUpdate(xs) <==> forall x :: x in xs ==> x.value == Null || Fits(x.column, x.value);
      assert ValidUpdate(ys) <==> forall y :: y in ys ==> y.value == Null || Fits(y.column, y.value);
    }
    if id in db.profiles {
      assert ProfileSafe(db, id);
      PermutedDictionary(xs, ys);
      AppliedReflects(db.profiles[id].settings, xs);
      AppliedReflects(db.profiles[id].settings, ys);
      OneResultReflects(
        Applied(db.profiles[id].settings, xs), Applied(db.profiles[id].settings, ys), db.profiles[id].settings, xs, ys);
      assert Applied(db.profiles[id].settings, xs) == Applied(db.profiles[id].settings, ys) by {
        assert Applied(db.profiles[id].settings, xs).Keys == Applied(db.profiles[id].settings, ys).Keys;
      }
    }
  }

  /** A creation succeeds exactly when the connection exists, permits the project and has no profile
      for it; a conflict, like every other refusal, leaves the tables as they were. */
  lemma CreateAddsOneProfile(db: Db, connection: int, project: string, settings: Settings, defaultInterval: int)
    requires DbSafe(db) && defaultInterval > 0
    ensures var (after, answer) := Handle(db, Create(connection, project, settings), defaultInterval);
            var allowed := && ValidCreate(project, settings) && connection in db.connections
                           && project in db.connections[connection].permitted;
            && (answer.Accepted? <==> allowed && !Taken(db.profiles, connection, project))
            && (answer == Conflict <==> allowed && Taken(db.profiles, connection, project))
            && (!answer.Accepted? ==> after == db)
    ensures var (after, answer) := Handle(db, Create(connection, project, settings), defaultInterval);
            answer.Accepted? ==>
              && answer.id !in db.profiles && after.profiles.Keys == db.profiles.Keys + {answer.id}
              && (forall id :: id in db.profiles ==> after.profiles[id] == db.profiles[id])
              && after.connections == db.connections
              && after.profiles[answer.id].connection == connection && after.profiles[answer.id].project == project
              && Complete(after.profiles[answer.id].settings) && HasSource(after.profiles[answer.id].settings)
              && (forall c: Column :: settings[c] != Null ==> after.profiles[answer.id].settings[c] == settings[c])
              && (settings[PollingInterval] == Null ==>
                   after.profiles[answer.id].settings[PollingInterval] == Number(defaultInterval))
  {
    forall id | id in db.profiles
      ensures id < db.nextProfile
    {
      assert ProfileSafe(db, id);
    }
  }

  // ----- The store

  /** The tables, and the setting that applies to profiles created without an interval. */
  class Store {
    const defaultInterval: int
    var connections: map<int, Connection>
    var profiles: map<int, Profile>
    var nextConnection: int
    var nextProfile: int

    ghost function Contents(): Db
      reads this
    {
      Db(connections, profiles, nextConnection, nextProfile)
    }

    constructor (defaultInterval: int)
      ensures Contents() == EMPTY && DbSafe(Contents()) && this.defaultInterval == defaultInterval
    {
      this.defaultInterval := defaultInterval;
      connections, profiles, nextConnection, nextProfile := map[], map[], 1, 1;
    }

    method CreateConnection(connection: Connection) returns (answer: Answer)
      requires DbSafe(Contents())
      modifies this
      ensures answer == Unprocessable <==>
                || connection.name == "" || |connection.name| > 200
                || connection.company == "" || |connection.company| > 100
                || (connection.environment != "sandbox" && connection.environment != "production")
                || connection.permitted == []
                || (exists k :: 0 <= k < |connection.tools| && connection.tools[k] != "rfis"
                                && connection.tools[k] != "submittals")
                || connection.clientIdRef == Some("") || connection.secretName == ""
      ensures answer == Unprocessable ==>
                connections == old(connections) && nextConnection == old(nextConnection)
      ensures answer != Unprocessable ==>
                && answer == Accepted(old(nextConnection)) && nextConnection == old(nextConnection) + 1
                && connections == old(connections)[old(nextConnection) := connection]
      ensures profiles == old(profiles) && nextProfile == old(nextProfile)
      ensures Contents() == WithConnection(old(Contents()), connection)
      ensures DbSafe(Contents()) && Grows(old(Contents()), Contents())
    {
      ConnectionIsSafe(Contents(), connection);
      InvalidConnectionMeans(connection);
      if !ValidConnection(connection) {
        return Unprocessable;
      }
      connections := connections[nextConnection := connection];
      answer := Accepted(nextConnection);
      nextConnection := nextConnection + 1;
    }

    method CreateSyncProfile(connection: int, project: string, settings: Settings) returns (answer: Answer)
      requires DbSafe(Contents()) && defaultInterval > 0
      modifies this
      ensures (Contents(), answer) == Handle(old(Contents()), Create(connection, project, settings), defaultInterval)
      ensures DbSafe(Contents()) && Grows(old(Contents()), Contents())
    {
      HandleIsSafe(Contents(), Create(connection, project, settings), defaultInterval);
      if !ValidCreate(project, settings) {
        return Unprocessable;
      }
      if connection !in connections {
        return NotFound;
      }
      if project !in connections[connection].permitted {
        return Unprocessable;
      }
      var values := settings;
      if values[PollingInterval] == Null || values[PollingInterval] == Number(0) {
        values := values[PollingInterval := Number(defaultInterval)];
      }
      assert values == settings[PollingInterval := IntervalOrDefault(settings[PollingInterval], defaultInterval)];
      if Taken(profiles, connection, project) {
        return Conflict;
      }
      profiles := profiles[nextProfile := Profile(connection, project, values)];
      answer := Accepted(nextProfile);
      nextProfile := nextProfile + 1;
    }

    method UpdateSyncProfile(id: int, changes: seq<Change>) returns (answer: Answer)
      requires DbSafe(Contents()) && defaultInterval > 0
      modifies this
      ensures (Contents(), answer) == Handle(old(Contents()), Update(id, changes), defaultInterval)
      ensures DbSafe(Contents()) && Grows(old(Contents()), Contents())
    {
      HandleIsSafe(Contents(), Update(id, changes), defaultInterval);
      if !ValidUpdate(changes) {
        return Unprocessable;
      }
      if id !in profiles {
        return NotFound;
      }
      assert ProfileSafe(Contents(), id);
      var profile := profiles[id];
      var draft := profile.settings;
      for i := 0 to |changes|
        invariant draft == Applied(profile.settings, changes[..i])
      {
        assert changes[..i + 1][..i] == changes[..i];
        draft := draft[changes[i].column := changes[i].value];
      }
      assert changes[..|changes|] == changes;
      AppliedKeepsColumns(profile.settings, changes);
      if Off(draft[SyncRfis]) && Off(draft[SyncSubmittals]) {
        return Unprocessable;
      }
      var written := Written(profile.settings, draft);
      if WritesNull(written) {
        return ServerError;
      }
      profiles := profiles[id := profile.(settings := profile.settings + written)];
      answer := Accepted(id);
    }
  }

  lemma InvalidConnectionMeans(connection: Connection)
    ensures !ValidConnection(connection) <==>
              || connection.name == "" || |connection.name| > 200
              || connection.company == "" || |connection.company| > 100
              || (connection.environment != "sandbox" && connection.environment != "production")
              || connection.permitted == []
              || (exists k :: 0 <= k < |connection.tools| && connection.tools[k] != "rfis"
                              && connection.tools[k] != "submittals")
              || connection.clientIdRef == Some("") || connection.secretName == ""
  {
    if forall k :: 0 <= k < |connection.tools| ==> connection.tools[k] in {"rfis", "submittals"} {
      assert forall tool :: tool in connection.tools ==> tool in {"rfis", "submittals"};
    } else {
      var k :| 0 <= k < |connection.tools| && connection.tools[k] !in {"rfis", "submittals"};
      assert connection.tools[k] in connection.tools;
    }
  }

  lemma ConnectionIsSafe(db: Db, connection: Connection)
    requires DbSafe(db)
    ensures DbSafe(WithConnection(db, connection)) && Grows(db, WithConnection(db, connection))
  {
    var after := WithConnection(db, connection);
    forall id | id in after.profiles
      ensures ProfileSafe(after, id)
    {
      assert ProfileSafe(db, id);
    }
  }

  lemma HandleIsSafe(db: Db, request: Request, defaultInterval: int)
    requires DbSafe(db) && defaultInterval > 0
    ensures var after := Handle(db, request, defaultInterval).0; DbSafe(after) && Grows(db, after)
  {
    BeginIsSafe(db, request, defaultInterval);
    var begun := Begin(db, request, defaultInterval);
    if begun.Pending? {
      FinishIsSafe(db, begun.session);
    }
  }
}
