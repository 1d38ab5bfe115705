/** Onboarding packets: a request is enriched with the projects and tools of a connection and of the
    sync profiles stored for it. */
module Onboarding {
  import opened Options
  import opened SyncProfileStore

  datatype Tool = Rfis | Submittals

  datatype Payload = Payload(connection: Option<int>, recipient: string, projects: seq<string>, tools: seq<Tool>)

  datatype Result = Enriched(payload: Payload) | ConnectionNotFound

  const PLACEHOLDER := "GC_OWNER_COMPANY_PLACEHOLDER"

  // ----- Merging without repetition

  /** `list(dict.fromkeys(s))`. */
  function Dedup<T(==)>(s: seq<T>): seq<T> {
    if s == [] then []
    else
      var rest, last := s[..|s| - 1], s[|s| - 1];
      if last in rest then Dedup(rest) else Dedup(rest) + [last]
  }

  ghost predicate NoRepeats<T>(s: seq<T>) {
    forall i, j :: 0 <= i < j < |s| ==> s[i] != s[j]
  }

  function FirstIndex<T(==)>(s: seq<T>, x: T): (k: nat)
    requires x in s
    ensures k < |s| && s[k] == x && x !in s[..k]
  {
    if s[0] == x then 0 else 1 + FirstIndex(s[1..], x)
  }

  /** The elements of `s`, each once, in the order of their first occurrences. */
  ghost predicate KeepsFirstOccurrences<T>(r: seq<T>, s: seq<T>) {
    && (forall x :: x in r ==> x in s)
    && (forall x :: x in s ==> x in r)
    && (forall i, j :: 0 <= i < j < |r| ==> FirstIndex(s, r[i]) < FirstIndex(s, r[j]))
  }

  lemma {:induction false} DedupMember<T>(s: seq<T>, x: T)
    ensures x in Dedup(s) <==> x in s
  {
    if s != [] {
      DedupMember(s[..|s| - 1], x);
      assert s == s[..|s| - 1] + [s[|s| - 1]];
    }
  }

  lemma DedupSameElements<T>(s: seq<T>)
    ensures forall x :: x in Dedup(s) <==> x in s
  {
    forall x
      ensures x in Dedup(s) <==> x in s
    {
      DedupMember(s, x);
    }
  }

  lemma {:induction false} FirstIndexIn<T>(s: seq<T>, t: seq<T>, x: T)
    requires x in s
    ensures FirstIndex(s + t, x) == FirstIndex(s, x)
  {
    assert (s + t)[0] == s[0];
    if s[0] != x {
      assert (s + t)[1..] == s[1..] + t;
      FirstIndexIn(s[1..], t, x);
    }
  }

  lemma {:induction false} DedupKeepsOrder<T>(s: seq<T>, i: nat, j: nat)
    requires i < j < |Dedup(s)|
    ensures Dedup(s)[i] in s && Dedup(s)[j] in s
    ensures FirstIndex(s, Dedup(s)[i]) < FirstIndex(s, Dedup(s)[j])
  {
    var rest, last := s[..|s| - 1], s[|s| - 1];
    assert s == rest + [last];
    var x, y := Dedup(s)[i], Dedup(s)[j];
    DedupMember(s, x);
    DedupMember(s, y);
    DedupMember(rest, x);
    assert x == Dedup(rest)[i];
    FirstIndexIn(rest, [last], x);
    if j < |Dedup(rest)| {
      DedupKeepsOrder(rest, i, j);
      DedupMember(rest, y);
      assert y == Dedup(rest)[j];
      FirstIndexIn(rest, [last], y);
    }
  }

  lemma DedupKeepsFirstOccurrences<T>(s: seq<T>)
    ensures KeepsFirstOccurrences(Dedup(s), s) && NoRepeats(Dedup(s))
  {
    DedupSameElements(s);
    forall i, j | 0 <= i < j < |Dedup(s)|
      ensures FirstIndex(s, Dedup(s)[i]) < FirstIndex(s, Dedup(s)[j])
    {
      DedupKeepsOrder(s, i, j);
    }
  }

  lemma {:induction false} DedupOfMore<T>(s: seq<T>, t: seq<T>)
    ensures Dedup(s) <= Dedup(s + t)
  {
    if t == [] {
      assert s + t == s;
    } else {
      assert (s + t)[..|s + t| - 1] == s + t[..|t| - 1];
      DedupOfMore(s, t[..|t| - 1]);
    }
  }

  lemma {:induction false} DedupAbsorbs<T>(s: seq<T>, t: seq<T>)
    requires forall x :: x in t ==> x in s
    ensures Dedup(s + t) == Dedup(s)
  {
    if t == [] {
      assert s + t == s;
    } else {
      var rest := s + t[..|t| - 1];
      assert (s + t)[..|s + t| - 1] == rest;
      DedupAbsorbs(s, t[..|t| - 1]);
      assert t[|t| - 1] in rest;
    }
  }

  lemma {:induction false} DedupOfDistinct<T>(s: seq<T>)
    requires NoRepeats(s)
    ensures Dedup(s) == s
  {
    if s != [] {
      DedupOfDistinct(s[..|s| - 1]);
      assert s == s[..|s| - 1] + [s[|s| - 1]];
    }
  }

  // ----- Enrichment

  /** `SELECT ... WHERE connection_id = ?` over the rows in whatever order the database returns them. */
  function ProfilesOf(rows: seq<Profile>, connection: int): seq<Profile> {
    if rows == [] then []
    else
      var rest := ProfilesOf(rows[..|rows| - 1], connection);
      if rows[|rows| - 1].connection == connection then rest + [rows[|rows| - 1]] else rest
  }

  function ProjectsOf(profiles: seq<Profile>): seq<string> {
    seq(|profiles|, i requires 0 <= i < |profiles| => profiles[i].project)
  }

  predicate SyncedBySome(profiles: seq<Profile>, column: Column) {
    exists k :: 0 <= k < |profiles| && column in profiles[k].settings && !Off(profiles[k].settings[column])
  }

  function ColumnOf(tool: Tool): Column {
    match tool
    case Rfis => SyncRfis
    case Submittals => SyncSubmittals
  }

  /** Some profile syncs the tool and the request does not name it. */
  predicate IsMissing(profiles: seq<Profile>, tools: seq<Tool>, tool: Tool) {
    SyncedBySome(profiles, ColumnOf(tool)) && tool !in tools
  }

  function MergedTools(tools: seq<Tool>, profiles: seq<Profile>): seq<Tool> {
    tools
    + (if IsMissing(profiles, tools, Rfis) then [Rfis] else [])
    + (if IsMissing(profiles, tools, Submittals) then [Submittals] else [])
  }

  function MergedProjects(requested: seq<string>, permitted: seq<string>, profiles: seq<Profile>): seq<string> {
    Dedup(requested + permitted + ProjectsOf(profiles))
  }

  function Enrich(connections: map<int, Connection>, rows: seq<Profile>, payload: Payload): Result {
    if payload.connection.None? then Enriched(payload)
    else if payload.connection.value !in connections then ConnectionNotFound
    else
      var profiles := ProfilesOf(rows, payload.connection.value);
      var permitted := connections[payload.connection.value].permitted;
      Enriched(payload.(
        projects := MergedProjects(payload.projects, permitted, profiles),
        tools := MergedTools(payload.tools, profiles)))
  }

  method EnrichFromConnection(connections: map<int, Connection>, rows: seq<Profile>, payload: Payload)
    returns (result: Result)
    ensures payload.connection == None ==> result == Enriched(payload)
    ensures result == ConnectionNotFound <==>
              payload.connection != None && payload.connection.value !in connections
    ensures result == Enrich(connections, rows, payload)
  {
    if payload.connection.None? {
      return Enriched(payload);
    }
    if payload.connection.value !in connections {
      return ConnectionNotFound;
    }
    var connection := connections[payload.connection.value];
    var profiles := ProfilesOf(rows, payload.connection.value);
    var keys := payload.projects + connection.permitted + ProjectsOf(profiles);
    var projects: seq<string> := [];
    for i := 0 to |keys|
      invariant projects == Dedup(keys[..i])
    {
      assert keys[..i + 1][..i] == keys[..i];
      DedupSameElements(keys[..i]);
      if keys[i] !in projects {
        projects := projects + [keys[i]];
      }
    }
    assert keys[..|keys|] == keys;
    var tools := payload.tools;
    if SyncedBySome(profiles, SyncRfis) && Rfis !in tools {
      tools := tools + [Rfis];
    }
    if SyncedBySome(profiles, SyncSubmittals) && Submittals !in tools {
      tools := tools + [Submittals];
    }
    result := Enriched(payload.(projects := projects, tools := tools));
  }

  /** The request for the packet of one connection: its own connection id, if any, is overridden. */
  method EnrichForConnection(
    connections: map<int, Connection>, rows: seq<Profile>, connection: int, payload: Option<Payload>)
    returns (result: Result)
    ensures result.ConnectionNotFound? <==> connection !in connections
    ensures result.Enriched? ==> result.payload.connection == Some(connection)
    ensures payload.Some? ==> result == Enrich(connections, rows, payload.value.(connection := Some(connection)))
    ensures payload.None? && connection in connections ==>
              && result.payload.recipient == PLACEHOLDER
              && result.payload.tools == [Rfis, Submittals]
              && result.payload.projects
                 == MergedProjects([], connections[connection].permitted, ProfilesOf(rows, connection))
  {
    var request;
    match payload {
      case None => request := Payload(Some(connection), PLACEHOLDER, [], [Rfis, Submittals]);
      case Some(given) => request := given.(connection := Some(connection));
    }
    result := EnrichFromConnection(connections, rows, request);
  }

  // ----- What enrichment guarantees

  /** No project twice; exactly the requested, permitted and profile projects; first occurrences in
      order. Exactly the requested tools and those some profile syncs, the requested ones first. The
      rest of the request is unchanged. */
  lemma EnrichmentIsExact(connections: map<int, Connection>, rows: seq<Profile>, payload: Payload, id: int)
    requires payload.connection == Some(id) && id in connections
    ensures var result := Enrich(connections, rows, payload);
            var keys := payload.projects + connections[id].permitted + ProjectsOf(ProfilesOf(rows, id));
            && result.Enriched?
            && NoRepeats(result.payload.projects) && KeepsFirstOccurrences(result.payload.projects, keys)
            && payload.tools <= result.payload.tools
            && (forall tool :: tool in result.payload.tools <==>
                 tool in payload.tools || SyncedBySome(ProfilesOf(rows, id), ColumnOf(tool)))
            && (NoRepeats(payload.tools) ==> NoRepeats(result.payload.tools))
            && result.payload == payload.(projects := result.payload.projects, tools := result.payload.tools)
  {
    DedupKeepsFirstOccurrences(payload.projects + connections[id].permitted + ProjectsOf(ProfilesOf(rows, id)));
    MergedToolsAreExact(payload.tools, ProfilesOf(rows, id));
  }

  lemma MergedToolsAreExact(tools: seq<Tool>, profiles: seq<Profile>)
    ensures tools <= MergedTools(tools, profiles)
    ensures forall tool ::
      tool in MergedTools(tools, profiles) <==> tool in tools || SyncedBySome(profiles, ColumnOf(tool))
    ensures NoRepeats(tools) ==> NoRepeats(MergedTools(tools, profiles))
    ensures MergedTools(tools, profiles)[|tools|..] in {[], [Rfis], [Submittals], [Rfis, Submittals]}
  {
    var merged := MergedTools(tools, profiles);
    var (rfis, submittals) := (IsMissing(profiles, tools, Rfis), IsMissing(profiles, tools, Submittals));
    assert merged[|tools|..]
        == if rfis && submittals then [Rfis, Submittals]
           else if rfis then [Rfis]
           else if submittals then [Submittals]
           else [];
    forall tool
      ensures tool in merged <==> tool in tools || IsMissing(profiles, tools, tool)
    {
      var first := tools + (if IsMissing(profiles, tools, Rfis) then [Rfis] else []);
      assert tool in first <==> tool in tools || (tool == Rfis && IsMissing(profiles, tools, Rfis));
    }
  }

  /** What a row of the connection adds to the request. */
  predicate Adds(row: Profile, id: int, column: Column) {
    row.connection == id && column in row.settings && row.settings[column] == Flag(true)
  }

  lemma SyncedMeans(rows: seq<Profile>, id: int, column: Column)
    requires forall row :: row in rows ==> Complete(row.settings)
    requires column == SyncRfis || column == SyncSubmittals
    ensures SyncedBySome(ProfilesOf(rows, id), column) <==> exists row :: row in rows && Adds(row, id, column)
  {
    forall p: Profile
      ensures p in ProfilesOf(rows, id) <==> p in rows && p.connection == id
    {
      ProfilesOfKeeps(rows, id, p);
    }
    SyncedBySomeMember(ProfilesOf(rows, id), column);
    forall row | row in rows
      ensures Fits(column, row.settings[column])
    {
    }
  }

  /** What is in an enriched request, said of the rows of the table: the projects that were requested,
      that the connection permits or that a row of the connection names, and the tools that were
      requested or that such a row has switched on. */
  lemma EnrichmentMeans(connections: map<int, Connection>, rows: seq<Profile>, payload: Payload, id: int)
    requires payload.connection == Some(id) && id in connections
    requires forall row :: row in rows ==> Complete(row.settings)
    ensures var result := Enrich(connections, rows, payload);
            && result.Enriched? && result.payload.connection == Some(id)
            && result.payload.recipient == payload.recipient
            && (forall x :: x in result.payload.projects <==>
                 || x in payload.projects || x in connections[id].permitted
                 || exists row :: row in rows && row.connection == id && row.project == x)
            && (Rfis in result.payload.tools <==>
                 Rfis in payload.tools || exists row :: row in rows && Adds(row, id, SyncRfis))
            && (Submittals in result.payload.tools <==>
                 Submittals in payload.tools || exists row :: row in rows && Adds(row, id, SyncSubmittals))
  {
    hide Adds, SyncedBySome, KeepsFirstOccurrences;
    var keys := payload.projects + connections[id].permitted + ProjectsOf(ProfilesOf(rows, id));
    MergedToolsAreExact(payload.tools, ProfilesOf(rows, id));
    SyncedMeans(rows, id, SyncRfis);
    SyncedMeans(rows, id, SyncSubmittals);
    DedupSameElements(keys);
    forall x: string
      ensures x in ProjectsOf(ProfilesOf(rows, id))
         <==> exists row :: row in rows && row.connection == id && row.project == x
    {
      ProjectsOfKeeps(ProfilesOf(rows, id), x);
      forall p: Profile
        ensures p in ProfilesOf(rows, id) <==> p in rows && p.connection == id
      {
        ProfilesOfKeeps(rows, id, p);
      }
    }
  }

  /** Enriching an enriched request changes nothing. */
  lemma EnrichingTwiceIsEnough(connections: map<int, Connection>, rows: seq<Profile>, payload: Payload)
    requires Enrich(connections, rows, payload).Enriched?
    ensures Enrich(connections, rows, Enrich(connections, rows, payload).payload) == Enrich(connections, rows, payload)
  {
    if payload.connection.Some? {
      var id := payload.connection.value;
      var profiles := ProfilesOf(rows, id);
      var extra := connections[id].permitted + ProjectsOf(profiles);
      var once := Dedup(payload.projects + extra);
      assert payload.projects + extra == payload.projects + connections[id].permitted + ProjectsOf(profiles);
      DedupSameElements(payload.projects + extra);
      DedupKeepsFirstOccurrences(payload.projects + extra);
      DedupAbsorbs(once, extra);
      DedupOfDistinct(once);
      assert once + extra == once + connections[id].permitted + ProjectsOf(profiles);
      MergedToolsTwice(payload.tools, profiles);
    }
  }

  lemma MergedToolsTwice(tools: seq<Tool>, profiles: seq<Profile>)
    ensures MergedTools(MergedTools(tools, profiles), profiles) == MergedTools(tools, profiles)
  {
  }

  // ----- More profiles

  lemma {:induction false} ProfilesOfMore(rows: seq<Profile>, more: seq<Profile>, id: int)
    ensures ProfilesOf(rows + more, id) == ProfilesOf(rows, id) + ProfilesOf(more, id)
  {
    if more == [] {
      assert rows + more == rows;
    } else {
      assert (rows + more)[..|rows + more| - 1] == rows + more[..|more| - 1];
      ProfilesOfMore(rows, more[..|more| - 1], id);
    }
  }

  /** New profiles only extend the project list at its end and never remove a tool. The tool list,
      too, is extended at its end unless the old profiles added submittals alone and the new ones
      add RFIs, which go in front. */
  lemma MoreProfilesOnlyAdd(
      connections: map<int, Connection>, rows: seq<Profile>, more: seq<Profile>, payload: Payload, id: int)
    requires payload.connection == Some(id) && id in connections
    ensures var older := Enrich(connections, rows, payload).payload;
            var newer := Enrich(connections, rows + more, payload).payload;
            && older.projects <= newer.projects
            && (forall tool :: tool in older.tools ==> tool in newer.tools)
            && (older.tools <= newer.tools <==>
                !(&& IsMissing(ProfilesOf(rows, id), payload.tools, Submittals)
                  && !IsMissing(ProfilesOf(rows, id), payload.tools, Rfis)
                  && IsMissing(ProfilesOf(more, id), payload.tools, Rfis)))
  {
    ProfilesOfMore(rows, more, id);
    var first, rest := ProfilesOf(rows, id), ProfilesOf(more, id);
    var keys := payload.projects + connections[id].permitted + ProjectsOf(first);
    assert keys + ProjectsOf(rest) == payload.projects + connections[id].permitted + ProjectsOf(first + rest);
    DedupOfMore(keys, ProjectsOf(rest));
    forall tool: Tool
      ensures SyncedBySome(first + rest, ColumnOf(tool))
         <==> SyncedBySome(first, ColumnOf(tool)) || SyncedBySome(rest, ColumnOf(tool))
    {
      SyncedByEither(first, rest, ColumnOf(tool));
    }
    ToolsArePrefixIff(payload.tools, first, first + rest);
  }

  predicate Syncs(p: Profile, rfis: bool, submittals: bool) {
    && SyncRfis in p.settings && p.settings[SyncRfis] == Flag(rfis)
    && SyncSubmittals in p.settings && p.settings[SyncSubmittals] == Flag(submittals)
  }

  /** A profile for submittals alone has added that tool; a second one, for RFIs, puts its tool in front. */
  lemma ToolOrderCanChange(older: Profile, newer: Profile)
    requires Syncs(older, false, true) && Syncs(newer, true, false)
    ensures MergedTools([], [older]) == [Submittals]
    ensures MergedTools([], [older] + [newer]) == [Rfis, Submittals]
    ensures !(MergedTools([], [older]) <= MergedTools([], [older] + [newer]))
  {
    SyncedByEither([older], [newer], SyncRfis);
    SyncedByEither([older], [newer], SyncSubmittals);
    assert [older][0] == older && [newer][0] == newer;
    assert MergedTools([], [older])[0] != MergedTools([], [older] + [newer])[0];
  }

  lemma SyncedByEither(first: seq<Profile>, rest: seq<Profile>, column: Column)
    ensures SyncedBySome(first + rest, column) <==> SyncedBySome(first, column) || SyncedBySome(rest, column)
  {
    if SyncedBySome(first, column) {
      var k :| 0 <= k < |first| && column in first[k].settings && !Off(first[k].settings[column]);
      assert (first + rest)[k] == first[k];
    }
    if SyncedBySome(rest, column) {
      var k :| 0 <= k < |rest| && column in rest[k].settings && !Off(rest[k].settings[column]);
      assert (first + rest)[|first| + k] == rest[k];
    }
  }

  lemma ToolsArePrefixIff(tools: seq<Tool>, older: seq<Profile>, newer: seq<Profile>)
    requires forall tool :: IsMissing(older, tools, tool) ==> IsMissing(newer, tools, tool)
    ensures MergedTools(tools, older) <= MergedTools(tools, newer) <==>
            !(&& IsMissing(older, tools, Submittals) && !IsMissing(older, tools, Rfis)
              && IsMissing(newer, tools, Rfis))
  {
    if IsMissing(older, tools, Submittals) && !IsMissing(older, tools, Rfis) && IsMissing(newer, tools, Rfis) {
      assert MergedTools(tools, older)[|tools|] == Submittals;
      assert MergedTools(tools, newer)[|tools|] == Rfis;
    }
  }

  // ----- The order of the rows

  lemma {:induction false} ProfilesOfKeeps(rows: seq<Profile>, id: int, p: Profile)
    ensures p in ProfilesOf(rows, id) <==> p in rows && p.connection == id
  {
    if rows != [] {
      ProfilesOfKeeps(rows[..|rows| - 1], id, p);
      assert rows == rows[..|rows| - 1] + [rows[|rows| - 1]];
    }
  }

  lemma ProjectsOfKeeps(profiles: seq<Profile>, x: string)
    ensures x in ProjectsOf(profiles) <==> exists p :: p in profiles && p.project == x
  {
    if x in ProjectsOf(profiles) {
      var k :| 0 <= k < |profiles| && ProjectsOf(profiles)[k] == x;
      assert profiles[k] in profiles;
    }
    if p :| p in profiles && p.project == x {
      var k :| 0 <= k < |profiles| && profiles[k] == p;
      assert ProjectsOf(profiles)[k] == x;
    }
  }

  lemma SyncedBySomeMember(profiles: seq<Profile>, column: Column)
    ensures SyncedBySome(profiles, column)
       <==> exists p :: p in profiles && column in p.settings && !Off(p.settings[column])
  {
  }

  /** The query fixes no order. Whatever order the rows come in, the set of projects is the same and
      so is the tool list. */
  lemma RowOrderIsIrrelevant(
      connections: map<int, Connection>, rows: seq<Profile>, others: seq<Profile>, payload: Payload, id: int)
    requires payload.connection == Some(id) && id in connections && multiset(rows) == multiset(others)
    ensures var one := Enrich(connections, rows, payload).payload;
            var other := Enrich(connections, others, payload).payload;
            && (forall x :: x in one.projects <==> x in other.projects)
            && one.tools == other.tools
  {
    var here, there := ProfilesOf(rows, id), ProfilesOf(others, id);
    forall p: Profile
      ensures p in here <==> p in there
    {
      ProfilesOfKeeps(rows, id, p);
      ProfilesOfKeeps(others, id, p);
      assert p in rows <==> p in multiset(rows);
      assert p in others <==> p in multiset(others);
    }
    forall tool: Tool
      ensures SyncedBySome(here, ColumnOf(tool)) == SyncedBySome(there, ColumnOf(tool))
    {
      SyncedBySomeMember(here, ColumnOf(tool));
      SyncedBySomeMember(there, ColumnOf(tool));
    }
    forall x: string
      ensures x in MergedProjects(payload.projects, connections[id].permitted, here)
         <==> x in MergedProjects(payload.projects, connections[id].permitted, there)
    {
      DedupSameElements(payload.projects + connections[id].permitted + ProjectsOf(here));
      DedupSameElements(payload.projects + connections[id].permitted + ProjectsOf(there));
      ProjectsOfKeeps(here, x);
      ProjectsOfKeeps(there, x);
    }
  }

  // ----- Enrichment of a stored connection

  /** In every state the store can reach, profiles only name permitted projects, so they add nothing
      to the project list: it is the requested and then the permitted projects, and the order of the
      rows does not show in the packet at all. */
  lemma StoredProfilesAddNoProject(db: Db, rows: seq<Profile>, payload: Payload, id: int)
    requires DbSafe(db) && payload.connection == Some(id) && id in db.connections
    requires forall p :: p in rows ==> exists key :: key in db.profiles && db.profiles[key] == p
    ensures Enrich(db.connections, rows, payload).payload.projects
         == Dedup(payload.projects + db.connections[id].permitted)
  {
    var profiles := ProfilesOf(rows, id);
    forall x | x in ProjectsOf(profiles)
      ensures x in db.connections[id].permitted
    {
      ProjectsOfKeeps(profiles, x);
      var p :| p in profiles && p.project == x;
      ProfilesOfKeeps(rows, id, p);
      var key :| key in db.profiles && db.profiles[key] == p;
      assert ProfileSafe(db, key);
    }
    DedupAbsorbs(payload.projects + db.connections[id].permitted, ProjectsOf(profiles));
  }
}
