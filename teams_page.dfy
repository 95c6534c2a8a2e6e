/**
 * The admin's teams page: the teams of the admin's own tournaments with their
 * tournament name and player count, the create and delete handlers, and the
 * search/tournament filter.
 */
module TeamsPage {
  import opened Wrappers
  import opened Records
  import opened Storage
  import Tables
  import Text
  import MockDataHooks

  /** `t.admin_id === user?.id`: with nobody signed in no tournament matches. */
  predicate OwnedBy(t: Tournament, userId: Option<string>) { userId == Some(t.adminId) }

  /** A listed team with its tournament's name and its number of players. */
  datatype TeamRow = TeamRow(team: Team, tournamentName: Option<string>, playersCount: nat)

  /** The admin filter as a predicate on tournaments. */
  function Owner(userId: Option<string>): Tournament -> bool
  {
    (t: Tournament) => OwnedBy(t, userId)
  }

  /** The signed-in user's tournaments; nobody signed in owns none. */
  function OwnTournaments(tournaments: seq<Tournament>, userId: Option<string>): (r: seq<Tournament>)
    ensures forall i :: 0 <= i < |r| ==> r[i] in tournaments && OwnedBy(r[i], userId)
    ensures forall i :: 0 <= i < |tournaments| && OwnedBy(tournaments[i], userId) ==> tournaments[i] in r
    ensures Tables.IsSubsequence(r, tournaments)
    ensures userId.None? ==> r == []
  {
    Tables.FilterIsSubsequence(tournaments, Owner(userId));
    if userId.None? then
      Tables.FilterNone(tournaments, Owner(userId));
      Tables.Filter(tournaments, Owner(userId))
    else Tables.Filter(tournaments, Owner(userId))
  }

  /** `j` is the first position of a tournament the user owns with the id `id`. */
  predicate FirstOwnedWithId(tournaments: seq<Tournament>, userId: Option<string>, id: string, j: int)
  {
    0 <= j < |tournaments| && OwnedBy(tournaments[j], userId) && tournaments[j].id == id
    && forall m :: 0 <= m < j ==> !(OwnedBy(tournaments[m], userId) && tournaments[m].id == id)
  }

  /**
   * Looking up an id among the user's own tournaments finds, in the whole
   * table, the first tournament the user owns with that id.
   */
  lemma OwnFirstIsFirstOwned(tournaments: seq<Tournament>, userId: Option<string>, id: string, k: int)
    requires FirstTournamentWithId(OwnTournaments(tournaments, userId), id, k)
    ensures exists j :: FirstOwnedWithId(tournaments, userId, id, j)
                        && tournaments[j] == OwnTournaments(tournaments, userId)[k]
  {
    var own := OwnTournaments(tournaments, userId);
    assert own == Tables.Filter(tournaments, Owner(userId));
    var q := (t: Tournament) => t.id == id;
    Tables.FilterFirst(tournaments, Owner(userId), q, k);
    var j :| Tables.FirstOfBoth(tournaments, Owner(userId), q, j) && tournaments[j] == own[k];
    assert FirstOwnedWithId(tournaments, userId, id, j);
  }

  /** Some tournament of `ts` has the id `id`. */
  predicate HasTournamentId(ts: seq<Tournament>, id: string)
  {
    exists j :: 0 <= j < |ts| && ts[j].id == id
  }

  /** Some tournament of `ts` with the id `id` is owned by the user. */
  predicate OwnsTournamentId(ts: seq<Tournament>, userId: Option<string>, id: string)
  {
    exists j :: 0 <= j < |ts| && OwnedBy(ts[j], userId) && ts[j].id == id
  }

  /** The teams whose tournament is one of `own`, in stored order. */
  function TeamsOf(teams: seq<Team>, own: seq<Tournament>): (r: seq<Team>)
    ensures forall i :: 0 <= i < |r| ==> r[i] in teams
    ensures forall i :: 0 <= i < |r| ==> HasTournamentId(own, r[i].tournamentId)
    ensures forall i :: 0 <= i < |teams| && HasTournamentId(own, teams[i].tournamentId) ==> teams[i] in r
    ensures Tables.IsSubsequence(r, teams)
    ensures own == [] ==> r == []
  {
    var ids := MockDataHooks.TournamentIds(own);
    var listed := Tables.Filter(teams, (t: Team) => t.tournamentId in ids);
    Tables.FilterIsSubsequence(teams, (t: Team) => t.tournamentId in ids);
    forall i | 0 <= i < |teams| && HasTournamentId(own, teams[i].tournamentId)
      ensures teams[i] in listed
    {
      var j :| 0 <= j < |own| && own[j].id == teams[i].tournamentId;
      assert ids[j] == own[j].id;
    }
    if own == [] then
      assert ids == [];
      Tables.FilterNone(teams, (t: Team) => t.tournamentId in ids);
      listed
    else
      assert forall i :: 0 <= i < |listed| ==> HasTournamentId(own, listed[i].tournamentId) by {
        forall i | 0 <= i < |listed| ensures HasTournamentId(own, listed[i].tournamentId) {
          assert listed[i].tournamentId in ids;
          var j :| 0 <= j < |ids| && ids[j] == listed[i].tournamentId;
          assert own[j].id == listed[i].tournamentId;
        }
      }
      listed
  }

  /** A team drawn from the user's own tournaments belongs to a tournament the user owns. */
  lemma ListedOwned(tournaments: seq<Tournament>, own: seq<Tournament>, listed: seq<Team>, userId: Option<string>)
    requires forall i :: 0 <= i < |own| ==> own[i] in tournaments && OwnedBy(own[i], userId)
    requires forall i :: 0 <= i < |listed| ==> HasTournamentId(own, listed[i].tournamentId)
    ensures forall i :: 0 <= i < |listed| ==> OwnsTournamentId(tournaments, userId, listed[i].tournamentId)
  {
    forall i | 0 <= i < |listed|
      ensures OwnsTournamentId(tournaments, userId, listed[i].tournamentId)
    {
      var o :| 0 <= o < |own| && own[o].id == listed[i].tournamentId;
      var k :| 0 <= k < |tournaments| && tournaments[k] == own[o];
    }
  }

  /** Every team of a tournament the user owns is drawn when all the user's tournaments are. */
  lemma OwnedListed(tournaments: seq<Tournament>, own: seq<Tournament>, teams: seq<Team>, listed: seq<Team>,
                    userId: Option<string>)
    requires forall i :: 0 <= i < |tournaments| && OwnedBy(tournaments[i], userId) ==> tournaments[i] in own
    requires forall i :: 0 <= i < |teams| && HasTournamentId(own, teams[i].tournamentId) ==> teams[i] in listed
    ensures forall i :: 0 <= i < |teams| && OwnsTournamentId(tournaments, userId, teams[i].tournamentId) ==>
      teams[i] in listed
  {
    forall i | 0 <= i < |teams| && OwnsTournamentId(tournaments, userId, teams[i].tournamentId)
      ensures teams[i] in listed
    {
      var j :| 0 <= j < |tournaments| && OwnedBy(tournaments[j], userId) && tournaments[j].id == teams[i].tournamentId;
      var k :| 0 <= k < |own| && own[k] == tournaments[j];
      assert HasTournamentId(own, teams[i].tournamentId);
    }
  }

  /** The teams of the listed rows, in order. */
  function RowTeams(rows: seq<TeamRow>): (ts: seq<Team>)
    ensures |ts| == |rows| && forall i :: 0 <= i < |rows| ==> ts[i] == rows[i].team
  {
    seq(|rows|, i requires 0 <= i < |rows| => rows[i].team)
  }

  /** One row: the team, the name of the first of `own` with its tournament id, its player count. */
  function Detail(team: Team, own: seq<Tournament>, players: seq<Player>): (row: TeamRow)
    ensures row.team == team
    ensures row.playersCount == Tables.Count(players, (p: Player) => p.teamId == team.id)
    ensures HasTournamentId(own, team.tournamentId) <==> row.tournamentName.Some?
    ensures row.tournamentName.Some? ==>
      exists k :: FirstTournamentWithId(own, team.tournamentId, k) && own[k].name == row.tournamentName.value
  {
    var tour := TournamentById(own, team.tournamentId);
    TeamRow(team, if tour.Some? then Some(tour.value.name) else None,
            MockDataHooks.PlayerCountByTeam(players, team.id))
  }

  /** `teams.map(team => ({ ...team, tournament, players_count }))`: one row per team, in order. */
  function Details(listed: seq<Team>, own: seq<Tournament>, players: seq<Player>): (r: seq<TeamRow>)
    ensures RowTeams(r) == listed
    ensures forall i :: 0 <= i < |r| ==> r[i].playersCount == Tables.Count(players, (p: Player) => p.teamId == r[i].team.id)
    ensures (forall i :: 0 <= i < |listed| ==> HasTournamentId(own, listed[i].tournamentId)) ==>
      forall i :: 0 <= i < |r| ==> r[i].tournamentName.Some?
    ensures forall i :: 0 <= i < |r| ==> r[i] == Detail(listed[i], own, players)
  {
    var r := seq(|listed|, i requires 0 <= i < |listed| => Detail(listed[i], own, players));
    assert RowTeams(r) == listed;
    r
  }

  /**
   * `fetchTeams`: exactly the teams whose tournament the user owns, in stored
   * order, each with the name of the first tournament the user owns with the
   * team's tournament id, and its player count.
   */
  function ListedTeams(tournaments: seq<Tournament>, teams: seq<Team>, players: seq<Player>, userId: Option<string>)
    : (r: seq<TeamRow>)
    ensures forall i :: 0 <= i < |r| ==> r[i].team in teams
    ensures forall i :: 0 <= i < |r| ==> OwnsTournamentId(tournaments, userId, r[i].team.tournamentId)
    ensures forall i :: 0 <= i < |r| ==> r[i].playersCount == Tables.Count(players, (p: Player) => p.teamId == r[i].team.id)
    ensures forall i :: 0 <= i < |r| ==> r[i].tournamentName.Some?
    ensures forall i :: 0 <= i < |r| ==> exists j :: FirstOwnedWithId(tournaments, userId, r[i].team.tournamentId, j)
                                                    && tournaments[j].name == r[i].tournamentName.value
    ensures forall i :: 0 <= i < |teams| && OwnsTournamentId(tournaments, userId, teams[i].tournamentId) ==>
      teams[i] in RowTeams(r)
    ensures Tables.IsSubsequence(RowTeams(r), teams)
    ensures userId.None? ==> r == []
  {
    var own := OwnTournaments(tournaments, userId);
    var listed := TeamsOf(teams, own);
    var r := Details(listed, own, players);
    ListedOwned(tournaments, own, listed, userId);
    OwnedListed(tournaments, own, teams, listed, userId);
    forall i | 0 <= i < |r|
      ensures exists j :: FirstOwnedWithId(tournaments, userId, r[i].team.tournamentId, j)
                          && tournaments[j].name == r[i].tournamentName.value
    {
      var k :| FirstTournamentWithId(own, listed[i].tournamentId, k) && own[k].name == r[i].tournamentName.value;
      OwnFirstIsFirstOwned(tournaments, userId, listed[i].tournamentId, k);
    }
    r
  }

  /** The create form; an unfilled field is the empty string. */
  datatype TeamForm = TeamForm(name: string, shortName: string, captain: string, coach: string, tournamentId: string)

  /** The team record built from the form: empty optional fields become null and there is no logo. */
  function NewTeam(f: TeamForm, id: string, createdAt: string): (t: Team)
    ensures t.name == f.name && t.tournamentId == f.tournamentId && t.logoUrl.None?
    ensures t.shortName == Text.OrNull(f.shortName) && t.captain == Text.OrNull(f.captain) && t.coach == Text.OrNull(f.coach)
  {
    Team(id, f.name, Text.OrNull(f.shortName), None, Text.OrNull(f.captain), Text.OrNull(f.coach), f.tournamentId, createdAt)
  }

  /** `handleCreateTeam`: a name and a tournament are required; then the team is appended. */
  method CreateTeam(store: LocalStore, f: TeamForm, id: string, now: string) returns (error: Option<string>)
    modifies store
    ensures f.name == "" || f.tournamentId == "" ==>
      error == Some("Please fill in all required fields") && store.entries == old(store.entries)
    ensures f.name != "" && f.tournamentId != "" ==>
      error == None
      && store.entries == old(store.entries)[TeamsKey := TeamRows(old(store.Teams()) + [NewTeam(f, id, now)])]
      && store.Teams() == old(store.Teams()) + [NewTeam(f, id, now)]
  {
    if f.name == "" || f.tournamentId == "" {
      return Some("Please fill in all required fields");
    }
    var _ := MockDataHooks.CreateTeam(store, NewTeam(f, id, now), id, now);
    error := None;
  }

  /** `handleDeleteTeam`: every team with the id is removed, the rest keep their order. */
  method DeleteTeam(store: LocalStore, teamId: string)
    modifies store
    ensures store.entries == old(store.entries)[TeamsKey := TeamRows(MockDataHooks.TeamsWithout(old(store.Teams()), teamId))]
    ensures store.Teams() == MockDataHooks.TeamsWithout(old(store.Teams()), teamId)
  {
    MockDataHooks.DeleteTeam(store, teamId);
  }

  /** The search and tournament test of the filtered view (ASCII case folding). */
  predicate Shown(row: TeamRow, query: string, selected: string)
  {
    Text.Contains(Text.AsciiLower(row.team.name), Text.AsciiLower(query))
    && (selected == "all" || row.team.tournamentId == selected)
  }

  /** `filteredTeams`: the rows passing the search and tournament test, in order. */
  function FilteredTeams(rows: seq<TeamRow>, query: string, selected: string): (r: seq<TeamRow>)
    ensures forall i :: 0 <= i < |r| ==> r[i] in rows && Shown(r[i], query, selected)
    ensures forall i :: 0 <= i < |rows| && Shown(rows[i], query, selected) ==> rows[i] in r
    ensures Tables.IsSubsequence(r, rows)
  {
    Tables.FilterIsSubsequence(rows, (row: TeamRow) => Shown(row, query, selected));
    Tables.Filter(rows, (row: TeamRow) => Shown(row, query, selected))
  }

  /** With an empty search and "all" tournaments every row is shown. */
  lemma EmptyFilterShowsAll(rows: seq<TeamRow>)
    ensures FilteredTeams(rows, "", "all") == rows
  {
    forall i | 0 <= i < |rows| ensures Shown(rows[i], "", "all") {
      assert Text.StartsWith(Text.AsciiLower(rows[i].team.name), "");
    }
    Tables.FilterAll(rows, (row: TeamRow) => Shown(row, "", "all"));
  }
}
