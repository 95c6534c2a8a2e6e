/**
 * A team's players page: the team's players ordered by jersey number, the
 * add and remove handlers, and the badge style of each playing role.
 */
module PlayersPage {
  import opened Wrappers
  import opened Records
  import opened Storage
  import Tables
  import Text
  import MockDataHooks

  /** The sort key `jersey_number || 0`. */
  function JerseyKey(p: Player): int { p.jerseyNumber.GetOr(0) }

  /**
   * `fetchPlayers`: the route team's players, ascending by jersey number with a
   * missing number counted as 0; the same records as the team's filter.
   */
  function TeamPlayers(all: seq<Player>, teamId: string): (r: seq<Player>)
    ensures Tables.SortedBy(r, JerseyKey)
    ensures multiset(r) == multiset(Tables.Filter(all, (p: Player) => p.teamId == teamId))
    ensures forall i :: 0 <= i < |r| ==> r[i].teamId == teamId && r[i] in all
    ensures forall i :: 0 <= i < |all| && all[i].teamId == teamId ==> all[i] in r
  {
    var mine := Tables.Filter(all, (p: Player) => p.teamId == teamId);
    Tables.SortByMembers(mine, JerseyKey);
    Tables.SortBy(mine, JerseyKey)
  }

  /** The add-player form; an unfilled field is the empty string. */
  datatype PlayerForm = PlayerForm(name: string, role: string, battingStyle: string, bowlingStyle: string, jerseyNumber: string)

  /** The jersey field: empty gives null, otherwise `parseInt` (no digits gives null as well). */
  function JerseyOf(field: string): (r: Option<int>)
    ensures field == "" ==> r.None?
  {
    if field == "" then None else Text.ParseInt(field)
  }

  /** A number typed as its decimal text is stored as that number. */
  lemma JerseyRoundTrip(n: int)
    ensures JerseyOf(Text.IntToString(n)) == Some(n)
  {
    Text.ParseIntOfIntToString(n);
    assert |Text.IntToString(n)| >= 1;
  }

  /** The player record built from the form for the route team. */
  function NewPlayer(f: PlayerForm, teamId: string, id: string, createdAt: string): (p: Player)
    ensures p.name == f.name && p.teamId == teamId && p.jerseyNumber == JerseyOf(f.jerseyNumber)
    ensures p.role == Text.OrNull(f.role) && p.battingStyle == Text.OrNull(f.battingStyle) && p.bowlingStyle == Text.OrNull(f.bowlingStyle)
  {
    Player(id, f.name, Text.OrNull(f.role), Text.OrNull(f.battingStyle), Text.OrNull(f.bowlingStyle), JerseyOf(f.jerseyNumber), teamId, createdAt)
  }

  /** `handleCreatePlayer`: a name is required; then the player is appended to the stored table. */
  method CreatePlayer(store: LocalStore, f: PlayerForm, teamId: string, id: string, now: string) returns (error: Option<string>)
    modifies store
    ensures f.name == "" ==> error == Some("Player name is required") && store.entries == old(store.entries)
    ensures f.name != "" ==>
      error == None
      && store.entries == old(store.entries)[PlayersKey := PlayerRows(old(store.Players()) + [NewPlayer(f, teamId, id, now)])]
      && store.Players() == old(store.Players()) + [NewPlayer(f, teamId, id, now)]
  {
    if f.name == "" {
      return Some("Player name is required");
    }
    var _ := MockDataHooks.CreatePlayer(store, NewPlayer(f, teamId, id, now), id, now);
    error := None;
  }

  /** `handleDeletePlayer`: only records with that id are removed. */
  method DeletePlayer(store: LocalStore, playerId: string)
    modifies store
    ensures store.entries == old(store.entries)[PlayersKey := PlayerRows(MockDataHooks.PlayersWithout(old(store.Players()), playerId))]
    ensures store.Players() == MockDataHooks.PlayersWithout(old(store.Players()), playerId)
  {
    MockDataHooks.DeletePlayer(store, playerId);
  }

  const DefaultBadge := "bg-secondary text-secondary-foreground"

  /** `getRoleBadge`: each known role has its own style; anything else, or no role, the default. */
  function RoleBadge(role: Option<string>): (r: string)
    ensures role == Some("batsman") ==> r == "bg-primary text-primary-foreground"
    ensures role == Some("bowler") ==> r == "bg-accent text-accent-foreground"
    ensures role == Some("all-rounder") ==> r == "bg-gold text-foreground"
    ensures role == Some("wicket-keeper") ==> r == "bg-live text-live-foreground"
    ensures r == DefaultBadge <==>
      !(role == Some("batsman") || role == Some("bowler") || role == Some("all-rounder") || role == Some("wicket-keeper"))
  {
    match role
    case Some("batsman") => "bg-primary text-primary-foreground"
    case Some("bowler") => "bg-accent text-accent-foreground"
    case Some("all-rounder") => "bg-gold text-foreground"
    case Some("wicket-keeper") => "bg-live text-live-foreground"
    case _ => DefaultBadge
  }

  /** The four known roles get four different styles. */
  lemma RoleBadgesDistinct()
    ensures |{RoleBadge(Some("batsman")), RoleBadge(Some("bowler")), RoleBadge(Some("all-rounder")),
              RoleBadge(Some("wicket-keeper")), DefaultBadge}| == 5
  {
  }
}
