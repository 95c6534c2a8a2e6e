/** The public tournaments page: every stored tournament, a search/status filter and the status colours. */
module TournamentsPage {
  import opened Wrappers
  import opened Records
  import opened Storage
  import Tables
  import Text

  /** `fetchTournaments`: all stored tournaments, with no per-admin restriction. */
  function FetchTournaments(entries: map<string, Blob>): (r: seq<Tournament>)
    ensures !IsPresent(entries, TournamentsKey) ==> r == InitialTournaments
    ensures IsPresent(entries, TournamentsKey) && entries[TournamentsKey].TournamentRows? ==>
      r == entries[TournamentsKey].tournaments
  {
    GetStoredData(entries, TournamentsKey, AsTournaments, InitialTournaments)
  }

  /** The search and status test (ASCII case folding; a null status matches only "all"). */
  predicate Shown(t: Tournament, query: string, statusFilter: string)
  {
    Text.Contains(Text.AsciiLower(t.name), Text.AsciiLower(query))
    && (statusFilter == "all" || t.status == Some(statusFilter))
  }

  /** `filteredTournaments`: an order-preserving selection of exactly the tournaments passing the test. */
  function FilteredTournaments(ts: seq<Tournament>, query: string, statusFilter: string): (r: seq<Tournament>)
    ensures forall i :: 0 <= i < |r| ==> r[i] in ts && Shown(r[i], query, statusFilter)
    ensures forall i :: 0 <= i < |ts| && Shown(ts[i], query, statusFilter) ==> ts[i] in r
    ensures Tables.IsSubsequence(r, ts)
  {
    Tables.FilterIsSubsequence(ts, (t: Tournament) => Shown(t, query, statusFilter));
    Tables.Filter(ts, (t: Tournament) => Shown(t, query, statusFilter))
  }

  /** The search ignores ASCII case: a query and its lower-cased form select the same tournaments. */
  lemma SearchIgnoresCase(ts: seq<Tournament>, query: string, statusFilter: string)
    ensures FilteredTournaments(ts, Text.AsciiLower(query), statusFilter) == FilteredTournaments(ts, query, statusFilter)
  {
    Text.AsciiLowerIdempotent(query);
    var f1 := (t: Tournament) => Shown(t, Text.AsciiLower(query), statusFilter);
    var f2 := (t: Tournament) => Shown(t, query, statusFilter);
    Tables.FilterAgree(ts, f1, f2);
  }

  const DefaultColor := "bg-secondary text-secondary-foreground"

  /** `getStatusColor`: ongoing, upcoming and completed each have a colour; anything else the default. */
  function StatusColor(status: Option<string>): (r: string)
    ensures status == Some("ongoing") ==> r == "bg-live text-live-foreground"
    ensures status == Some("upcoming") ==> r == "bg-accent text-accent-foreground"
    ensures status == Some("completed") ==> r == "bg-muted text-muted-foreground"
    ensures r == DefaultColor <==> !(status == Some("ongoing") || status == Some("upcoming") || status == Some("completed"))
  {
    match status
    case Some("ongoing") => "bg-live text-live-foreground"
    case Some("upcoming") => "bg-accent text-accent-foreground"
    case Some("completed") => "bg-muted text-muted-foreground"
    case _ => DefaultColor
  }

  /** The three known statuses get three different colours, none of them the default. */
  lemma StatusColorsDistinct()
    ensures |{StatusColor(Some("ongoing")), StatusColor(Some("upcoming")), StatusColor(Some("completed")), DefaultColor}| == 4
  {
  }
}
