/**
 * The browser key-value store that holds every table, and the three helpers
 * around it: `getStoredData` (read with fallback), `setStoredData` (write) and
 * `initializeMockData` (seed every absent key). A stored value is a `Blob`:
 * one of the table shapes the application writes, or text that does not parse.
 */
module Storage {
  import opened Wrappers
  import opened Records

  const TournamentsKey := "mock_tournaments"
  const TeamsKey := "mock_teams"
  const PlayersKey := "mock_players"
  const MatchesKey := "mock_matches"
  const ScoresKey := "mock_scores"
  const PaymentSettingsKey := "mock_payment_settings"

  datatype Blob =
    | TournamentRows(tournaments: seq<Tournament>)
    | TeamRows(teams: seq<Team>)
    | PlayerRows(players: seq<Player>)
    | MatchRows(matches: seq<Match>)
    | ScoreRows(scores: seq<MatchScore>)
    | SettingsValue(settings: PaymentSettings)
    | Unreadable(text: string)  // text that `JSON.parse` rejects

  function AsTournaments(b: Blob): Option<seq<Tournament>> { if b.TournamentRows? then Some(b.tournaments) else None }
  function AsTeams(b: Blob): Option<seq<Team>> { if b.TeamRows? then Some(b.teams) else None }
  function AsPlayers(b: Blob): Option<seq<Player>> { if b.PlayerRows? then Some(b.players) else None }
  function AsMatches(b: Blob): Option<seq<Match>> { if b.MatchRows? then Some(b.matches) else None }
  function AsScores(b: Blob): Option<seq<MatchScore>> { if b.ScoreRows? then Some(b.scores) else None }

  /** `localStorage.getItem(key)` is truthy: the key is there and its text is not empty. */
  predicate IsPresent(entries: map<string, Blob>, key: string)
  {
    key in entries && entries[key] != Unreadable("")
  }

  /**
   * `getStoredData(key, fallback)`: the decoded stored value, or `fallback`
   * when the key is absent or its text does not parse.
   */
  function GetStoredData<T>(entries: map<string, Blob>, key: string, decode: Blob -> Option<T>, fallback: T): (r: T)
    ensures !IsPresent(entries, key) ==> r == fallback
    ensures IsPresent(entries, key) && decode(entries[key]).None? ==> r == fallback
    ensures IsPresent(entries, key) && decode(entries[key]).Some? ==> r == decode(entries[key]).value
  {
    if IsPresent(entries, key) then decode(entries[key]).GetOr(fallback) else fallback
  }

  /** Reading a key right after writing a table to it gives back that table. */
  lemma SetThenGet<T>(entries: map<string, Blob>, key: string, v: T, encode: T -> Blob,
                      decode: Blob -> Option<T>, fallback: T)
    requires decode(encode(v)) == Some(v) && encode(v) != Unreadable("")
    ensures GetStoredData(entries[key := encode(v)], key, decode, fallback) == v
  {
  }

  /** Writing one key leaves what every other key reads unchanged. */
  lemma SetOtherKey<T>(entries: map<string, Blob>, key: string, other: string, b: Blob,
                       decode: Blob -> Option<T>, fallback: T)
    requires other != key
    ensures GetStoredData(entries[key := b], other, decode, fallback) == GetStoredData(entries, other, decode, fallback)
  {
  }

  /** One step of `initializeMockData`: write `seed` under `key` only if the key is absent. */
  function SeedKey(entries: map<string, Blob>, key: string, seed: Blob): (r: map<string, Blob>)
    ensures IsPresent(entries, key) ==> r == entries
    ensures !IsPresent(entries, key) ==> r == entries[key := seed]
  {
    if IsPresent(entries, key) then entries else entries[key := seed]
  }

  /** The six values `initializeMockData` may write, one per seeded key. */
  datatype Seeds = Seeds(tournaments: Blob, teams: Blob, players: Blob, matches: Blob, scores: Blob, settings: Blob)

  /** The application's seed tables. */
  function SeedsOf(clock: Clock): Seeds
  {
    Seeds(TournamentRows(InitialTournaments), TeamRows(InitialTeams), PlayerRows(InitialPlayers),
          MatchRows(InitialMatches(clock)), ScoreRows(InitialScores(clock)), SettingsValue(InitialPaymentSettings))
  }

  /** No seed is empty text (which would itself read as absent). */
  predicate NonEmptySeeds(sd: Seeds)
  {
    sd.tournaments != Unreadable("") && sd.teams != Unreadable("") && sd.players != Unreadable("")
    && sd.matches != Unreadable("") && sd.scores != Unreadable("") && sd.settings != Unreadable("")
  }

  ghost predicate IsSeedKey(k: string)
  {
    k == TournamentsKey || k == TeamsKey || k == PlayersKey || k == MatchesKey || k == ScoresKey
    || k == PaymentSettingsKey
  }

  /** The six keys are pairwise different. */
  lemma KeysDistinct()
    ensures TournamentsKey != TeamsKey && TournamentsKey != PlayersKey && TournamentsKey != MatchesKey
    ensures TournamentsKey != ScoresKey && TournamentsKey != PaymentSettingsKey
    ensures TeamsKey != PlayersKey && TeamsKey != MatchesKey && TeamsKey != ScoresKey && TeamsKey != PaymentSettingsKey
    ensures PlayersKey != MatchesKey && PlayersKey != ScoresKey && PlayersKey != PaymentSettingsKey
    ensures MatchesKey != ScoresKey && MatchesKey != PaymentSettingsKey
    ensures ScoresKey != PaymentSettingsKey
  {
    assert |TournamentsKey| == 16 && |TeamsKey| == 10 && |PlayersKey| == 12;
    assert |MatchesKey| == 12 && |ScoresKey| == 11 && |PaymentSettingsKey| == 21;
    assert PlayersKey[5] != MatchesKey[5];
  }

  /** The seed written under a seeded key. */
  ghost function SeedFor(sd: Seeds, k: string): Blob
  {
    if k == TournamentsKey then sd.tournaments
    else if k == TeamsKey then sd.teams
    else if k == PlayersKey then sd.players
    else if k == MatchesKey then sd.matches
    else if k == ScoresKey then sd.scores
    else sd.settings
  }

  /** Seeding with the given seeds, key by key in the source's order. */
  function InitializedWith(entries: map<string, Blob>, sd: Seeds): map<string, Blob>
  {
    var e1 := SeedKey(entries, TournamentsKey, sd.tournaments);
    var e2 := SeedKey(e1, TeamsKey, sd.teams);
    var e3 := SeedKey(e2, PlayersKey, sd.players);
    var e4 := SeedKey(e3, MatchesKey, sd.matches);
    var e5 := SeedKey(e4, ScoresKey, sd.scores);
    SeedKey(e5, PaymentSettingsKey, sd.settings)
  }

  /** The store after `initializeMockData`. */
  function Initialized(entries: map<string, Blob>, clock: Clock): map<string, Blob>
  {
    InitializedWith(entries, SeedsOf(clock))
  }

  /** What one seeding step keeps and what it adds. */
  lemma SeedKeyFacts(entries: map<string, Blob>, key: string, seed: Blob)
    requires seed != Unreadable("")
    ensures forall k :: IsPresent(entries, k) ==> k in SeedKey(entries, key, seed) && SeedKey(entries, key, seed)[k] == entries[k]
    ensures forall k :: k != key ==> (k in entries <==> k in SeedKey(entries, key, seed))
    ensures forall k :: k != key && k in entries ==> SeedKey(entries, key, seed)[k] == entries[k]
    ensures forall k :: IsPresent(entries, k) ==> IsPresent(SeedKey(entries, key, seed), k)
    ensures IsPresent(SeedKey(entries, key, seed), key)
  {
  }

  /** Two stores agree on key `k`: both lack it, or both hold the same value. */
  ghost predicate SameAt(a: map<string, Blob>, b: map<string, Blob>, k: string)
  {
    (k in a <==> k in b) && (k in a ==> a[k] == b[k])
  }

  /** Seeding, seen from one key: a present value is kept, an absent seeded key gets its seed, any other key is untouched. */
  lemma SeedingAt(entries: map<string, Blob>, sd: Seeds, k: string)
    requires NonEmptySeeds(sd)
    ensures IsPresent(entries, k) ==> k in InitializedWith(entries, sd) && InitializedWith(entries, sd)[k] == entries[k]
    ensures !IsSeedKey(k) ==> (k in entries <==> k in InitializedWith(entries, sd))
    ensures !IsSeedKey(k) && k in entries ==> InitializedWith(entries, sd)[k] == entries[k]
    ensures IsSeedKey(k) && !IsPresent(entries, k) ==> InitializedWith(entries, sd)[k] == SeedFor(sd, k)
    ensures IsSeedKey(k) ==> IsPresent(InitializedWith(entries, sd), k)
  {
    KeysDistinct();
    var e1 := SeedKey(entries, TournamentsKey, sd.tournaments);
    var e2 := SeedKey(e1, TeamsKey, sd.teams);
    var e3 := SeedKey(e2, PlayersKey, sd.players);
    var e4 := SeedKey(e3, MatchesKey, sd.matches);
    var e5 := SeedKey(e4, ScoresKey, sd.scores);
    var e6 := SeedKey(e5, PaymentSettingsKey, sd.settings);
    assert InitializedWith(entries, sd) == e6;
    // Every step except the one for `k` itself leaves `k` as it was.
    if k != TournamentsKey { assert SameAt(entries, e1, k); }
    if k != TeamsKey { assert SameAt(e1, e2, k); }
    if k != PlayersKey { assert SameAt(e2, e3, k); }
    if k != MatchesKey { assert SameAt(e3, e4, k); }
    if k != ScoresKey { assert SameAt(e4, e5, k); }
    if k != PaymentSettingsKey { assert SameAt(e5, e6, k); }
  }

  /** Seeding with any non-empty seeds keeps what is present, touches no other key, and fills each absent seeded key with its seed. */
  lemma SeedingNeverOverwrites(entries: map<string, Blob>, sd: Seeds)
    requires NonEmptySeeds(sd)
    ensures forall k :: IsPresent(entries, k) ==> k in InitializedWith(entries, sd) && InitializedWith(entries, sd)[k] == entries[k]
    ensures forall k :: !IsSeedKey(k) ==> (k in entries <==> k in InitializedWith(entries, sd))
    ensures forall k :: !IsSeedKey(k) && k in entries ==> InitializedWith(entries, sd)[k] == entries[k]
    ensures forall k :: IsSeedKey(k) ==> IsPresent(InitializedWith(entries, sd), k)
    ensures forall k :: IsSeedKey(k) && !IsPresent(entries, k) ==> InitializedWith(entries, sd)[k] == SeedFor(sd, k)
  {
    forall k {
      SeedingAt(entries, sd, k);
    }
  }

  /**
   * Initialisation never overwrites: a key that was present keeps its value, a
   * key outside the six seeded ones is untouched, and afterwards all six are present.
   */
  lemma InitializeNeverOverwrites(entries: map<string, Blob>, clock: Clock)
    ensures forall k :: IsPresent(entries, k) ==> k in Initialized(entries, clock) && Initialized(entries, clock)[k] == entries[k]
    ensures forall k :: !IsSeedKey(k) ==> (k in entries <==> k in Initialized(entries, clock))
    ensures forall k :: !IsSeedKey(k) && k in entries ==> Initialized(entries, clock)[k] == entries[k]
    ensures forall k :: IsSeedKey(k) ==> IsPresent(Initialized(entries, clock), k)
  {
    SeedingNeverOverwrites(entries, SeedsOf(clock));
  }

  /** A second `initializeMockData` changes nothing. */
  lemma InitializeIdempotent(entries: map<string, Blob>, clock: Clock)
    ensures Initialized(Initialized(entries, clock), clock) == Initialized(entries, clock)
  {
    SeedingIdempotent(entries, SeedsOf(clock));
  }

  /** Seeding twice with the same non-empty seeds is seeding once. */
  lemma SeedingIdempotent(entries: map<string, Blob>, sd: Seeds)
    requires NonEmptySeeds(sd)
    ensures InitializedWith(InitializedWith(entries, sd), sd) == InitializedWith(entries, sd)
  {
    // After one pass all six keys are present, so every step of the second pass keeps its input.
    var once := InitializedWith(entries, sd);
    SeedingAt(entries, sd, TournamentsKey);
    SeedingAt(entries, sd, TeamsKey);
    SeedingAt(entries, sd, PlayersKey);
    SeedingAt(entries, sd, MatchesKey);
    SeedingAt(entries, sd, ScoresKey);
    SeedingAt(entries, sd, PaymentSettingsKey);
    assert SeedKey(once, TournamentsKey, sd.tournaments) == once;
  }

  /** Reading a seeded key after seeding gives what it gave before, when its seed decodes to the read's fallback. */
  lemma SeedingInvisible<T>(entries: map<string, Blob>, sd: Seeds, key: string, decode: Blob -> Option<T>, fallback: T)
    requires NonEmptySeeds(sd) && IsSeedKey(key)
    requires decode(SeedFor(sd, key)) == Some(fallback)
    ensures GetStoredData(InitializedWith(entries, sd), key, decode, fallback) == GetStoredData(entries, key, decode, fallback)
  {
    SeedingNeverOverwrites(entries, sd);
  }

  /**
   * Initialisation is invisible to readers: every table read with the seed as
   * its fallback gives the same rows before and after seeding.
   */
  lemma InitializeInvisibleToReads(entries: map<string, Blob>, clock: Clock)
    ensures GetStoredData(Initialized(entries, clock), TournamentsKey, AsTournaments, InitialTournaments)
         == GetStoredData(entries, TournamentsKey, AsTournaments, InitialTournaments)
    ensures GetStoredData(Initialized(entries, clock), TeamsKey, AsTeams, InitialTeams)
         == GetStoredData(entries, TeamsKey, AsTeams, InitialTeams)
    ensures GetStoredData(Initialized(entries, clock), PlayersKey, AsPlayers, InitialPlayers)
         == GetStoredData(entries, PlayersKey, AsPlayers, InitialPlayers)
    ensures GetStoredData(Initialized(entries, clock), MatchesKey, AsMatches, InitialMatches(clock))
         == GetStoredData(entries, MatchesKey, AsMatches, InitialMatches(clock))
    ensures GetStoredData(Initialized(entries, clock), ScoresKey, AsScores, InitialScores(clock))
         == GetStoredData(entries, ScoresKey, AsScores, InitialScores(clock))
  {
    var sd := SeedsOf(clock);
    SeedingInvisible(entries, sd, TournamentsKey, AsTournaments, InitialTournaments);
    SeedingInvisible(entries, sd, TeamsKey, AsTeams, InitialTeams);
    SeedingInvisible(entries, sd, PlayersKey, AsPlayers, InitialPlayers);
    SeedingInvisible(entries, sd, MatchesKey, AsMatches, InitialMatches(clock));
    SeedingInvisible(entries, sd, ScoresKey, AsScores, InitialScores(clock));
  }

  /** The browser's local storage, seen through the application's helpers. */
  class LocalStore {
    var entries: map<string, Blob>
    /** The clock reading taken when the seed module was loaded. */
    const clock: Clock

    constructor (initial: map<string, Blob>, clock: Clock)
      ensures entries == initial && this.clock == clock
    {
      entries := initial;
      this.clock := clock;
    }

    function Tournaments(): seq<Tournament> reads this
    { GetStoredData(entries, TournamentsKey, AsTournaments, InitialTournaments) }

    function Teams(): seq<Team> reads this
    { GetStoredData(entries, TeamsKey, AsTeams, InitialTeams) }

    function Players(): seq<Player> reads this
    { GetStoredData(entries, PlayersKey, AsPlayers, InitialPlayers) }

    function Matches(): seq<Match> reads this
    { GetStoredData(entries, MatchesKey, AsMatches, InitialMatches(clock)) }

    function Scores(): seq<MatchScore> reads this
    { GetStoredData(entries, ScoresKey, AsScores, InitialScores(clock)) }

    /** `setStoredData(key, value)`: the value under `key` is replaced, nothing else changes. */
    method SetStoredData(key: string, value: Blob)
      modifies this
      ensures entries == old(entries)[key := value]
    {
      entries := entries[key := value];
    }

    /** One line of `initializeMockData()`: write `seed` under `key` unless the key already holds something. */
    method SeedIfAbsent(key: string, seed: Blob)
      modifies this
      ensures entries == SeedKey(old(entries), key, seed)
    {
      if !IsPresent(entries, key) {
        SetStoredData(key, seed);
      }
    }

    /** `initializeMockData()`: seed each of the six keys that is absent, in order. */
    method InitializeMockData()
      modifies this
      ensures entries == Initialized(old(entries), clock)
    {
      var sd := SeedsOf(clock);
      SeedIfAbsent(TournamentsKey, sd.tournaments);
      SeedIfAbsent(TeamsKey, sd.teams);
      SeedIfAbsent(PlayersKey, sd.players);
      SeedIfAbsent(MatchesKey, sd.matches);
      SeedIfAbsent(ScoresKey, sd.scores);
      SeedIfAbsent(PaymentSettingsKey, sd.settings);
    }
  }
}
