/** Per-user statistics (`UserStat` in bloom_web/bloom/models.py): how many
    games a user played, won and lost, and the win percentage. */
module Stats {
  import opened Wrappers
  import opened Seqs
  import opened Games

  function StatusIs(outcome: string): Log -> bool {
    (l: Log) => l.winStatus == Some(outcome)
  }

  function OutcomeIs(u: User, outcome: string): Game -> bool {
    (g: Game) => Plays(g, u) && WinStatus(g, u) == outcome
  }

  function SelfPlayOf(u: User): Game -> bool {
    (g: Game) => SelfPlay(g, u)
  }

  /** Number of games in the table that `u` played with the given outcome. */
  function Outcomes(table: seq<Game>, u: User, outcome: string): nat {
    Count(table, OutcomeIs(u, outcome))
  }

  /** Number of games in the table that `u` played against themself. */
  function SelfPlays(table: seq<Game>, u: User): nat {
    Count(table, SelfPlayOf(u))
  }

  /** The counting loop of `populate_stats`, over labelled game objects. */
  method Tally(ls: seq<Log>) returns (games: nat, wins: nat, losses: nat)
    ensures games == |ls|
    ensures wins == Count(ls, StatusIs(Win))
    ensures losses == Count(ls, StatusIs(Loss))
  {
    games, wins, losses := 0, 0, 0;
    var i := 0;
    while i < |ls|
      invariant 0 <= i <= |ls|
      invariant games == i
      invariant wins == Count(ls[..i], StatusIs(Win))
      invariant losses == Count(ls[..i], StatusIs(Loss))
    {
      assert ls[..i + 1] == ls[..i] + [ls[i]];
      CountAppend(ls[..i], ls[i], StatusIs(Win));
      CountAppend(ls[..i], ls[i], StatusIs(Loss));
      games := games + 1;
      if ls[i].winStatus == Some(Win) {
        wins := wins + 1;
      }
      if ls[i].winStatus == Some(Loss) {
        losses := losses + 1;
      }
      i := i + 1;
    }
    assert ls[..i] == ls;
  }

  /** Counting a outcome over objects labelled for `u` is counting that
      outcome over the games behind them. */
  lemma {:induction false} CountLabelled(ls: seq<Log>, gs: seq<Game>, u: User, outcome: string)
    requires |ls| == |gs|
    requires forall k :: 0 <= k < |ls| ==> ls[k].winStatus == Some(WinStatus(gs[k], u))
    requires forall k :: 0 <= k < |gs| ==> Plays(gs[k], u)
    ensures Count(ls, StatusIs(outcome)) == Count(gs, OutcomeIs(u, outcome))
  {
    if ls != [] {
      CountLabelled(ls[1..], gs[1..], u, outcome);
    }
  }

  /** Counting the labels of `mine_with_win` counts outcomes over the table. */
  lemma MineWithWinCounts(table: seq<Game>, u: User, outcome: string)
    ensures Count(MineWithWin(table, u), StatusIs(outcome)) == Outcomes(table, u, outcome)
  {
    var mine := Mine(table, u);
    var r := MineWithWin(table, u);
    assert |r| == |GamesOf(r)| == |mine|;
    forall k | 0 <= k < |r| ensures r[k].winStatus == Some(WinStatus(mine[k], u)) {
      assert GamesOf(r)[k] == mine[k];
    }
    CountLabelled(r, mine, u, outcome);
    var pq: Game -> bool := g => Plays(g, u) && (Plays(g, u) && WinStatus(g, u) == outcome);
    CountFilter(table, PlayedBy(u), OutcomeIs(u, outcome), pq);
    CountCongruent(table, pq, OutcomeIs(u, outcome));
  }

  /** Every game a user played is exactly one of a tie, a win or a loss for
      them, and the ties are the games against themself. */
  lemma {:induction false} OutcomesPartition(table: seq<Game>, u: User)
    ensures |Mine(table, u)| == Outcomes(table, u, Win) + Outcomes(table, u, Loss) + Outcomes(table, u, Tie)
    ensures Outcomes(table, u, Tie) == SelfPlays(table, u)
  {
    if table != [] {
      OutcomesPartition(table[1..], u);
      if Plays(table[0], u) {
        assert Mine(table, u) == [table[0]] + Mine(table[1..], u);
      }
    }
  }

  function Abs(x: int): nat {
    if x < 0 then -x else x
  }

  /** Division truncated toward zero, as `int()` of a float quotient: the
      magnitude is the floor of |a| / |b| and the sign is the quotient's. */
  function TruncDiv(a: int, b: int): (q: int)
    requires b != 0
    ensures Abs(q) * Abs(b) <= Abs(a) < (Abs(q) + 1) * Abs(b)
    ensures (a >= 0) == (b > 0) ==> q >= 0
    ensures (a >= 0) != (b > 0) ==> q <= 0
    ensures a >= 0 && b > 0 ==> q * b <= a < (q + 1) * b
  {
    var x, y := Abs(a), Abs(b);
    FloorBounds(x, y);
    if (a < 0) == (b < 0) then x / y else -(x / y)
  }

  /** Euclidean division of naturals brackets the dividend. */
  lemma FloorBounds(x: nat, y: nat)
    requires y > 0
    ensures 0 <= x / y && (x / y) * y <= x < (x / y + 1) * y
  {
  }

  /** A truncated percentage of a part no larger than the whole is at most 100. */
  lemma PercentAtMostHundred(part: int, whole: int, r: int)
    requires 0 <= part <= whole && 0 < whole && r * whole <= 100 * part
    ensures r <= 100
  {
  }

  class UserStat {
    const user: User
    var games: int
    var wins: int
    var losses: int

    /** A fresh row, as `get_or_create` makes one: all counters zero. */
    constructor (user: User)
      ensures this.user == user && games == 0 && wins == 0 && losses == 0
    {
      this.user := user;
      games, wins, losses := 0, 0, 0;
    }

    /** `ratio`: 0 when no game was played, otherwise the truncated win
        percentage. */
    function Ratio(): (r: int)
      reads this
      ensures games == 0 ==> r == 0
      ensures games > 0 && wins >= 0 ==> r * games <= 100 * wins < (r + 1) * games
      ensures 0 <= wins <= games ==> 0 <= r <= 100
    {
      if games == 0 then 0
      else
        var r := TruncDiv(100 * wins, games);
        if 0 <= wins <= games then PercentAtMostHundred(wins, games, r); r else r
    }

    /** The body of the `populate_stats` loop for one user: count the user's
        labelled games and store the counts. */
    method Populate(table: seq<Game>)
      modifies this
      ensures Filled(this, table)
      ensures 0 <= wins && 0 <= losses && wins + losses <= games
      ensures games - wins - losses == SelfPlays(table, user)
    {
      var labelled := AddWinStatus(Rows(Mine(table, user)), user);
      var g, w, l := Tally(labelled);
      MineWithWinCounts(table, user, Win);
      MineWithWinCounts(table, user, Loss);
      OutcomesPartition(table, user);
      games, wins, losses := g, w, l;
    }
  }

  /** A row holds the counts of its user's games in the table. */
  ghost predicate Filled(row: UserStat, table: seq<Game>)
    reads row
  {
    && row.games == |Mine(table, row.user)|
    && row.wins == Outcomes(table, row.user, Win)
    && row.losses == Outcomes(table, row.user, Loss)
  }

  /** `get_or_create` on the rows keyed by user: the user's row if there
      is one, otherwise a new zeroed row, which is added. */
  method GetOrCreate(stats: map<User, UserStat>, u: User) returns (stats': map<User, UserStat>, row: UserStat)
    requires u in stats ==> stats[u].user == u
    ensures row.user == u && stats' == stats[u := row]
    ensures u in stats ==> row == stats[u]
    ensures u !in stats ==> fresh(row) && row.games == 0 && row.wins == 0 && row.losses == 0
  {
    if u in stats {
      row := stats[u];
      stats' := stats;
    } else {
      row := new UserStat(u);
      stats' := stats[u := row];
    }
  }

  /** Round `i` of the `populate_stats` loop: fetch or create the row of
      `users[i]` and fill it. Rows are keyed by their user, so no other row
      changes, and the rows filled in earlier rounds stay filled. */
  method FillRow(stats: map<User, UserStat>, users: seq<User>, i: nat, table: seq<Game>)
    returns (stats': map<User, UserStat>)
    requires i < |users|
    requires forall v :: v in stats ==> stats[v].user == v
    requires forall j :: 0 <= j < i ==> users[j] in stats && Filled(stats[users[j]], table)
    modifies if users[i] in stats then {stats[users[i]]} else {}
    ensures forall j :: 0 <= j <= i ==> users[j] in stats' && Filled(stats'[users[j]], table)
    ensures forall v :: v in stats' ==> stats'[v].user == v && (v in stats || v == users[i])
    ensures forall v :: v in stats ==> v in stats' && stats'[v] == stats[v]
    ensures users[i] !in stats ==> fresh(stats'[users[i]])
    ensures forall v :: v in stats && v != users[i] ==> unchanged(stats[v])
  {
    var row;
    stats', row := GetOrCreate(stats, users[i]);
    row.Populate(table);
  }

  /** `populate_stats`: for every user, fetch their row (creating it if
      missing) and fill it from the game table. Rows are keyed by user. */
  method PopulateStats(users: seq<User>, table: seq<Game>, existing: map<User, UserStat>)
    returns (stats: map<User, UserStat>)
    requires forall u :: u in existing ==> existing[u].user == u
    modifies existing.Values
    ensures forall u :: u in existing ==> u in stats && stats[u] == existing[u]
    ensures forall u :: u in stats ==> stats[u].user == u && (u in existing || u in users)
    ensures forall u :: u in users ==> u in stats && Filled(stats[u], table)
    ensures forall u :: u in existing && u !in users ==> unchanged(existing[u])
  {
    stats := existing;
    var i := 0;
    while i < |users|
      invariant 0 <= i <= |users|
      invariant forall u :: u in existing ==> u in stats && stats[u] == existing[u]
      invariant forall u :: u in stats ==> stats[u].user == u && (u in existing || u in users)
      invariant forall u :: u in stats && u !in existing ==> fresh(stats[u])
      invariant forall j :: 0 <= j < i ==> users[j] in stats && Filled(stats[users[j]], table)
      invariant forall u :: u in existing && u !in users ==> unchanged(existing[u])
    {
      stats := FillRow(stats, users, i, table);
      i := i + 1;
    }
  }
}
