/** The match-result logic of `GameLog` in bloom_web/bloom/models.py: which
    games a user took part in, the outcome from that user's point of view,
    the tags a game carries, and the tag-filtered views built from them.
    The database table is a sequence of stored games. */
module Games {
  import opened Wrappers
  import opened Seqs

  type Tag = string

  /** An account. Two users are the same account when they are equal. */
  datatype User = User(id: nat, username: string)

  /** One seat of a game (`GamePlayerInfo`): who sat there, whether the
      game's runner declared that seat the winner, and the seat's tags. */
  datatype Seat = Seat(player: User, winner: bool, tags: set<Tag>)

  /** A stored game (`GameLog`): the content hash of its log file, the name
      the file is stored under, the runner's game number and the two seats. */
  datatype Game = Game(gameHash: string, fileName: string, number: int, p1: Seat, p2: Seat)

  /** A game object as the view functions hand it around: the attributes
      `win_status` and `tags` are set on the fly, and are absent (None)
      until some step sets them. */
  datatype Log = Log(game: Game, winStatus: Option<string>, tags: Option<set<Tag>>)

  const Tie := "tie"
  const Win := "win"
  const Loss := "loss"

  predicate Plays(g: Game, u: User) {
    g.p1.player == u || g.p2.player == u
  }

  /** Both seats belong to `u`: a game a user played against themself. */
  predicate SelfPlay(g: Game, u: User) {
    g.p1.player == u && g.p2.player == u
  }

  // ---------------------------------------------------------------------
  // Selection (`GameLog.mine`, `GameLog.ours`)

  function PlayedBy(u: User): Game -> bool {
    g => Plays(g, u)
  }

  /** The games in which `u` holds either seat, in table order. */
  function Mine(table: seq<Game>, u: User): (r: seq<Game>)
    ensures forall k :: 0 <= k < |r| ==> Plays(r[k], u) && r[k] in table
    ensures forall k :: 0 <= k < |table| && Plays(table[k], u) ==> table[k] in r
  {
    Filter(table, PlayedBy(u))
  }

  predicate Between(g: Game, me: User, them: User) {
    (g.p1.player == me && g.p2.player == them) || (g.p1.player == them && g.p2.player == me)
  }

  function PlayedBetween(me: User, them: User): Game -> bool {
    g => Between(g, me, them)
  }

  /** The games whose two seats are `me` and `them`, in either order. */
  function Ours(table: seq<Game>, me: User, them: User): (r: seq<Game>)
    ensures forall k :: 0 <= k < |r| ==> r[k] in table && Between(r[k], me, them)
    ensures forall k :: 0 <= k < |table| && Between(table[k], me, them) ==> table[k] in r
  {
    Filter(table, PlayedBetween(me, them))
  }

  /** `ours(me, them)` and `ours(them, me)` are the same games. */
  lemma OursSymmetric(table: seq<Game>, me: User, them: User)
    ensures Ours(table, me, them) == Ours(table, them, me)
  {
    FilterCongruent(table, PlayedBetween(me, them), PlayedBetween(them, me));
  }

  /** The games between two users are exactly the games of the first that
      the second also plays, in the same order. */
  lemma {:induction false} OursWithinMine(table: seq<Game>, me: User, them: User)
    requires me != them
    ensures Ours(table, me, them) == Filter(Mine(table, me), PlayedBy(them))
    ensures IsSubsequence(Ours(table, me, them), Mine(table, me))
  {
    var both: Game -> bool := g => Plays(g, me) && Plays(g, them);
    FilterFilter(table, PlayedBy(me), PlayedBy(them), both);
    FilterCongruent(table, PlayedBetween(me, them), both);
    FilterIsSubsequence(Mine(table, me), PlayedBy(them));
  }

  // ---------------------------------------------------------------------
  // Outcome from one user's point of view (`add_win_status`) and the
  // winner's name (`winner`)

  /** The label `add_win_status` gives game `g` for user `u`. */
  function WinStatus(g: Game, u: User): (r: string)
    ensures r == Tie <==> SelfPlay(g, u)
    ensures !SelfPlay(g, u) && g.p1.player == u ==> (r == Win <==> g.p1.winner)
    ensures !SelfPlay(g, u) && g.p1.player != u ==> (r == Win <==> !g.p1.winner)
    ensures r == Tie || r == Win || r == Loss
  {
    if SelfPlay(g, u) then Tie
    else if g.p1.player == u then (if g.p1.winner then Win else Loss)
    else (if g.p1.winner then Loss else Win)
  }

  /** The seat `winner` reports: the first seat if it is flagged winner,
      otherwise the second. */
  function WinningSeat(g: Game): (s: Seat)
    ensures s == g.p1 || s == g.p2
    ensures g.p1.winner ==> s == g.p1
    ensures !g.p1.winner ==> s == g.p2
    ensures s.winner || (!g.p1.winner && !g.p2.winner)
  {
    if g.p1.winner then g.p1 else g.p2
  }

  /** Between two different users the labels are complementary: exactly one
      of them sees a win. */
  lemma WinStatusZeroSum(g: Game)
    requires g.p1.player != g.p2.player
    ensures WinStatus(g, g.p1.player) == Win <==> WinStatus(g, g.p2.player) == Loss
    ensures WinStatus(g, g.p1.player) == Loss <==> WinStatus(g, g.p2.player) == Win
  {
  }

  /** For a user who holds exactly one seat, "win" means the winning seat
      (as `winner` reports it) is theirs. */
  lemma WinStatusAgreesWithWinner(g: Game, u: User)
    requires Plays(g, u) && !SelfPlay(g, u)
    ensures WinStatus(g, u) == Win <==> WinningSeat(g).player == u
  {
  }

  /** When neither seat is flagged winner (a winner index other than 0 and 1
      in the metadata file), the second seat's player is still told "win"
      and `winner` names them. */
  lemma NoFlaggedWinnerFavoursSecondSeat(g: Game)
    requires !g.p1.winner && !g.p2.winner && g.p1.player != g.p2.player
    ensures WinStatus(g, g.p2.player) == Win && WinStatus(g, g.p1.player) == Loss
    ensures WinningSeat(g) == g.p2
  {
  }

  // ---------------------------------------------------------------------
  // Tags (`add_tags`, `combine_tags`)

  /** The tags of the seats that `u` holds. */
  function OwnTags(g: Game, u: User): (r: set<Tag>)
    ensures r <= AllTags(g)
    ensures SelfPlay(g, u) ==> r == AllTags(g)
    ensures !Plays(g, u) ==> r == {}
    ensures forall t :: t in r <==> (g.p1.player == u && t in g.p1.tags) || (g.p2.player == u && t in g.p2.tags)
  {
    (if g.p1.player == u then g.p1.tags else {}) + (if g.p2.player == u then g.p2.tags else {})
  }

  /** The tags of both seats. */
  function AllTags(g: Game): (r: set<Tag>)
    ensures g.p1.tags <= r && g.p2.tags <= r
    ensures forall t :: t in r ==> t in g.p1.tags || t in g.p2.tags
  {
    g.p1.tags + g.p2.tags
  }

  // ---------------------------------------------------------------------
  // The annotating generators, as sequence transformers (specification)
  // and as loops (the generators themselves)

  /** Iterating a queryset: each stored game becomes an object with no
      annotations yet. */
  function Rows(table: seq<Game>): seq<Log> {
    seq(|table|, k requires 0 <= k < |table| => Log(table[k], None, None))
  }

  function AnnotateWinStatus(ls: seq<Log>, u: User): seq<Log> {
    seq(|ls|, k requires 0 <= k < |ls| => ls[k].(winStatus := Some(WinStatus(ls[k].game, u))))
  }

  function AnnotateOwnTags(ls: seq<Log>, u: User): seq<Log> {
    seq(|ls|, k requires 0 <= k < |ls| => ls[k].(tags := Some(OwnTags(ls[k].game, u))))
  }

  function AnnotateAllTags(ls: seq<Log>): seq<Log> {
    seq(|ls|, k requires 0 <= k < |ls| => ls[k].(tags := Some(AllTags(ls[k].game))))
  }

  function AnnotateWinner(ls: seq<Log>): seq<Log> {
    seq(|ls|, k requires 0 <= k < |ls| => ls[k].(winStatus := Some(WinningSeat(ls[k].game).player.username)))
  }

  /** The games behind a sequence of objects. */
  function GamesOf(ls: seq<Log>): seq<Game> {
    seq(|ls|, k requires 0 <= k < |ls| => ls[k].game)
  }

  /** `add_win_status`: every object once, in order, with only `win_status` set. */
  method AddWinStatus(qs: seq<Log>, user: User) returns (out: seq<Log>)
    ensures |out| == |qs|
    ensures forall k :: 0 <= k < |qs| ==>
      out[k].game == qs[k].game && out[k].tags == qs[k].tags &&
      out[k].winStatus == Some(WinStatus(qs[k].game, user))
    ensures out == AnnotateWinStatus(qs, user)
  {
    out := [];
    var i := 0;
    while i < |qs|
      invariant 0 <= i <= |qs|
      invariant out == AnnotateWinStatus(qs[..i], user)
    {
      var q := qs[i];
      var status;
      if q.game.p1.player == user && q.game.p2.player == user {
        status := Tie;
      } else if q.game.p1.player == user {
        status := if q.game.p1.winner then Win else Loss;
      } else {
        status := if q.game.p1.winner then Loss else Win;
      }
      out := out + [q.(winStatus := Some(status))];
      i := i + 1;
    }
    assert qs[..i] == qs;
  }

  /** `add_tags`: every object once, in order, with `tags` set to the
      union of the tags of the seats `user` holds. */
  method AddTags(qs: seq<Log>, user: User) returns (out: seq<Log>)
    ensures |out| == |qs|
    ensures forall k :: 0 <= k < |qs| ==>
      out[k].game == qs[k].game && out[k].winStatus == qs[k].winStatus &&
      out[k].tags == Some(OwnTags(qs[k].game, user))
    ensures out == AnnotateOwnTags(qs, user)
  {
    out := [];
    var i := 0;
    while i < |qs|
      invariant 0 <= i <= |qs|
      invariant out == AnnotateOwnTags(qs[..i], user)
    {
      var q := qs[i];
      var tags: set<Tag> := {};
      if q.game.p1.player == user {
        tags := tags + q.game.p1.tags;
      }
      if q.game.p2.player == user {
        tags := tags + q.game.p2.tags;
      }
      assert tags == OwnTags(q.game, user);
      out := out + [q.(tags := Some(tags))];
      i := i + 1;
    }
    assert qs[..i] == qs;
  }

  /** `combine_tags`: every object once, in order, with `tags` set to the
      union of both seats' tags. */
  method CombineTags(qs: seq<Log>) returns (out: seq<Log>)
    ensures |out| == |qs|
    ensures forall k :: 0 <= k < |qs| ==>
      out[k].game == qs[k].game && out[k].winStatus == qs[k].winStatus &&
      out[k].tags == Some(AllTags(qs[k].game))
    ensures out == AnnotateAllTags(qs)
  {
    out := [];
    var i := 0;
    while i < |qs|
      invariant 0 <= i <= |qs|
      invariant out == AnnotateAllTags(qs[..i])
    {
      var q := qs[i];
      out := out + [q.(tags := Some(q.game.p1.tags + q.game.p2.tags))];
      i := i + 1;
    }
    assert qs[..i] == qs;
  }

  /** `winner`: every object once, in order, with `win_status` set to the
      username of the winning seat's player. */
  method Winner(qs: seq<Log>) returns (out: seq<Log>)
    ensures |out| == |qs|
    ensures forall k :: 0 <= k < |qs| ==>
      out[k].game == qs[k].game && out[k].tags == qs[k].tags &&
      out[k].winStatus == Some(WinningSeat(qs[k].game).player.username)
    ensures out == AnnotateWinner(qs)
  {
    out := [];
    var i := 0;
    while i < |qs|
      invariant 0 <= i <= |qs|
      invariant out == AnnotateWinner(qs[..i])
    {
      var q := qs[i];
      var name := if q.game.p1.winner then q.game.p1.player.username else q.game.p2.player.username;
      out := out + [q.(winStatus := Some(name))];
      i := i + 1;
    }
    assert qs[..i] == qs;
  }

  /** The own-seat tags of a game are among its combined tags. */
  lemma OwnTagsWithinCombined(qs: seq<Log>, user: User)
    ensures forall k :: 0 <= k < |qs| ==>
      AnnotateOwnTags(qs, user)[k].tags.value <= AnnotateAllTags(qs)[k].tags.value
  {
  }

  // ---------------------------------------------------------------------
  // The views built from the pieces above

  /** The tag filter of `mine_with_tag` and `all_with_tag`. */
  function HasTag(tag: Tag): Log -> bool {
    (l: Log) => l.tags.Some? && tag in l.tags.value
  }

  function TaggedBy(u: User, tag: Tag): Game -> bool {
    (g: Game) => tag in OwnTags(g, u)
  }

  function TaggedByAnyone(tag: Tag): Game -> bool {
    (g: Game) => tag in AllTags(g)
  }

  /** `mine_with_win`: the user's games, labelled from their point of view. */
  function MineWithWin(table: seq<Game>, u: User): (r: seq<Log>)
    ensures GamesOf(r) == Mine(table, u)
    ensures forall k :: 0 <= k < |r| ==>
      r[k].winStatus == Some(WinStatus(r[k].game, u)) && r[k].tags == None
  {
    AnnotateWinStatus(Rows(Mine(table, u)), u)
  }

  /** `my_objects`: `mine_with_win` with the user's own tags attached. */
  function MyObjects(table: seq<Game>, u: User): (r: seq<Log>)
    ensures GamesOf(r) == Mine(table, u)
    ensures forall k :: 0 <= k < |r| ==>
      r[k].winStatus == Some(WinStatus(r[k].game, u)) && r[k].tags == Some(OwnTags(r[k].game, u))
  {
    AnnotateOwnTags(MineWithWin(table, u), u)
  }

  /** `ours_with_data`: the games between two users, with the first user's
      tags and labels. */
  function OursWithData(table: seq<Game>, me: User, them: User): (r: seq<Log>)
    ensures GamesOf(r) == Ours(table, me, them)
    ensures forall k :: 0 <= k < |r| ==>
      r[k].winStatus == Some(WinStatus(r[k].game, me)) && r[k].tags == Some(OwnTags(r[k].game, me))
  {
    AnnotateWinStatus(AnnotateOwnTags(Rows(Ours(table, me, them)), me), me)
  }

  /** `objects_with_tags`: every game, with both seats' tags and the
      winner's name. */
  function ObjectsWithTags(table: seq<Game>): (r: seq<Log>)
    ensures GamesOf(r) == table
    ensures forall k :: 0 <= k < |r| ==>
      r[k].winStatus == Some(WinningSeat(r[k].game).player.username) && r[k].tags == Some(AllTags(r[k].game))
  {
    AnnotateWinner(AnnotateAllTags(Rows(table)))
  }

  /** `mine_with_tag`: the user's games whose own-seat tags contain `tag`,
      tagged and labelled from the user's point of view. */
  function MineWithTag(table: seq<Game>, me: User, tag: Tag): (r: seq<Log>)
    ensures |r| <= |table|
    ensures forall k :: 0 <= k < |r| ==>
      Plays(r[k].game, me) && r[k].game in table &&
      r[k].tags == Some(OwnTags(r[k].game, me)) && tag in r[k].tags.value &&
      r[k].winStatus == Some(WinStatus(r[k].game, me))
  {
    AnnotateWinStatus(Filter(AnnotateOwnTags(Rows(Mine(table, me)), me), HasTag(tag)), me)
  }

  /** `all_with_tag`: the games whose combined tags contain `tag`, with the
      winner's name. */
  function AllWithTag(table: seq<Game>, tag: Tag): (r: seq<Log>)
    ensures |r| <= |table|
    ensures forall k :: 0 <= k < |r| ==>
      r[k].game in table &&
      r[k].tags == Some(AllTags(r[k].game)) && tag in r[k].tags.value &&
      r[k].winStatus == Some(WinningSeat(r[k].game).player.username)
  {
    AnnotateWinner(Filter(AnnotateAllTags(Rows(table)), HasTag(tag)))
  }

  /** Tagging a game list with own-seat tags, head first. */
  lemma OwnTaggedCons(g: Game, rest: seq<Game>, u: User)
    ensures AnnotateOwnTags(Rows([g] + rest), u) == [Log(g, None, Some(OwnTags(g, u)))] + AnnotateOwnTags(Rows(rest), u)
  {
    var a := AnnotateOwnTags(Rows([g] + rest), u);
    var b := [Log(g, None, Some(OwnTags(g, u)))] + AnnotateOwnTags(Rows(rest), u);
    assert |a| == |b|;
    forall k | 0 <= k < |a| ensures a[k] == b[k] {
      if k > 0 {
        assert ([g] + rest)[k] == rest[k - 1];
      }
    }
  }

  /** Tagging a game list with combined tags, head first. */
  lemma AllTaggedCons(g: Game, rest: seq<Game>)
    ensures AnnotateAllTags(Rows([g] + rest)) == [Log(g, None, Some(AllTags(g)))] + AnnotateAllTags(Rows(rest))
  {
    var a := AnnotateAllTags(Rows([g] + rest));
    var b := [Log(g, None, Some(AllTags(g)))] + AnnotateAllTags(Rows(rest));
    assert |a| == |b|;
    forall k | 0 <= k < |a| ensures a[k] == b[k] {
      if k > 0 {
        assert ([g] + rest)[k] == rest[k - 1];
      }
    }
  }

  /** Tagging then filtering on the tag is filtering the games on their own
      tags, then tagging. */
  lemma {:induction false} OwnTagFilterCommutes(gs: seq<Game>, u: User, tag: Tag)
    ensures Filter(AnnotateOwnTags(Rows(gs), u), HasTag(tag)) == AnnotateOwnTags(Rows(Filter(gs, TaggedBy(u, tag))), u)
  {
    if gs != [] {
      OwnTagFilterCommutes(gs[1..], u, tag);
      assert gs == [gs[0]] + gs[1..];
      OwnTaggedCons(gs[0], gs[1..], u);
      if TaggedBy(u, tag)(gs[0]) {
        OwnTaggedCons(gs[0], Filter(gs[1..], TaggedBy(u, tag)), u);
      }
    }
  }

  /** The same for the combined tags of both seats. */
  lemma {:induction false} AllTagFilterCommutes(gs: seq<Game>, tag: Tag)
    ensures Filter(AnnotateAllTags(Rows(gs)), HasTag(tag)) == AnnotateAllTags(Rows(Filter(gs, TaggedByAnyone(tag))))
  {
    if gs != [] {
      AllTagFilterCommutes(gs[1..], tag);
      assert gs == [gs[0]] + gs[1..];
      AllTaggedCons(gs[0], gs[1..]);
      if TaggedByAnyone(tag)(gs[0]) {
        AllTaggedCons(gs[0], Filter(gs[1..], TaggedByAnyone(tag)));
      }
    }
  }

  /** The user's games whose own-seat tags carry `tag`, tagged and
      labelled, are what `mine_with_tag` yields. */
  lemma MineWithTagIsAnnotatedFilter(table: seq<Game>, me: User, tag: Tag)
    ensures MineWithTag(table, me, tag) ==
      AnnotateWinStatus(AnnotateOwnTags(Rows(Filter(table, TaggedBy(me, tag))), me), me)
  {
    OwnTagFilterCommutes(Mine(table, me), me, tag);
    var both: Game -> bool := g => Plays(g, me) && tag in OwnTags(g, me);
    FilterFilter(table, PlayedBy(me), TaggedBy(me, tag), both);
    FilterCongruent(table, TaggedBy(me, tag), both);
  }

  /** `mine_with_tag` keeps, in table order, exactly the games in which the
      user's own seats carry the tag; none of them is dropped, and each is
      labelled from the user's point of view. */
  lemma MineWithTagSelects(table: seq<Game>, me: User, tag: Tag)
    ensures GamesOf(MineWithTag(table, me, tag)) == Filter(table, TaggedBy(me, tag))
    ensures IsSubsequence(GamesOf(MineWithTag(table, me, tag)), table)
    ensures forall k :: 0 <= k < |table| && tag in OwnTags(table[k], me) ==>
      table[k] in GamesOf(MineWithTag(table, me, tag))
    ensures forall k :: 0 <= k < |MineWithTag(table, me, tag)| ==>
      var l := MineWithTag(table, me, tag)[k];
      Plays(l.game, me) && l.tags == Some(OwnTags(l.game, me)) && tag in l.tags.value &&
      l.winStatus == Some(WinStatus(l.game, me))
  {
    MineWithTagIsAnnotatedFilter(table, me, tag);
    var kept := Filter(table, TaggedBy(me, tag));
    var r := MineWithTag(table, me, tag);
    assert |r| == |kept|;
    forall k | 0 <= k < |r|
      ensures r[k] == Log(kept[k], Some(WinStatus(kept[k], me)), Some(OwnTags(kept[k], me)))
    {
    }
    assert GamesOf(r) == kept;
    FilterIsSubsequence(table, TaggedBy(me, tag));
  }

  /** `all_with_tag` keeps, in table order, exactly the games in which
      either seat carries the tag, each with the winner's name. */
  lemma AllWithTagSelects(table: seq<Game>, tag: Tag)
    ensures GamesOf(AllWithTag(table, tag)) == Filter(table, TaggedByAnyone(tag))
    ensures IsSubsequence(GamesOf(AllWithTag(table, tag)), table)
    ensures forall k :: 0 <= k < |table| && tag in AllTags(table[k]) ==> table[k] in GamesOf(AllWithTag(table, tag))
    ensures forall k :: 0 <= k < |AllWithTag(table, tag)| ==>
      var l := AllWithTag(table, tag)[k];
      l.tags == Some(AllTags(l.game)) && tag in l.tags.value &&
      l.winStatus == Some(WinningSeat(l.game).player.username)
  {
    AllTagFilterCommutes(table, tag);
    var kept := Filter(table, TaggedByAnyone(tag));
    var r := AllWithTag(table, tag);
    assert |r| == |kept|;
    forall k | 0 <= k < |r|
      ensures r[k] == Log(kept[k], Some(WinningSeat(kept[k]).player.username), Some(AllTags(kept[k])))
    {
    }
    assert GamesOf(r) == kept;
    FilterIsSubsequence(table, TaggedByAnyone(tag));
  }

  /** A user's games with a tag are among all games with that tag, in the
      same order. */
  lemma MineWithTagWithinAll(table: seq<Game>, me: User, tag: Tag)
    ensures IsSubsequence(GamesOf(MineWithTag(table, me, tag)), GamesOf(AllWithTag(table, tag)))
  {
    MineWithTagSelects(table, me, tag);
    AllWithTagSelects(table, tag);
    FilterStronger(table, TaggedBy(me, tag), TaggedByAnyone(tag));
  }
}
