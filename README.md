# Match results of bloom_web, modelled in Dafny

The `bloom` application of megaminer_web records two-player games played by
an external game runner. Each stored game (`GameLog`) has two seats
(`GamePlayerInfo`): a player, a winner flag and a set of tags. On top of the
table it offers:

- views of the games a user took part in (`mine`) or played against one
  other user (`ours`), labelled "tie", "win" or "loss" from that user's
  point of view (`add_win_status`), or labelled with the winner's name
  (`winner`), and tagged with the user's own seats' tags (`add_tags`) or
  with both seats' tags (`combine_tags`), optionally filtered on one tag
  (`mine_with_tag`, `all_with_tag`);
- per-user statistics (`UserStat`): games, wins, losses and a win percentage;
- ingestion of one finished game (`create_new`): the log file's MD5 digest
  names the stored file, and a metadata file's first line
  `<number>, <player 1>, <player 2>, <winner index>` names the players and
  the winning seat.

The model keeps the database table as a sequence of `Game` values, and the
objects the views pass around as `Log` records whose `winStatus` and `tags`
are `None` until a step sets them. The annotating generators are loops that
build their output sequence, each proved equal to a specification function
that the view functions compose. `UserStat` is a class whose counters
`Populate` overwrites.

Files:

- `wrappers.dfy`: `Option` and `Result`.
- `seqs.dfy`: order-preserving filtering, counting and subsequences.
- `games.dfy`: the data model and the `GameLog` views.
- `stats.dfy`: `UserStat`, the counting loop and `populate_stats`.
- `text.dfy`: Python 2 string behaviour: `split(", ")`, `replace(" ", "")`, `s[0:-1]` and `int()`.
- `ingest.dfy`: `read_tag_file` and `create_new`.

Choices made where the code leaves room:

- Users are compared by value. Django compares them by primary key, and
  within one database a key determines the account.
- `int()` follows CPython 2 on a byte string in base 10. It skips C
  whitespace around the number and between the sign and the digits, takes
  an optional sign, and needs at least one digit. Anything else is a
  `ValueError`.
- `create_new` catches only `IOError` and `User.DoesNotExist`. So in the
  model a missing digest, an unreadable metadata file or an unknown player
  give `Declined`. A malformed header or a missing tag line gives
  `Raised`: the exception reaches the caller.
- A winner index other than 0 and 1 sets neither winner flag. The code
  then labels the second seat's player "win" and `winner` names them
  (`Games.NoFlaggedWinnerFavoursSecondSeat`).

## Model

| member | source | states |
|---|---|---|
| `Seqs.Filter` | bloom_web/bloom/models.py:136 | every kept element passes the predicate and comes from the input; every input element that passes is kept; never longer than the input |
| `Seqs.FilterIsSubsequence` | bloom_web/bloom/models.py:136 | filtering keeps the input order: the result is a subsequence of the input |
| `Seqs.FilterLength` | bloom_web/bloom/models.py:75-76 | the length of a filter is the number of elements that pass it |
| `Games.Mine` | bloom_web/bloom/models.py:112-117 | exactly the table's games in which the user holds either seat |
| `Games.Ours` | bloom_web/bloom/models.py:119-125 | exactly the table's games whose two seats are the two users, in either order (so for two different users no self-play game) |
| `Games.OursSymmetric` | bloom_web/bloom/models.py:122-123 | `ours(me, them)` and `ours(them, me)` are the same games in the same order |
| `Games.OursWithinMine` | bloom_web/bloom/models.py:112-125 | for two different users, `ours` is `mine` of the first narrowed to games the second plays, and a subsequence of it |
| `Games.WinStatus` | bloom_web/bloom/models.py:148-155 | "tie" exactly when both seats are the user; otherwise, in seat 1 "win" iff seat 1 won, else "win" iff seat 1 did not win; always one of the three labels |
| `Games.WinningSeat` | bloom_web/bloom/models.py:185 | the seat `winner` names: seat 1 when it is flagged winner, else seat 2; it is flagged winner unless neither seat is |
| `Games.WinStatusZeroSum` | bloom_web/bloom/models.py:152-155 | between two different players one sees "win" exactly when the other sees "loss" |
| `Games.WinStatusAgreesWithWinner` | bloom_web/bloom/models.py:146-187 | for a user holding one seat, "win" exactly when the seat `winner` reports is theirs |
| `Games.NoFlaggedWinnerFavoursSecondSeat` | bloom_web/bloom/models.py:152-155 | with neither seat flagged, seat 2's player is told "win", seat 1's "loss", and `winner` names seat 2 |
| `Games.OwnTags` | bloom_web/bloom/models.py:162 | a tag is in the result exactly when a seat the user holds carries it, so the opponent seat's tags are left out; all tags for a self-play game, none for a game the user did not play |
| `Games.AllTags` | bloom_web/bloom/models.py:178 | exactly the tags of either seat |
| `Games.AddWinStatus` | bloom_web/bloom/models.py:146-157 | every object once, in order, game and tags unchanged, `win_status` set to the user's label |
| `Games.AddTags` | bloom_web/bloom/models.py:159-164 | every object once, in order, game and label unchanged, `tags` set to the user's own seats' tags |
| `Games.CombineTags` | bloom_web/bloom/models.py:175-180 | every object once, in order, game and label unchanged, `tags` set to both seats' tags |
| `Games.Winner` | bloom_web/bloom/models.py:182-187 | every object once, in order, game and tags unchanged, `win_status` set to the winning seat player's username |
| `Games.OwnTagsWithinCombined` | bloom_web/bloom/models.py:159-180 | for the same objects, the tags `add_tags` sets are a subset of those `combine_tags` sets |
| `Games.MineWithWin` | bloom_web/bloom/models.py:166-168 | the user's games in table order, each labelled from the user's point of view, no tags set |
| `Games.MyObjects` | bloom_web/bloom/models.py:170-173 | the user's games in table order, labelled and tagged with the user's own seats' tags |
| `Games.OursWithData` | bloom_web/bloom/models.py:127-130 | the games between the two users, labelled and tagged from the first user's side |
| `Games.ObjectsWithTags` | bloom_web/bloom/models.py:189-192 | every game of the table in order, with both seats' tags and the winner's name |
| `Games.OwnTagFilterCommutes` | bloom_web/bloom/models.py:135-136 | tagging with own-seat tags and then filtering on a tag equals filtering the games on their own-seat tags and then tagging |
| `Games.AllTagFilterCommutes` | bloom_web/bloom/models.py:142-143 | the same for both seats' tags |
| `Games.MineWithTagIsAnnotatedFilter` | bloom_web/bloom/models.py:132-137 | `mine_with_tag` is the table filtered on the user's own-seat tags, then tagged and labelled |
| `Games.MineWithTag` | bloom_web/bloom/models.py:132-137 | every yielded object is one of the user's games from the table, tagged with the user's own-seat tags, which contain the tag, and labelled for the user |
| `Games.AllWithTag` | bloom_web/bloom/models.py:139-144 | every yielded object is a game from the table, tagged with both seats' tags, which contain the tag, and labelled with the winner's name |
| `Games.MineWithTagSelects` | bloom_web/bloom/models.py:132-137 | keeps, in table order, exactly the games whose own-seat tags contain the tag, dropping none; each is the user's game, tagged and labelled for the user |
| `Games.AllWithTagSelects` | bloom_web/bloom/models.py:139-144 | keeps, in table order, exactly the games whose combined tags contain the tag, dropping none; each carries both seats' tags and the winner's name |
| `Games.MineWithTagWithinAll` | bloom_web/bloom/models.py:132-144 | a user's games with a tag are a subsequence of all games with that tag |
| `Stats.Tally` | bloom_web/bloom/models.py:75-80 | counts every object as a game, those labelled "win" as wins and those labelled "loss" as losses |
| `Stats.MineWithWinCounts` | bloom_web/bloom/models.py:75-80 | counting a label over `mine_with_win` counts the user's games with that outcome in the table |
| `Stats.OutcomesPartition` | bloom_web/bloom/models.py:75-80 | each of a user's games is exactly one of win, loss, tie; the ties are the games against themself |
| `Stats.TruncDiv` | bloom_web/bloom/models.py:90 | quotient truncated toward zero: its magnitude is the floor of abs(a) / abs(b), it is non-negative when a and b have the same sign and non-positive otherwise |
| `Stats.UserStat.constructor` | bloom_web/bloom/models.py:58-62 | a new row for the user with all counters zero |
| `Stats.UserStat.Ratio` | bloom_web/bloom/models.py:86-90 | 0 when no game was played; otherwise the truncated percentage 100*wins/games, hence between 0 and 100 when 0 <= wins <= games |
| `Stats.UserStat.Populate` | bloom_web/bloom/models.py:73-84 | the row's games, wins and losses are the user's counts over the table; wins + losses <= games, and games - wins - losses is the number of self-play games |
| `Stats.GetOrCreate` | bloom_web/bloom/models.py:74 | the user's existing row, or a new zeroed row that is added |
| `Stats.FillRow` | bloom_web/bloom/models.py:73-84 | one round of the loop: the user's row, existing or new, is filled; rows filled in earlier rounds stay filled and no other row changes |
| `Stats.PopulateStats` | bloom_web/bloom/models.py:71-84 | every listed user's row holds their counts; existing rows are kept and rows of unlisted users are untouched |
| `Text.Split` | bloom_web/bloom/models.py:40 | splitting yields at least one piece |
| `Text.JoinSplit` | bloom_web/bloom/models.py:40 | joining the pieces with ", " gives the line back |
| `Text.SplitPiecesHaveNoSeparator` | bloom_web/bloom/models.py:40 | no piece contains ", " |
| `Text.SplitJoin` | bloom_web/bloom/models.py:40 | splitting a ", "-join of pieces without ", " gives the pieces back |
| `Text.DropLast` | bloom_web/bloom/models.py:40 | `s[0:-1]` drops exactly the last character, and leaves an empty string empty |
| `Text.RemoveSpaces` | bloom_web/bloom/models.py:44-45 | the result has no spaces, is a subsequence of the input (order kept) and is shorter by exactly the number of spaces, so every other character is kept |
| `Text.RemoveSpacesIdentity` | bloom_web/bloom/models.py:44-45 | a name without spaces is unchanged |
| `Text.ParseInt` | bloom_web/bloom/models.py:41-42 | Python's `int()` on a field; its contract is stated by `Text.ParseIntAccepts` and `Text.ParseIntReads` |
| `Text.ParseIntAccepts` | bloom_web/bloom/models.py:41-42 | `int()` succeeds exactly on whitespace, an optional sign followed by optional whitespace, at least one digit, and whitespace |
| `Text.ParseIntReads` | bloom_web/bloom/models.py:41-42 | such a field with leading zeros and the digits of n reads as n, or -n after '-' |
| `Text.IntRoundTrip` | bloom_web/bloom/models.py:41-42 | `int(str(n)) == n` for every integer |
| `Ingest.ParseHeader` | bloom_web/bloom/models.py:40-45 | a field count other than four is exactly the unpacking error; with four fields a non-integer first field is reported, else a non-integer fourth field, else the parse succeeds; on success the number and winner index are the integers of fields 1 and 4 and the names are fields 2 and 3 with their spaces removed |
| `Ingest.HeaderDropsSpaces` | bloom_web/bloom/models.py:40-45 | a line written with names that contain spaces (but no ", ") parses to those names with the spaces removed |
| `Ingest.HeaderRoundTrip` | bloom_web/bloom/models.py:40-45 | a header line written for space-free names, with any line end, parses back to the same header |
| `Ingest.ReadTagFile` | bloom_web/bloom/models.py:37-56 | an empty file and a bad header are errors; then, in order, an unknown player 1, a missing second line, an unknown player 2, a missing third line; otherwise it succeeds, both players are the looked-up accounts, seat 1 wins iff the index is 0, seat 2 iff it is 1, so at most one seat wins, and each seat has its own line's tags |
| `Ingest.CreateNew` | bloom_web/bloom/models.py:195-216 | declines exactly on no digest, an unreadable metadata file or an unknown player; stores iff the metadata file reads cleanly; any other read error is raised unchanged; a stored game carries the digest, is filed as digest + ".gamelog", holds the number and both seats the metadata file read, and has at most one winner |
| `Ingest.CreateNewStoresRunnerOutput` | bloom_web/bloom/models.py:195-216 | a metadata file written for two known players is stored with its number, both accounts, the flagged winner and each seat's tags |

## Left out

- The Django ORM is not modelled: querysets, `select_related`, `save`, the admin and the models' `Meta` ordering. The table is a sequence in the order the caller gives.
- The `except DoesNotExist: return None` branches of `mine` and `ours` are not modelled. A filter never raises that exception, so the branches are dead code.
- The views are generators, evaluated lazily, and they annotate the same Python objects in place. The model builds new sequences of `Log` values instead. So it does not capture how consumption interleaves with the loop, or how objects are shared between views.
- The MD5 digest and the file reading in `md5_for_file` are not modelled. The digest enters `Ingest.CreateNew` as a parameter, with `None` for an unreadable file.
- Opening and reading the metadata file is not modelled. Its lines enter as a parameter, with `None` for an `IOError`.
- Moving the log into the output directory (`shutil.move`) is not modelled. Only the stored name, digest + ".gamelog", is.
- The tagging library's `Tag.objects.update_tags` is not modelled. A parameter function turns a tag line into a tag set.
- The case-insensitive account lookup `username__iexact` is not modelled. It is a map from the name as written to the account, with no case folding.
- When two accounts' names differ only in case, that lookup raises `MultipleObjectsReturned`, which `create_new` does not catch. The name-to-account map cannot hold that case, so the model does not capture the exception.
- Three of `read_tag_file`'s exits leave rows already written. The model does not capture these partial database writes:
  - a missing second line raises after the first seat's `GamePlayerInfo` row is created;
  - an unknown second player is declined after that row is created and tagged;
  - a missing third line raises after both seat rows are created and the first is tagged.
- Stats.UserStat.Ratio: computes `100*wins/games` exactly and truncates toward zero. Python goes through a float, which agrees for counts of realistic size. Rounding of huge counts is not modelled.
- `__unicode__`, logging, timestamps, `in_dir`/`out_dir`/`media_path` settings and `FileSystemStorage` are not modelled.
