/** Ingesting one finished game (`read_tag_file` and `GameLog.create_new`
    in bloom_web/bloom/models.py). The metadata file's first line is
    "<number>, <player 1>, <player 2>, <winner index>" followed by a line
    break; its second and third lines hold the two seats' tags. */
module Ingest {
  import opened Wrappers
  import opened Text
  import opened Games

  /** The header line's four fields after parsing. */
  datatype Header = Header(number: int, p1Name: string, p2Name: string, winnerIndex: int)

  /** Why ingestion stopped: the Python exception that was raised. */
  datatype IngestError =
    | MissingLine(index: nat)            // IndexError: the file has no such line
    | WrongFieldCount(found: nat)        // ValueError: unpacking into four names
    | NotAnInteger(field: string)        // ValueError: int() of a field
    | UnknownUser(name: string)          // User.DoesNotExist

  /** What was read from the metadata file: the game number and both seats. */
  datatype TagFile = TagFile(number: int, p1: Seat, p2: Seat)

  /** The first line's fields, as the header parser splits them. */
  function HeaderFields(line: string): seq<string> {
    Split(DropLast(line))
  }

  /** Parse the first line: drop its last character, split on ", " into
      exactly four fields, read the number and the winner index as integers
      and remove the spaces from the two names. */
  function ParseHeader(line: string): (r: Result<Header, IngestError>)
    ensures |HeaderFields(line)| != 4 <==> r == Err(WrongFieldCount(|HeaderFields(line)|))
    ensures r.Ok? ==> |HeaderFields(line)| == 4
    ensures r.Ok? ==> ' ' !in r.value.p1Name && ' ' !in r.value.p2Name
    ensures r.Ok? ==> Some(r.value.number) == ParseInt(HeaderFields(line)[0])
    ensures r.Ok? ==> Some(r.value.winnerIndex) == ParseInt(HeaderFields(line)[3])
    ensures r.Ok? ==>
      r.value.p1Name == RemoveSpaces(HeaderFields(line)[1]) &&
      r.value.p2Name == RemoveSpaces(HeaderFields(line)[2])
    ensures (|HeaderFields(line)| == 4 && ParseInt(HeaderFields(line)[0]).Some? &&
             ParseInt(HeaderFields(line)[3]).Some?) ==> r.Ok?
    ensures |HeaderFields(line)| == 4 && ParseInt(HeaderFields(line)[0]).None? ==>
      r == Err(NotAnInteger(HeaderFields(line)[0]))
    ensures (|HeaderFields(line)| == 4 && ParseInt(HeaderFields(line)[0]).Some? &&
             ParseInt(HeaderFields(line)[3]).None?) ==> r == Err(NotAnInteger(HeaderFields(line)[3]))
    ensures r.Err? ==> r.error.WrongFieldCount? || r.error.NotAnInteger?
  {
    var fields := HeaderFields(line);
    if |fields| != 4 then Err(WrongFieldCount(|fields|))
    else match ParseInt(fields[0])
      case None => Err(NotAnInteger(fields[0]))
      case Some(number) =>
        match ParseInt(fields[3])
        case None => Err(NotAnInteger(fields[3]))
        case Some(index) => Ok(Header(number, RemoveSpaces(fields[1]), RemoveSpaces(fields[2]), index))
  }

  /** The header line the game runner writes for `h`, without its line break. */
  function FormatHeader(h: Header): string {
    Join([ShowInt(h.number), h.p1Name, h.p2Name, ShowInt(h.winnerIndex)])
  }

  /** A header line written for names without spaces, followed by any final
      character, parses back to the same header. */
  lemma HeaderRoundTrip(h: Header, lineEnd: char)
    requires ' ' !in h.p1Name && ' ' !in h.p2Name
    ensures ParseHeader(FormatHeader(h) + [lineEnd]) == Ok(h)
  {
    var parts := [ShowInt(h.number), h.p1Name, h.p2Name, ShowInt(h.winnerIndex)];
    ShowIntNoSpace(h.number);
    ShowIntNoSpace(h.winnerIndex);
    NoSpaceNoSeparator(h.p1Name);
    NoSpaceNoSeparator(h.p2Name);
    SplitJoin(parts);
    assert DropLast(FormatHeader(h) + [lineEnd]) == FormatHeader(h);
    IntRoundTrip(h.number);
    IntRoundTrip(h.winnerIndex);
    RemoveSpacesIdentity(h.p1Name);
    RemoveSpacesIdentity(h.p2Name);
  }

  /** A header line whose names contain spaces reads with the spaces
      removed, for names without ", " and any final character. */
  lemma HeaderDropsSpaces(number: int, p1: string, p2: string, index: int, lineEnd: char)
    requires NoSeparator(p1) && NoSeparator(p2)
    ensures ParseHeader(Join([ShowInt(number), p1, p2, ShowInt(index)]) + [lineEnd]) ==
      Ok(Header(number, RemoveSpaces(p1), RemoveSpaces(p2), index))
  {
    var line := Join([ShowInt(number), p1, p2, ShowInt(index)]);
    ShowIntNoSpace(number);
    ShowIntNoSpace(index);
    SplitJoin([ShowInt(number), p1, p2, ShowInt(index)]);
    assert DropLast(line + [lineEnd]) == line;
    IntRoundTrip(number);
    IntRoundTrip(index);
  }

  /** `read_tag_file` on the file's lines. `users` stands for the account
      lookup by name, `parseTags` for the tagging library's reading of a tag
      line. The checks happen in the order `read_tag_file` performs
      them: the header, player 1's account, the second line, player 2's
      account, the third line. */
  function ReadTagFile(lines: seq<string>, users: map<string, User>, parseTags: string -> set<Tag>)
    : (r: Result<TagFile, IngestError>)
    ensures |lines| == 0 ==> r == Err(MissingLine(0))
    ensures |lines| > 0 && ParseHeader(lines[0]).Err? ==> r == Err(ParseHeader(lines[0]).error)
    ensures r.Ok? ==> |lines| >= 3 && ParseHeader(lines[0]).Ok?
    ensures r.Ok? ==>
      var h := ParseHeader(lines[0]).value;
      && h.p1Name in users && h.p2Name in users
      && r.value.number == h.number
      && r.value.p1 == Seat(users[h.p1Name], h.winnerIndex == 0, parseTags(lines[1]))
      && r.value.p2 == Seat(users[h.p2Name], h.winnerIndex == 1, parseTags(lines[2]))
    ensures r.Ok? ==> !(r.value.p1.winner && r.value.p2.winner)
    ensures r.Err? && r.error.UnknownUser? ==> r.error.name !in users
    ensures |lines| > 0 && ParseHeader(lines[0]).Ok? ==>
      var h := ParseHeader(lines[0]).value;
      && (h.p1Name !in users ==> r == Err(UnknownUser(h.p1Name)))
      && (h.p1Name in users && |lines| < 2 ==> r == Err(MissingLine(1)))
      && (h.p1Name in users && |lines| >= 2 && h.p2Name !in users ==> r == Err(UnknownUser(h.p2Name)))
      && (h.p1Name in users && h.p2Name in users && |lines| == 2 ==> r == Err(MissingLine(2)))
      && (h.p1Name in users && h.p2Name in users && |lines| >= 3 ==> r.Ok?)
  {
    if |lines| == 0 then Err(MissingLine(0))
    else match ParseHeader(lines[0])
      case Err(e) => Err(e)
      case Ok(h) =>
        if h.p1Name !in users then Err(UnknownUser(h.p1Name))
        else if |lines| < 2 then Err(MissingLine(1))
        else if h.p2Name !in users then Err(UnknownUser(h.p2Name))
        else if |lines| < 3 then Err(MissingLine(2))
        else
          Ok(TagFile(h.number,
                     Seat(users[h.p1Name], h.winnerIndex == 0, parseTags(lines[1])),
                     Seat(users[h.p2Name], h.winnerIndex == 1, parseTags(lines[2]))))
  }

  /** What `create_new` does with a finished game. */
  datatype Creation =
    | Stored(log: Game)           // a new GameLog row
    | Declined                    // None
    | Raised(error: IngestError)  // an exception escapes to the caller

  const LogSuffix := ".gamelog"

  /** `create_new`. `logHash` is the log file's MD5 hex digest, None when the
      log file could not be read; `tagLines` is the metadata file's lines,
      None when it could not be opened. A missing digest, an unreadable
      metadata file and an unknown player decline; a malformed metadata file
      raises. The stored file is named after the digest. */
  function CreateNew(logHash: Option<string>, tagLines: Option<seq<string>>,
                     users: map<string, User>, parseTags: string -> set<Tag>): (r: Creation)
    ensures (logHash.None? || logHash == Some("")) ==> r == Declined
    ensures logHash.Some? && logHash.value != "" && tagLines.None? ==> r == Declined
    ensures r.Stored? <==>
      logHash.Some? && logHash.value != "" && tagLines.Some? && ReadTagFile(tagLines.value, users, parseTags).Ok?
    ensures r.Stored? ==>
      && logHash == Some(r.log.gameHash)
      && r.log.fileName == r.log.gameHash + LogSuffix
      && !(r.log.p1.winner && r.log.p2.winner)
    ensures r.Stored? ==>
      var t := ReadTagFile(tagLines.value, users, parseTags).value;
      r.log.number == t.number && r.log.p1 == t.p1 && r.log.p2 == t.p2
    ensures r == Declined <==>
      logHash.None? || logHash == Some("") || tagLines.None? ||
      (ReadTagFile(tagLines.value, users, parseTags).Err? &&
       ReadTagFile(tagLines.value, users, parseTags).error.UnknownUser?)
    ensures r.Raised? ==> tagLines.Some? && Err(r.error) == ReadTagFile(tagLines.value, users, parseTags)
    ensures r.Raised? ==> !r.error.UnknownUser?
  {
    if logHash.None? || logHash.value == "" then Declined
    else if tagLines.None? then Declined
    else match ReadTagFile(tagLines.value, users, parseTags)
      case Err(UnknownUser(_)) => Declined
      case Err(e) => Raised(e)
      case Ok(t) => Stored(Game(logHash.value, logHash.value + LogSuffix, t.number, t.p1, t.p2))
  }

  /** A metadata file written by the game runner for two known players is
      stored with the runner's number, both accounts, the seat flagged by the
      winner index and each seat's tags. */
  lemma CreateNewStoresRunnerOutput(hash: string, h: Header, lineEnd: char, tags1: string, tags2: string,
                                    users: map<string, User>, parseTags: string -> set<Tag>)
    requires hash != ""
    requires ' ' !in h.p1Name && ' ' !in h.p2Name
    requires h.p1Name in users && h.p2Name in users
    ensures CreateNew(Some(hash), Some([FormatHeader(h) + [lineEnd], tags1, tags2]), users, parseTags) ==
      Stored(Game(hash, hash + LogSuffix, h.number,
                  Seat(users[h.p1Name], h.winnerIndex == 0, parseTags(tags1)),
                  Seat(users[h.p2Name], h.winnerIndex == 1, parseTags(tags2))))
  {
    HeaderRoundTrip(h, lineEnd);
  }
}
