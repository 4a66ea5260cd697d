/**
 * Playlists: creating an empty one and decoding one from the untyped tree a
 * playlist file parses to. The decoder starts from a record of defaults,
 * overwrites each field the input has, and reports each required field that
 * is missing.
 */
module GamePlaylist {
  import opened Wrappers
  import opened Js
  import opened ObjectParser

  /** One game of a playlist: the game's id and the playlist's notes on it. */
  datatype GamePlaylistEntry = GamePlaylistEntry(id: string, notes: string)

  datatype GamePlaylist = GamePlaylist(
    id: string,
    games: seq<GamePlaylistEntry>,
    title: string,
    description: string,
    author: string,
    icon: Option<string>,
    library: Option<string>)

  /** `createGamePlaylist`, with the fresh id passed in. */
  function CreateGamePlaylist(newId: string): (p: GamePlaylist)
    ensures p.id == newId && p.games == []
    ensures p.title == "" && p.description == "" && p.author == ""
    ensures p.icon.None? && p.library.None?
  {
    GamePlaylist(newId, [], "", "", "", None, None)
  }

  /** `createGamePlaylistEntry` */
  function CreateGamePlaylistEntry(): (e: GamePlaylistEntry)
    ensures e.id == "" && e.notes == ""
  {
    GamePlaylistEntry("", "")
  }

  /** The callback `v => field = v + ''`: run when `prop` found a value. */
  function Assigned(found: Option<Json>, current: string, asString: Json -> string): string {
    match found
    case Some(v) => StringOf(v, asString)
    case None => current
  }

  /** The same callback on an optional field. */
  function AssignedOptional(found: Option<Json>, current: Option<string>, asString: Json -> string): Option<string> {
    match found
    case Some(v) => Some(StringOf(v, asString))
    case None => current
  }

  // ---- The decoder as a function of its input ----

  /** The callback `array` runs for one element of `games`. */
  function ParsedEntry(item: Parser, asString: Json -> string): (GamePlaylistEntry, seq<ErrorThing>) {
    var game := CreateGamePlaylistEntry();
    var rId := Prop(item, "id", false);
    var rNotes := Prop(item, "notes", false);
    (GamePlaylistEntry(Assigned(rId.found, game.id, asString), Assigned(rNotes.found, game.notes, asString)),
     rId.errors + rNotes.errors)
  }

  /** The callback of `prop('games').array(...)` as a function value. */
  function EntryDecoder(asString: Json -> string): Parser -> (GamePlaylistEntry, seq<ErrorThing>) {
    item => ParsedEntry(item, asString)
  }

  /** The entries pushed for `items`, in order, and the errors reported meanwhile. */
  function ParsedEntries(items: seq<Parser>, asString: Json -> string): (seq<GamePlaylistEntry>, seq<ErrorThing>) {
    Collect(items, EntryDecoder(asString))
  }

  /** What `prop(key, ...)` does on the root parser. */
  function RootProp(data: Json, key: string, optional: bool): PropResult {
    Prop(NewParser(data), key, optional)
  }

  /** The scalar fields of the decoded playlist (its games still empty). */
  function ParsedHeader(data: Json, asString: Json -> string): GamePlaylist {
    GamePlaylist(
      Assigned(RootProp(data, "id", false).found, "", asString),
      [],
      Assigned(RootProp(data, "title", false).found, "", asString),
      Assigned(RootProp(data, "description", false).found, "", asString),
      Assigned(RootProp(data, "author", false).found, "", asString),
      AssignedOptional(RootProp(data, "icon", true).found, None, asString),
      AssignedOptional(RootProp(data, "library", true).found, None, asString))
  }

  /** The errors the six scalar fields report, in the order they are read. */
  function HeaderErrors(data: Json): seq<ErrorThing> {
    RootProp(data, "id", false).errors + RootProp(data, "title", false).errors
    + RootProp(data, "description", false).errors + RootProp(data, "author", false).errors
    + RootProp(data, "icon", true).errors + RootProp(data, "library", true).errors
  }

  /** The parser `prop('games')` returns. */
  function GamesParser(data: Json): Parser {
    RootProp(data, "games", false).child
  }

  /** The errors of `prop('games').array(...)`: the property, its shape, its entries. */
  function GamesErrors(data: Json, asString: Json -> string): seq<ErrorThing> {
    RootProp(data, "games", false).errors + ArrayErrors(GamesParser(data))
    + ParsedEntries(ElementParsers(GamesParser(data)), asString).1
  }

  /** The entries `prop('games').array(...)` pushes. */
  function ParsedGames(data: Json, asString: Json -> string): seq<GamePlaylistEntry> {
    ParsedEntries(ElementParsers(GamesParser(data)), asString).0
  }

  /** `parseGamePlaylist`: the playlist and every error reported, in order. */
  function ParsedPlaylist(data: Json, asString: Json -> string): (GamePlaylist, seq<ErrorThing>) {
    (ParsedHeader(data, asString).(games := ParsedGames(data, asString)),
     HeaderErrors(data) + GamesErrors(data, asString))
  }

  /** What the `onError` passed in receives: each error's `toString()`. */
  function Reported(errors: seq<ErrorThing>): (r: seq<string>)
    ensures |r| == |errors|
  {
    seq(|errors|, i requires 0 <= i < |errors| => ErrorText(errors[i]))
  }

  // ---- The decoder as the source runs it ----

  /** The callback `array` runs for one element of `games`. */
  method ParseEntry(item: Parser, asString: Json -> string) returns (game: GamePlaylistEntry, errors: seq<ErrorThing>)
    ensures (game, errors) == ParsedEntry(item, asString)
  {
    game := CreateGamePlaylistEntry();
    var r := Prop(item, "id", false);
    errors := r.errors;
    game := game.(id := Assigned(r.found, game.id, asString));
    r := Prop(item, "notes", false);
    errors := errors + r.errors;
    game := game.(notes := Assigned(r.found, game.notes, asString));
  }

  /** The six scalar fields, read off the root in the order the source reads them. */
  method ParseHeader(data: Json, asString: Json -> string) returns (playlist: GamePlaylist, errors: seq<ErrorThing>)
    ensures playlist == ParsedHeader(data, asString)
    ensures errors == HeaderErrors(data)
  {
    playlist := GamePlaylist("", [], "", "", "", None, None);
    var parser := NewParser(data);
    var r := Prop(parser, "id", false);
    errors := r.errors;
    playlist := playlist.(id := Assigned(r.found, playlist.id, asString));
    r := Prop(parser, "title", false);
    errors := errors + r.errors;
    playlist := playlist.(title := Assigned(r.found, playlist.title, asString));
    r := Prop(parser, "description", false);
    errors := errors + r.errors;
    playlist := playlist.(description := Assigned(r.found, playlist.description, asString));
    r := Prop(parser, "author", false);
    errors := errors + r.errors;
    playlist := playlist.(author := Assigned(r.found, playlist.author, asString));
    r := Prop(parser, "icon", true);
    errors := errors + r.errors;
    playlist := playlist.(icon := AssignedOptional(r.found, playlist.icon, asString));
    r := Prop(parser, "library", true);
    errors := errors + r.errors;
    playlist := playlist.(library := AssignedOptional(r.found, playlist.library, asString));
  }

  /** The loop `array` runs: the callback once per element parser, in order. */
  method ParseEntries(items: seq<Parser>, asString: Json -> string) returns (games: seq<GamePlaylistEntry>, errors: seq<ErrorThing>)
    ensures (games, errors) == ParsedEntries(items, asString)
  {
    games := [];
    errors := [];
    var i := 0;
    while i < |items|
      invariant 0 <= i <= |items|
      invariant (games, errors) == ParsedEntries(items[..i], asString)
    {
      var game, entryErrors := ParseEntry(items[i], asString);
      assert items[..i + 1][..i] == items[..i];
      games := games + [game];
      errors := errors + entryErrors;
      i := i + 1;
    }
    assert items[..|items|] == items;
  }

  /** `prop('games').array(...)`: one entry pushed per element, in order. */
  method ParseGames(data: Json, asString: Json -> string) returns (games: seq<GamePlaylistEntry>, errors: seq<ErrorThing>)
    ensures games == ParsedGames(data, asString)
    ensures errors == GamesErrors(data, asString)
  {
    var r := Prop(NewParser(data), "games", false);
    var items, arrayErrors := Array(r.child);
    var entryErrors;
    games, entryErrors := ParseEntries(items, asString);
    errors := r.errors + arrayErrors + entryErrors;
  }

  /**
   * `parseGamePlaylist`: fill a default record, overwrite what is present,
   * push one entry per element of `games`.
   */
  method ParseGamePlaylist(data: Json, asString: Json -> string) returns (playlist: GamePlaylist, messages: seq<string>)
    ensures playlist == ParsedPlaylist(data, asString).0
    ensures messages == Reported(ParsedPlaylist(data, asString).1)
  {
    var headerErrors, gamesErrors;
    playlist, headerErrors := ParseHeader(data, asString);
    var games;
    games, gamesErrors := ParseGames(data, asString);
    playlist := playlist.(games := games);
    messages := Reported(headerErrors + gamesErrors);
  }

  // ---- What the decoder promises ----

  /**
   * An entry keeps `''` for a missing `id` or `notes` and reports it, and
   * takes the string form of the value found otherwise; every error it
   * reports carries the element's own stack.
   */
  lemma ParsedEntryFields(item: Parser, asString: Json -> string)
    ensures var r := ParsedEntry(item, asString);
      && (!Owns(item, "id") ==> r.0.id == "" && ErrorThing(item.stack, NotFoundMessage("id")) in r.1)
      && (!Owns(item, "notes") ==> r.0.notes == "" && ErrorThing(item.stack, NotFoundMessage("notes")) in r.1)
      && (Owns(item, "id") ==> r.0.id == StringOf(Member(item.property, "id"), asString))
      && (Owns(item, "notes") ==> r.0.notes == StringOf(Member(item.property, "notes"), asString))
      && |r.1| == (if Owns(item, "id") then 0 else 1) + (if Owns(item, "notes") then 0 else 1)
      && forall e :: e in r.1 ==> e.stack == item.stack
  {
  }

  /** Every error reported while decoding the entries carries the stack of one of them. */
  lemma ParsedEntriesErrorStacks(items: seq<Parser>, asString: Json -> string, e: ErrorThing)
    requires e in ParsedEntries(items, asString).1
    ensures exists i :: 0 <= i < |items| && e.stack == items[i].stack
  {
    CollectErrors(items, EntryDecoder(asString), e);
    var i :| 0 <= i < |items| && e in EntryDecoder(asString)(items[i]).1;
    ParsedEntryFields(items[i], asString);
  }

  /**
   * `games` of the result has one entry per element of the input array, in
   * order, each decoded from its element under the path `games[i]`; when
   * `games` is not an array the result has no games, and the errors of
   * `games` are its "not found" error when it is missing, then exactly one
   * "not an array" error at `games`.
   */
  lemma PlaylistGamesFollowInput(data: Json, asString: Json -> string)
    ensures var g := ChildValue(data, "games");
      var games := ParsedGames(data, asString);
      if g.JArr? then
        |games| == |g.items|
        && forall i :: 0 <= i < |g.items| ==>
             games[i] == ParsedEntry(Parser(g.items[i], ["games", NatToString(i)]), asString).0
      else
        games == []
        && GamesErrors(data, asString) ==
             (if Owns(NewParser(data), "games") then [] else [ErrorThing([], NotFoundMessage("games"))])
             + [ErrorThing(["games"], NotArrayMessage)]
  {
    var items := ElementParsers(GamesParser(data));
    CollectInOrder(items, EntryDecoder(asString));
    if !ChildValue(data, "games").JArr? {
      assert items == [];
      assert ParsedEntries(items, asString) == ([], []);
    }
  }

  /**
   * A root lookup reports the "not found" error of `key` once when it looks
   * up that very key, which is required and missing, and otherwise never.
   */
  lemma RootPropReports(data: Json, k: string, optional: bool, key: string)
    ensures multiset(RootProp(data, k, optional).errors)[ErrorThing([], NotFoundMessage(key))]
      == if !optional && !Owns(NewParser(data), k) && k == key then 1 else 0
  {
    NotFoundMessageInjective(k, key);
  }

  /** The keys whose absence `parseGamePlaylist` reports. */
  const RequiredKeys: seq<string> := ["id", "title", "description", "author", "games"]

  /** The required keys read before `games`. */
  const HeaderKeys: seq<string> := ["id", "title", "description", "author"]

  /**
   * At the root, a "not found" error is reported for a key exactly when the
   * key is required and missing, and then exactly once: one each for `id`,
   * `title`, `description`, `author` and `games`, none for `icon`,
   * `library` or any other key.
   */
  lemma PlaylistRootErrors(data: Json, asString: Json -> string, key: string)
    ensures ErrorThing([], NotFoundMessage(key)) in ParsedPlaylist(data, asString).1
      <==> key in RequiredKeys && !Owns(NewParser(data), key)
    ensures multiset(ParsedPlaylist(data, asString).1)[ErrorThing([], NotFoundMessage(key))]
      == if key in RequiredKeys && !Owns(NewParser(data), key) then 1 else 0
  {
    var e := ErrorThing([], NotFoundMessage(key));
    var errors := ParsedPlaylist(data, asString).1;
    assert errors == HeaderErrors(data) + GamesErrors(data, asString);
    RootErrorCount(data, asString, key);
    assert e in errors <==> e in multiset(errors);
  }

  lemma RootErrorCount(data: Json, asString: Json -> string, key: string)
    ensures multiset(HeaderErrors(data) + GamesErrors(data, asString))[ErrorThing([], NotFoundMessage(key))]
      == if key in RequiredKeys && !Owns(NewParser(data), key) then 1 else 0
  {
    var e := ErrorThing([], NotFoundMessage(key));
    HeaderReports(data, key);
    GamesReports(data, asString, key);
    RequiredKeysAre(key);
    HeaderKeysAre(key);
    assert multiset(HeaderErrors(data) + GamesErrors(data, asString))[e]
      == multiset(HeaderErrors(data))[e] + multiset(GamesErrors(data, asString))[e];
  }

  lemma HeaderReports(data: Json, key: string)
    ensures multiset(HeaderErrors(data))[ErrorThing([], NotFoundMessage(key))]
      == if key in HeaderKeys && !Owns(NewParser(data), key) then 1 else 0
  {
    var e := ErrorThing([], NotFoundMessage(key));
    var id, title := RootProp(data, "id", false).errors, RootProp(data, "title", false).errors;
    var description, author := RootProp(data, "description", false).errors, RootProp(data, "author", false).errors;
    var icon, library := RootProp(data, "icon", true).errors, RootProp(data, "library", true).errors;
    assert HeaderErrors(data) == id + title + description + author + icon + library;
    assert multiset(HeaderErrors(data))[e] == multiset(id)[e] + multiset(title)[e] + multiset(description)[e]
      + multiset(author)[e] + multiset(icon)[e] + multiset(library)[e];
    RootPropReports(data, "id", false, key);
    RootPropReports(data, "title", false, key);
    RootPropReports(data, "description", false, key);
    RootPropReports(data, "author", false, key);
    RootPropReports(data, "icon", true, key);
    RootPropReports(data, "library", true, key);
    HeaderKeysAre(key);
  }

  lemma RequiredKeysAre(key: string)
    ensures key in RequiredKeys <==> key in HeaderKeys || key == "games"
  {
  }

  lemma HeaderKeysAre(key: string)
    ensures key in HeaderKeys <==> key == "id" || key == "title" || key == "description" || key == "author"
  {
  }

  lemma GamesReports(data: Json, asString: Json -> string, key: string)
    ensures multiset(GamesErrors(data, asString))[ErrorThing([], NotFoundMessage(key))]
      == if key == "games" && !Owns(NewParser(data), key) then 1 else 0
  {
    var e := ErrorThing([], NotFoundMessage(key));
    RootPropReports(data, "games", false, key);
    var items := ElementParsers(GamesParser(data));
    var entryErrors := ParsedEntries(items, asString).1;
    if e in entryErrors {
      ParsedEntriesErrorStacks(items, asString, e);
      assert false;
    }
    assert multiset(entryErrors)[e] == 0;
    assert e !in ArrayErrors(GamesParser(data));
    assert multiset(ArrayErrors(GamesParser(data)))[e] == 0;
  }

  /** Fields given as strings are copied unchanged; an absent optional field stays absent. */
  lemma PlaylistCopiesStrings(data: Json, asString: Json -> string)
    ensures var p := ParsedPlaylist(data, asString).0;
      var root := NewParser(data);
      && (Owns(root, "id") && Member(data, "id").JStr? ==> p.id == Member(data, "id").s)
      && (Owns(root, "title") && Member(data, "title").JStr? ==> p.title == Member(data, "title").s)
      && (Owns(root, "description") && Member(data, "description").JStr? ==> p.description == Member(data, "description").s)
      && (Owns(root, "author") && Member(data, "author").JStr? ==> p.author == Member(data, "author").s)
      && (Owns(root, "icon") && Member(data, "icon").JStr? ==> p.icon == Some(Member(data, "icon").s))
      && (Owns(root, "library") && Member(data, "library").JStr? ==> p.library == Some(Member(data, "library").s))
      && (!Owns(root, "icon") ==> p.icon.None?)
      && (!Owns(root, "library") ==> p.library.None?)
  {
  }

  /**
   * With `{}` as input every field keeps its default, and the errors are the
   * five missing required fields followed by `games` not being an array.
   */
  lemma EmptyObjectGivesDefaults(asString: Json -> string)
    ensures ParsedPlaylist(JObj([]), asString) ==
      (GamePlaylist("", [], "", "", "", None, None),
       [ErrorThing([], NotFoundMessage("id")), ErrorThing([], NotFoundMessage("title")),
        ErrorThing([], NotFoundMessage("description")), ErrorThing([], NotFoundMessage("author")),
        ErrorThing([], NotFoundMessage("games")), ErrorThing(["games"], NotArrayMessage)])
  {
    var data := JObj([]);
    assert GamesParser(data) == Parser(JUndefined, ["games"]);
    assert ElementParsers(GamesParser(data)) == [];
    assert ParsedEntries([], asString) == ([], []);
    assert HeaderErrors(data) == [ErrorThing([], NotFoundMessage("id")), ErrorThing([], NotFoundMessage("title")),
        ErrorThing([], NotFoundMessage("description")), ErrorThing([], NotFoundMessage("author"))];
    assert GamesErrors(data, asString) == [ErrorThing([], NotFoundMessage("games")), ErrorThing(["games"], NotArrayMessage)];
    assert ParsedGames(data, asString) == [];
    assert ParsedHeader(data, asString) == GamePlaylist("", [], "", "", "", None, None);
    assert ParsedPlaylist(data, asString).1 == HeaderErrors(data) + GamesErrors(data, asString);
    assert ParsedPlaylist(data, asString).0 == GamePlaylist("", [], "", "", "", None, None);
    assert ParsedPlaylist(data, asString).1 == [ErrorThing([], NotFoundMessage("id")), ErrorThing([], NotFoundMessage("title")),
        ErrorThing([], NotFoundMessage("description")), ErrorThing([], NotFoundMessage("author")),
        ErrorThing([], NotFoundMessage("games")), ErrorThing(["games"], NotArrayMessage)];
  }
}
