/**
 * The logic inside the browse page: the check that decides whether the
 * ordered game list must be recomputed, the games that belong to the
 * current library, removing a playlist entry and editing its notes, sorting
 * edited add-apps into new, changed and removed ones, and the quick-search
 * keystroke state.
 */
module BrowsePage {
  import opened Wrappers
  import opened Js
  import opened GamePlaylist
  import opened Libraries

  /** The identity of a host object that the page compares with `===`. */
  type Ref = nat

  /**
   * A game as the page sees it. `ref` is the object's identity: two game
   * objects with the same data are still different objects.
   */
  datatype GameInfo = GameInfo(ref: Ref, id: string, title: string)

  // ---- Deciding whether to re-order the games ----

  /** `a[i]`, which is `undefined` outside the array. */
  function ElementAt<T>(a: array<T>, i: int): Option<T>
    reads a
  {
    if 0 <= i < a.Length then Some(a[i]) else None
  }

  /** The same array, or two arrays holding the same items in the same order. */
  predicate SameItems<T(==)>(a: array?<T>, b: array?<T>)
    reads a, b
  {
    a == b || (a != null && b != null && a[..] == b[..])
  }

  /**
   * `checkIfArraysAreEqual`. The loop starts at `a.length`, one past the
   * end, where both reads give `undefined`.
   */
  method CheckIfArraysAreEqual<T(==)>(a: array?<T>, b: array?<T>) returns (r: bool)
    ensures r <==> SameItems(a, b)
  {
    if a == b { return true; }
    if a == null || b == null { return false; }
    if a.Length != b.Length { return false; }
    var i: int := a.Length;
    while i >= 0
      invariant -1 <= i <= a.Length
      invariant forall k :: i < k < a.Length ==> a[k] == b[k]
    {
      if ElementAt(a, i) != ElementAt(b, i) { return false; }
      i := i - 1;
    }
    assert a[..] == b[..];
    return true;
  }

  /** The cases of the array check, and that it is reflexive and symmetric. */
  lemma SameItemsCases<T>(a: array?<T>, b: array?<T>)
    ensures SameItems(a, a)
    ensures SameItems(a, b) == SameItems(b, a)
    ensures a != b && (a == null) != (b == null) ==> !SameItems(a, b)
    ensures a != null && b != null && a.Length != b.Length ==> !SameItems(a, b)
    ensures a != null && b != null && a.Length == b.Length ==>
      (SameItems(a, b) <==> forall i :: 0 <= i < a.Length ==> a[i] == b[i])
  {
  }

  /**
   * The arguments the games were ordered with. The playlist and the order
   * are objects compared by identity; `platforms` is always `undefined`
   * where the page builds the arguments, but the check handles an array.
   */
  datatype OrderGamesArgs = OrderGamesArgs(
    games: array?<GameInfo>,
    search: string,
    extreme: bool,
    broken: bool,
    playlist: Option<Ref>,
    platforms: array?<Ref>,
    order: Ref)

  /** The arguments would order the same games the same way. */
  predicate ArgsEqual(args1: OrderGamesArgs, args2: Option<OrderGamesArgs>)
    reads args1.games, args1.platforms
    reads if args2.Some? then {args2.value.games} else {}
    reads if args2.Some? then {args2.value.platforms} else {}
  {
    && args2.Some?
    && args1.search == args2.value.search
    && args1.extreme == args2.value.extreme
    && args1.broken == args2.value.broken
    && args1.playlist == args2.value.playlist
    && args1.order == args2.value.order
    && SameItems(args1.platforms, args2.value.platforms)
    && SameItems(args1.games, args2.value.games)
  }

  /** `checkOrderGamesArgsEqual` */
  method CheckOrderGamesArgsEqual(args1: OrderGamesArgs, args2: Option<OrderGamesArgs>) returns (r: bool)
    ensures r <==> ArgsEqual(args1, args2)
  {
    if args2.None? { return false; }
    var other := args2.value;
    if args1.search != other.search { return false; }
    if args1.extreme != other.extreme { return false; }
    if args1.broken != other.broken { return false; }
    if args1.playlist != other.playlist { return false; }
    if args1.order != other.order { return false; }
    var samePlatforms := CheckIfArraysAreEqual(args1.platforms, other.platforms);
    if !samePlatforms { return false; }
    var sameGames := CheckIfArraysAreEqual(args1.games, other.games);
    if !sameGames { return false; }
    return true;
  }

  /** Arguments are equal to themselves, and never to missing arguments. */
  lemma ArgsEqualReflexive(args: OrderGamesArgs)
    ensures ArgsEqual(args, Some(args))
    ensures !ArgsEqual(args, None)
  {
  }

  // ---- Quick search ----

  /** `BrowsePage.quickSearchTimeout`, in milliseconds. */
  const QuickSearchTimeout := 1500

  /** `s.substr(0, n)`: a negative length gives the empty string. */
  function SubstrFromStart(s: string, n: int): (r: string)
    ensures n <= 0 ==> r == ""
    ensures 0 <= n <= |s| ==> r == s[..n]
    ensures n >= |s| ==> r == s
  {
    if n <= 0 then "" else if n >= |s| then s else s[..n]
  }

  /** Backspace: the base without its last character, `''` staying `''`. */
  function Backspace(base: string): (r: string)
    ensures |base| == 0 ==> r == ""
    ensures |base| > 0 ==> base == r + [base[|base| - 1]]
  {
    SubstrFromStart(base, |base| - 1)
  }

  /** Typing a character and then backspace leaves what was there. */
  lemma BackspaceUndoesTyping(base: string, key: string)
    requires |key| == 1
    ensures Backspace(base + key) == base
  {
    assert (base + key)[..|base|] == base;
  }

  /** The search string after a key, or `None` when the key is ignored. */
  function QuickSearchKey(quickSearch: string, key: string, timedOut: bool): Option<string> {
    var base := if timedOut then "" else quickSearch;
    if key == "backspace" then Some(Backspace(base))
    else if |key| == 1 then Some(base + key)
    else None
  }

  /**
   * A typed character extends the search (or starts a new one after a
   * time-out), backspace shortens it by one, other keys are ignored.
   */
  lemma QuickSearchKeyEffect(quickSearch: string, key: string, timedOut: bool)
    ensures var r := QuickSearchKey(quickSearch, key, timedOut);
      && (key != "backspace" && |key| != 1 <==> r.None?)
      && (|key| == 1 ==> r == Some((if timedOut then "" else quickSearch) + key))
      && (key == "backspace" && !timedOut && |quickSearch| > 0 ==>
            r.Some? && r.value + [quickSearch[|quickSearch| - 1]] == quickSearch)
      && (key == "backspace" && (timedOut || quickSearch == "") ==> r == Some(""))
  {
  }

  /**
   * The match loop of `componentDidUpdate`: when the search string changed
   * and is not empty, the first ordered game whose lowercased title starts
   * with it is selected.
   */
  method FindQuickSearchMatch(prevQuickSearch: string, quickSearch: string, orderedGames: seq<GameInfo>)
    returns (selected: Option<GameInfo>)
    ensures selected.Some? <==>
      prevQuickSearch != quickSearch && quickSearch != ""
      && exists i :: 0 <= i < |orderedGames| && StartsWith(Lower(orderedGames[i].title), quickSearch)
    ensures selected.Some? ==>
      exists i :: 0 <= i < |orderedGames| && orderedGames[i] == selected.value
        && StartsWith(Lower(orderedGames[i].title), quickSearch)
        && forall k :: 0 <= k < i ==> !StartsWith(Lower(orderedGames[k].title), quickSearch)
  {
    selected := None;
    if prevQuickSearch != quickSearch && quickSearch != "" {
      var index := 0;
      while index < |orderedGames|
        invariant 0 <= index <= |orderedGames|
        invariant forall k :: 0 <= k < index ==> !StartsWith(Lower(orderedGames[k].title), quickSearch)
      {
        if StartsWith(Lower(orderedGames[index].title), quickSearch) {
          selected := Some(orderedGames[index]);
          return;
        }
        index := index + 1;
      }
    }
  }

  // ---- Playlist entries of the selected game ----

  const NoPlaylistSelected := "Unable to remove game from selected playlist - No playlist is selected"
  const NoGameSelected := "Unable to remove game from selected playlist - No game is selected"
  const GameNotInPlaylist := "Unable to remove game from selected playlist - Game is not in playlist"

  predicate HasEntry(entries: seq<GamePlaylistEntry>, gameId: string) {
    exists i :: 0 <= i < |entries| && entries[i].id == gameId
  }

  /** The `every` loop: the index of the first entry with the id, or -1. */
  method FindEntry(entries: seq<GamePlaylistEntry>, gameId: string) returns (index: int)
    ensures -1 <= index < |entries|
    ensures index == -1 <==> !HasEntry(entries, gameId)
    ensures index >= 0 ==> entries[index].id == gameId
    ensures index >= 0 ==> forall k :: 0 <= k < index ==> entries[k].id != gameId
  {
    index := -1;
    var i := 0;
    while i < |entries|
      invariant 0 <= i <= |entries|
      invariant forall k :: 0 <= k < i ==> entries[k].id != gameId
    {
      if entries[i].id == gameId {
        index := i;
        return;
      }
      i := i + 1;
    }
  }

  /**
   * `onRemoveSelectedGameFromPlaylist`: fail without a playlist, without a
   * game, or when no entry has the game's id; otherwise remove the first
   * entry with that id and keep the rest in order.
   */
  method RemoveSelectedGameFromPlaylist(playlist: Option<GamePlaylist>, game: Option<GameInfo>)
    returns (result: Result<GamePlaylist>)
    ensures playlist.None? ==> result == Err(NoPlaylistSelected)
    ensures playlist.Some? && game.None? ==> result == Err(NoGameSelected)
    ensures playlist.Some? && game.Some? && !HasEntry(playlist.value.games, game.value.id) ==>
      result == Err(GameNotInPlaylist)
    ensures playlist.Some? && game.Some? && HasEntry(playlist.value.games, game.value.id) ==>
      var games := playlist.value.games;
      exists k :: 0 <= k < |games| && games[k].id == game.value.id
        && (forall j :: 0 <= j < k ==> games[j].id != game.value.id)
        && result == Ok(playlist.value.(games := games[..k] + games[k + 1..]))
  {
    if playlist.None? { return Err(NoPlaylistSelected); }
    if game.None? { return Err(NoGameSelected); }
    var p := playlist.value;
    var index := FindEntry(p.games, game.value.id);
    if index == -1 { return Err(GameNotInPlaylist); }
    result := Ok(p.(games := p.games[..index] + p.games[index + 1..]));
  }

  /**
   * `onEditPlaylistNotes`: the same three failures, with the same messages;
   * otherwise set the notes of the first entry with the game's id.
   */
  method EditPlaylistNotes(playlist: Option<GamePlaylist>, game: Option<GameInfo>, text: string)
    returns (result: Result<GamePlaylist>)
    ensures playlist.None? ==> result == Err(NoPlaylistSelected)
    ensures playlist.Some? && game.None? ==> result == Err(NoGameSelected)
    ensures playlist.Some? && game.Some? && !HasEntry(playlist.value.games, game.value.id) ==>
      result == Err(GameNotInPlaylist)
    ensures playlist.Some? && game.Some? && HasEntry(playlist.value.games, game.value.id) ==>
      var games := playlist.value.games;
      exists k :: 0 <= k < |games| && games[k].id == game.value.id
        && (forall j :: 0 <= j < k ==> games[j].id != game.value.id)
        && result == Ok(playlist.value.(games := games[k := games[k].(notes := text)]))
  {
    if playlist.None? { return Err(NoPlaylistSelected); }
    if game.None? { return Err(NoGameSelected); }
    var p := playlist.value;
    var index := FindEntry(p.games, game.value.id);
    if index == -1 { return Err(GameNotInPlaylist); }
    result := Ok(p.(games := p.games[index := p.games[index].(notes := text)]));
  }

  /**
   * What the two results promise of the entry list: removal drops exactly
   * one entry with the id and keeps the order of the others; editing keeps
   * the length and every id, and changes only the notes at that position.
   */
  lemma EntryEditsKeepTheRest(games: seq<GamePlaylistEntry>, k: nat, text: string)
    requires k < |games|
    ensures var removed := games[..k] + games[k + 1..];
      && |removed| == |games| - 1
      && multiset(removed) + multiset{games[k]} == multiset(games)
      && (forall j :: 0 <= j < k ==> removed[j] == games[j])
      && (forall j :: k <= j < |removed| ==> removed[j] == games[j + 1])
    ensures var edited := games[k := games[k].(notes := text)];
      && |edited| == |games|
      && (forall j :: 0 <= j < |games| ==> edited[j].id == games[j].id)
      && edited[k].notes == text
      && (forall j :: 0 <= j < |games| && j != k ==> edited[j] == games[j])
  {
    assert games == games[..k] + [games[k]] + games[k + 1..];
  }

  // ---- Sorting edited add-apps ----

  const NoCollection := "Platform does not have a collection."
  const EditAppsMissing := "editAddApps is missing"
  const SelectedAppsMissing := "selectedAddApps is missing"

  predicate HasId(apps: seq<AddApp>, id: string) {
    exists j :: 0 <= j < |apps| && apps[j].id == id
  }

  /**
   * The apps whose id is (`present`) or is not (`!present`) among `others`,
   * last first: the order in which the page's backward loops push them.
   */
  function PickReversed(apps: seq<AddApp>, others: seq<AddApp>, present: bool): seq<AddApp>
    decreases |apps|
  {
    if |apps| == 0 then []
    else PickReversed(apps[1..], others, present) + (if HasId(others, apps[0].id) == present then [apps[0]] else [])
  }

  datatype AddAppDiff = AddAppDiff(newAddApps: seq<AddApp>, changedAddApps: seq<AddApp>, removedAddApps: seq<AddApp>)

  /** The inner backward loops: does some app have this id? */
  method ContainsId(apps: seq<AddApp>, id: string) returns (found: bool)
    ensures found <==> HasId(apps, id)
  {
    found := false;
    var j := |apps| - 1;
    while j >= 0
      invariant -1 <= j < |apps|
      invariant forall k :: j < k < |apps| ==> apps[k].id != id
    {
      if apps[j].id == id {
        found := true;
        return;
      }
      j := j - 1;
    }
  }

  /** One of the outer backward loops. */
  method PickByPresence(apps: seq<AddApp>, others: seq<AddApp>, present: bool) returns (picked: seq<AddApp>)
    ensures picked == PickReversed(apps, others, present)
  {
    picked := [];
    var i := |apps| - 1;
    while i >= 0
      invariant -1 <= i < |apps|
      invariant picked == PickReversed(apps[i + 1..], others, present)
    {
      var found := ContainsId(others, apps[i].id);
      assert apps[i..][1..] == apps[i + 1..];
      if found == present {
        picked := picked + [apps[i]];
      }
      i := i - 1;
    }
    assert apps[0..] == apps;
  }

  /**
   * The categorising half of `updateAddApps`: fail as the page does when
   * the platform has no collection or a list is missing; otherwise sort
   * the edited apps into new and changed ones, and the selected apps no
   * longer edited into removed ones.
   */
  method CategorizeAddApps(hasCollection: bool, editApps: Option<seq<AddApp>>, selectedApps: Option<seq<AddApp>>)
    returns (result: Result<AddAppDiff>)
    ensures !hasCollection ==> result == Err(NoCollection)
    ensures hasCollection && editApps.None? ==> result == Err(EditAppsMissing)
    ensures hasCollection && editApps.Some? && selectedApps.None? ==> result == Err(SelectedAppsMissing)
    ensures hasCollection && editApps.Some? && selectedApps.Some? ==>
      result == Ok(AddAppDiff(PickReversed(editApps.value, selectedApps.value, false),
                              PickReversed(editApps.value, selectedApps.value, true),
                              PickReversed(selectedApps.value, editApps.value, false)))
  {
    if !hasCollection { return Err(NoCollection); }
    if editApps.None? { return Err(EditAppsMissing); }
    if selectedApps.None? { return Err(SelectedAppsMissing); }
    var newAddApps := PickByPresence(editApps.value, selectedApps.value, false);
    var changedAddApps := PickByPresence(editApps.value, selectedApps.value, true);
    var removedAddApps := PickByPresence(selectedApps.value, editApps.value, false);
    result := Ok(AddAppDiff(newAddApps, changedAddApps, removedAddApps));
  }

  /** An app is picked exactly when it is one of the apps and its id's presence matches. */
  lemma {:induction false} PickReversedMembers(apps: seq<AddApp>, others: seq<AddApp>, present: bool, a: AddApp)
    ensures a in PickReversed(apps, others, present) <==> a in apps && HasId(others, a.id) == present
    decreases |apps|
  {
    if |apps| > 0 {
      PickReversedMembers(apps[1..], others, present, a);
      assert apps == [apps[0]] + apps[1..];
    }
  }

  /** New and changed apps together are the edited apps, each as often. */
  lemma {:induction false} NewAndChangedPartition(editApps: seq<AddApp>, selectedApps: seq<AddApp>)
    ensures multiset(PickReversed(editApps, selectedApps, false)) + multiset(PickReversed(editApps, selectedApps, true))
      == multiset(editApps)
    decreases |editApps|
  {
    if |editApps| > 0 {
      var first, rest := editApps[0], editApps[1..];
      NewAndChangedPartition(rest, selectedApps);
      var picked := [first];
      if HasId(selectedApps, first.id) {
        assert PickReversed(editApps, selectedApps, true) == PickReversed(rest, selectedApps, true) + picked;
        assert PickReversed(editApps, selectedApps, false) == PickReversed(rest, selectedApps, false);
      } else {
        assert PickReversed(editApps, selectedApps, true) == PickReversed(rest, selectedApps, true);
        assert PickReversed(editApps, selectedApps, false) == PickReversed(rest, selectedApps, false) + picked;
      }
      assert editApps == picked + rest;
    }
  }

  /** The three kinds, stated on the page's result. */
  lemma AddAppDiffKinds(editApps: seq<AddApp>, selectedApps: seq<AddApp>, a: AddApp)
    ensures a in PickReversed(editApps, selectedApps, false) <==> a in editApps && !HasId(selectedApps, a.id)
    ensures a in PickReversed(editApps, selectedApps, true) <==> a in editApps && HasId(selectedApps, a.id)
    ensures a in PickReversed(selectedApps, editApps, false) <==> a in selectedApps && !HasId(editApps, a.id)
  {
    PickReversedMembers(editApps, selectedApps, false, a);
    PickReversedMembers(editApps, selectedApps, true, a);
    PickReversedMembers(selectedApps, editApps, false, a);
  }

  // ---- The games of the current library ----

  /**
   * A platform file: its file name and its game collection, which may be
   * missing. Platforms are told apart by their position in the list.
   */
  datatype Platform = Platform(filename: string, collection: Option<seq<GameInfo>>)

  /** `libraries.find(item => item.route === route)`, as a position. */
  function FindLibrary(libraries: seq<GameLibraryFileItem>, route: string): (r: Option<nat>)
    ensures r.Some? ==> r.value < |libraries| && libraries[r.value].route == route
    decreases |libraries|
  {
    if |libraries| == 0 then None
    else if libraries[0].route == route then Some(0)
    else match FindLibrary(libraries[1..], route)
      case None => None
      case Some(k) => Some(k + 1)
  }

  /** The library found is the first with the route, and none is found only if none has it. */
  lemma {:induction false} FindLibraryIsFirst(libraries: seq<GameLibraryFileItem>, route: string)
    ensures var r := FindLibrary(libraries, route);
      && (r.Some? ==> forall i :: 0 <= i < r.value ==> libraries[i].route != route)
      && (r.None? <==> forall i :: 0 <= i < |libraries| ==> libraries[i].route != route)
    decreases |libraries|
  {
    if |libraries| > 0 && libraries[0].route != route {
      FindLibraryIsFirst(libraries[1..], route);
      forall i | 0 < i < |libraries| ensures libraries[i] == libraries[1..][i - 1] { }
    }
  }

  /** `getCurrentLibrary`: nothing without library data. */
  function GetCurrentLibrary(libraryData: Option<seq<GameLibraryFileItem>>, route: string): (r: Option<nat>)
    ensures r.Some? ==> libraryData.Some? && r.value < |libraryData.value|
  {
    if libraryData.Some? then FindLibrary(libraryData.value, route) else None
  }

  /** Some library other than the current one has a prefix the file name starts with. */
  predicate UsedByOther(libraries: seq<GameLibraryFileItem>, current: nat, filename: string) {
    exists l :: 0 <= l < |libraries| && l != current && libraries[l].prefix != ""
      && StartsWith(filename, libraries[l].prefix)
  }

  /** Whether a platform belongs to the current library. */
  predicate InLibrary(libraries: seq<GameLibraryFileItem>, current: nat, filename: string)
    requires current < |libraries|
  {
    var lib := libraries[current];
    if lib.isDefault then !UsedByOther(libraries, current, filename)
    else lib.prefix != "" && StartsWith(filename, lib.prefix)
  }

  /** The games of the platforms that `pick` keeps, platform after platform. */
  function GamesOf(platforms: seq<Platform>, pick: string -> bool): seq<GameInfo>
    decreases |platforms|
  {
    if |platforms| == 0 then []
    else
      var last := platforms[|platforms| - 1];
      GamesOf(platforms[..|platforms| - 1], pick)
      + (if pick(last.filename) && last.collection.Some? then last.collection.value else [])
  }

  /** The result `getCurrentLibraryGames` promises. */
  function CurrentLibraryGames(libraryData: Option<seq<GameLibraryFileItem>>, route: string,
                               platforms: seq<Platform>): Option<seq<GameInfo>> {
    match GetCurrentLibrary(libraryData, route)
    case None => None
    case Some(c) => Some(GamesOf(platforms, f => InLibrary(libraryData.value, c, f)))
  }

  /** The platforms' positions that other libraries' prefixes claim. */
  method UsedPlatforms(libraries: seq<GameLibraryFileItem>, current: nat, platforms: seq<Platform>)
    returns (used: set<nat>)
    ensures forall p: nat :: p in used <==> p < |platforms| && UsedByOther(libraries, current, platforms[p].filename)
  {
    used := {};
    var l := 0;
    while l < |libraries|
      invariant 0 <= l <= |libraries|
      invariant forall p: nat :: p in used <==> p < |platforms| && UsedBefore(libraries, current, l, platforms[p].filename)
    {
      if l != current && libraries[l].prefix != "" {
        var prefix := libraries[l].prefix;
        var q := 0;
        while q < |platforms|
          invariant 0 <= q <= |platforms|
          invariant forall p: nat :: p in used <==>
            p < |platforms| && (UsedBefore(libraries, current, l, platforms[p].filename)
                                || (p < q && StartsWith(platforms[p].filename, prefix)))
        {
          if StartsWith(platforms[q].filename, prefix) {
            used := used + {q};
          }
          q := q + 1;
        }
      }
      l := l + 1;
    }
  }

  /** `UsedByOther`, looking only at the libraries before position `n`. */
  predicate UsedBefore(libraries: seq<GameLibraryFileItem>, current: nat, n: nat, filename: string) {
    exists l :: 0 <= l < n && l < |libraries| && l != current && libraries[l].prefix != ""
      && StartsWith(filename, libraries[l].prefix)
  }

  /**
   * `getCurrentLibraryGames`: no games without a current library; for the
   * default library the games of the platforms no other library's prefix
   * claims; for a prefixed library the games of its platforms; for any
   * other library none.
   */
  method GetCurrentLibraryGames(libraryData: Option<seq<GameLibraryFileItem>>, route: string, platforms: seq<Platform>)
    returns (games: Option<seq<GameInfo>>)
    ensures games == CurrentLibraryGames(libraryData, route, platforms)
  {
    var current := GetCurrentLibrary(libraryData, route);
    if current.None? { return None; }
    var libraries := libraryData.value;
    var c := current.value;
    ghost var pick := f => InLibrary(libraries, c, f);
    var result: seq<GameInfo> := [];
    if libraries[c].isDefault {
      var used := UsedPlatforms(libraries, c, platforms);
      var i := 0;
      while i < |platforms|
        invariant 0 <= i <= |platforms|
        invariant result == GamesOf(platforms[..i], pick)
      {
        assert platforms[..i + 1][..i] == platforms[..i];
        if i !in used && platforms[i].collection.Some? {
          result := result + platforms[i].collection.value;
        }
        i := i + 1;
      }
    } else if libraries[c].prefix != "" {
      var prefix := libraries[c].prefix;
      var i := 0;
      while i < |platforms|
        invariant 0 <= i <= |platforms|
        invariant result == GamesOf(platforms[..i], pick)
      {
        assert platforms[..i + 1][..i] == platforms[..i];
        if StartsWith(platforms[i].filename, prefix) && platforms[i].collection.Some? {
          result := result + platforms[i].collection.value;
        }
        i := i + 1;
      }
    } else {
      GamesOfNone(platforms, pick);
    }
    assert platforms[..|platforms|] == platforms;
    games := Some(result);
  }

  /** A pick that keeps no platform yields no games. */
  lemma {:induction false} GamesOfNone(platforms: seq<Platform>, pick: string -> bool)
    requires forall f :: !pick(f)
    ensures GamesOf(platforms, pick) == []
    decreases |platforms|
  {
    if |platforms| > 0 {
      GamesOfNone(platforms[..|platforms| - 1], pick);
    }
  }

  /** A game is listed exactly when some kept platform's collection holds it. */
  lemma {:induction false} GamesOfMembers(platforms: seq<Platform>, pick: string -> bool, g: GameInfo)
    ensures g in GamesOf(platforms, pick) <==>
      exists i :: 0 <= i < |platforms| && pick(platforms[i].filename)
        && platforms[i].collection.Some? && g in platforms[i].collection.value
    decreases |platforms|
  {
    if |platforms| > 0 {
      var init := platforms[..|platforms| - 1];
      GamesOfMembers(init, pick, g);
      if exists i :: 0 <= i < |init| && pick(init[i].filename) && init[i].collection.Some? && g in init[i].collection.value {
        var i :| 0 <= i < |init| && pick(init[i].filename) && init[i].collection.Some? && g in init[i].collection.value;
        assert platforms[i] == init[i];
      }
      if exists i :: 0 <= i < |platforms| && pick(platforms[i].filename)
          && platforms[i].collection.Some? && g in platforms[i].collection.value {
        var i :| 0 <= i < |platforms| && pick(platforms[i].filename)
          && platforms[i].collection.Some? && g in platforms[i].collection.value;
        if i < |init| { assert init[i] == platforms[i]; }
      }
    }
  }

  /** The four cases of `getCurrentLibraryGames`. */
  lemma CurrentLibraryGamesCases(libraryData: Option<seq<GameLibraryFileItem>>, route: string,
                                 platforms: seq<Platform>, g: GameInfo)
    ensures GetCurrentLibrary(libraryData, route).None? ==> CurrentLibraryGames(libraryData, route, platforms).None?
    ensures GetCurrentLibrary(libraryData, route).Some? ==>
      var libraries := libraryData.value;
      var c := GetCurrentLibrary(libraryData, route).value;
      var games := CurrentLibraryGames(libraryData, route, platforms);
      && games.Some?
      && (libraries[c].isDefault ==>
            (g in games.value <==>
               exists i :: 0 <= i < |platforms| && !UsedByOther(libraries, c, platforms[i].filename)
                 && platforms[i].collection.Some? && g in platforms[i].collection.value))
      && (!libraries[c].isDefault && libraries[c].prefix != "" ==>
            (g in games.value <==>
               exists i :: 0 <= i < |platforms| && StartsWith(platforms[i].filename, libraries[c].prefix)
                 && platforms[i].collection.Some? && g in platforms[i].collection.value))
      && (!libraries[c].isDefault && libraries[c].prefix == "" ==> games.value == [])
  {
    var cur := GetCurrentLibrary(libraryData, route);
    if cur.Some? {
      var libraries := libraryData.value;
      var c := cur.value;
      var pick := f => InLibrary(libraries, c, f);
      GamesOfMembers(platforms, pick, g);
      if !libraries[c].isDefault && libraries[c].prefix == "" {
        GamesOfNone(platforms, pick);
      }
    }
  }

  /** Without library data there is no current library, and the library found has the route. */
  lemma CurrentLibraryFound(libraryData: Option<seq<GameLibraryFileItem>>, route: string)
    ensures libraryData.None? ==> GetCurrentLibrary(libraryData, route).None?
    ensures libraryData.Some? ==>
      (GetCurrentLibrary(libraryData, route).Some? <==>
         exists i :: 0 <= i < |libraryData.value| && libraryData.value[i].route == route)
  {
    if libraryData.Some? {
      FindLibraryIsFirst(libraryData.value, route);
    }
  }

  // ---- The page's own state ----

  /** A game's additional application; `id` is what the add-app diff compares. */
  datatype AddApp = AddApp(id: string, name: string, applicationPath: string, launchCommand: string)

  class BrowsePage {
    var quickSearch: string
    var prevQuickSearchUpdate: int
    var orderedGames: seq<GameInfo>
    var orderedGamesArgs: Option<OrderGamesArgs>
    var isEditing: bool
    var isNewGame: bool
    var currentGame: Option<GameInfo>
    var currentAddApps: Option<seq<AddApp>>

    /**
     * The constructor: the initial state, then a forced `orderGames`, then
     * `updateCurrentGameAndAddApps` and `createNewGameIfClicked(false)`.
     * `ordered` is what the ordering engine returns for `args`;
     * `selectedGame`, `selectedAddApps`, `copyRef`, `wasNewGameClicked` and
     * `newGame` are as for those two methods.
     */
    constructor(args: OrderGamesArgs, ordered: seq<GameInfo>,
                selectedGame: Option<GameInfo>, selectedAddApps: Option<seq<AddApp>>, copyRef: Ref,
                wasNewGameClicked: bool, newGame: GameInfo)
      ensures quickSearch == "" && prevQuickSearchUpdate == 0
      ensures orderedGames == ordered && orderedGamesArgs == Some(args)
      ensures wasNewGameClicked ==>
        currentGame == Some(newGame) && currentAddApps == Some([]) && isEditing && isNewGame
      ensures !wasNewGameClicked && selectedGame.Some? ==>
        && currentGame == Some(selectedGame.value.(ref := copyRef)) && currentAddApps == selectedAddApps
        && !isEditing && !isNewGame
      ensures !wasNewGameClicked && selectedGame.None? ==>
        currentGame.None? && currentAddApps.None? && !isEditing && !isNewGame
    {
      quickSearch := "";
      prevQuickSearchUpdate := 0;
      orderedGames := [];
      orderedGamesArgs := None;
      isEditing := false;
      isNewGame := false;
      currentGame := None;
      currentAddApps := None;
      new;
      OrderGames(true, args, ordered);
      UpdateCurrentGameAndAddApps(selectedGame, selectedAddApps, copyRef);
      CreateNewGameIfClicked(false, wasNewGameClicked, newGame);
    }

    /**
     * `updateCurrentGameAndAddApps`: with a game selected, the current game
     * becomes a copy of it (a new object, `copyRef`, with the same data), the
     * current add-apps those the game collection holds for it
     * (`selectedAddApps`), and the game is no longer a new one; without a
     * selected game nothing changes.
     */
    method UpdateCurrentGameAndAddApps(selectedGame: Option<GameInfo>, selectedAddApps: Option<seq<AddApp>>, copyRef: Ref)
      modifies this
      ensures selectedGame.Some? ==>
        currentGame == Some(selectedGame.value.(ref := copyRef)) && currentAddApps == selectedAddApps && !isNewGame
      ensures selectedGame.None? ==>
        currentGame == old(currentGame) && currentAddApps == old(currentAddApps) && isNewGame == old(isNewGame)
      ensures isEditing == old(isEditing)
      ensures quickSearch == old(quickSearch) && prevQuickSearchUpdate == old(prevQuickSearchUpdate)
      ensures orderedGames == old(orderedGames) && orderedGamesArgs == old(orderedGamesArgs)
    {
      if selectedGame.Some? {
        currentGame := Some(selectedGame.value.(ref := copyRef));
        currentAddApps := selectedAddApps;
        isNewGame := false;
      }
    }

    /**
     * `createNewGameIfClicked`: when the "New Game" button has just been
     * pushed, start editing `newGame` (`GameInfo.create()` with its id from
     * `uuid()`) with no add-apps; otherwise nothing changes.
     */
    method CreateNewGameIfClicked(prevWasNewGameClicked: bool, wasNewGameClicked: bool, newGame: GameInfo)
      modifies this
      ensures wasNewGameClicked && !prevWasNewGameClicked ==>
        currentGame == Some(newGame) && currentAddApps == Some([]) && isEditing && isNewGame
      ensures !(wasNewGameClicked && !prevWasNewGameClicked) ==>
        && currentGame == old(currentGame) && currentAddApps == old(currentAddApps)
        && isEditing == old(isEditing) && isNewGame == old(isNewGame)
      ensures quickSearch == old(quickSearch) && prevQuickSearchUpdate == old(prevQuickSearchUpdate)
      ensures orderedGames == old(orderedGames) && orderedGamesArgs == old(orderedGamesArgs)
    {
      if wasNewGameClicked && !prevWasNewGameClicked {
        currentGame := Some(newGame);
        currentAddApps := Some([]);
        isEditing := true;
        isNewGame := true;
      }
    }

    /**
     * `onRemoveSelectedGameFromPlaylist`: on success, the playlist without
     * its entry, a forced `orderGames` and `deselect`, which stands for the
     * call `onSelectGame(undefined)`; on failure the error and no change.
     * `ordered` is what the ordering engine returns for `args`.
     */
    method RemoveSelectedGameClick(playlist: Option<GamePlaylist>, game: Option<GameInfo>,
                                   args: OrderGamesArgs, ordered: seq<GameInfo>)
      returns (result: Result<GamePlaylist>, deselect: bool)
      modifies this
      ensures playlist.None? ==> result == Err(NoPlaylistSelected)
      ensures playlist.Some? && game.None? ==> result == Err(NoGameSelected)
      ensures playlist.Some? && game.Some? && !HasEntry(playlist.value.games, game.value.id) ==>
        result == Err(GameNotInPlaylist)
      ensures playlist.Some? && game.Some? && HasEntry(playlist.value.games, game.value.id) ==>
        var games := playlist.value.games;
        exists k :: 0 <= k < |games| && games[k].id == game.value.id
          && (forall j :: 0 <= j < k ==> games[j].id != game.value.id)
          && result == Ok(playlist.value.(games := games[..k] + games[k + 1..]))
      ensures deselect <==> result.Ok?
      ensures result.Ok? ==> orderedGames == ordered && orderedGamesArgs == Some(args)
      ensures result.Err? ==> orderedGames == old(orderedGames) && orderedGamesArgs == old(orderedGamesArgs)
      ensures quickSearch == old(quickSearch) && prevQuickSearchUpdate == old(prevQuickSearchUpdate)
      ensures isEditing == old(isEditing) && isNewGame == old(isNewGame)
      ensures currentGame == old(currentGame) && currentAddApps == old(currentAddApps)
    {
      result := RemoveSelectedGameFromPlaylist(playlist, game);
      deselect := result.Ok?;
      if result.Ok? {
        OrderGames(true, args, ordered);
      }
    }

    /**
     * `orderGames`: re-order only when forced or when the arguments differ
     * from the stored ones. `ordered` is what the ordering engine returns
     * for `args`.
     */
    method OrderGames(force: bool, args: OrderGamesArgs, ordered: seq<GameInfo>)
      modifies this
      ensures force || !ArgsEqual(args, old(orderedGamesArgs)) ==>
        orderedGames == ordered && orderedGamesArgs == Some(args)
      ensures !force && ArgsEqual(args, old(orderedGamesArgs)) ==>
        orderedGames == old(orderedGames) && orderedGamesArgs == old(orderedGamesArgs)
      ensures quickSearch == old(quickSearch) && prevQuickSearchUpdate == old(prevQuickSearchUpdate)
      ensures isEditing == old(isEditing) && isNewGame == old(isNewGame)
      ensures currentGame == old(currentGame) && currentAddApps == old(currentAddApps)
    {
      var same := CheckOrderGamesArgsEqual(args, orderedGamesArgs);
      if force || !same {
        orderedGames := ordered;
        orderedGamesArgs := Some(args);
      }
    }

    /** `updateTime`: a time-out is more than 1500 ms since the last update. */
    method UpdateTime(now: int) returns (timedOut: bool)
      modifies this
      ensures timedOut <==> now - old(prevQuickSearchUpdate) > QuickSearchTimeout
      ensures prevQuickSearchUpdate == now
      ensures quickSearch == old(quickSearch)
      ensures orderedGames == old(orderedGames) && orderedGamesArgs == old(orderedGamesArgs)
      ensures isEditing == old(isEditing) && isNewGame == old(isNewGame)
      ensures currentGame == old(currentGame) && currentAddApps == old(currentAddApps)
    {
      timedOut := now - prevQuickSearchUpdate > QuickSearchTimeout;
      prevQuickSearchUpdate := now;
    }

    /**
     * `onCenterKeyDown`, with `now` the time of the key press. Keys with
     * CTRL or ALT held, and keys that are neither backspace nor a single
     * character, change nothing, not even the time of the last update.
     */
    method KeyDown(eventKey: string, ctrlKey: bool, altKey: bool, now: int)
      modifies this
      ensures var key := Lower(eventKey);
        var timedOut := now - old(prevQuickSearchUpdate) > QuickSearchTimeout;
        if !ctrlKey && !altKey && QuickSearchKey(old(quickSearch), key, timedOut).Some? then
          quickSearch == QuickSearchKey(old(quickSearch), key, timedOut).value && prevQuickSearchUpdate == now
        else
          quickSearch == old(quickSearch) && prevQuickSearchUpdate == old(prevQuickSearchUpdate)
      ensures orderedGames == old(orderedGames) && orderedGamesArgs == old(orderedGamesArgs)
      ensures isEditing == old(isEditing) && isNewGame == old(isNewGame)
      ensures currentGame == old(currentGame) && currentAddApps == old(currentAddApps)
    {
      var key := Lower(eventKey);
      if !ctrlKey && !altKey {
        if key == "backspace" {
          var timedOut := UpdateTime(now);
          var newString := if timedOut then "" else quickSearch;
          newString := SubstrFromStart(newString, |newString| - 1);
          quickSearch := newString;
        } else if |key| == 1 {
          var timedOut := UpdateTime(now);
          var newString := (if timedOut then "" else quickSearch) + key;
          quickSearch := newString;
        }
      }
    }

    /**
     * `onDiscardEditClick`: editing ends; a game being created is dropped
     * with its add-apps, an existing game's buffers are kept.
     */
    method DiscardEditClick()
      modifies this
      ensures !isEditing && !isNewGame
      ensures currentGame == (if old(isNewGame) then None else old(currentGame))
      ensures currentAddApps == (if old(isNewGame) then None else old(currentAddApps))
      ensures quickSearch == old(quickSearch) && prevQuickSearchUpdate == old(prevQuickSearchUpdate)
      ensures orderedGames == old(orderedGames) && orderedGamesArgs == old(orderedGamesArgs)
    {
      var wasNewGame := isNewGame;
      isEditing := false;
      isNewGame := false;
      if wasNewGame {
        currentGame := None;
        currentAddApps := None;
      }
    }
  }
}
