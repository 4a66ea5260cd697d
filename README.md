# Launcher catalog logic, modelled in Dafny

The launcher is a desktop front end. It shows a catalog of games grouped into
libraries and platforms, with user playlists and per-game images. This project
models the self-contained logic under that user interface:

- **The object parser** (`ObjectParser`). It walks an untyped tree that came
  from `JSON.parse` and never throws. It reports every shape problem as an
  error carrying the path of property names and array indices that led to
  it. It prints the path as `a.b[3].c`.
- **Two decoders built on the parser.** One reads playlist files
  (`parseGamePlaylist`). The other reads the background-services descriptor
  (`parseBackProcessInfoFile`, `parseBackProcessInfo` and the `str`
  coercion). Each decoder fills a record of defaults, overwrites the fields
  that are present and reports the ones that are missing.
- **The image folder registry** (`GameImageCollection`). It keeps two
  dictionaries of per-folder caches whose keys ignore case. Registering a
  folder twice is an error. Looking up a game's image tries the game's id
  first and falls back to its title.
- **The playlist sidebar** (`LeftBrowseSidebar`). It filters playlists by
  the current library and sorts them by title. It replaces a saved playlist
  in place in the shared list. Clicks select or deselect a playlist and
  toggle editing.
- **The browse page helpers** (`BrowsePage`). These are:
  - the check that decides whether the ordered game list must be rebuilt;
  - the games that belong to the current library;
  - the page's starting state: the current game taken from the selected
    game, or a new game after a "New Game" click;
  - removing a playlist entry, with the re-ordering and deselection that
    follow, and editing an entry's notes;
  - sorting edited add-apps (a game's additional applications) into new,
    changed and removed ones;
  - the quick-search keystroke state with its 1500 ms time-out;
  - discarding an edit.

Files:

- `wrappers.dfy`: `Option` and `Result`.
- `js.dfy`: the host semantics the code relies on. This covers values,
  truthiness, own properties, `v + ''` on strings, `parseInt`, the decimal
  form of integers, `toLowerCase` and `startsWith`.
- `object_parser.dfy`
- `game_playlist.dfy`
- `background_services.dfy`
- `game_image_collection.dfy`
- `library.dfy`: the library record that the sidebar and the page share.
- `left_browse_sidebar.dfy`
- `browse_page.dfy`

How the source is turned into Dafny:

- **Callbacks.** The source passes callbacks and an error sink (`onError`) to
  the parser. Here:
  - `Prop` returns the value the callback would receive;
  - `Array`, `ArrayRaw`, `Map` and `MapRaw` return the values they would hand
    to their callback, in call order;
  - every operation returns the errors it would send to the sink.

  The decoders then run the callback bodies themselves, in loops.
- **Spec functions.** Each decoder also exists as a function of its input
  (`ParsedPlaylist`, `ParsedFile`). The methods are proved equal to these
  functions, and the lemmas state their properties.
- **Parameters instead of effects.** The following are passed in as
  parameters:
  - the host's printing of non-string values;
  - `removeFileExtension`;
  - the clock (`now`);
  - the library order (`leq`, meaning `localeCompare(a, b) <= 0`, assumed a
    total preorder);
  - the result of the game-ordering engine.
- **Thrown errors.** These become `Result.Err` or `Option.Some(message)` with
  the source's exact message.

## Model

| member | source | states |
|---|---|---|
| Js.ObjectOwnsItsFields | src/shared/utils/ObjectParser.ts:157-159 | an object owns exactly the names of its fields |
| Js.ArrayOwnsItsIndices | src/shared/utils/ObjectParser.ts:157-159 | an array owns `length` and the decimal forms of its indices, nothing else; element `i` is read back under `NatToString(i)` |
| ObjectParser.ErrorText | src/shared/utils/ObjectParser.ts:77-79 | the error text is the message followed by ` (stack: "…")` with the pretty-printed stack |
| ObjectParser.ErrorTextKeepsMessage | src/shared/utils/ObjectParser.ts:77-79 | two errors at the same stack have the same text exactly when they have the same message |
| ObjectParser.NotFoundMessageInjective | src/shared/utils/ObjectParser.ts:162 | different labels give different "not found" messages |
| ObjectParser.NewParser | src/shared/utils/ObjectParser.ts:169-176 | the root parser wraps the input with an empty stack, which prints as `''` |
| ObjectParser.CreateStack | src/shared/utils/ObjectParser.ts:179-183 | the new stack is the old one, unchanged, with the segment appended |
| ObjectParser.StackToString | src/shared/utils/ObjectParser.ts:186-189 | one segment prints as itself; each further segment adds `[s]` for an array index and `.s` otherwise to the print of the segments before it |
| ObjectParser.StackToStringAppend | src/shared/utils/ObjectParser.ts:186-189 | printing a longer stack appends `[s]` for an array index and `.s` otherwise |
| ObjectParser.StackToStringExample | src/shared/utils/ObjectParser.ts:186-189 | `games,3,title` prints as `games[3].title` |
| ObjectParser.IsArrayIndex | src/shared/utils/ObjectParser.ts:192-194 | `isArrayIndex(s)` holds exactly when `s` is the canonical decimal form of an integer |
| ObjectParser.IsArrayIndexExamples | src/shared/utils/ObjectParser.ts:192-194 | `'3'`, `'-1'` and `'0'` are indices |
| ObjectParser.IsArrayIndexCounterexamples | src/shared/utils/ObjectParser.ts:192-194 | `'03'`, `'3a'`, `'-0'`, `'NaN'`, `''` and `' 3'` are not |
| ObjectParser.ElementSegmentIsIndex | src/shared/utils/ObjectParser.ts:125 | the segment pushed for element `i` prints as `[i]` |
| ObjectParser.Prop | src/shared/utils/ObjectParser.ts:148-166 | the callback value is present exactly when a non-null receiver owns the label, and it is that property with no error; a missing label reports nothing when optional, and otherwise exactly one `Property "label" was not found.` at the parent's stack; the child's stack is the parent's plus the label, and its value is `p && p[label]` |
| ObjectParser.PropOnNullish | src/shared/utils/ObjectParser.ts:157-165 | a null or undefined receiver counts as missing, and the child keeps that value |
| ObjectParser.PropOfField | src/shared/utils/ObjectParser.ts:157-165 | a field of an object is found with its own value and no error, and the child wraps it under `stack + [label]` |
| ObjectParser.CollectInOrder | src/shared/utils/ObjectParser.ts:121-127 | a callback run once per element parser yields one value per element, in index order |
| ObjectParser.CollectErrors | src/shared/utils/ObjectParser.ts:121-127 | the errors collected are exactly those the callback reported for some element |
| ObjectParser.Array | src/shared/utils/ObjectParser.ts:121-132 | on an array, one child per element, in order, each with the element and the stack ending in its index, and no error; on anything else no child and exactly one `Property is not an array.` |
| ObjectParser.ArrayRaw | src/shared/utils/ObjectParser.ts:135-145 | on an array, its elements in order; otherwise none and exactly one `Property is not an array.` |
| ObjectParser.Map | src/shared/utils/ObjectParser.ts:94-105 | on an object, each label in order with a child under `stack + [label]`; on null, arrays and scalars nothing and exactly one `Property is not a non-array object.` |
| ObjectParser.MapRaw | src/shared/utils/ObjectParser.ts:108-118 | on an object, each (value, label) in order; otherwise nothing and exactly one `Property is not a non-array object.` |
| GamePlaylist.CreateGamePlaylist | src/renderer/playlist/GamePlaylist.ts:8-17 | empty strings, no games, no icon; only the id passed in varies |
| GamePlaylist.CreateGamePlaylistEntry | src/renderer/playlist/GamePlaylist.ts:54-59 | an entry with empty id and notes |
| GamePlaylist.ParseEntry | src/renderer/playlist/GamePlaylist.ts:46-49 | the entry callback computes the decoded entry and its errors |
| GamePlaylist.ParseHeader | src/renderer/playlist/GamePlaylist.ts:26-44 | the default record, overwritten field by field, and the errors of the six scalar fields in reading order |
| GamePlaylist.ParseEntries | src/renderer/playlist/GamePlaylist.ts:45-50 | the loop pushes the decoded entry of each element, in order |
| GamePlaylist.ParseGames | src/renderer/playlist/GamePlaylist.ts:45-50 | `prop('games').array(...)`: the entries and all errors of the property, its shape and its entries |
| GamePlaylist.ParseGamePlaylist | src/renderer/playlist/GamePlaylist.ts:25-52 | the decoder returns the playlist of the spec function, and `onError` receives each error's text in order |
| GamePlaylist.ParsedEntryFields | src/renderer/playlist/GamePlaylist.ts:46-48 | a missing entry `id` or `notes` keeps `''` and is reported; a present one is its string form; one error per missing field, at the element's stack |
| GamePlaylist.ParsedEntriesErrorStacks | src/renderer/playlist/GamePlaylist.ts:47-48 | every entry error carries the stack of one of the elements |
| GamePlaylist.PlaylistGamesFollowInput | src/renderer/playlist/GamePlaylist.ts:45-50 | one entry per element of the `games` array, in order, each decoded under `games[i]`; when `games` is not an array, no games, and the errors of `games` are exactly its "not found" error when it is missing, then one "not an array" error at `games` |
| GamePlaylist.PlaylistRootErrors | src/renderer/playlist/GamePlaylist.ts:39-45 | a root "not found" error is reported for a key exactly when it is one of `id`, `title`, `description`, `author` or `games` and is missing, and then exactly once |
| GamePlaylist.PlaylistCopiesStrings | src/renderer/playlist/GamePlaylist.ts:39-44 | string values are copied unchanged; a missing `icon` or `library` stays undefined |
| GamePlaylist.EmptyObjectGivesDefaults | src/renderer/playlist/GamePlaylist.ts:26-50 | on `{}`: every default, and the errors are the five missing required keys followed by `games` not being an array |
| BackgroundServices.Str | src/main/background/BackgroundServicesFile.ts:58-60 | `''` for every falsy value; any string unchanged; any other truthy value is its host string form |
| BackgroundServices.ParseArguments | src/main/background/BackgroundServicesFile.ts:53 | the arguments are `str` of each raw element, in order, with the errors of `arguments` and of its shape |
| BackgroundServices.ParseBackProcessInfo | src/main/background/BackgroundServicesFile.ts:43-55 | the decoder computes the record and the errors of the spec function |
| BackgroundServices.ParseInfos | src/main/background/BackgroundServicesFile.ts:38-39 | the loop pushes one decoded record per element parser, in order |
| BackgroundServices.ParseInfoList | src/main/background/BackgroundServicesFile.ts:38-39 | `prop(key).array(...)`: the records and the errors of the list |
| BackgroundServices.ParseService | src/main/background/BackgroundServicesFile.ts:35-37 | `parseBackProcessInfo(parser.prop(key))`: the record and the errors of both |
| BackgroundServices.ParseBackProcessInfoFile | src/main/background/BackgroundServicesFile.ts:23-41 | the descriptor of the spec function, with every error's message prefixed |
| BackgroundServices.InfoDefaults | src/main/background/BackgroundServicesFile.ts:44-53 | with none of the keys present, the record is `''`, `''`, `[]`, `false`, and exactly `path`, `filename` and `arguments` missing plus `arguments` not an array are reported |
| BackgroundServices.InfoKill | src/main/background/BackgroundServicesFile.ts:52 | `kill` holds exactly when present and truthy; its absence is never reported |
| BackgroundServices.InfoArguments | src/main/background/BackgroundServicesFile.ts:53 | `arguments` keeps the input array's length and order, each element through `str`; a non-array gives none |
| BackgroundServices.FileServicesPresent | src/main/background/BackgroundServicesFile.ts:35-37 | `redirector`, `fiddler` and `server` are always records, each decoded from its own key |
| BackgroundServices.InfoListFollowsInput | src/main/background/BackgroundServicesFile.ts:38-39 | a list has one record per input element, in order, each decoded under `key[i]`; a non-array gives none |
| BackgroundServices.FileListsFollowInput | src/main/background/BackgroundServicesFile.ts:38-39 | `start` and `stop` are the lists decoded from those keys |
| BackgroundServices.MessagesArePrefixed | src/main/background/BackgroundServicesFile.ts:33 | every message starts with `Error while parsing Services: `, followed by the error's text |
| GameImages.ImageFolderCache.GetFilePath | src/renderer/image/GameImageCollection.ts:108-110 | the path stored under the key, and undefined exactly when there is none |
| GameImages.GetImage | src/renderer/image/GameImageCollection.ts:105-114 | no cache for the lowered platform name gives undefined; otherwise the id's path if it is non-empty, else the title's lookup |
| GameImages.GameImageCollection.constructor | src/renderer/image/GameImageCollection.ts:12-19 | both dictionaries start empty |
| GameImages.GameImageCollection.GetThumbnailCache | src/renderer/image/GameImageCollection.ts:25-27 | the cache registered under the name's lower-case form, if any |
| GameImages.GameImageCollection.GetScreenshotCache | src/renderer/image/GameImageCollection.ts:21-23 | the cache registered under the name's lower-case form, if any |
| GameImages.GameImageCollection.GetAllThumbnailCaches | src/renderer/image/GameImageCollection.ts:40-47 | a copy with exactly the dictionary's entries |
| GameImages.GameImageCollection.GetAllScreenshotCaches | src/renderer/image/GameImageCollection.ts:30-37 | a copy with exactly the dictionary's entries |
| GameImages.CopyCaches | src/renderer/image/GameImageCollection.ts:30-47 | the key-by-key loop copies every entry and no other |
| GameImages.GameImageCollection.AddImageFolder | src/renderer/image/GameImageCollection.ts:73-84 | fails exactly when the lowered name is registered, and then changes nothing; otherwise adds fresh empty caches under it to both dictionaries and keeps every other entry |
| GameImages.GameImageCollection.AddImageFolders | src/renderer/image/GameImageCollection.ts:63-67 | the keys afterwards and the error are those of registering the names in order; every entry already in either dictionary is kept, and every new name holds fresh, empty thumbnail and screenshot caches |
| GameImages.RegisteringStopsAtFirstDuplicate | src/renderer/image/GameImageCollection.ts:63-75 | registering adds the lowered names in order up to the first duplicate, which stops it with that name's error; with no duplicate all are added and there is no error |
| GameImages.GameImageCollection.GetThumbnailPath | src/renderer/image/GameImageCollection.ts:91-93 | the image lookup in the thumbnail dictionary |
| GameImages.GameImageCollection.GetScreenshotPath | src/renderer/image/GameImageCollection.ts:100-102 | the image lookup in the screenshot dictionary |
| GameImages.LookupIgnoresCase | src/renderer/image/GameImageCollection.ts:21-27 | names with the same lower-case form find the same caches |
| GameImages.RegisteredNameIsFound | src/renderer/image/GameImageCollection.ts:73-83 | after registering `n`, both caches are found for every `m` that lowercases like `n` |
| GameImages.ImageByIdFirst | src/renderer/image/GameImageCollection.ts:107-109 | a path under the game's id wins, whatever the title |
| GameImages.ImageFallsBackToTitle | src/renderer/image/GameImageCollection.ts:110-111 | otherwise the result is the title's lookup, which may be undefined |
| LeftBrowseSidebar.FilterPlaylists | src/renderer/components/LeftBrowseSidebar.tsx:36-46 | a playlist is kept exactly when the library rule shows it: a default library keeps those of no library and its own, a routed one only its own, otherwise all |
| LeftBrowseSidebar.FilterCounts | src/renderer/components/LeftBrowseSidebar.tsx:36-46 | a shown playlist is kept as often as it occurs in the input, a hidden one never |
| LeftBrowseSidebar.FilterDistributes | src/renderer/components/LeftBrowseSidebar.tsx:36-46 | filtering a concatenation concatenates the filtered parts, so the input order is kept |
| LeftBrowseSidebar.FilterOne | src/renderer/components/LeftBrowseSidebar.tsx:36-46 | a single playlist is kept exactly when it is shown |
| LeftBrowseSidebar.FilterAndSortPlaylists | src/renderer/components/LeftBrowseSidebar.tsx:36-49 | the same playlists as the filter gives, each as often, ordered by title whenever the title order is a total preorder |
| LeftBrowseSidebar.ShownPlaylists | src/renderer/components/LeftBrowseSidebar.tsx:36-49 | the list shown is a permutation of the filtered playlists, ordered by title, each shown playlist as often as in the input and no hidden one; with no library it is a permutation of all |
| LeftBrowseSidebar.SortByTitleSortsAndPermutes | src/renderer/components/LeftBrowseSidebar.tsx:47 | the title sort is a permutation and is ordered |
| LeftBrowseSidebar.FilterKeepsAll | src/renderer/components/LeftBrowseSidebar.tsx:38-39 | a filter that keeps everything returns the list unchanged |
| LeftBrowseSidebar.IndexOf | src/renderer/components/LeftBrowseSidebar.tsx:143 | the first position holding the value, or -1 exactly when it is absent |
| LeftBrowseSidebar.SpliceReplace | src/renderer/components/LeftBrowseSidebar.tsx:143 | `splice(start, 1, item)` keeps the length for a start inside the array and appends past the end |
| LeftBrowseSidebar.LeftBrowseSidebar.constructor | src/renderer/components/LeftBrowseSidebar.tsx:29-34 | editing starts off |
| LeftBrowseSidebar.LeftBrowseSidebar.HeadClick | src/renderer/components/LeftBrowseSidebar.tsx:115-122 | deselects the selected playlist and selects any other; editing ends either way |
| LeftBrowseSidebar.LeftBrowseSidebar.EditClick | src/renderer/components/LeftBrowseSidebar.tsx:124-128 | toggles editing only for the selected playlist |
| LeftBrowseSidebar.LeftBrowseSidebar.SaveClick | src/renderer/components/LeftBrowseSidebar.tsx:140-148 | a playlist in the list is replaced at its index, with the length and the other positions unchanged; an absent one overwrites the last (or fills an empty list); editing ends |
| BrowsePage.CheckIfArraysAreEqual | src/renderer/components/pages/BrowsePage.tsx:719-727 | true exactly for the same array, or two arrays with the same items in the same order |
| BrowsePage.SameItemsCases | src/renderer/components/pages/BrowsePage.tsx:719-727 | reflexive and symmetric; false when exactly one is missing or the lengths differ; otherwise element-wise equality |
| BrowsePage.CheckOrderGamesArgsEqual | src/renderer/components/pages/BrowsePage.tsx:706-716 | false for missing arguments; otherwise true exactly when search, extreme, broken, playlist and order are equal and both arrays are equal |
| BrowsePage.ArgsEqualReflexive | src/renderer/components/pages/BrowsePage.tsx:706-716 | arguments equal themselves and never missing arguments |
| BrowsePage.BrowsePage.constructor | src/renderer/components/pages/BrowsePage.tsx:84-97 | empty search, last update 0, the forced first ordering stored; after a "New Game" click, editing the new game with no add-apps; otherwise not editing, with a copy of the selected game and its add-apps, or with no game when none is selected |
| BrowsePage.BrowsePage.UpdateCurrentGameAndAddApps | src/renderer/components/pages/BrowsePage.tsx:447-459 | with a selected game, the current game is a copy of it with its add-apps, and not a new game; without one nothing changes |
| BrowsePage.BrowsePage.CreateNewGameIfClicked | src/renderer/components/pages/BrowsePage.tsx:676-690 | when the button has just been pushed, editing a new game with no add-apps; otherwise nothing changes |
| BrowsePage.BrowsePage.OrderGames | src/renderer/components/pages/BrowsePage.tsx:652-669 | re-orders and stores the arguments exactly when forced or the arguments differ, and otherwise changes nothing |
| BrowsePage.BrowsePage.UpdateTime | src/renderer/components/pages/BrowsePage.tsx:379-384 | a time-out is `now - prev > 1500`, and `prev` becomes `now` |
| BrowsePage.BrowsePage.KeyDown | src/renderer/components/pages/BrowsePage.tsx:364-385 | without CTRL or ALT, backspace or a single character updates the search from the old string (or `''` after a time-out) and the time; anything else changes nothing |
| BrowsePage.SubstrFromStart | src/renderer/components/pages/BrowsePage.tsx:370 | `substr(0, n)`: `''` for `n <= 0`, the prefix of length `n`, or the whole string |
| BrowsePage.Backspace | src/renderer/components/pages/BrowsePage.tsx:369-370 | drops the last character, and `''` stays `''` |
| BrowsePage.BackspaceUndoesTyping | src/renderer/components/pages/BrowsePage.tsx:367-375 | typing a character then backspace gives the string back |
| BrowsePage.QuickSearchKeyEffect | src/renderer/components/pages/BrowsePage.tsx:367-375 | a character is appended to the base; backspace shortens it by one; other keys are ignored |
| BrowsePage.FindQuickSearchMatch | src/renderer/components/pages/BrowsePage.tsx:138-146 | a game is chosen exactly when the search changed, is not empty, and some lowercased title starts with it; the chosen one is the first such |
| BrowsePage.FindEntry | src/renderer/components/pages/BrowsePage.tsx:406-416 | the first entry with the id, or -1 exactly when none has it |
| BrowsePage.RemoveSelectedGameFromPlaylist | src/renderer/components/pages/BrowsePage.tsx:401-418 | the three error messages in order; otherwise the first entry with the game's id is removed and nothing else changes |
| BrowsePage.BrowsePage.RemoveSelectedGameClick | src/renderer/components/pages/BrowsePage.tsx:401-422 | the removal's errors and result; on success the games are re-ordered by force and the selection is cleared; on failure nothing changes |
| BrowsePage.EditPlaylistNotes | src/renderer/components/pages/BrowsePage.tsx:424-441 | the same three failures; otherwise only the first matching entry gets the new notes |
| BrowsePage.EntryEditsKeepTheRest | src/renderer/components/pages/BrowsePage.tsx:418-441 | removal drops exactly that entry and keeps the others in order; the notes edit keeps the length, every id and every other entry |
| BrowsePage.BrowsePage.DiscardEditClick | src/renderer/components/pages/BrowsePage.tsx:465-473 | editing ends; a new game's buffers are dropped, an existing game's are kept |
| BrowsePage.ContainsId | src/renderer/components/pages/BrowsePage.tsx:539-545 | the inner backward loop finds the id exactly when some app has it |
| BrowsePage.PickByPresence | src/renderer/components/pages/BrowsePage.tsx:536-547 | the outer backward loop collects the apps whose id presence matches, last first |
| BrowsePage.CategorizeAddApps | src/renderer/components/pages/BrowsePage.tsx:525-573 | the three error messages in order; otherwise new, changed and removed add-apps |
| BrowsePage.PickReversedMembers | src/renderer/components/pages/BrowsePage.tsx:535-573 | an app is collected exactly when it is among the apps and its id's presence matches |
| BrowsePage.AddAppDiffKinds | src/renderer/components/pages/BrowsePage.tsx:535-573 | new: edited apps whose id is not selected; changed: edited apps whose id is; removed: selected apps whose id is no longer edited |
| BrowsePage.NewAndChangedPartition | src/renderer/components/pages/BrowsePage.tsx:535-560 | new and changed together are the edited apps, each as often |
| BrowsePage.FindLibraryIsFirst | src/renderer/components/pages/BrowsePage.tsx:603-604 | `find` returns the first library with the route, and none exactly when none has it |
| BrowsePage.GetCurrentLibrary | src/renderer/components/pages/BrowsePage.tsx:601-607 | nothing without library data; a found library is one of the list's |
| BrowsePage.CurrentLibraryFound | src/renderer/components/pages/BrowsePage.tsx:601-607 | with library data, a current library exists exactly when some library has the route |
| BrowsePage.UsedPlatforms | src/renderer/components/pages/BrowsePage.tsx:617-625 | a platform is used exactly when another library's prefix starts its file name |
| BrowsePage.GetCurrentLibraryGames | src/renderer/components/pages/BrowsePage.tsx:610-646 | the nested loops compute the games of the spec function, platform after platform |
| BrowsePage.GamesOfMembers | src/renderer/components/pages/BrowsePage.tsx:629-640 | a game is listed exactly when a kept platform's collection holds it |
| BrowsePage.CurrentLibraryGamesCases | src/renderer/components/pages/BrowsePage.tsx:610-646 | undefined with no current library; for the default library, the games of platforms no other prefix claims; for a prefixed one, those of its platforms; otherwise `[]` |

## Left out

- File and asynchronous I/O are not modelled. This covers:
  - reading and saving playlist files and the services file
    (`loadGamePlaylist`, `saveGamePlaylist`, `readFile`);
  - creating image folders and filling image caches (`loadFilenames`);
  - saving a playlist after an edit (`playlists.save`);
  - saving a platform file.
- The fresh id that `uuid()`, the clock, `removeFileExtension` and the
  game-ordering engine produce are parameters of the model, not computed.
- Values are a datatype that `JSON.parse` could produce. Objects have no
  inherited members. Two consequences:
  - `{}['constructor']` is truthy in the host, so `addImageFolder('constructor')`
    would report a duplicate there; the model does not capture this.
  - A name repeated in a JSON text keeps every occurrence here, and `prop`
    reads the first; the host keeps only the last value.
- Scalars have no own properties. In the host, `hasOwnProperty` on a string
  finds its index keys.
- `v + ''` is exact only for strings. Other values are printed by a
  function parameter.
- `parseInt` is modelled in base ten on exact integers.
  - Its hexadecimal `0x` form is not modelled. `isArrayIndex` is false for
    such strings either way.
  - The host's double rounding and number printing are not modelled either.
    In the host, `isArrayIndex` is false for many canonical numerals above
    2^53: for those whose shortest round-trip printing differs from the
    numeral (`'1152921504606846976'`, which is 2^60, prints as
    `'1152921504606847000'`), and for all of 1e21 and above, which print in
    exponent form. The model says true for all of them.
- `toLowerCase` lowers the ASCII letters only.
- `localeCompare` is an abstract total preorder. `Array.prototype.sort` is
  modelled as a stable insertion sort. LeftBrowseSidebar.SortByTitleSortsAndPermutes
  proves ordering and permutation only. It does not prove that the host sort
  gives this particular order among equal titles.
- The `onError` callback defaults to doing nothing when absent. The model
  always returns the messages.
- Object identity (`===` on playlists, games, libraries and platforms) is
  modelled by values, by a `ref` field, or by positions in a list.
  - BrowsePage.RemoveSelectedGameFromPlaylist and BrowsePage.EditPlaylistNotes
    return the updated playlist as a value. The source mutates the shared
    object in place, and that aliasing is not modelled.
- The `PartialDict` entries set to `undefined` cannot arise from
  `addImageFolder`, so the dictionaries are plain maps.
- `updateAddApps` is modelled only for the categorisation (BrowsePage.CategorizeAddApps).
  Its update phase calls the platform and game-parser code, which is not part
  of this model. So does the platform-selection cascade of `saveGameAndAddApps`.
- `orderGames` builds its arguments from props, configuration and
  preferences. The model takes the built arguments as given.
- BrowsePage.BrowsePage.constructor: the game collection's add-apps of
  the selected game, the identity of its copy (`GameInfo.duplicate`) and the
  new game (`GameInfo.create()`, `uuid()`, `formatDate`) are parameters. The
  other reactions of `componentDidUpdate` besides the quick-search match
  (re-running these two methods when props change, suggestions) are not
  modelled.
- BrowsePage.BrowsePage.RemoveSelectedGameClick: `deselect` stands for the
  call `onSelectGame(undefined)`. The source makes it only when that prop is
  given, and the parent's reaction is not modelled.
- BrowsePage.BrowsePage.KeyDown: `|key| == 1` counts code points, while
  `key.length === 1` counts UTF-16 code units. A key outside the Basic
  Multilingual Plane is one character here and two in the host, so the
  model appends it where the host ignores it.
- Rendering, drag and drop, playlist deletion (`onPlaylistItemDeleteClick`,
  which calls the playlist manager) and the `setState` sequencing are not
  modelled.
