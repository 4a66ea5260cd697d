/**
 * The registry of image folders. Each folder name has a thumbnail cache and
 * a screenshot cache, registered under the name's lower-case form so that
 * lookups ignore case. A game's image is found in the folder named after its
 * platform file, by the game's id first and by its title otherwise.
 */
module GameImages {
  import opened Wrappers
  import opened Js

  /**
   * An image folder's cache: the file path of each image, by the name it is
   * looked up by. How it is filled from the file system is not modelled; a
   * new cache starts empty.
   */
  class ImageFolderCache {
    var filePaths: map<string, string>

    constructor()
      ensures filePaths == map[]
    {
      filePaths := map[];
    }

    /** `getFilePath`: the path stored for `key`, if any. */
    function GetFilePath(key: string): (r: Option<string>)
      reads this
      ensures r.Some? <==> key in filePaths
      ensures r.Some? ==> r.value == filePaths[key]
    {
      if key in filePaths then Some(filePaths[key]) else None
    }
  }

  /** The fields of a game that image lookup uses. */
  datatype GameInfo = GameInfo(id: string, title: string, filename: string)

  /** A path that is not `undefined` and not empty: what `if (filepath)` accepts. */
  predicate IsPath(p: Option<string>) {
    p.Some? && p.value != ""
  }

  /**
   * `getImage`: look in the cache named after the game's platform file (its
   * name without extension, in lower case); try the id, then the title.
   * `removeFileExtension` is a parameter.
   */
  function GetImage(dict: map<string, ImageFolderCache>, game: GameInfo, removeExt: string -> string): (r: Option<string>)
    reads dict.Values
    ensures Lower(removeExt(game.filename)) !in dict ==> r.None?
    ensures Lower(removeExt(game.filename)) in dict ==>
      var cache := dict[Lower(removeExt(game.filename))];
      r == if IsPath(cache.GetFilePath(game.id)) then cache.GetFilePath(game.id) else cache.GetFilePath(game.title)
  {
    var key := Lower(removeExt(game.filename));
    if key in dict then
      var cache := dict[key];
      var byId := cache.GetFilePath(game.id);
      if IsPath(byId) then byId else cache.GetFilePath(game.title)
    else None
  }

  /** The lower-case forms of some folder names. */
  function LowerNames(names: seq<string>): set<string> {
    set i | 0 <= i < |names| :: Lower(names[i])
  }

  /**
   * How many of `names` registering adds before the first one whose
   * lower-case form is already registered (by then); `|names|` if none is.
   */
  function FirstDuplicate(registered: set<string>, names: seq<string>): (k: nat)
    ensures k <= |names|
    decreases |names|
  {
    if |names| == 0 then 0
    else if Lower(names[0]) in registered then 0
    else 1 + FirstDuplicate(registered + {Lower(names[0])}, names[1..])
  }

  /** The message `addImageFolder` throws for a name already registered. */
  function DuplicateMessage(folderName: string): string {
    "Image Folder with the same name has already been added (" + folderName + ")"
  }

  /**
   * What `addImageFolders(names)` does to the registered keys: the keys
   * afterwards, and the error of the first name found already registered.
   */
  function Registering(registered: set<string>, names: seq<string>): (set<string>, Option<string>)
    decreases |names|
  {
    if |names| == 0 then (registered, None)
    else if Lower(names[0]) in registered then (registered, Some(DuplicateMessage(names[0])))
    else Registering(registered + {Lower(names[0])}, names[1..])
  }

  lemma LowerNamesCons(names: seq<string>, k: nat)
    requires 0 < |names| && k < |names|
    ensures LowerNames(names[..k + 1]) == {Lower(names[0])} + LowerNames(names[1..][..k])
  {
    var a, b := names[..k + 1], names[1..][..k];
    forall x | x in LowerNames(a) ensures x in {Lower(names[0])} + LowerNames(b) {
      var j :| 0 <= j < |a| && x == Lower(a[j]);
      if j > 0 { assert a[j] == b[j - 1]; }
    }
    forall x | x in LowerNames(b) ensures x in LowerNames(a) {
      var j :| 0 <= j < |b| && x == Lower(b[j]);
      assert a[j + 1] == b[j];
    }
    assert Lower(a[0]) in LowerNames(a);
  }

  /**
   * Registering adds the names in order up to the first duplicate, which
   * stops it with that name's error; without a duplicate every name is
   * added and there is no error.
   */
  lemma {:induction false} RegisteringStopsAtFirstDuplicate(registered: set<string>, names: seq<string>)
    ensures var k := FirstDuplicate(registered, names);
      && Registering(registered, names).0 == registered + LowerNames(names[..k])
      && (Registering(registered, names).1.Some? <==> k < |names|)
      && (k < |names| ==> Registering(registered, names).1 == Some(DuplicateMessage(names[k])))
    decreases |names|
  {
    if |names| > 0 && Lower(names[0]) !in registered {
      var n := Lower(names[0]);
      RegisteringStopsAtFirstDuplicate(registered + {n}, names[1..]);
      var k := FirstDuplicate(registered + {n}, names[1..]);
      LowerNamesCons(names, k);
      if k < |names[1..]| {
        assert names[1..][k] == names[k + 1];
      }
    } else {
      assert names[..0] == [];
      assert LowerNames([]) == {};
    }
  }

  class GameImageCollection {
    const flashpointPath: string
    var thumbnails: map<string, ImageFolderCache>
    var screenshots: map<string, ImageFolderCache>

    /** Both dictionaries have the same keys, and every key is in lower case. */
    predicate Valid()
      reads this
    {
      thumbnails.Keys == screenshots.Keys
      && forall k :: k in thumbnails ==> Lower(k) == k
    }

    constructor(flashpointPath: string)
      ensures this.flashpointPath == flashpointPath
      ensures thumbnails == map[] && screenshots == map[]
      ensures Valid()
    {
      this.flashpointPath := flashpointPath;
      thumbnails := map[];
      screenshots := map[];
    }

    /** `getThumbnailCache`: the cache registered under the name's lower-case form. */
    function GetThumbnailCache(folderName: string): (r: Option<ImageFolderCache>)
      reads this
      ensures r.Some? <==> Lower(folderName) in thumbnails
      ensures r.Some? ==> r.value == thumbnails[Lower(folderName)]
    {
      if Lower(folderName) in thumbnails then Some(thumbnails[Lower(folderName)]) else None
    }

    /** `getScreenshotCache` */
    function GetScreenshotCache(folderName: string): (r: Option<ImageFolderCache>)
      reads this
      ensures r.Some? <==> Lower(folderName) in screenshots
      ensures r.Some? ==> r.value == screenshots[Lower(folderName)]
    {
      if Lower(folderName) in screenshots then Some(screenshots[Lower(folderName)]) else None
    }

    /** `getAllThumbnailCaches`: a copy of the dictionary, filled key by key. */
    method GetAllThumbnailCaches() returns (copy: map<string, ImageFolderCache>)
      ensures copy == thumbnails
    {
      copy := CopyCaches(thumbnails);
    }

    /** `getAllScreenshotCaches` */
    method GetAllScreenshotCaches() returns (copy: map<string, ImageFolderCache>)
      ensures copy == screenshots
    {
      copy := CopyCaches(screenshots);
    }

    /**
     * `k` holds a thumbnail and a screenshot cache made by the current call,
     * both still empty.
     */
    twostate predicate NewFolder(new k: string)
      reads this, thumbnails.Values, screenshots.Values
    {
      && k in thumbnails && k in screenshots
      && fresh(thumbnails[k]) && fresh(screenshots[k])
      && thumbnails[k].filePaths == map[] && screenshots[k].filePaths == map[]
    }

    /**
     * `addImageFolder`: register a thumbnail and a screenshot cache under the
     * name's lower-case form, or fail, changing nothing, when that form is
     * already registered.
     */
    method AddImageFolder(folderName: string) returns (error: Option<string>)
      requires Valid()
      modifies this
      ensures Valid()
      ensures error.Some? <==> Lower(folderName) in old(thumbnails)
      ensures error.Some? ==>
        error.value == DuplicateMessage(folderName) && thumbnails == old(thumbnails) && screenshots == old(screenshots)
      ensures error.None? ==>
        && Lower(folderName) in thumbnails && Lower(folderName) in screenshots
        && thumbnails == old(thumbnails)[Lower(folderName) := thumbnails[Lower(folderName)]]
        && screenshots == old(screenshots)[Lower(folderName) := screenshots[Lower(folderName)]]
        && fresh(thumbnails[Lower(folderName)]) && fresh(screenshots[Lower(folderName)])
        && thumbnails[Lower(folderName)].filePaths == map[]
        && screenshots[Lower(folderName)].filePaths == map[]
    {
      var lowerFolderName := Lower(folderName);
      if lowerFolderName in thumbnails {
        return Some(DuplicateMessage(folderName));
      }
      var thumbnailFolder := new ImageFolderCache();
      thumbnails := thumbnails[lowerFolderName := thumbnailFolder];
      var screenshotFolder := new ImageFolderCache();
      screenshots := screenshots[lowerFolderName := screenshotFolder];
      LowerIsIdempotent(folderName);
      return None;
    }

    /**
     * `addImageFolders`: register the names in order; the first duplicate
     * stops the loop with its error, and the names before it stay registered
     * (RegisteringStopsAtFirstDuplicate). Entries already there are kept, and
     * every new name holds fresh, empty caches.
     */
    method AddImageFolders(folderNames: seq<string>) returns (error: Option<string>)
      requires Valid()
      modifies this
      ensures Valid()
      ensures (thumbnails.Keys, error) == Registering(old(thumbnails.Keys), folderNames)
      ensures forall k :: k in old(thumbnails) ==> k in thumbnails && thumbnails[k] == old(thumbnails[k])
      ensures forall k :: k in old(screenshots) ==> k in screenshots && screenshots[k] == old(screenshots[k])
      ensures forall k :: k in thumbnails && k !in old(thumbnails) ==> NewFolder(k)
    {
      var i := 0;
      while i < |folderNames|
        invariant 0 <= i <= |folderNames|
        invariant Valid()
        invariant Registering(thumbnails.Keys, folderNames[i..]) == Registering(old(thumbnails.Keys), folderNames)
        invariant forall k :: k in old(thumbnails) ==> k in thumbnails && thumbnails[k] == old(thumbnails[k])
        invariant forall k :: k in old(screenshots) ==> k in screenshots && screenshots[k] == old(screenshots[k])
        invariant forall k :: k in thumbnails && k !in old(thumbnails) ==> NewFolder(k)
      {
        assert folderNames[i..][0] == folderNames[i];
        assert folderNames[i..][1..] == folderNames[i + 1..];
        ghost var before := thumbnails;
        error := AddImageFolder(folderNames[i]);
        if error.Some? {
          return;
        }
        assert thumbnails.Keys == before.Keys + {Lower(folderNames[i])};
        i := i + 1;
      }
      assert folderNames[i..] == [];
      error := None;
    }

    /** `getThumbnailPath` */
    function GetThumbnailPath(game: GameInfo, removeExt: string -> string): (r: Option<string>)
      reads this, thumbnails.Values
      ensures r == GetImage(thumbnails, game, removeExt)
    {
      GetImage(thumbnails, game, removeExt)
    }

    /** `getScreenshotPath` */
    function GetScreenshotPath(game: GameInfo, removeExt: string -> string): (r: Option<string>)
      reads this, screenshots.Values
      ensures r == GetImage(screenshots, game, removeExt)
    {
      GetImage(screenshots, game, removeExt)
    }
  }

  /** The `for...in` loop of `getAll*Caches`: copy every (defined) entry into a fresh map. */
  method CopyCaches(dict: map<string, ImageFolderCache>) returns (copy: map<string, ImageFolderCache>)
    ensures copy == dict
  {
    copy := map[];
    var keys := dict.Keys;
    while keys != {}
      invariant keys <= dict.Keys
      invariant copy.Keys == dict.Keys - keys
      invariant forall k :: k in copy ==> copy[k] == dict[k]
      decreases keys
    {
      var key :| key in keys;
      copy := copy[key := dict[key]];
      keys := keys - {key};
    }
  }

  // ---- What lookups promise ----

  /** Names that differ only in case find the same cache. */
  lemma LookupIgnoresCase(c: GameImageCollection, m: string, n: string)
    requires Lower(m) == Lower(n)
    ensures c.GetThumbnailCache(m) == c.GetThumbnailCache(n)
    ensures c.GetScreenshotCache(m) == c.GetScreenshotCache(n)
  {
  }

  /** A registered name can be found under any spelling with the same lower-case form. */
  lemma RegisteredNameIsFound(c: GameImageCollection, n: string, m: string)
    requires c.Valid() && Lower(n) in c.thumbnails && Lower(m) == Lower(n)
    ensures c.GetThumbnailCache(m).Some? && c.GetScreenshotCache(m).Some?
  {
  }

  /** A path stored under the game's id wins, whatever its title. */
  lemma ImageByIdFirst(dict: map<string, ImageFolderCache>, game: GameInfo, removeExt: string -> string)
    requires Lower(removeExt(game.filename)) in dict
    requires IsPath(dict[Lower(removeExt(game.filename))].GetFilePath(game.id))
    ensures GetImage(dict, game, removeExt) == Some(dict[Lower(removeExt(game.filename))].filePaths[game.id])
  {
  }

  /** Without a path under the id, the result is the title's lookup, which may be absent. */
  lemma ImageFallsBackToTitle(dict: map<string, ImageFolderCache>, game: GameInfo, removeExt: string -> string)
    requires Lower(removeExt(game.filename)) in dict
    requires !IsPath(dict[Lower(removeExt(game.filename))].GetFilePath(game.id))
    ensures var cache := dict[Lower(removeExt(game.filename))];
      GetImage(dict, game, removeExt) == (if game.title in cache.filePaths then Some(cache.filePaths[game.title]) else None)
  {
  }
}
