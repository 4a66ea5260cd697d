/**
 * The playlist list on the left of the browse page: which playlists are
 * shown for the current library and in what order, how a saved edit
 * replaces the original in the shared list, and how clicks select, deselect
 * and toggle editing.
 */
module LeftBrowseSidebar {
  import opened Wrappers
  import opened GamePlaylist
  import opened Libraries

  // ---- Which playlists are shown ----

  /**
   * The filter of `filterAndSortPlaylists`. A default library keeps the
   * playlists of no library (`!playlist.library`, so also the empty string)
   * and its own; another library with a route keeps only its own; a library
   * with an empty route, or no library at all, keeps everything.
   */
  predicate Shown(currentLibrary: Option<GameLibraryFileItem>, p: GamePlaylist) {
    match currentLibrary
    case None => true
    case Some(lib) =>
      if lib.isDefault then p.library.None? || p.library == Some("") || p.library == Some(lib.route)
      else if lib.route != "" then p.library == Some(lib.route)
      else true
  }

  /**
   * `playlists.filter(...)`: the shown playlists, each as often as in the
   * input (FilterCounts), in their original order (FilterDistributes).
   */
  function FilterPlaylists(playlists: seq<GamePlaylist>, currentLibrary: Option<GameLibraryFileItem>): (r: seq<GamePlaylist>)
    ensures forall p :: p in r <==> p in playlists && Shown(currentLibrary, p)
    ensures |r| <= |playlists|
  {
    if |playlists| == 0 then []
    else
      var init := FilterPlaylists(playlists[..|playlists| - 1], currentLibrary);
      var last := playlists[|playlists| - 1];
      assert playlists == playlists[..|playlists| - 1] + [last];
      if Shown(currentLibrary, last) then init + [last] else init
  }

  /**
   * `leq(a, b)` stands for `a.localeCompare(b) <= 0`: a total preorder on
   * titles, which is all the model assumes of the host's collation.
   */
  ghost predicate TotalPreorder(leq: (string, string) -> bool) {
    (forall a, b :: leq(a, b) || leq(b, a))
    && (forall a, b, c :: leq(a, b) && leq(b, c) ==> leq(a, c))
  }

  ghost predicate SortedByTitle(s: seq<GamePlaylist>, leq: (string, string) -> bool) {
    forall i, j :: 0 <= i < j < |s| ==> leq(s[i].title, s[j].title)
  }

  /** Insert `x` after every element whose title is not after its own. */
  function Insert(x: GamePlaylist, s: seq<GamePlaylist>, leq: (string, string) -> bool): seq<GamePlaylist>
    decreases |s|
  {
    if |s| == 0 then [x]
    else if !leq(s[0].title, x.title) then [x] + s
    else [s[0]] + Insert(x, s[1..], leq)
  }

  /** `sort((a, b) => a.title.localeCompare(b.title))`, as an insertion sort. */
  function SortByTitle(s: seq<GamePlaylist>, leq: (string, string) -> bool): seq<GamePlaylist>
    decreases |s|
  {
    if |s| == 0 then [] else Insert(s[|s| - 1], SortByTitle(s[..|s| - 1], leq), leq)
  }

  /**
   * `filterAndSortPlaylists`: the shown playlists, of a copy, sorted by
   * title: the same playlists as the filter gives, each as often, and in
   * order whenever `leq` is a total preorder.
   */
  function FilterAndSortPlaylists(playlists: seq<GamePlaylist>, currentLibrary: Option<GameLibraryFileItem>,
                                  leq: (string, string) -> bool): (r: seq<GamePlaylist>)
    ensures multiset(r) == multiset(FilterPlaylists(playlists, currentLibrary))
    ensures TotalPreorder(leq) ==> SortedByTitle(r, leq)
  {
    var filtered := FilterPlaylists(playlists, currentLibrary);
    SortByTitlePermutes(filtered, leq);
    assert TotalPreorder(leq) ==> SortedByTitle(SortByTitle(filtered, leq), leq) by {
      if TotalPreorder(leq) {
        SortByTitleSorts(filtered, leq);
      }
    }
    SortByTitle(filtered, leq)
  }

  lemma {:induction false} InsertKeepsElements(x: GamePlaylist, s: seq<GamePlaylist>, leq: (string, string) -> bool)
    ensures multiset(Insert(x, s, leq)) == multiset(s) + multiset{x}
    decreases |s|
  {
    if |s| > 0 && leq(s[0].title, x.title) {
      InsertKeepsElements(x, s[1..], leq);
      assert s == [s[0]] + s[1..];
    }
  }

  lemma {:induction false} InsertKeepsOrder(x: GamePlaylist, s: seq<GamePlaylist>, leq: (string, string) -> bool)
    requires TotalPreorder(leq)
    requires SortedByTitle(s, leq)
    ensures SortedByTitle(Insert(x, s, leq), leq)
    decreases |s|
  {
    if |s| > 0 {
      if !leq(s[0].title, x.title) {
        assert leq(x.title, s[0].title);
      } else {
        InsertKeepsOrder(x, s[1..], leq);
        InsertKeepsElements(x, s[1..], leq);
        var rest := s[1..];
        var r := Insert(x, rest, leq);
        assert forall k :: 0 <= k < |rest| ==> leq(s[0].title, rest[k].title) by {
          forall k | 0 <= k < |rest| ensures leq(s[0].title, rest[k].title) {
            assert rest[k] == s[k + 1];
          }
        }
        forall j | 0 <= j < |r| ensures leq(s[0].title, r[j].title) {
          var y := r[j];
          assert y in multiset(r);
          assert y in multiset(rest) || y == x;
          if y != x {
            assert y in rest;
          }
        }
      }
    }
  }

  /** The sort returns the same playlists, each as often. */
  lemma {:induction false} SortByTitlePermutes(s: seq<GamePlaylist>, leq: (string, string) -> bool)
    ensures multiset(SortByTitle(s, leq)) == multiset(s)
    decreases |s|
  {
    if |s| > 0 {
      var init := s[..|s| - 1];
      var last := s[|s| - 1];
      SortByTitlePermutes(init, leq);
      InsertKeepsElements(last, SortByTitle(init, leq), leq);
      assert s == init + [last];
      assert multiset(s) == multiset(init) + multiset{last};
    }
  }

  /** The sort orders the playlists by title. */
  lemma {:induction false} SortByTitleSorts(s: seq<GamePlaylist>, leq: (string, string) -> bool)
    requires TotalPreorder(leq)
    ensures SortedByTitle(SortByTitle(s, leq), leq)
    decreases |s|
  {
    if |s| > 0 {
      var init := s[..|s| - 1];
      SortByTitleSorts(init, leq);
      InsertKeepsOrder(s[|s| - 1], SortByTitle(init, leq), leq);
    }
  }

  /** The sort returns the same playlists, each as often, ordered by title. */
  lemma SortByTitleSortsAndPermutes(s: seq<GamePlaylist>, leq: (string, string) -> bool)
    requires TotalPreorder(leq)
    ensures multiset(SortByTitle(s, leq)) == multiset(s)
    ensures SortedByTitle(SortByTitle(s, leq), leq)
  {
    SortByTitlePermutes(s, leq);
    SortByTitleSorts(s, leq);
  }

  /**
   * The list shown is a permutation of the shown subset of the playlists,
   * ordered by title: each shown playlist as often as in the input, no
   * hidden one; with no library it is a permutation of all of them.
   */
  lemma ShownPlaylists(playlists: seq<GamePlaylist>, currentLibrary: Option<GameLibraryFileItem>, leq: (string, string) -> bool)
    requires TotalPreorder(leq)
    ensures var r := FilterAndSortPlaylists(playlists, currentLibrary, leq);
      && multiset(r) == multiset(FilterPlaylists(playlists, currentLibrary))
      && SortedByTitle(r, leq)
      && (forall p :: multiset(r)[p] == if Shown(currentLibrary, p) then multiset(playlists)[p] else 0)
      && (forall p :: p in r <==> p in playlists && Shown(currentLibrary, p))
      && (currentLibrary.None? ==> multiset(r) == multiset(playlists))
  {
    var f := FilterPlaylists(playlists, currentLibrary);
    var r := FilterAndSortPlaylists(playlists, currentLibrary, leq);
    FilterCounts(playlists, currentLibrary);
    forall p ensures p in r <==> p in f {
      assert p in r <==> p in multiset(r);
      assert p in f <==> p in multiset(f);
    }
    if currentLibrary.None? {
      FilterKeepsAll(playlists, currentLibrary);
    }
  }

  /** A filter that keeps everything returns its input. */
  lemma {:induction false} FilterKeepsAll(playlists: seq<GamePlaylist>, currentLibrary: Option<GameLibraryFileItem>)
    requires forall p :: p in playlists ==> Shown(currentLibrary, p)
    ensures FilterPlaylists(playlists, currentLibrary) == playlists
    decreases |playlists|
  {
    if |playlists| > 0 {
      var init := playlists[..|playlists| - 1];
      var last := playlists[|playlists| - 1];
      forall p | p in init ensures Shown(currentLibrary, p) {
        var k :| 0 <= k < |init| && init[k] == p;
        assert playlists[k] == p;
      }
      FilterKeepsAll(init, currentLibrary);
      assert Shown(currentLibrary, last);
      assert playlists == init + [last];
    }
  }

  /** A shown playlist is kept as often as it occurs, a hidden one never. */
  lemma {:induction false} FilterCounts(playlists: seq<GamePlaylist>, currentLibrary: Option<GameLibraryFileItem>)
    ensures var r := FilterPlaylists(playlists, currentLibrary);
      forall p :: multiset(r)[p] == if Shown(currentLibrary, p) then multiset(playlists)[p] else 0
    decreases |playlists|
  {
    if |playlists| > 0 {
      var init := playlists[..|playlists| - 1];
      var last := playlists[|playlists| - 1];
      FilterCounts(init, currentLibrary);
      assert playlists == init + [last];
      assert multiset(playlists) == multiset(init) + multiset{last};
    }
  }

  /**
   * The filter keeps the order of the input: filtering a concatenation
   * concatenates the filtered parts.
   */
  lemma {:induction false} FilterDistributes(a: seq<GamePlaylist>, b: seq<GamePlaylist>, currentLibrary: Option<GameLibraryFileItem>)
    ensures FilterPlaylists(a + b, currentLibrary) == FilterPlaylists(a, currentLibrary) + FilterPlaylists(b, currentLibrary)
    decreases |b|
  {
    if |b| > 0 {
      var init := b[..|b| - 1];
      var last := b[|b| - 1];
      SplitLast(a, b);
      FilterDistributes(a, init, currentLibrary);
      FilterSnoc(a + init, last, currentLibrary);
      FilterSnoc(init, last, currentLibrary);
      var keep := if Shown(currentLibrary, last) then [last] else [];
      ConcatAssoc(FilterPlaylists(a, currentLibrary), FilterPlaylists(init, currentLibrary), keep);
    } else {
      assert a + b == a;
    }
  }

  lemma SplitLast<T>(a: seq<T>, b: seq<T>)
    requires |b| > 0
    ensures b == b[..|b| - 1] + [b[|b| - 1]]
    ensures a + b == (a + b[..|b| - 1]) + [b[|b| - 1]]
  {
  }

  lemma ConcatAssoc<T>(x: seq<T>, y: seq<T>, z: seq<T>)
    ensures x + (y + z) == (x + y) + z
  {
  }

  /** Filtering one more playlist keeps the filtered prefix. */
  lemma FilterSnoc(s: seq<GamePlaylist>, x: GamePlaylist, currentLibrary: Option<GameLibraryFileItem>)
    ensures FilterPlaylists(s + [x], currentLibrary)
      == FilterPlaylists(s, currentLibrary) + (if Shown(currentLibrary, x) then [x] else [])
  {
    assert (s + [x])[..|s|] == s;
  }

  /** A single playlist is kept exactly when it is shown. */
  lemma FilterOne(p: GamePlaylist, currentLibrary: Option<GameLibraryFileItem>)
    ensures FilterPlaylists([p], currentLibrary) == if Shown(currentLibrary, p) then [p] else []
  {
    assert [p][..0] == [];
  }

  // ---- Replacing an edited playlist ----

  /** `indexOf`: the first position holding `x`, or -1. */
  function IndexOf<T(==)>(s: seq<T>, x: T): (i: int)
    ensures -1 <= i < |s|
    ensures i >= 0 ==> s[i] == x && x !in s[..i]
    ensures i == -1 <==> x !in s
    decreases |s|
  {
    if |s| == 0 then -1
    else if s[0] == x then 0
    else
      var k := IndexOf(s[1..], x);
      assert s[1..][..if k >= 0 then k else 0] == s[1..if k >= 0 then k + 1 else 1];
      if k >= 0 then k + 1 else -1
  }

  /**
   * `splice(start, 1, item)`: a negative start counts from the end (and is
   * clamped at 0), a start past the end is clamped to the length; one element
   * there, if any, is replaced by `item`.
   */
  function SpliceReplace<T>(s: seq<T>, start: int, item: T): (r: seq<T>)
    ensures 0 < |s| && start < |s| ==> |r| == |s|
    ensures |s| == 0 ==> r == [item]
    ensures start >= |s| ==> r == s + [item]
  {
    var at: nat := if start < 0 then (if |s| + start < 0 then 0 else |s| + start)
                   else (if start > |s| then |s| else start);
    if at == |s| then s + [item] else s[..at] + [item] + s[at + 1..]
  }

  /** Within bounds the splice is an update of that one position. */
  lemma SpliceReplaceInBounds<T>(s: seq<T>, i: int, item: T)
    requires 0 <= i < |s|
    ensures SpliceReplace(s, i, item) == s[i := item]
  {
  }

  /** The shared playlist list, which the page and the sidebar both hold. */
  class PlaylistStore {
    var playlists: seq<GamePlaylist>

    constructor(playlists: seq<GamePlaylist>)
      ensures this.playlists == playlists
    {
      this.playlists := playlists;
    }
  }

  /** What a click on a playlist's head asks the page to do. */
  datatype Selection = SelectPlaylist(playlist: GamePlaylist) | DeselectPlaylist

  class LeftBrowseSidebar {
    var isEditing: bool
    const store: PlaylistStore

    constructor(store: PlaylistStore)
      ensures this.store == store && !isEditing
    {
      this.store := store;
      isEditing := false;
    }

    /**
     * `onPlaylistItemHeadClick`: deselect the playlist when it is the
     * selected one, select it otherwise; editing ends either way.
     */
    method HeadClick(playlist: GamePlaylist, selectedPlaylistId: string) returns (action: Selection)
      modifies this
      ensures action == if selectedPlaylistId == playlist.id then DeselectPlaylist else SelectPlaylist(playlist)
      ensures !isEditing
    {
      if selectedPlaylistId == playlist.id {
        action := DeselectPlaylist;
      } else {
        action := SelectPlaylist(playlist);
      }
      isEditing := false;
    }

    /** `onPlaylistItemEditClick`: toggle editing, but only for the selected playlist. */
    method EditClick(playlist: GamePlaylist, selectedPlaylistId: string)
      modifies this
      ensures isEditing == if selectedPlaylistId == playlist.id then !old(isEditing) else old(isEditing)
    {
      if selectedPlaylistId == playlist.id {
        isEditing := !isEditing;
      }
    }

    /**
     * `onPlaylistItemSaveClick`: `splice(indexOf(playlist), 1, edit)` on the
     * shared list, then editing ends. Saving the file is not modelled.
     */
    method SaveClick(playlist: GamePlaylist, edit: GamePlaylist)
      modifies this, store
      ensures store.playlists == SpliceReplace(old(store.playlists), IndexOf(old(store.playlists), playlist), edit)
      ensures playlist in old(store.playlists) ==>
        var i := IndexOf(old(store.playlists), playlist);
        && |store.playlists| == |old(store.playlists)|
        && store.playlists[i] == edit
        && forall j :: 0 <= j < |store.playlists| && j != i ==> store.playlists[j] == old(store.playlists)[j]
      ensures playlist !in old(store.playlists) ==>
        store.playlists == if |old(store.playlists)| == 0 then [edit]
                           else old(store.playlists)[|old(store.playlists)| - 1 := edit]
      ensures !isEditing
    {
      var arr := store.playlists;
      var i := IndexOf(arr, playlist);
      store.playlists := SpliceReplace(arr, i, edit);
      if i >= 0 {
        SpliceReplaceInBounds(arr, i, edit);
      } else if |arr| > 0 {
        SpliceReplaceInBounds(arr, |arr| - 1, edit);
      }
      isEditing := false;
    }
  }
}
