/** Which library playlists get a Sort button (`refresh_playlist_list`): the
    ones the user owns, except the "Liked Music" auto-playlist. */
module Library {
  import opened Wrappers
  import opened Text
  import opened Tracks

  /** An entry of the library listing. `ownPlaylist` is `None` when the
      listing omits the key. */
  datatype LibraryPlaylist = LibraryPlaylist(playlistId: PlaylistId, title: string, ownPlaylist: Option<bool>)

  const LikedMusic: string := "liked music"

  /** `ownPlaylist` is missing or true, and the lowercased title is not
      "liked music"; so the auto-playlist as the service titles it never
      gets a button. */
  predicate HasSortButton(p: LibraryPlaylist)
    ensures HasSortButton(p) ==> p.title != "Liked Music"
  {
    assert Lower("Liked Music") == LikedMusic;
    (p.ownPlaylist.None? || p.ownPlaylist.value) && Lower(p.title) != LikedMusic
  }

  /** The playlists that get a button, in listing order. */
  function SortButtons(pls: seq<LibraryPlaylist>): (r: seq<LibraryPlaylist>)
    ensures |r| <= |pls|
    ensures forall p | p in r :: p.ownPlaylist != Some(false)
  {
    if pls == [] then []
    else (if HasSortButton(pls[0]) then [pls[0]] else []) + SortButtons(pls[1..])
  }

  /** What a refresh shows: the new buttons, or, when the listing failed or
      came back empty, the old buttons left in place with a message. */
  datatype Refreshed = Listed(buttons: seq<LibraryPlaylist>) | NoPlaylists | LoadError

  function Refresh(listing: Option<seq<LibraryPlaylist>>): (r: Refreshed)
    ensures r.LoadError? <==> listing.None?
    ensures r.NoPlaylists? <==> listing == Some([])
    ensures r.Listed? ==> forall p :: p in r.buttons <==> p in listing.value && HasSortButton(p)
  {
    match listing
    case None => LoadError
    case Some(pls) =>
      if pls == [] then NoPlaylists
      else
        SortButtonsMembers(pls);
        Listed(SortButtons(pls))
  }

  /** A playlist gets a button exactly when it is listed, is not marked as
      foreign, and is not "Liked Music". */
  lemma {:induction false} SortButtonsMembers(pls: seq<LibraryPlaylist>)
    ensures forall p :: p in SortButtons(pls) <==> p in pls && HasSortButton(p)
  {
    if pls != [] {
      SortButtonsMembers(pls[1..]);
      assert pls == [pls[0]] + pls[1..];
    }
  }

  /** The buttons keep the listing's order: filtering a concatenation is
      concatenating the filtered parts. */
  lemma {:induction false} SortButtonsConcat(a: seq<LibraryPlaylist>, b: seq<LibraryPlaylist>)
    ensures SortButtons(a + b) == SortButtons(a) + SortButtons(b)
    decreases |a|
  {
    if a == [] {
      assert a + b == b;
    } else {
      var h := if HasSortButton(a[0]) then [a[0]] else [];
      assert (a + b)[0] == a[0] && (a + b)[1..] == a[1..] + b;
      calc {
        SortButtons(a + b);
        h + SortButtons(a[1..] + b);
        { SortButtonsConcat(a[1..], b); }
        h + (SortButtons(a[1..]) + SortButtons(b));
        (h + SortButtons(a[1..])) + SortButtons(b);
        SortButtons(a) + SortButtons(b);
      }
    }
  }

  /** The title comparison ignores case: "Liked Music" in any ASCII casing
      gets no button, even when owned. */
  lemma LikedMusicHasNoButton(id: PlaylistId, title: string, own: Option<bool>)
    requires Lower(title) == LikedMusic
    ensures !HasSortButton(LibraryPlaylist(id, title, own))
  {
  }

  lemma LikedMusicExample(id: PlaylistId)
    ensures !HasSortButton(LibraryPlaylist(id, "Liked Music", Some(true)))
    ensures HasSortButton(LibraryPlaylist(id, "Road trip", None))
    ensures !HasSortButton(LibraryPlaylist(id, "Road trip", Some(false)))
  {
    var liked := "Liked Music";
    assert forall i | 0 <= i < |liked| :: Lower(liked)[i] == LowerChar(liked[i]) == LikedMusic[i];
    assert Lower(liked) == LikedMusic;
    assert |Lower("Road trip")| != |LikedMusic|;
  }
}
