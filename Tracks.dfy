/** The pure part of `sort_playlist`: the tracks fetched from the service, the
    sort key, Python's stable `sorted`, and the three id lists built from the
    tracks (the backup and restore list, the sorted add list, the removal list). */
module Tracks {
  import opened Wrappers
  import opened Text

  type VideoId = string

  /** Playlist ids are opaque to the sorter; naturals let a service hand out
      fresh ones. */
  type PlaylistId = nat

  datatype Artist = Artist(name: string)

  /** One entry of a fetched playlist. A missing key or a `None` value is
      `None`; `artists` is `[]` when the key is missing. */
  datatype Track = Track(videoId: Option<VideoId>, setVideoId: Option<string>, artists: seq<Artist>)

  /** What `get_playlist` returns: the title and the tracks (`[]` when the
      "tracks" key is missing). */
  datatype Playlist = Playlist(title: string, tracks: seq<Track>)

  /** One element of the removal call: a content id and the position id of
      that occurrence in the fetched snapshot. */
  datatype ItemRef = ItemRef(videoId: VideoId, setVideoId: string)

  /** Python truthiness of an optional string: present and not empty. */
  predicate Truthy(o: Option<string>)
  {
    o.Some? && o.value != ""
  }

  predicate HasVideoId(t: Track)
  {
    Truthy(t.videoId)
  }

  /** The track can be addressed by the removal call (both ids truthy). */
  predicate Removable(t: Track)
  {
    Truthy(t.videoId) && Truthy(t.setVideoId)
  }

  /** The lowercased name of the first artist, or "" when there is none
      (YoutubeMusicSorter.py:140). The key is lowercase already, so the sort
      ignores case. */
  function SortKey(t: Track): (k: string)
    ensures Lower(k) == k
  {
    if t.artists != [] then LowerIdempotent(t.artists[0].name); Lower(t.artists[0].name) else ""
  }

  /** Non-decreasing by sort key. */
  ghost predicate SortedByKey(s: seq<Track>)
  {
    forall i, j | 0 <= i < j < |s| :: LessEq(SortKey(s[i]), SortKey(s[j]))
  }

  /** The tracks of `s` whose key is `k`, in their order in `s`. */
  function WithKey(s: seq<Track>, k: string): (r: seq<Track>)
    ensures forall t | t in r :: t in s && SortKey(t) == k
  {
    if s == [] then []
    else (if SortKey(s[0]) == k then [s[0]] else []) + WithKey(s[1..], k)
  }

  /** Puts `x` in front of the first track whose key is not below its own. */
  function Insert(x: Track, r: seq<Track>): (q: seq<Track>)
    ensures |q| == |r| + 1
  {
    if r == [] || LessEq(SortKey(x), SortKey(r[0])) then [x] + r
    else [r[0]] + Insert(x, r[1..])
  }

  /** `sorted(tracks, key=SortKey)`: a stable insertion sort. */
  function SortByArtist(s: seq<Track>): (r: seq<Track>)
    ensures |r| == |s|
  {
    if s == [] then [] else Insert(s[0], SortByArtist(s[1..]))
  }

  /** The content ids of the tracks whose videoId is present and not empty,
      in track order. */
  function VideoIds(s: seq<Track>): seq<VideoId>
  {
    if s == [] then []
    else (if HasVideoId(s[0]) then [s[0].videoId.value] else []) + VideoIds(s[1..])
  }

  /** The removal list: one `ItemRef` per track with both ids truthy. */
  function RemovalItems(s: seq<Track>): (r: seq<ItemRef>)
    ensures |r| <= |s|
    ensures forall it | it in r :: it.videoId != "" && it.setVideoId != ""
  {
    if s == [] then []
    else (if Removable(s[0]) then [ItemRef(s[0].videoId.value, s[0].setVideoId.value)] else [])
         + RemovalItems(s[1..])
  }

  // ---------------------------------------------------------------------
  // The sort: permutation, order, stability

  /** A track below every key of a sorted list can go in front of it. */
  lemma ConsSorted(h: Track, t: seq<Track>)
    requires SortedByKey(t)
    requires forall j | 0 <= j < |t| :: LessEq(SortKey(h), SortKey(t[j]))
    ensures SortedByKey([h] + t)
  {
    var r := [h] + t;
    forall j | 0 < j < |r| ensures LessEq(SortKey(r[0]), SortKey(r[j])) {
      assert r[j] == t[j - 1];
    }
    forall i, j | 0 < i < j < |r| ensures LessEq(SortKey(r[i]), SortKey(r[j])) {
      assert r[i] == t[i - 1];
      assert r[j] == t[j - 1];
    }
  }

  lemma {:induction false} InsertPermutes(x: Track, r: seq<Track>)
    ensures multiset(Insert(x, r)) == multiset([x] + r)
    decreases |r|
  {
    if r != [] && !LessEq(SortKey(x), SortKey(r[0])) {
      InsertPermutes(x, r[1..]);
      assert r == [r[0]] + r[1..];
    }
  }

  lemma {:induction false} InsertSorted(x: Track, r: seq<Track>)
    requires SortedByKey(r)
    ensures SortedByKey(Insert(x, r))
    decreases |r|
  {
    if r == [] || LessEq(SortKey(x), SortKey(r[0])) {
      forall j | 0 <= j < |r| ensures LessEq(SortKey(x), SortKey(r[j])) {
        if j > 0 {
          LessEqTransitive(SortKey(x), SortKey(r[0]), SortKey(r[j]));
        }
      }
      ConsSorted(x, r);
    } else {
      var t := Insert(x, r[1..]);
      assert SortedByKey(r[1..]);
      InsertSorted(x, r[1..]);
      InsertPermutes(x, r[1..]);
      LessEqTotal(SortKey(x), SortKey(r[0]));
      forall j | 0 <= j < |t| ensures LessEq(SortKey(r[0]), SortKey(t[j])) {
        assert t[j] in multiset([x] + r[1..]);
        if t[j] != x {
          assert t[j] in r[1..];
        }
      }
      ConsSorted(r[0], t);
    }
  }

  /** The result is a permutation of the input, ordered by sort key. */
  lemma {:induction false} SortIsSortedPermutation(s: seq<Track>)
    ensures SortedByKey(SortByArtist(s))
    ensures multiset(SortByArtist(s)) == multiset(s)
  {
    if s != [] {
      SortIsSortedPermutation(s[1..]);
      InsertSorted(s[0], SortByArtist(s[1..]));
      InsertPermutes(s[0], SortByArtist(s[1..]));
      assert s == [s[0]] + s[1..];
    }
  }

  lemma {:induction false} WithKeyConcat(a: seq<Track>, b: seq<Track>, k: string)
    ensures WithKey(a + b, k) == WithKey(a, k) + WithKey(b, k)
    decreases |a|
  {
    if a == [] {
      assert a + b == b;
    } else {
      var h := if SortKey(a[0]) == k then [a[0]] else [];
      assert (a + b)[0] == a[0] && (a + b)[1..] == a[1..] + b;
      calc {
        WithKey(a + b, k);
        h + WithKey(a[1..] + b, k);
        { WithKeyConcat(a[1..], b, k); }
        h + (WithKey(a[1..], k) + WithKey(b, k));
        (h + WithKey(a[1..], k)) + WithKey(b, k);
        WithKey(a, k) + WithKey(b, k);
      }
    }
  }

  lemma WithKeySingleton(y: Track, k: string)
    ensures WithKey([y], k) == if SortKey(y) == k then [y] else []
  {
    assert [y][1..] == [];
  }

  /** An empty sequence can trade places with its neighbour. */
  lemma SwapPastEmpty(a: seq<Track>, b: seq<Track>, c: seq<Track>)
    requires a == [] || b == []
    ensures a + (b + c) == b + (a + c)
  {
    if a == [] {
      assert a + (b + c) == b + c == b + (a + c);
    } else {
      assert a + (b + c) == a + c == b + (a + c);
    }
  }

  /** Insert only moves `x` past tracks whose key is strictly below its own. */
  lemma {:induction false} InsertKeepsKeyOrder(x: Track, r: seq<Track>, k: string)
    ensures WithKey(Insert(x, r), k) == WithKey([x] + r, k)
    decreases |r|
  {
    if r != [] && !LessEq(SortKey(x), SortKey(r[0])) {
      var r' := r[1..];
      assert SortKey(x) != SortKey(r[0]) by { LessEqReflexive(SortKey(x)); }
      var wx, w0, rest := WithKey([x], k), WithKey([r[0]], k), WithKey(r', k);
      WithKeySingleton(x, k);
      WithKeySingleton(r[0], k);
      assert r == [r[0]] + r';
      assert Insert(x, r) == [r[0]] + Insert(x, r');
      calc {
        WithKey(Insert(x, r), k);
        { WithKeyConcat([r[0]], Insert(x, r'), k); }
        w0 + WithKey(Insert(x, r'), k);
        { InsertKeepsKeyOrder(x, r', k); }
        w0 + WithKey([x] + r', k);
        { WithKeyConcat([x], r', k); }
        w0 + (wx + rest);
        { SwapPastEmpty(w0, wx, rest); }
        wx + (w0 + rest);
        { WithKeyConcat([r[0]], r', k); }
        wx + WithKey(r, k);
        { WithKeyConcat([x], r, k); }
        WithKey([x] + r, k);
      }
    }
  }

  /** Stability: the tracks sharing any one key keep their relative order. */
  lemma {:induction false} SortIsStable(s: seq<Track>, k: string)
    ensures WithKey(SortByArtist(s), k) == WithKey(s, k)
  {
    if s != [] {
      SortIsStable(s[1..], k);
      InsertKeepsKeyOrder(s[0], SortByArtist(s[1..]), k);
      WithKeyConcat([s[0]], SortByArtist(s[1..]), k);
      WithKeyConcat([s[0]], s[1..], k);
      assert s == [s[0]] + s[1..];
    }
  }

  /** Tracks without an artist (key "") come before every track whose key is
      not "", and among themselves keep their original order. */
  lemma NoArtistSortsFirst(s: seq<Track>)
    ensures forall i, j | 0 <= i < j < |SortByArtist(s)| ::
              SortKey(SortByArtist(s)[j]) == "" ==> SortKey(SortByArtist(s)[i]) == ""
    ensures WithKey(SortByArtist(s), "") == WithKey(s, "")
  {
    SortIsSortedPermutation(s);
    SortIsStable(s, "");
    var r := SortByArtist(s);
    forall i, j | 0 <= i < j < |r| && SortKey(r[j]) == "" ensures SortKey(r[i]) == "" {
      EmptyIsLeast(SortKey(r[i]));
    }
  }

  // ---------------------------------------------------------------------
  // The id lists

  lemma {:induction false} VideoIdsConcat(a: seq<Track>, b: seq<Track>)
    ensures VideoIds(a + b) == VideoIds(a) + VideoIds(b)
    decreases |a|
  {
    if a == [] {
      assert a + b == b;
    } else {
      VideoIdsConcat(a[1..], b);
      assert (a + b)[0] == a[0] && (a + b)[1..] == a[1..] + b;
    }
  }

  /** An id is in the add list exactly when some track carries it as a truthy
      videoId. */
  lemma {:induction false} VideoIdsMembers(s: seq<Track>, id: VideoId)
    ensures id in VideoIds(s) <==> exists t :: t in s && HasVideoId(t) && t.videoId.value == id
  {
    if s != [] {
      VideoIdsMembers(s[1..], id);
      assert s == [s[0]] + s[1..];
    }
  }

  lemma {:induction false} InsertKeepsVideoIds(x: Track, r: seq<Track>)
    ensures multiset(VideoIds(Insert(x, r))) == multiset(VideoIds([x] + r))
    decreases |r|
  {
    if r != [] && !LessEq(SortKey(x), SortKey(r[0])) {
      var h, t := [r[0]], r[1..];
      assert r == h + t;
      assert Insert(x, r) == h + Insert(x, t);
      InsertKeepsVideoIds(x, t);
      VideoIdsConcat(h, Insert(x, t));
      VideoIdsConcat([x], t);
      VideoIdsConcat([x], r);
      VideoIdsConcat(h, t);
      assert multiset(VideoIds(Insert(x, r))) == multiset(VideoIds(h)) + multiset(VideoIds([x])) + multiset(VideoIds(t));
    }
  }

  /** `sorted_video_ids` holds the same ids as `video_ids`, each as often. */
  lemma {:induction false} SortedIdsArePermutation(s: seq<Track>)
    ensures multiset(VideoIds(SortByArtist(s))) == multiset(VideoIds(s))
  {
    if s != [] {
      SortedIdsArePermutation(s[1..]);
      InsertKeepsVideoIds(s[0], SortByArtist(s[1..]));
      VideoIdsConcat([s[0]], SortByArtist(s[1..]));
      VideoIdsConcat([s[0]], s[1..]);
      assert s == [s[0]] + s[1..];
    }
  }

  lemma {:induction false} RemovalItemsConcat(a: seq<Track>, b: seq<Track>)
    ensures RemovalItems(a + b) == RemovalItems(a) + RemovalItems(b)
    decreases |a|
  {
    if a == [] {
      assert a + b == b;
    } else {
      var h := if Removable(a[0]) then [ItemRef(a[0].videoId.value, a[0].setVideoId.value)] else [];
      assert (a + b)[0] == a[0] && (a + b)[1..] == a[1..] + b;
      calc {
        RemovalItems(a + b);
        h + RemovalItems(a[1..] + b);
        { RemovalItemsConcat(a[1..], b); }
        h + (RemovalItems(a[1..]) + RemovalItems(b));
        (h + RemovalItems(a[1..])) + RemovalItems(b);
        RemovalItems(a) + RemovalItems(b);
      }
    }
  }

  /** An item is in the removal list exactly when some track has both ids
      truthy and they are that item's ids. */
  lemma {:induction false} RemovalItemsMembers(s: seq<Track>, v: VideoId, sv: string)
    ensures ItemRef(v, sv) in RemovalItems(s) <==>
            exists t :: t in s && Removable(t) && t.videoId.value == v && t.setVideoId.value == sv
  {
    if s != [] {
      RemovalItemsMembers(s[1..], v, sv);
      assert s == [s[0]] + s[1..];
    }
  }

  /** The tracks with a truthy videoId but no truthy setVideoId. */
  function Unaddressable(s: seq<Track>): (r: seq<Track>)
    ensures forall t | t in r :: t in s && HasVideoId(t) && !Removable(t)
  {
    if s == [] then []
    else (if HasVideoId(s[0]) && !Removable(s[0]) then [s[0]] else []) + Unaddressable(s[1..])
  }

  /** Every id of the add list is either covered by the removal list or belongs
      to a track the removal skips: the removal list is as long as the add
      list exactly when no track has a videoId without a setVideoId. */
  lemma {:induction false} RemovalVersusAddList(s: seq<Track>)
    ensures |VideoIds(s)| == |RemovalItems(s)| + |Unaddressable(s)|
    ensures |RemovalItems(s)| == |VideoIds(s)| <==>
            forall t | t in s :: HasVideoId(t) ==> Removable(t)
  {
    if s != [] {
      RemovalVersusAddList(s[1..]);
      assert s == [s[0]] + s[1..];
      if HasVideoId(s[0]) && !Removable(s[0]) {
        assert s[0] in s;
      }
    }
  }

  /** A track with a videoId but no setVideoId is skipped by the removal yet
      re-added by both add lists; on a service that appends on every add, a
      reorder would leave it in the playlist twice. */
  lemma UnaddressableStillAdded(s: seq<Track>, t: Track)
    requires t in s && HasVideoId(t) && !Removable(t)
    ensures t.videoId.value in VideoIds(s)
    ensures t.videoId.value in VideoIds(SortByArtist(s))
    ensures forall sv :: ItemRef(t.videoId.value, sv) in RemovalItems(s) ==>
              exists u :: u in s && u != t && Removable(u) && u.videoId.value == t.videoId.value
  {
    var id := t.videoId.value;
    VideoIdsMembers(s, id);
    SortedIdsArePermutation(s);
    assert id in multiset(VideoIds(s));
    forall sv | ItemRef(id, sv) in RemovalItems(s)
      ensures exists u :: u in s && u != t && Removable(u) && u.videoId.value == id
    {
      RemovalItemsMembers(s, id, sv);
      var u :| u in s && Removable(u) && u.videoId.value == id && u.setVideoId.value == sv;
      assert u != t;
    }
  }

  /** Three tracks by Zeta, alpha and Mike, in that order. */
  function ThreeArtists(): seq<Track>
  {
    [Track(Some("id1"), Some("p1"), [Artist("Zeta")]),
     Track(Some("id2"), Some("p2"), [Artist("alpha")]),
     Track(Some("id3"), Some("p3"), [Artist("Mike")])]
  }

  /** They sort as alpha, Mike, Zeta: case is ignored. */
  lemma ThreeArtistsSorted()
    ensures SortByArtist(ThreeArtists()) == [ThreeArtists()[1], ThreeArtists()[2], ThreeArtists()[0]]
  {
    var s := ThreeArtists();
    var zeta, alpha, mike := s[0], s[1], s[2];
    assert SortKey(zeta) == "zeta" && SortKey(alpha) == "alpha" && SortKey(mike) == "mike" by {
      assert Lower("Zeta") == "zeta";
      assert Lower("Mike") == "mike";
      assert Lower("alpha") == "alpha";
    }
    assert LessEq("alpha", "mike") && !LessEq("zeta", "alpha") && !LessEq("zeta", "mike");
    assert s[1..] == [alpha, mike] && [alpha, mike][1..] == [mike] && [mike][1..] == [];
    assert SortByArtist([mike]) == [mike];
    assert SortByArtist([alpha, mike]) == Insert(alpha, [mike]) == [alpha, mike];
    assert Insert(zeta, [mike]) == [mike] + Insert(zeta, []) == [mike, zeta];
    assert Insert(zeta, [alpha, mike]) == [alpha] + Insert(zeta, [mike]) == [alpha, mike, zeta];
  }

  /** The removal call names all three pairs and the add pushes the ids in
      sorted order. */
  lemma ThreeArtistsCalls()
    ensures RemovalItems(ThreeArtists()) == [ItemRef("id1", "p1"), ItemRef("id2", "p2"), ItemRef("id3", "p3")]
    ensures VideoIds(SortByArtist(ThreeArtists())) == ["id2", "id3", "id1"]
  {
    var s := ThreeArtists();
    var zeta, alpha, mike := s[0], s[1], s[2];
    ThreeArtistsSorted();
    assert s[1..] == [alpha, mike] && [alpha, mike][1..] == [mike] && [mike][1..] == [];
    assert RemovalItems([mike]) == [ItemRef("id3", "p3")];
    assert RemovalItems([alpha, mike]) == [ItemRef("id2", "p2")] + RemovalItems([mike]);
    assert RemovalItems(s) == [ItemRef("id1", "p1")] + RemovalItems([alpha, mike]);
    assert [alpha, mike, zeta][1..] == [mike, zeta] && [mike, zeta][1..] == [zeta] && [zeta][1..] == [];
    assert VideoIds([zeta]) == ["id1"];
    assert VideoIds([mike, zeta]) == ["id3"] + VideoIds([zeta]);
    assert VideoIds([alpha, mike, zeta]) == ["id2"] + VideoIds([mike, zeta]);
  }
}
