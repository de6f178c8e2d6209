# YouTube Music playlist sorter: the safe-reorder protocol

This project models the core of a desktop tool that sorts a YouTube Music
playlist A–Z by the name of each track's first artist. The remote service
has no transactions and no move or reorder call, so the tool reorders a
playlist in a fixed sequence of calls:

1. fetch the playlist;
2. copy its ids into a private "Backup of {title}" playlist;
3. remove every (videoId, setVideoId) pair from the original;
4. add the ids back in sorted order;
5. if step 3 or 4 raised, remove the same pairs again and re-add the ids in
   their original order;
6. delete the backup, unless step 5 raised.

The model has six modules:

- `Text` — ASCII lowercasing, and Python's ordering of `str` values (a total order).
- `Tracks` — the fetched tracks, the sort key and Python's stable `sorted`
  (an insertion sort). Also the three lists built from the tracks: the ids
  (`video_ids`), the ids in sorted order (`sorted_video_ids`) and the
  removal pairs.
- `Library` — which library playlists get a Sort button.
- `Protocol` — a pure reference run `Expected(pid, a)`. It gives the calls
  `sort_playlist` makes and the outcome it reports, as a function of the
  remote's answers `a`; each call either returns or raises. The safety
  properties are proved about it.
- `Service` — a `Remote` class with a ghost log of the calls it receives,
  and a `SortPlaylist` method. The method drives the remote step by step.
  It is proved to make exactly the calls of `Expected` for whatever the
  remote answered, and to report its outcome. So every property of
  `Expected` holds for the log the method leaves behind.
- `Wrappers` — `Option`.

A remote call's choice to return or raise is nondeterministic in the model.
`SortPlaylist` returns the answers it received as a ghost value, so its
contract quantifies over every behaviour of the service.

## Model

| member | source | states |
|---|---|---|
| Text.LowerChar | YoutubeMusicSorter.py:140 | the result is never an upper-case ASCII letter, and a character changes exactly when it is one |
| Text.Lower | YoutubeMusicSorter.py:140 | `.lower()`: same length, each character lowered in place |
| Text.LowerIdempotent | YoutubeMusicSorter.py:140 | lowercasing a lowercased string changes nothing |
| Text.LessEq | YoutubeMusicSorter.py:140 | `<=` on `str`, the comparison `sorted` uses: a prefix is below every extension of it, and only "" is below "" |
| Text.LessEqReflexive | YoutubeMusicSorter.py:140 | the string order compares every key with itself |
| Text.LessEqTotal | YoutubeMusicSorter.py:140 | any two keys are comparable, so `sorted` has a well-defined result |
| Text.LessEqAntisymmetric | YoutubeMusicSorter.py:140 | two keys each at most the other are equal |
| Text.LessEqTransitive | YoutubeMusicSorter.py:140 | the string order is transitive |
| Text.EmptyIsLeast | YoutubeMusicSorter.py:140 | "" is below every key, and only "" is below "" |
| Tracks.SortKey | YoutubeMusicSorter.py:140 | the key lambda ("" without artists, else the first artist's lowercased name); the key is already lowercase, so the sort ignores case |
| Tracks.WithKey | YoutubeMusicSorter.py:140 | every track picked for key `k` is from the input and has key `k` |
| Tracks.Insert | YoutubeMusicSorter.py:140 | one step of the stable sort: the track goes before the first track whose key is not below its own; one longer than the list |
| Tracks.SortByArtist | YoutubeMusicSorter.py:140 | `sorted(tracks, key=...)` as an insertion sort; as long as the input (order, permutation and stability in the lemmas below) |
| Tracks.SortIsSortedPermutation | YoutubeMusicSorter.py:140 | `sorted_tracks` is non-decreasing by key and a permutation (same multiset) of the fetched tracks |
| Tracks.InsertKeepsKeyOrder | YoutubeMusicSorter.py:140 | one insertion step keeps, for every key, the relative order of the tracks with that key |
| Tracks.SortIsStable | YoutubeMusicSorter.py:140 | for every key, the tracks with that key appear in the sorted list in their original order |
| Tracks.NoArtistSortsFirst | YoutubeMusicSorter.py:140 | tracks without an artist come before every track with a named artist, in their original order |
| Tracks.VideoIds | YoutubeMusicSorter.py:130-141 | `video_ids` and, on the sorted tracks, `sorted_video_ids`: the ids of the tracks whose videoId is truthy, in track order (its properties in the lemmas below) |
| Tracks.VideoIdsConcat | YoutubeMusicSorter.py:130 | the id list of a concatenation is the concatenation of the id lists |
| Tracks.VideoIdsMembers | YoutubeMusicSorter.py:130 | an id is in `video_ids` exactly when some track has it as a truthy videoId |
| Tracks.SortedIdsArePermutation | YoutubeMusicSorter.py:130-141 | `sorted_video_ids` holds the same multiset of ids as `video_ids` |
| Tracks.RemovalItems | YoutubeMusicSorter.py:146-149 | the removal list: one pair per track with both ids truthy; no longer than the tracks, and no pair has an empty id |
| Tracks.RemovalItemsConcat | YoutubeMusicSorter.py:146-149 | the removal list of a concatenation is the concatenation of the removal lists, so original order is kept |
| Tracks.RemovalItemsMembers | YoutubeMusicSorter.py:146-149 | a pair is in the removal list exactly when some track has both ids truthy and equal to it |
| Tracks.Unaddressable | YoutubeMusicSorter.py:130-149 | the selected tracks are from the input, have a videoId and are not removable |
| Tracks.RemovalVersusAddList | YoutubeMusicSorter.py:130-149 | `video_ids` is as long as the removal list plus the tracks with a videoId but no setVideoId; the two lengths are equal exactly when every track with a videoId also has a setVideoId |
| Tracks.UnaddressableStillAdded | YoutubeMusicSorter.py:130-149 | the id of a track with a videoId but no setVideoId is in both add lists, and the removal can only hit that id through a different, removable track |
| Tracks.ThreeArtistsSorted | YoutubeMusicSorter.py:140 | the tracks by Zeta, alpha and Mike sort as alpha, Mike, Zeta |
| Tracks.ThreeArtistsCalls | YoutubeMusicSorter.py:141-149 | for those tracks the removal names all three pairs and the sorted add pushes id2, id3, id1 |
| Library.HasSortButton | YoutubeMusicSorter.py:96-99 | the filter: ownPlaylist missing or true and the lowercased title not "liked music"; so "Liked Music" never passes |
| Library.SortButtons | YoutubeMusicSorter.py:95-100 | the playlists that get a button, in listing order; none is marked not owned, and there are no more than listed |
| Library.Refresh | YoutubeMusicSorter.py:86-104 | a failed listing is an error and an empty one is "no playlists"; otherwise the buttons are exactly the listed playlists that pass the filter |
| Library.SortButtonsMembers | YoutubeMusicSorter.py:95-100 | a playlist gets a button exactly when it is listed, its ownPlaylist is not false (missing counts as true) and its lowercased title is not "liked music" |
| Library.SortButtonsConcat | YoutubeMusicSorter.py:95-100 | the buttons keep the listing's order |
| Library.LikedMusicHasNoButton | YoutubeMusicSorter.py:98-99 | a playlist whose lowercased title is "liked music" gets no button, owned or not |
| Library.LikedMusicExample | YoutubeMusicSorter.py:96-99 | "Liked Music" gets no button; an unmarked playlist gets one; one marked not owned gets none |
| Protocol.BackupCalls | YoutubeMusicSorter.py:111-137 | the fetch, the private "Backup of {title}" creation and, when it returned and there are ids, the copy of `video_ids` into the backup |
| Protocol.ReorderCalls | YoutubeMusicSorter.py:145-151 | the removal of every addressable pair, then, when it returned and there are ids, the add of `sorted_video_ids` |
| Protocol.RestoreCalls | YoutubeMusicSorter.py:157-162 | the same removal again, then, when it returned, the add of `video_ids` |
| Protocol.GuardedCalls | YoutubeMusicSorter.py:145-173 | the reorder; the restore when a reorder call raised; the backup deletion unless the restore raised |
| Protocol.GuardedOutcome | YoutubeMusicSorter.py:152-178 | sorted when no reorder call raised, restored when the restore returned, otherwise restore-failed with the backup's id |
| Protocol.Expected | YoutubeMusicSorter.py:107-179 | the reference run: fetch-failed, empty, backup-failed after the backup calls, or the backup calls followed by the guarded calls and the guarded outcome (its properties in the lemmas below) |
| Protocol.CallsOn | YoutubeMusicSorter.py:145-162 | every selected call is from the run and changes the given playlist |
| Protocol.CallsOnConcat | YoutubeMusicSorter.py:145-162 | the playlist's calls of a concatenation are those of the parts, in order |
| Protocol.FailedRestoreEndsRun | YoutubeMusicSorter.py:163-167 | when a restore call raised, the outcome is restore-failed with the backup's id and nothing follows the restore calls |
| Protocol.CleanupAnswerOnlyAddsDeletion | YoutubeMusicSorter.py:170-173 | the deletion's answer changes neither the outcome nor any call before it; it only sets the last event |
| Protocol.ExpectedAfterFetch | YoutubeMusicSorter.py:123-178 | after a non-empty fetch the run is either the backup calls and backup-failed, or the backup calls followed by the guarded part |
| Protocol.BackupIgnoresLaterAnswers | YoutubeMusicSorter.py:123-137 | the backup phase depends only on the answers to the fetch, the creation and the copy |
| Protocol.NothingToSortMakesNoChange | YoutubeMusicSorter.py:111-120 | fetch-failed exactly when the fetch raised, empty exactly when it returned no tracks; then the fetch is the only call |
| Protocol.BackupFailureTouchesNothing | YoutubeMusicSorter.py:123-137 | backup-failed exactly when the creation or the copy raised; then the playlist is never changed and nothing is deleted |
| Protocol.BackupBeforeEveryMutation | YoutubeMusicSorter.py:123-162 | every add or remove on the playlist comes after a private backup was created and, when there are ids, filled with them; with no backup the playlist is never changed |
| Protocol.FailedRestoreKeepsBackup | YoutubeMusicSorter.py:123-167 | after a failed restore no deletion is ever issued; the reported backup was created and filled with the original ids, that copy is the only call that ever changes it, and no call after the backup phase touches it |
| Protocol.BackupCallsOnBackup | YoutubeMusicSorter.py:123-137 | once the backup is ready, the only call of the backup phase that changes it is the copy of the original ids, which returned |
| Protocol.PhasesSpareTheBackup | YoutubeMusicSorter.py:145-162 | the reorder and the restore change no playlist but the one being sorted |
| Protocol.BackupDeletedOnceOtherwise | YoutubeMusicSorter.py:169-173 | a sorted or restored run ends with exactly one deletion call, of the backup, and has no other |
| Protocol.CleanupFailureIsOnlyAWarning | YoutubeMusicSorter.py:170-178 | whether the deletion returns or raises does not change the outcome |
| Protocol.CallsOnPhases | YoutubeMusicSorter.py:123-162 | the backup phase makes no call on the playlist; every reorder and restore call is on it |
| Protocol.PlaylistHistory | YoutubeMusicSorter.py:145-162 | the playlist sees the removal and the sorted add; when one raised, the same removal again and then the add of the original-order ids |
| Protocol.GuardedOutcomeReflectsCalls | YoutubeMusicSorter.py:145-178 | past the backup the status is sorted exactly when no call on the playlist raised, restored exactly when one raised and the last returned, restore-failed exactly when the last raised |
| Protocol.StatusReflectsCalls | YoutubeMusicSorter.py:145-178 | the same, read off the playlist's calls in the whole run: there is at least one, and each status holds exactly in its case |
| Protocol.RunGuarantees | YoutubeMusicSorter.py:107-179 | every run, for every behaviour of the remote, meets together: only the fetch when there is nothing to sort; no change and no deletion without a backup; every change after the backup holds the ids; the status read off the playlist's calls; after a failed restore no deletion and the backup changed only by the copy; otherwise the backup deleted once, last; the outcome the same whatever the deletion answers |
| Service.Remote.constructor | YoutubeMusicSorter.py:111 | a remote holding the given playlists, with fresh ids above them and an empty log |
| Service.Remote.GetPlaylist | YoutubeMusicSorter.py:111 | raises, or returns the stored playlist; an unknown id always raises; the fetch is logged |
| Service.Remote.CreatePlaylist | YoutubeMusicSorter.py:125-129 | raises, or returns an id no stored playlist has; the call is logged |
| Service.Remote.AddPlaylistItems | YoutubeMusicSorter.py:132 | the add and whether it returned are logged |
| Service.Remote.RemovePlaylistItems | YoutubeMusicSorter.py:146-149 | the removal and whether it returned are logged |
| Service.Remote.DeletePlaylist | YoutubeMusicSorter.py:171 | the deletion and whether it returned are logged |
| Service.MakeBackup | YoutubeMusicSorter.py:123-137 | makes the backup calls of the reference run; returns the backup id exactly when the creation returned and, if there were ids, the copy returned |
| Service.Reorder | YoutubeMusicSorter.py:140-151 | makes the reorder calls of the reference run and returns whether none raised |
| Service.Restore | YoutubeMusicSorter.py:157-162 | makes the restore calls of the reference run and returns whether both returned |
| Service.ReorderOrRestore | YoutubeMusicSorter.py:144-167 | the reorder, then the restore exactly when a reorder call raised |
| Service.AfterBackup | YoutubeMusicSorter.py:140-178 | makes the calls of the reference run past the backup and reports its outcome |
| Service.SortFetched | YoutubeMusicSorter.py:123-178 | after a non-empty fetch: makes the rest of the reference run's calls, reports its outcome, never gets the playlist's own id as backup |
| Service.LogCarriesGuarantees | YoutubeMusicSorter.py:107-179 | the guarantees of a run hold for the part of the log it wrote |
| Service.SortPlaylist | YoutubeMusicSorter.py:107-179 | for whatever the remote answered, the new log is exactly the reference run's calls, the outcome is its outcome, and all the guarantees hold of the calls made |

## Left out

- The Tkinter interface is not modelled: the window, the scrollable frame, the buttons and their colours, and the busy and active states. It is presentation only.
- OAuth, `.env` loading and the construction of the service client are I/O and are not modelled.
- The service's real behaviour is not modelled. How removals and adds change a playlist's contents, and how setVideoIds are regenerated, are up to the service. The model records which calls are made and whether each returned.
- Status and console messages are modelled only as the `Outcome` tag. An empty playlist shows no message in the source; it is the separate `EmptyPlaylist` outcome here.
- Text.LowerChar: Python's `str.lower` is Unicode-aware; only ASCII A–Z are lowered here.
- Tracks.SortKey: a first artist without a "name" key, or with `None` as its name, makes the source raise outside any `try` (line 140). The exception leaves `sort_playlist`, which runs as a button callback (line 100), and the GUI event loop (line 210) reports it and keeps running. The backup is left behind, and the buttons stay disabled because `set_active_state` is never reached. The model always has a name.
- Library.Refresh: an entry without a "title" makes the source raise mid-loop (line 98). The buttons added so far stay and the error message is shown. The model's entries always have a title.
- Library.HasSortButton: `ownPlaylist` is `None` when the key is missing. A key present with a non-boolean value is outside the model.
- A fetched playlist without a "title" makes the source raise inside the backup `try` (line 126). The source then reports a backup error. The model's playlists always have a title.
- The restore add at line 162 is made even when `video_ids` is empty, and the removal at line 146 even when its list is empty. Both follow the source. When the backup copy fails, the created backup is never deleted; this also follows the source.
- Integer widths do not arise: the only numbers are playlist ids, which are opaque.
