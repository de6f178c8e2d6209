/** `sort_playlist` as the step-by-step protocol it is, driving a remote
    service whose every call may return or raise. The remote keeps a ghost log
    of the calls made to it; the method is proved to make exactly the calls of
    the reference run `Protocol.Expected` and to report its outcome, so the
    guarantees proved about `Expected` hold of every run of the method. */
module Service {
  import opened Wrappers
  import opened Tracks
  import opened Protocol

  /** The remote playlist service. `playlists` is what `get_playlist`
      returns; `nextId` is above every id in use, so `create_playlist` can
      hand out fresh ids. Whether a call returns or raises is the service's
      choice, made anew on every call. */
  class Remote {
    var playlists: map<PlaylistId, Playlist>
    var nextId: PlaylistId
    ghost var log: seq<Event>

    ghost predicate Valid()
      reads this`playlists, this`nextId
    {
      forall id | id in playlists :: id < nextId
    }

    constructor (snapshot: map<PlaylistId, Playlist>, firstFree: PlaylistId)
      requires forall id | id in snapshot :: id < firstFree
      ensures Valid() && playlists == snapshot && nextId == firstFree && log == []
    {
      playlists, nextId, log := snapshot, firstFree, [];
    }

    /** `get_playlist(pid, limit=None)`: raises, or returns the playlist; an
        unknown id always raises. */
    method GetPlaylist(pid: PlaylistId) returns (r: Option<Playlist>)
      requires Valid()
      modifies this`log
      ensures r.Some? ==> pid in playlists && r.value == playlists[pid]
      ensures log == old(log) + [Fetched(pid, r.Some?)]
    {
      var answered: bool :| true;
      r := if answered && pid in playlists then Some(playlists[pid]) else None;
      log := log + [Fetched(pid, r.Some?)];
    }

    /** `create_playlist(title, description, privacy_status)`: raises, or
        returns the id of a new playlist, different from every existing one. */
    method CreatePlaylist(title: string, description: string, privacy: Privacy) returns (r: Option<PlaylistId>)
      requires Valid()
      modifies this`nextId, this`log
      ensures Valid() && playlists == old(playlists)
      ensures r.Some? ==> r.value !in playlists && r.value >= old(nextId)
      ensures log == old(log) + [Created(title, description, privacy, r)]
    {
      var answered: bool :| true;
      if answered {
        r := Some(nextId);
        nextId := nextId + 1;
      } else {
        r := None;
      }
      log := log + [Created(title, description, privacy, r)];
    }

    /** `add_playlist_items(pid, ids)`. */
    method AddPlaylistItems(pid: PlaylistId, ids: seq<VideoId>) returns (ok: bool)
      modifies this`log
      ensures log == old(log) + [Added(pid, ids, ok)]
    {
      ok :| true;
      log := log + [Added(pid, ids, ok)];
    }

    /** `remove_playlist_items(pid, items)`. */
    method RemovePlaylistItems(pid: PlaylistId, items: seq<ItemRef>) returns (ok: bool)
      modifies this`log
      ensures log == old(log) + [Removed(pid, items, ok)]
    {
      ok :| true;
      log := log + [Removed(pid, items, ok)];
    }

    /** `delete_playlist(pid)`. */
    method DeletePlaylist(pid: PlaylistId) returns (ok: bool)
      modifies this`log
      ensures log == old(log) + [Deleted(pid, ok)]
    {
      ok :| true;
      log := log + [Deleted(pid, ok)];
    }
  }

  /** The backup phase (YoutubeMusicSorter.py:123-137): create a private
      "Backup of {title}" playlist and copy the ids of `p` into it. Returns
      the backup's id, or `None` when either call raised. */
  method MakeBackup(remote: Remote, pid: PlaylistId, p: Playlist, ghost a: Answers)
    returns (backup: Option<PlaylistId>, ghost a': Answers, ghost calls: seq<Event>)
    requires remote.Valid()
    modifies remote`nextId, remote`log
    ensures remote.Valid() && remote.playlists == old(remote.playlists)
    ensures a' == a.(created := a'.created, backupAdd := a'.backupAdd)
    ensures a'.created.Some? ==> a'.created.value !in remote.playlists
    ensures backup.Some? <==> a'.created.Some? && (VideoIds(p.tracks) != [] ==> a'.backupAdd)
    ensures backup.Some? ==> backup == a'.created
    ensures [Fetched(pid, true)] + calls == BackupCalls(pid, p, a')
    ensures remote.log == old(remote.log) + calls
  {
    var created := remote.CreatePlaylist(BackupTitle(p.title), BackupDescription, Private);
    a' := a.(created := created);
    calls := [Created(BackupTitle(p.title), BackupDescription, Private, created)];
    backup := created;
    var videoIds := VideoIds(p.tracks);
    if created.Some? && videoIds != [] {
      var ok := remote.AddPlaylistItems(created.value, videoIds);
      AppendTwice(old(remote.log), calls, [Added(created.value, videoIds, ok)]);
      a' := a'.(backupAdd := ok);
      calls := calls + [Added(created.value, videoIds, ok)];
      if !ok {
        backup := None;
      }
    }
    BackupCallsAfterFetch(pid, p, a');
  }

  /** The reorder phase (YoutubeMusicSorter.py:140-151): remove every
      addressable track, then add the ids in sorted order. Returns whether
      both calls returned. */
  method Reorder(remote: Remote, pid: PlaylistId, p: Playlist, ghost a: Answers)
    returns (ok: bool, ghost a': Answers, ghost calls: seq<Event>)
    modifies remote`log
    ensures a' == a.(remove := a'.remove, add := a'.add)
    ensures ok == !ReorderRaised(p, a')
    ensures calls == ReorderCalls(pid, p, a')
    ensures remote.log == old(remote.log) + calls
  {
    var sortedTracks := SortByArtist(p.tracks);
    var sortedVideoIds := VideoIds(sortedTracks);
    var items := RemovalItems(p.tracks);
    ok := remote.RemovePlaylistItems(pid, items);
    a' := a.(remove := ok);
    calls := [Removed(pid, items, ok)];
    if ok && sortedVideoIds != [] {
      ok := remote.AddPlaylistItems(pid, sortedVideoIds);
      AppendTwice(old(remote.log), calls, [Added(pid, sortedVideoIds, ok)]);
      a' := a'.(add := ok);
      calls := calls + [Added(pid, sortedVideoIds, ok)];
    }
  }

  /** The restore phase (YoutubeMusicSorter.py:157-162): remove the same
      items again, then add the ids in their original order. Returns whether
      both calls returned. */
  method Restore(remote: Remote, pid: PlaylistId, p: Playlist, ghost a: Answers)
    returns (ok: bool, ghost a': Answers, ghost calls: seq<Event>)
    modifies remote`log
    ensures a' == a.(restoreRemove := a'.restoreRemove, restoreAdd := a'.restoreAdd)
    ensures ok == (a'.restoreRemove && a'.restoreAdd)
    ensures calls == RestoreCalls(pid, p, a')
    ensures remote.log == old(remote.log) + calls
  {
    var items := RemovalItems(p.tracks);
    ok := remote.RemovePlaylistItems(pid, items);
    a' := a.(restoreRemove := ok);
    calls := [Removed(pid, items, ok)];
    if ok {
      var videoIds := VideoIds(p.tracks);
      ok := remote.AddPlaylistItems(pid, videoIds);
      AppendTwice(old(remote.log), calls, [Added(pid, videoIds, ok)]);
      a' := a'.(restoreAdd := ok);
      calls := calls + [Added(pid, videoIds, ok)];
    }
  }

  /** The reorder, and the restore when a reorder call raised
      (YoutubeMusicSorter.py:140-167). Returns whether a reorder call raised
      and, if so, whether both restore calls returned; `calls` are the calls
      made. */
  method ReorderOrRestore(remote: Remote, pid: PlaylistId, p: Playlist, ghost a: Answers)
    returns (failedSort: bool, restored: bool, ghost a': Answers, ghost calls: seq<Event>)
    modifies remote`log
    ensures a' == a.(remove := a'.remove, add := a'.add, restoreRemove := a'.restoreRemove,
                     restoreAdd := a'.restoreAdd)
    ensures failedSort == ReorderRaised(p, a')
    ensures restored == (!failedSort || Restored(a'))
    ensures calls == ReorderCalls(pid, p, a') + (if failedSort then RestoreCalls(pid, p, a') else [])
    ensures remote.log == old(remote.log) + calls
  {
    var ok;
    ok, a', calls := Reorder(remote, pid, p, a);
    failedSort, restored := !ok, true;
    if failedSort {
      ghost var restoreCalls;
      restored, a', restoreCalls := Restore(remote, pid, p, a');
      AppendTwice(old(remote.log), calls, restoreCalls);
      calls := calls + restoreCalls;
    }
  }

  /** Everything after a good backup (YoutubeMusicSorter.py:140-178): the
      reorder, the restore when a reorder call raised, and the deletion of the
      backup unless the restore raised too. */
  method AfterBackup(remote: Remote, pid: PlaylistId, p: Playlist, backupPid: PlaylistId, ghost a: Answers)
    returns (outcome: Outcome, ghost a': Answers, ghost guarded: seq<Event>)
    requires a.created == Some(backupPid)
    modifies remote`log
    ensures a' == a.(remove := a'.remove, add := a'.add, restoreRemove := a'.restoreRemove,
                     restoreAdd := a'.restoreAdd, delete := a'.delete)
    ensures outcome == GuardedOutcome(p, a')
    ensures guarded == GuardedCalls(pid, p, a')
    ensures remote.log == old(remote.log) + guarded
  {
    var failedSort, restored;
    ghost var calls;
    failedSort, restored, a', calls := ReorderOrRestore(remote, pid, p, a);
    if !restored {
      outcome := RestoreFailed(backupPid);
      FailedRestoreEndsRun(pid, p, a');
      guarded := calls;
      return;
    }

    // Cleanup (YoutubeMusicSorter.py:170-178)
    var deleted := remote.DeletePlaylist(backupPid);
    AppendTwice(old(remote.log), calls, [Deleted(backupPid, deleted)]);
    ghost var before := a';
    a' := a'.(delete := deleted);
    outcome := if failedSort then RestoredAfterError else Sorted;
    CleanupAnswerOnlyAddsDeletion(pid, p, before, deleted);
    guarded := calls + [Deleted(backupPid, deleted)];
  }

  /** The guarantees of a run carry over to the part of the log it wrote. */
  lemma LogCarriesGuarantees(pid: PlaylistId, a: Answers, outcome: Outcome, log0: seq<Event>, log: seq<Event>)
    requires a.created != Some(pid)
    requires outcome == Expected(pid, a).outcome
    requires log == log0 + Expected(pid, a).events
    ensures Guarantees(pid, a, outcome, log[|log0|..])
  {
    assert log[|log0|..] == Expected(pid, a).events;
    RunGuarantees(pid, a);
  }

  /** `sort_playlist` once the fetch returned a non-empty playlist `p`
      (YoutubeMusicSorter.py:123-178): the backup, and everything after it
      when the backup holds the ids. */
  method SortFetched(remote: Remote, pid: PlaylistId, p: Playlist, ghost a: Answers)
    returns (outcome: Outcome, ghost a': Answers, ghost calls: seq<Event>)
    requires remote.Valid() && pid in remote.playlists
    requires a.fetched == Some(p) && p.tracks != []
    modifies remote`nextId, remote`log
    ensures remote.Valid() && remote.playlists == old(remote.playlists)
    ensures a'.fetched == a.fetched && a'.created != Some(pid)
    ensures outcome == Expected(pid, a').outcome
    ensures [Fetched(pid, true)] + calls == Expected(pid, a').events
    ensures remote.log == old(remote.log) + calls
  {
    ghost var log0 := remote.log;
    var backup;
    ghost var backupCalls;
    backup, a', backupCalls := MakeBackup(remote, pid, p, a);
    ExpectedAfterFetch(pid, a');
    if backup.None? {
      outcome := BackupFailed;
      calls := backupCalls;
      return;
    }
    ghost var backedUp := a';
    ghost var guardedCalls;
    outcome, a', guardedCalls := AfterBackup(remote, pid, p, backup.value, a');
    BackupIgnoresLaterAnswers(pid, p, backedUp, a');
    ExpectedAfterFetch(pid, a');
    calls := backupCalls + guardedCalls;
    AppendTwice(log0, backupCalls, guardedCalls);
    AppendTwice([Fetched(pid, true)], backupCalls, guardedCalls);
  }

  /** `sort_playlist(pid)`. The ghost `answers` are what the remote answered;
      the calls made (the new part of the log) and the outcome are those of
      the reference run for these answers, and the protocol's guarantees are
      restated for the calls actually made. */
  method SortPlaylist(remote: Remote, pid: PlaylistId) returns (outcome: Outcome, ghost answers: Answers)
    requires remote.Valid()
    modifies remote
    ensures remote.Valid() && remote.playlists == old(remote.playlists)
    ensures answers.fetched.Some? ==> pid in old(remote.playlists) && answers.fetched.value == old(remote.playlists)[pid]
    ensures answers.created != Some(pid)
    ensures remote.log == old(remote.log) + Expected(pid, answers).events
    ensures outcome == Expected(pid, answers).outcome
    ensures Guarantees(pid, answers, outcome, remote.log[|old(remote.log)|..])
  {
    ghost var log0 := remote.log;
    answers := Answers(None, None, true, true, true, true, true, true);

    // Fetch (YoutubeMusicSorter.py:111-120)
    var fetched := remote.GetPlaylist(pid);
    answers := answers.(fetched := fetched);
    if fetched.None? || fetched.value.tracks == [] {
      outcome := if fetched.None? then FetchFailed else EmptyPlaylist;
      assert Expected(pid, answers) == Run(outcome, [Fetched(pid, fetched.Some?)]);
      LogCarriesGuarantees(pid, answers, outcome, log0, remote.log);
      return;
    }

    // Backup, sort, restore, cleanup (YoutubeMusicSorter.py:123-178)
    ghost var calls;
    outcome, answers, calls := SortFetched(remote, pid, fetched.value, answers);
    assert remote.log == log0 + ([Fetched(pid, true)] + calls);
    LogCarriesGuarantees(pid, answers, outcome, log0, remote.log);
  }
}
