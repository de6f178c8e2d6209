/** The safe-reorder protocol of `sort_playlist` as a pure reference: the
    remote calls it makes and the outcome it reports, as a function of what
    the remote answers. Each remote call either returns or raises; `Answers`
    records the choice for every call the protocol can make. */
module Protocol {
  import opened Wrappers
  import opened Tracks

  datatype Privacy = Private | Public | Unlisted

  /** One remote call and whether it returned (`ok`) or raised. */
  datatype Event =
    | Fetched(pid: PlaylistId, ok: bool)
    | Created(title: string, description: string, privacy: Privacy, result: Option<PlaylistId>)
    | Added(pid: PlaylistId, ids: seq<VideoId>, ok: bool)
    | Removed(pid: PlaylistId, items: seq<ItemRef>, ok: bool)
    | Deleted(pid: PlaylistId, ok: bool)

  /** The terminal status of one run (the label text, as a tag). */
  datatype Outcome =
    | FetchFailed          // "Error getting playlist"
    | EmptyPlaylist        // nothing to sort: no message
    | BackupFailed         // "Error creating backup playlist."
    | Sorted               // "Sorted playlist successfully."
    | RestoredAfterError   // "Error sorting playlist, restored from backup."
    | RestoreFailed(backup: PlaylistId)  // "Error restoring from backup": the backup is kept

  /** The remote's answer to every call the protocol may make, in order:
      the fetched playlist (`None`: the fetch raised), the new backup id
      (`None`: creation raised), then returned/raised for the backup copy,
      the removal, the sorted add, the restore removal, the restore add and
      the backup deletion. Answers for calls that are not made are ignored. */
  datatype Answers = Answers(
    fetched: Option<Playlist>, created: Option<PlaylistId>,
    backupAdd: bool, remove: bool, add: bool,
    restoreRemove: bool, restoreAdd: bool, delete: bool)

  datatype Run = Run(outcome: Outcome, events: seq<Event>)

  function BackupTitle(title: string): string
  {
    "Backup of " + title
  }

  const BackupDescription: string := "Temporary backup for sorting"

  /** An add call when the list is not empty, nothing otherwise (the
      `if video_ids:` and `if sorted_video_ids:` guards). */
  function AddIfAny(p: PlaylistId, ids: seq<VideoId>, ok: bool): seq<Event>
  {
    if ids != [] then [Added(p, ids, ok)] else []
  }

  /** Fetch, create the backup, copy the ids into it (YoutubeMusicSorter.py:111-137). */
  function BackupCalls(pid: PlaylistId, p: Playlist, a: Answers): seq<Event>
  {
    [Fetched(pid, true), Created(BackupTitle(p.title), BackupDescription, Private, a.created)]
    + (if a.created.Some? then AddIfAny(a.created.value, VideoIds(p.tracks), a.backupAdd) else [])
  }

  /** Remove every addressable track, then add the ids in sorted order; the
      add is skipped when the removal raised (YoutubeMusicSorter.py:145-151). */
  function ReorderCalls(pid: PlaylistId, p: Playlist, a: Answers): seq<Event>
  {
    [Removed(pid, RemovalItems(p.tracks), a.remove)]
    + (if a.remove then AddIfAny(pid, VideoIds(SortByArtist(p.tracks)), a.add) else [])
  }

  /** Some call of the reorder phase raised. */
  predicate ReorderRaised(p: Playlist, a: Answers)
  {
    !a.remove || (VideoIds(SortByArtist(p.tracks)) != [] && !a.add)
  }

  /** Remove the same items again, then add the ids in their original order;
      the add is skipped when the removal raised (YoutubeMusicSorter.py:158-162). */
  function RestoreCalls(pid: PlaylistId, p: Playlist, a: Answers): seq<Event>
  {
    [Removed(pid, RemovalItems(p.tracks), a.restoreRemove)]
    + (if a.restoreRemove then [Added(pid, VideoIds(p.tracks), a.restoreAdd)] else [])
  }

  /** Both restore calls returned. */
  predicate Restored(a: Answers)
  {
    a.restoreRemove && a.restoreAdd
  }

  /** The calls made once the backup holds the ids: the reorder, the restore
      when a reorder call raised, and the backup deletion unless the restore
      raised (YoutubeMusicSorter.py:145-173). */
  function GuardedCalls(pid: PlaylistId, p: Playlist, a: Answers): seq<Event>
    requires a.created.Some?
  {
    ReorderCalls(pid, p, a)
    + (if ReorderRaised(p, a) then RestoreCalls(pid, p, a) else [])
    + (if !ReorderRaised(p, a) || Restored(a) then [Deleted(a.created.value, a.delete)] else [])
  }

  /** The status once the backup holds the ids (YoutubeMusicSorter.py:152-178). */
  function GuardedOutcome(p: Playlist, a: Answers): Outcome
    requires a.created.Some?
  {
    if !ReorderRaised(p, a) then Sorted
    else if Restored(a) then RestoredAfterError
    else RestoreFailed(a.created.value)
  }

  /** When the restore raised, nothing follows it. */
  lemma FailedRestoreEndsRun(pid: PlaylistId, p: Playlist, a: Answers)
    requires a.created.Some?
    requires ReorderRaised(p, a) && !Restored(a)
    ensures GuardedOutcome(p, a) == RestoreFailed(a.created.value)
    ensures GuardedCalls(pid, p, a) == ReorderCalls(pid, p, a) + RestoreCalls(pid, p, a)
  {
    assert GuardedCalls(pid, p, a) == ReorderCalls(pid, p, a) + RestoreCalls(pid, p, a) + [];
  }

  /** The answer to the deletion only decides the last event. */
  lemma CleanupAnswerOnlyAddsDeletion(pid: PlaylistId, p: Playlist, a: Answers, d: bool)
    requires a.created.Some?
    requires !ReorderRaised(p, a) || Restored(a)
    ensures GuardedOutcome(p, a.(delete := d)) == GuardedOutcome(p, a)
    ensures GuardedCalls(pid, p, a.(delete := d)) ==
              ReorderCalls(pid, p, a) + (if ReorderRaised(p, a) then RestoreCalls(pid, p, a) else [])
              + [Deleted(a.created.value, d)]
  {
    var b := a.(delete := d);
    assert ReorderCalls(pid, p, b) == ReorderCalls(pid, p, a);
    assert RestoreCalls(pid, p, b) == RestoreCalls(pid, p, a);
  }

  /** The run of `sort_playlist(pid)` against a remote answering `a`. */
  function Expected(pid: PlaylistId, a: Answers): Run
  {
    if a.fetched.None? then Run(FetchFailed, [Fetched(pid, false)])
    else if a.fetched.value.tracks == [] then Run(EmptyPlaylist, [Fetched(pid, true)])
    else if !ReachedReorder(a) then Run(BackupFailed, BackupCalls(pid, a.fetched.value, a))
    else Run(GuardedOutcome(a.fetched.value, a), BackupCalls(pid, a.fetched.value, a) + GuardedCalls(pid, a.fetched.value, a))
  }

  // ---------------------------------------------------------------------
  // Properties of runs

  /** `e` changes the contents of playlist `p`. */
  predicate Mutates(e: Event, p: PlaylistId)
  {
    (e.Added? || e.Removed?) && e.pid == p
  }

  predicate OnlyFetches(events: seq<Event>)
  {
    forall e | e in events :: e.Fetched?
  }

  predicate Untouched(events: seq<Event>, p: PlaylistId)
  {
    forall e | e in events :: !Mutates(e, p)
  }

  predicate NeverDeletes(events: seq<Event>)
  {
    forall e | e in events :: !e.Deleted?
  }

  /** In `prefix`, the private playlist `b` has been created and, when there
      are ids to copy, `ids` have been added to it. */
  predicate BackupReady(prefix: seq<Event>, b: PlaylistId, ids: seq<VideoId>)
  {
    (exists i | 0 <= i < |prefix| :: prefix[i].Created? && prefix[i].result == Some(b) && prefix[i].privacy == Private)
    && (ids != [] ==> Added(b, ids, true) in prefix)
  }

  /** Every call that changes `p` comes after the backup `b` holds `ids`. */
  predicate MutationsGuarded(events: seq<Event>, p: PlaylistId, b: PlaylistId, ids: seq<VideoId>)
  {
    forall i | 0 <= i < |events| && Mutates(events[i], p) :: BackupReady(events[..i], b, ids)
  }

  /** The last call deletes `b`, and no earlier call deletes anything. */
  predicate DeletedOnceAtEnd(events: seq<Event>, b: PlaylistId)
  {
    |events| > 0 && events[|events| - 1].Deleted? && events[|events| - 1].pid == b
    && forall i | 0 <= i < |events| - 1 :: !events[i].Deleted?
  }

  /** The calls of `events` that change `p`, in order. */
  function CallsOn(events: seq<Event>, p: PlaylistId): (r: seq<Event>)
    ensures forall e | e in r :: e in events && Mutates(e, p)
  {
    if events == [] then []
    else (if Mutates(events[0], p) then [events[0]] else []) + CallsOn(events[1..], p)
  }

  lemma {:induction false} CallsOnConcat(a: seq<Event>, b: seq<Event>, p: PlaylistId)
    ensures CallsOn(a + b, p) == CallsOn(a, p) + CallsOn(b, p)
    decreases |a|
  {
    if a == [] {
      assert a + b == b;
    } else {
      var h := if Mutates(a[0], p) then [a[0]] else [];
      assert (a + b)[0] == a[0] && (a + b)[1..] == a[1..] + b;
      calc {
        CallsOn(a + b, p);
        h + CallsOn(a[1..] + b, p);
        { CallsOnConcat(a[1..], b, p); }
        h + (CallsOn(a[1..], p) + CallsOn(b, p));
        (h + CallsOn(a[1..], p)) + CallsOn(b, p);
        CallsOn(a, p) + CallsOn(b, p);
      }
    }
  }

  lemma CallsOnSingleton(e: Event, p: PlaylistId)
    ensures CallsOn([e], p) == if Mutates(e, p) then [e] else []
  {
    assert [e][1..] == [];
  }

  /** Whether a call returned. */
  predicate Returned(e: Event)
  {
    match e
    case Fetched(_, ok) => ok
    case Created(_, _, _, result) => result.Some?
    case Added(_, _, ok) => ok
    case Removed(_, _, ok) => ok
    case Deleted(_, ok) => ok
  }

  /** The run got past the backup phase: the playlist had tracks and its
      backup was created and filled. */
  predicate ReachedReorder(a: Answers)
  {
    a.fetched.Some? && a.fetched.value.tracks != [] && a.created.Some?
    && (VideoIds(a.fetched.value.tracks) != [] ==> a.backupAdd)
  }

  /** Appending two batches of calls one after the other. */
  lemma AppendTwice(log: seq<Event>, first: seq<Event>, second: seq<Event>)
    ensures (log + first) + second == log + (first + second)
  {
  }

  /** The backup phase after the fetch: the creation, then the copy when the
      creation returned and there are ids. */
  lemma BackupCallsAfterFetch(pid: PlaylistId, p: Playlist, a: Answers)
    ensures BackupCalls(pid, p, a) ==
              [Fetched(pid, true)]
              + ([Created(BackupTitle(p.title), BackupDescription, Private, a.created)]
                 + (if a.created.Some? && VideoIds(p.tracks) != []
                    then [Added(a.created.value, VideoIds(p.tracks), a.backupAdd)] else []))
  {
  }

  /** The run past a non-empty fetch, in its two shapes: stopped at the
      backup, or the backup followed by the guarded part. */
  lemma ExpectedAfterFetch(pid: PlaylistId, a: Answers)
    requires a.fetched.Some? && a.fetched.value.tracks != []
    ensures !ReachedReorder(a) ==>
              Expected(pid, a) == Run(BackupFailed, BackupCalls(pid, a.fetched.value, a))
    ensures ReachedReorder(a) ==>
              Expected(pid, a) == Run(GuardedOutcome(a.fetched.value, a),
                                      BackupCalls(pid, a.fetched.value, a) + GuardedCalls(pid, a.fetched.value, a))
  {
  }

  /** The backup phase only depends on the answers to its own calls. */
  lemma BackupIgnoresLaterAnswers(pid: PlaylistId, p: Playlist, a: Answers, b: Answers)
    requires b.fetched == a.fetched && b.created == a.created && b.backupAdd == a.backupAdd
    ensures BackupCalls(pid, p, b) == BackupCalls(pid, p, a)
    ensures ReachedReorder(b) == ReachedReorder(a)
  {
  }

  // ---------------------------------------------------------------------
  // The protocol's guarantees, for every behaviour of the remote

  /** A failed fetch or a playlist without tracks ends the run right after
      the fetch: no create, add, remove or delete call is made. */
  lemma NothingToSortMakesNoChange(pid: PlaylistId, a: Answers)
    ensures Expected(pid, a).outcome.FetchFailed? <==> a.fetched.None?
    ensures Expected(pid, a).outcome.EmptyPlaylist? <==> a.fetched.Some? && a.fetched.value.tracks == []
    ensures (Expected(pid, a).outcome.FetchFailed? || Expected(pid, a).outcome.EmptyPlaylist?) ==>
              Expected(pid, a).events == [Fetched(pid, a.fetched.Some?)] && OnlyFetches(Expected(pid, a).events)
    ensures !OnlyFetches(Expected(pid, a).events) ==> a.fetched.Some? && a.fetched.value.tracks != []
  {
  }

  /** When the backup cannot be created or filled, the run stops without
      touching the playlist and without deleting anything. */
  lemma BackupFailureTouchesNothing(pid: PlaylistId, a: Answers)
    requires a.created != Some(pid)
    ensures Expected(pid, a).outcome.BackupFailed? <==>
              a.fetched.Some? && a.fetched.value.tracks != [] && !ReachedReorder(a)
    ensures Expected(pid, a).outcome.BackupFailed? ==>
              Untouched(Expected(pid, a).events, pid) && NeverDeletes(Expected(pid, a).events)
  {
  }

  /** Every call that changes the playlist comes after its private backup was
      created and holds the playlist's ids; a run that never gets a backup
      never changes the playlist. */
  lemma BackupBeforeEveryMutation(pid: PlaylistId, a: Answers)
    requires a.created != Some(pid)
    ensures !ReachedReorder(a) ==> Untouched(Expected(pid, a).events, pid)
    ensures ReachedReorder(a) ==>
              MutationsGuarded(Expected(pid, a).events, pid, a.created.value, VideoIds(a.fetched.value.tracks))
  {
    if ReachedReorder(a) {
      var p := a.fetched.value;
      var b := a.created.value;
      var ids := VideoIds(p.tracks);
      var backup := BackupCalls(pid, p, a);
      var events := Expected(pid, a).events;
      assert events[..|backup|] == backup;
      assert BackupReady(backup, b, ids) by {
        assert backup[1].Created? && backup[1].result == Some(b);
        if ids != [] {
          assert backup[2] == Added(b, ids, true);
        }
      }
      forall i | 0 <= i < |events| && Mutates(events[i], pid) ensures BackupReady(events[..i], b, ids) {
        assert i >= |backup|;
        assert events[..i][..|backup|] == backup;
        assert forall e | e in backup :: e in events[..i];
        assert backup[1] == events[..i][1];
      }
    }
  }

  /** A failed restore never deletes the backup, and the one change ever
      made to the backup is the copy of the playlist's original ids, which
      returned: it is the copy left for a manual fix. */
  lemma FailedRestoreKeepsBackup(pid: PlaylistId, a: Answers)
    requires a.created != Some(pid)
    ensures Expected(pid, a).outcome.RestoreFailed? ==>
              ReachedReorder(a) && Expected(pid, a).outcome.backup == a.created.value
              && NeverDeletes(Expected(pid, a).events)
              && BackupReady(Expected(pid, a).events, a.created.value, VideoIds(a.fetched.value.tracks))
              && CallsOn(Expected(pid, a).events, a.created.value)
                 == AddIfAny(a.created.value, VideoIds(a.fetched.value.tracks), true)
              && Untouched(Expected(pid, a).events[|BackupCalls(pid, a.fetched.value, a)|..], a.created.value)
  {
    var r := Expected(pid, a);
    if r.outcome.RestoreFailed? {
      var p := a.fetched.value;
      var b := a.created.value;
      ExpectedAfterFetch(pid, a);
      assert ReachedReorder(a) && ReorderRaised(p, a) && !Restored(a);
      FailedRestoreEndsRun(pid, p, a);
      var backup, reorder, restore := BackupCalls(pid, p, a), ReorderCalls(pid, p, a), RestoreCalls(pid, p, a);
      AppendTwice(backup, reorder, restore);
      assert r.events == backup + (reorder + restore);
      PhasesNeverDelete(pid, p, a);
      assert r.events[1] == backup[1];
      var ids := VideoIds(p.tracks);
      if ids != [] {
        assert r.events[2] == backup[2] == Added(b, ids, true);
      }
      assert r.events[|backup|..] == reorder + restore;
      BackupCallsOnBackup(pid, a);
      PhasesSpareTheBackup(pid, p, a, b);
      CallsOnConcat(backup, reorder + restore, b);
    }
  }

  /** No call of `s` changes `b`, so none is selected. */
  lemma {:induction false} CallsOnUntouched(s: seq<Event>, b: PlaylistId)
    requires Untouched(s, b)
    ensures CallsOn(s, b) == []
  {
    if s != [] {
      assert s[0] in s;
      assert forall e | e in s[1..] :: e in s;
      CallsOnUntouched(s[1..], b);
    }
  }

  /** The backup sees only the copy of the ids, which returned when there
      were ids. */
  lemma BackupCallsOnBackup(pid: PlaylistId, a: Answers)
    requires ReachedReorder(a)
    ensures CallsOn(BackupCalls(pid, a.fetched.value, a), a.created.value)
            == AddIfAny(a.created.value, VideoIds(a.fetched.value.tracks), true)
  {
    var p := a.fetched.value;
    var b := a.created.value;
    var ids := VideoIds(p.tracks);
    var head := [Fetched(pid, true), Created(BackupTitle(p.title), BackupDescription, Private, a.created)];
    var copy := AddIfAny(b, ids, true);
    assert BackupCalls(pid, p, a) == head + copy;
    CallsOnUntouched(head, b);
    CallsOnConcat(head, copy, b);
    if ids != [] {
      CallsOnSingleton(copy[0], b);
    }
  }

  /** The reorder and the restore only call on the playlist itself, so they
      leave any other playlist alone. */
  lemma PhasesSpareTheBackup(pid: PlaylistId, p: Playlist, a: Answers, b: PlaylistId)
    requires b != pid
    ensures Untouched(ReorderCalls(pid, p, a) + RestoreCalls(pid, p, a), b)
    ensures CallsOn(ReorderCalls(pid, p, a) + RestoreCalls(pid, p, a), b) == []
  {
    var s := ReorderCalls(pid, p, a) + RestoreCalls(pid, p, a);
    assert forall e | e in s :: e.pid == pid;
    CallsOnUntouched(s, b);
  }

  lemma DeletedOnceAtEndIntro(prefix: seq<Event>, b: PlaylistId, d: bool)
    requires NeverDeletes(prefix)
    ensures DeletedOnceAtEnd(prefix + [Deleted(b, d)], b)
  {
    var events := prefix + [Deleted(b, d)];
    forall i | 0 <= i < |events| - 1 ensures !events[i].Deleted? {
      assert events[i] == prefix[i];
    }
  }

  /** Only the cleanup deletes: no call before it deletes anything. */
  lemma PhasesNeverDelete(pid: PlaylistId, p: Playlist, a: Answers)
    ensures NeverDeletes(BackupCalls(pid, p, a) + ReorderCalls(pid, p, a))
    ensures NeverDeletes(BackupCalls(pid, p, a) + ReorderCalls(pid, p, a) + RestoreCalls(pid, p, a))
  {
  }

  /** A sorted or restored playlist ends the run with exactly one call,
      the last, deleting the backup. */
  lemma BackupDeletedOnceOtherwise(pid: PlaylistId, a: Answers)
    ensures (Expected(pid, a).outcome.Sorted? || Expected(pid, a).outcome.RestoredAfterError?) ==>
              ReachedReorder(a) && DeletedOnceAtEnd(Expected(pid, a).events, a.created.value)
  {
    var r := Expected(pid, a);
    if a.fetched.Some? && a.fetched.value.tracks != [] && ReachedReorder(a) {
      var p := a.fetched.value;
      ExpectedAfterFetch(pid, a);
      var backup, reorder := BackupCalls(pid, p, a), ReorderCalls(pid, p, a);
      var deleted := [Deleted(a.created.value, a.delete)];
      PhasesNeverDelete(pid, p, a);
      if !ReorderRaised(p, a) {
        assert GuardedCalls(pid, p, a) == reorder + [] + deleted;
        AppendTwice(backup, reorder, deleted);
        assert r.events == backup + reorder + deleted;
        DeletedOnceAtEndIntro(backup + reorder, a.created.value, a.delete);
      } else if Restored(a) {
        var restore := RestoreCalls(pid, p, a);
        assert GuardedCalls(pid, p, a) == reorder + restore + deleted;
        AppendTwice(backup, reorder + restore, deleted);
        AppendTwice(backup, reorder, restore);
        assert r.events == backup + reorder + restore + deleted;
        DeletedOnceAtEndIntro(backup + reorder + restore, a.created.value, a.delete);
      }
    }
  }

  /** Whether the backup deletion returns or raises does not change the
      outcome: a failed cleanup is only a warning. */
  lemma CleanupFailureIsOnlyAWarning(pid: PlaylistId, a: Answers, d: bool)
    ensures Expected(pid, a.(delete := d)).outcome == Expected(pid, a).outcome
  {
  }

  /** The backup phase never touches the playlist. */
  lemma BackupCallsSpareThePlaylist(pid: PlaylistId, p: Playlist, a: Answers)
    requires a.created != Some(pid)
    ensures CallsOn(BackupCalls(pid, p, a), pid) == []
  {
    var ids := VideoIds(p.tracks);
    var head := [Fetched(pid, true), Created(BackupTitle(p.title), BackupDescription, Private, a.created)];
    CallsOnConcat([head[0]], [head[1]], pid);
    assert head == [head[0]] + [head[1]];
    CallsOnSingleton(head[0], pid);
    CallsOnSingleton(head[1], pid);
    if a.created.Some? && ids != [] {
      CallsOnConcat(head, [Added(a.created.value, ids, a.backupAdd)], pid);
      CallsOnSingleton(Added(a.created.value, ids, a.backupAdd), pid);
    } else {
      assert BackupCalls(pid, p, a) == head;
    }
  }

  /** Two calls on the playlist, or the first alone, are all calls on it. */
  lemma CallsOnPair(first: Event, second: Event, both: bool, pid: PlaylistId)
    requires Mutates(first, pid) && Mutates(second, pid)
    ensures var calls := [first] + (if both then [second] else []);
            CallsOn(calls, pid) == calls
  {
    CallsOnSingleton(first, pid);
    if both {
      CallsOnConcat([first], [second], pid);
      CallsOnSingleton(second, pid);
    } else {
      assert [first] + [] == [first];
    }
  }

  lemma CallsOnPhases(pid: PlaylistId, p: Playlist, a: Answers)
    requires a.created != Some(pid)
    ensures CallsOn(BackupCalls(pid, p, a), pid) == []
    ensures CallsOn(ReorderCalls(pid, p, a), pid) == ReorderCalls(pid, p, a)
    ensures CallsOn(RestoreCalls(pid, p, a), pid) == RestoreCalls(pid, p, a)
  {
    var ids := VideoIds(p.tracks);
    var sortedIds := VideoIds(SortByArtist(p.tracks));
    var items := RemovalItems(p.tracks);
    BackupCallsSpareThePlaylist(pid, p, a);
    CallsOnPair(Removed(pid, items, a.remove), Added(pid, sortedIds, a.add), a.remove && sortedIds != [], pid);
    assert ReorderCalls(pid, p, a) ==
      [Removed(pid, items, a.remove)] + (if a.remove && sortedIds != [] then [Added(pid, sortedIds, a.add)] else []);
    CallsOnPair(Removed(pid, items, a.restoreRemove), Added(pid, ids, a.restoreAdd), a.restoreRemove, pid);
  }

  /** What the playlist itself sees in a run that got past the backup: the
      removal and the sorted add, and, when one of them raised, the same
      removal again followed by the add of the ids in their original order. */
  lemma PlaylistHistory(pid: PlaylistId, a: Answers)
    requires a.created != Some(pid)
    requires ReachedReorder(a)
    ensures CallsOn(Expected(pid, a).events, pid) ==
              ReorderCalls(pid, a.fetched.value, a)
              + (if ReorderRaised(a.fetched.value, a) then RestoreCalls(pid, a.fetched.value, a) else [])
  {
    var p := a.fetched.value;
    ExpectedAfterFetch(pid, a);
    var backup, reorder := BackupCalls(pid, p, a), ReorderCalls(pid, p, a);
    var restore := if ReorderRaised(p, a) then RestoreCalls(pid, p, a) else [];
    var cleanup := if !ReorderRaised(p, a) || Restored(a) then [Deleted(a.created.value, a.delete)] else [];
    CallsOnPhases(pid, p, a);
    assert CallsOn(restore, pid) == restore;
    assert CallsOn(cleanup, pid) == [] by {
      if cleanup != [] {
        CallsOnSingleton(cleanup[0], pid);
      }
    }
    CallsOnConcat(reorder, restore, pid);
    CallsOnConcat(reorder + restore, cleanup, pid);
    assert GuardedCalls(pid, p, a) == reorder + restore + cleanup;
    CallsOnConcat(backup, reorder + restore + cleanup, pid);
  }

  /** Some call on `p` raised. */
  predicate SomeCallRaised(events: seq<Event>, p: PlaylistId)
  {
    exists e | e in CallsOn(events, p) :: !Returned(e)
  }

  /** The status past the backup, read off the playlist's calls of that part:
      `calls` are the calls on the playlist of a run answered by `a`. */
  lemma GuardedOutcomeReflectsCalls(pid: PlaylistId, p: Playlist, a: Answers, calls: seq<Event>)
    requires a.created.Some?
    requires calls == ReorderCalls(pid, p, a) + (if ReorderRaised(p, a) then RestoreCalls(pid, p, a) else [])
    ensures calls != []
    ensures GuardedOutcome(p, a) == Sorted <==> forall e | e in calls :: Returned(e)
    ensures GuardedOutcome(p, a) == RestoredAfterError <==>
              (exists e | e in calls :: !Returned(e)) && Returned(calls[|calls| - 1])
    ensures GuardedOutcome(p, a).RestoreFailed? <==> !Returned(calls[|calls| - 1])
  {
    var reorder := ReorderCalls(pid, p, a);
    if !ReorderRaised(p, a) {
      assert forall e | e in reorder :: Returned(e);
    } else {
      var restore := RestoreCalls(pid, p, a);
      var bad := if !a.remove then reorder[0] else reorder[1];
      assert bad in calls && !Returned(bad);
      assert calls[|calls| - 1] == restore[|restore| - 1];
    }
  }

  /** The status is read off the calls on the playlist `p`: there is at
      least one; sorted when none raised, restored when one raised but the
      last (the restore add) returned, restore-failed when the last raised. */
  predicate StatusMatchesCalls(outcome: Outcome, events: seq<Event>, p: PlaylistId)
  {
    var calls := CallsOn(events, p);
    && calls != []
    && (outcome == Sorted <==> !SomeCallRaised(events, p))
    && (outcome == RestoredAfterError <==> SomeCallRaised(events, p) && Returned(calls[|calls| - 1]))
    && (outcome.RestoreFailed? <==> !Returned(calls[|calls| - 1]))
  }

  /** Past the backup, the status is read off the playlist's own calls. */
  lemma StatusReflectsCalls(pid: PlaylistId, a: Answers)
    requires a.created != Some(pid)
    requires ReachedReorder(a)
    ensures StatusMatchesCalls(Expected(pid, a).outcome, Expected(pid, a).events, pid)
  {
    var p := a.fetched.value;
    var r := Expected(pid, a);
    assert r.outcome == GuardedOutcome(p, a);
    PlaylistHistory(pid, a);
    GuardedOutcomeReflectsCalls(pid, p, a, CallsOn(r.events, pid));
  }

  /** A run that stops before the reorder changes nothing: without tracks
      nothing but the fetch; with no backup, no change to the playlist and no
      deletion. */
  predicate StopsEarlySafely(pid: PlaylistId, a: Answers, outcome: Outcome, events: seq<Event>)
  {
    && ((outcome.FetchFailed? || outcome.EmptyPlaylist?) ==> OnlyFetches(events))
    && (!ReachedReorder(a) ==> Untouched(events, pid))
    && (outcome.BackupFailed? ==> NeverDeletes(events))
  }

  /** Past the backup, the playlist changes only once its backup holds its
      ids, and the status is read off the playlist's calls. */
  predicate ReordersSafely(pid: PlaylistId, a: Answers, outcome: Outcome, events: seq<Event>)
  {
    ReachedReorder(a) ==>
      && MutationsGuarded(events, pid, a.created.value, VideoIds(a.fetched.value.tracks))
      && StatusMatchesCalls(outcome, events, pid)
  }

  /** After a failed restore nothing is deleted and the only change ever made
      to the kept backup is the copy of the original ids; otherwise the backup
      is deleted once, last. */
  predicate BackupHandled(a: Answers, outcome: Outcome, events: seq<Event>)
  {
    && (outcome.RestoreFailed? ==>
          && ReachedReorder(a)
          && NeverDeletes(events)
          && CallsOn(events, outcome.backup) == AddIfAny(outcome.backup, VideoIds(a.fetched.value.tracks), true))
    && ((outcome.Sorted? || outcome.RestoredAfterError?) ==> ReachedReorder(a) && DeletedOnceAtEnd(events, a.created.value))
  }

  /** The deletion's answer never changes the outcome. */
  predicate CleanupOnlyWarns(pid: PlaylistId, a: Answers, outcome: Outcome)
  {
    forall d: bool :: Expected(pid, a.(delete := d)).outcome == outcome
  }

  /** The guarantees above, for the calls `events` of one run answered by `a`
      that ended with `outcome`. */
  predicate Guarantees(pid: PlaylistId, a: Answers, outcome: Outcome, events: seq<Event>)
  {
    && StopsEarlySafely(pid, a, outcome, events)
    && ReordersSafely(pid, a, outcome, events)
    && BackupHandled(a, outcome, events)
    && CleanupOnlyWarns(pid, a, outcome)
  }

  lemma RunGuarantees(pid: PlaylistId, a: Answers)
    requires a.created != Some(pid)
    ensures Guarantees(pid, a, Expected(pid, a).outcome, Expected(pid, a).events)
  {
    NothingToSortMakesNoChange(pid, a);
    BackupFailureTouchesNothing(pid, a);
    BackupBeforeEveryMutation(pid, a);
    if ReachedReorder(a) {
      StatusReflectsCalls(pid, a);
    }
    FailedRestoreKeepsBackup(pid, a);
    BackupDeletedOnceOtherwise(pid, a);
    forall d: bool ensures Expected(pid, a.(delete := d)).outcome == Expected(pid, a).outcome {
      CleanupFailureIsOnlyAWarning(pid, a, d);
    }
  }
}
