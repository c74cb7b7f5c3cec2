/**
 * Recovery in the form the program has it: one pass over the manifest, one over the
 * directory, one that lays the segments end to end, and the trim it finishes with.
 */
module RecoveryLoop {
  import opened Wrappers
  import opened SegmentNames
  import opened SegmentCache
  import opened CacheHistory
  import opened CacheWindow
  import opened Recovery
  import opened Recorder

  lemma SurvivorsStep(entries: seq<Segment>, i: nat, disk: Disk, retained: seq<Segment>)
    requires i < |entries|
    ensures var s := entries[i];
            retained + Survivors(entries[i..], disk)
            == (if FileSize(disk, s.name) > 0 then retained + [Repaired(s, disk)] else retained)
               + Survivors(entries[i + 1..], disk)
  {
    assert entries[i..][1..] == entries[i + 1..];
  }

  /** Keeps the manifest entries whose files still hold samples, with their actual lengths. */
  method RetainManifested(entries: seq<Segment>, disk: Disk)
    returns (retained: seq<Segment>, files: set<string>, changed: bool)
    ensures retained == Survivors(entries, disk)
    ensures forall name :: name in files <==> Lists(retained, name)
    ensures changed <==> !CountsHold(entries, disk)
  {
    retained, files, changed := [], {}, false;
    var i := 0;
    assert entries[0..] == entries;
    while i < |entries|
      invariant i <= |entries|
      invariant retained + Survivors(entries[i..], disk) == Survivors(entries, disk)
      invariant forall name :: name in files <==> Lists(retained, name)
      invariant changed <==>
                exists k :: 0 <= k < i && FileSize(disk, entries[k].name) > 0
                            && entries[k].count != FileSize(disk, entries[k].name)
    {
      SurvivorsStep(entries, i, disk, retained);
      var entry := entries[i];
      if entry.name in disk && |disk[entry.name]| > 0 {
        var samples := |disk[entry.name]|;
        if entry.count != samples {
          changed := true;
        }
        ListsMore(retained, entry.(complete := true, count := samples));
        files := files + {entry.name};
        retained := retained + [entry.(complete := true, count := samples)];
      }
      i := i + 1;
    }
    assert entries[i..] == [] && retained + [] == retained;
    assert forall s :: s in entries ==> exists k :: 0 <= k < |entries| && entries[k] == s;
  }

  lemma ListsMore(segments: seq<Segment>, s: Segment)
    ensures forall name :: Lists(segments + [s], name) <==> Lists(segments, name) || name == s.name
  {
    assert s in segments + [s];
    assert forall x :: x in segments ==> x in segments + [s];
  }

  lemma UntrackedStep(listing: seq<string>, i: nat, tracked: seq<Segment>, disk: Disk, retained: seq<Segment>)
    requires i < |listing|
    ensures var name := listing[i];
            retained + Untracked(listing[i..], tracked, disk)
            == (if IsUntracked(name, tracked, disk)
                then retained + [Segment(SegmentIndexFromName(name).value, name, 0, FileSize(disk, name), true)]
                else retained)
               + Untracked(listing[i + 1..], tracked, disk)
  {
    assert listing[i..][1..] == listing[i + 1..];
  }

  /** Adds the segment files that no retained entry names. */
  method AddUntracked(listing: seq<string>, files: set<string>, tracked: seq<Segment>, disk: Disk)
    returns (retained: seq<Segment>)
    requires forall name :: name in files <==> Lists(tracked, name)
    ensures retained == tracked + Untracked(listing, tracked, disk)
  {
    hide Lists;
    retained := tracked;
    var i := 0;
    assert listing[0..] == listing;
    while i < |listing|
      invariant i <= |listing|
      invariant retained + Untracked(listing[i..], tracked, disk) == tracked + Untracked(listing, tracked, disk)
    {
      UntrackedStep(listing, i, tracked, disk, retained);
      var name := listing[i];
      i := i + 1;
      if name in files {
        continue;
      }
      var index := SegmentIndexFromName(name);
      if index.None? || name !in disk || |disk[name]| == 0 {
        continue;
      }
      retained := retained + [Segment(index.value, name, 0, |disk[name]|, true)];
    }
    assert listing[i..] == [] && retained + [] == retained;
  }

  /** The first segments are laid end to end up to a sample, the others are as found. */
  predicate Laid(found: seq<Segment>, i: nat, next: nat, segments: seq<Segment>, changed: bool) {
    && i <= |found| == |segments| && segments[i..] == found[i..]
    && segments[..i] + Rebase(found[i..], next) == Rebase(found, 0)
    && next + SampleSum(found[i..]) == SampleSum(found)
    && (changed <==> segments[..i] != found[..i])
  }

  lemma LaidStart(found: seq<Segment>)
    ensures Laid(found, 0, 0, found, false)
  {
    assert found[0..] == found && found[..0] + Rebase(found, 0) == Rebase(found, 0);
  }

  lemma LaidStep(found: seq<Segment>, i: nat, next: nat, segments: seq<Segment>, changed: bool)
    requires Laid(found, i, next, segments, changed) && i < |found|
    ensures segments[i] == found[i]
    ensures var moved := found[i].(start := next);
            Laid(found, i + 1, next + found[i].count, segments[i := moved], changed || found[i].start != next)
  {
    var moved := found[i].(start := next);
    var after := segments[i := moved];
    RebaseStep(found, i, next, segments[..i]);
    hide Rebase, SampleSum;
    LaidParts(found, i, segments, moved);
    SameSoFar(found, segments[..i], moved);
    assert moved == found[i] <==> found[i].start == next;
  }

  lemma LaidParts(found: seq<Segment>, i: nat, segments: seq<Segment>, moved: Segment)
    requires i < |found| == |segments| && segments[i..] == found[i..]
    ensures segments[i] == found[i] && segments[i := moved][i + 1..] == found[i + 1..]
    ensures segments[i := moved][..i + 1] == segments[..i] + [moved]
  {
    assert segments[i..][0] == found[i..][0];
    assert segments[i..][1..] == segments[i + 1..] && found[i..][1..] == found[i + 1..];
  }

  lemma LaidEnd(found: seq<Segment>, next: nat, segments: seq<Segment>, changed: bool)
    requires Laid(found, |found|, next, segments, changed)
    ensures segments == Rebase(found, 0) && next == SampleSum(found) && (changed <==> Rebase(found, 0) != found)
  {
    assert found[..|found|] == found && segments[..|found|] == segments && segments + [] == segments;
  }

  lemma RebaseStep(found: seq<Segment>, i: nat, next: nat, done: seq<Segment>)
    requires i < |found|
    ensures done + Rebase(found[i..], next)
            == done + [found[i].(start := next)] + Rebase(found[i + 1..], next + found[i].count)
    ensures SampleSum(found[i..]) == found[i].count + SampleSum(found[i + 1..])
  {
    assert found[i..][1..] == found[i + 1..];
  }

  lemma SameSoFar(found: seq<Segment>, done: seq<Segment>, s: Segment)
    requires |done| < |found|
    ensures done + [s] == found[..|done| + 1] <==> done == found[..|done|] && s == found[|done|]
  {
    if done + [s] == found[..|done| + 1] {
      assert done == (done + [s])[..|done|];
      assert s == (done + [s])[|done|];
    }
  }

  /** Lays the segments end to end from sample 0, noting whether any start had to move. */
  method LayEndToEnd(found: seq<Segment>) returns (segments: seq<Segment>, next: nat, changed: bool)
    ensures segments == Rebase(found, 0) && next == SampleSum(found)
    ensures changed <==> Rebase(found, 0) != found
  {
    hide Laid;
    segments, next, changed := found, 0, false;
    var i := 0;
    LaidStart(found);
    while i < |found|
      invariant i <= |found| == |segments| && Laid(found, i, next, segments, changed)
    {
      LaidStep(found, i, next, segments, changed);
      var segment := segments[i];
      changed := changed || segment.start != next;
      segments := segments[i := segment.(start := next)];
      next := next + segment.count;
      i := i + 1;
    }
    LaidEnd(found, next, segments, changed);
  }

  lemma RecoverIs(m: Manifest, audio: nat, cap: nat, limit: nat, disk: Disk, listing: seq<string>)
    ensures var r := Recover(m, audio, cap, limit, disk, listing);
            var found := Found(m, disk, listing);
            && r.cache == Cache(cap, limit, Rebase(found, 0), SampleSum(found), false, [], disk, 2 * SampleSum(found))
            && (r.timelineKept <==> |m.timelineId| > 0 && m.audio == audio
                                    && CountsHold(m.segments, disk) && Rebase(found, 0) == found)
  {
    RebaseTiles(Found(m, disk, listing), 0);
  }

  lemma TrimLeavesNoneExpired(c: Cache, history: seq<Sample>, locked: set<string>)
    requires Inv(c, history)
    ensures var t := Trim(c, {}, locked);
            !t.failed ==> !HasExpired(t.cache)
  {
    TrimClears(c, {}, locked);
    var t := Trim(c, {}, locked);
    if |t.cache.segments| > 0 {
      assert t.cache.segments[0] in t.cache.segments;
    }
  }

  /**
   * Starts a recorder from what an earlier session left. The recorder is the recovered
   * list, trimmed; its history is the samples of the recovered files in index order. A
   * deletion that fails makes the start fail.
   */
  method RecoverLatest(m: Manifest, audio: nat, cap: nat, limit: nat, disk: Disk, listing: seq<string>, locked: set<string>)
    returns (recorder: Option<SegmentedRecorder>, kept: bool)
    requires cap > 0 && limit > 0 && NoRepeats(listing) && DistinctNames(Survivors(m.segments, disk))
    ensures var r := Recover(m, audio, cap, limit, disk, listing);
            && kept == r.timelineKept
            && (recorder.None? <==> Trim(r.cache, {}, locked).failed)
            && (recorder.Some? ==>
                  && recorder.value.Valid() && fresh(recorder.value)
                  && recorder.value.View() == Trim(r.cache, {}, locked).cache
                  && !HasExpired(recorder.value.View())
                  && recorder.value.history == Samples(r.cache.segments, disk))
  {
    hide Survivors, Untracked, SortByIndex, Rebase, CountsHold, Inv, Recover, Trim, Samples;
    var retained, files, repaired := RetainManifested(m.segments, disk);
    retained := AddUntracked(listing, files, retained, disk);
    var segments, total, moved := LayEndToEnd(SortByIndex(retained));
    RecoverIs(m, audio, cap, limit, disk, listing);
    kept := |m.timelineId| > 0 && m.audio == audio && !repaired && !moved;
    RecoveryIsSound(m, audio, cap, limit, disk, listing);
    ghost var cache := Recover(m, audio, cap, limit, disk, listing).cache;
    TrimLeavesNoneExpired(cache, Samples(cache.segments, disk), locked);
    var live := new SegmentedRecorder.Recovered(cap, limit, segments, total, disk, Samples(cache.segments, disk));
    var failed := live.TrimExpiredSegmentsExcept({}, locked);
    recorder := if failed then None else Some(live);
  }
}
