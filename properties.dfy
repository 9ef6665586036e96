/**
 * What the tracker guarantees across calls: idempotent badge checks, the
 * edge-triggered activation switch, the cumulative character total over a
 * run of count updates, the storage round trip and the reset.
 */
module TrackerProperties {
  import opened Wrappers
  import opened Tracker

  // ---------------------------------------------------------------- badges

  /** A second checkAchievements on the state the first one left changes nothing. */
  lemma CheckIdempotent(s: State)
    ensures CheckAchievements(CheckAchievements(s)) == CheckAchievements(s)
    ensures s.achievements <= CheckAchievements(s).achievements
  {
    var r := CheckAchievements(s);
    assert Earned(r) == Earned(s);
  }

  /** unlockAchievement of a badge already unlocked leaves the set as it was. */
  lemma UnlockIdempotent(s: State, id: AchievementId)
    requires id in s.achievements
    ensures UnlockAchievement(s, id) == s
  {
  }

  // ------------------------------------------------------ activation switch

  /**
   * On a settled state the activate step runs exactly on a crossing from
   * below the threshold to at or above it, the deactivate step exactly on the
   * reverse crossing, and neither while the count stays on one side.
   */
  lemma EdgeTriggered(s: State, count: int)
    requires Settled(s)
    ensures Transition(s.isActive, count) == Activate <==>
            s.currentChars < ActiveThreshold <= count
    ensures Transition(s.isActive, count) == Deactivate <==>
            count < ActiveThreshold <= s.currentChars
    ensures Transition(s.isActive, count) == Stay <==>
            (s.currentChars >= ActiveThreshold) == (count >= ActiveThreshold)
  {
  }

  /**
   * Two count updates on the same side of the threshold: the second runs
   * neither switch step, whatever the flag was before the first.
   */
  lemma RepeatedSideNoTransition(s: State, first: int, second: int)
    requires (first >= ActiveThreshold) == (second >= ActiveThreshold)
    ensures Transition(UpdateCharacterCount(s, first).isActive, second) == Stay
  {
    EdgeTriggered(UpdateCharacterCount(s, first), second);
  }

  // ------------------------------------------------- runs of count updates

  /** The state after updateCharacterCount was called with each count in turn. */
  function ReplayCounts(s: State, counts: seq<int>): State
    decreases |counts|
  {
    if |counts| == 0 then s else ReplayCounts(UpdateCharacterCount(s, counts[0]), counts[1..])
  }

  /** The sum of the positive differences between consecutive counts, starting from `from`. */
  function PositiveDeltas(from: int, counts: seq<int>): (r: int)
    ensures r >= 0
    ensures |counts| > 0 ==> r >= counts[|counts| - 1] - from
    decreases |counts|
  {
    if |counts| == 0 then 0
    else (if counts[0] > from then counts[0] - from else 0) + PositiveDeltas(counts[0], counts[1..])
  }

  /**
   * Over a run of count updates the total grows by exactly the sum of the
   * positive deltas; the current count is the last one reported, the flag
   * agrees with it, and no badge is lost.
   */
  lemma {:induction false} ReplayWritten(s: State, counts: seq<int>)
    ensures ReplayCounts(s, counts).charsWritten == s.charsWritten + PositiveDeltas(s.currentChars, counts)
    ensures |counts| > 0 ==> ReplayCounts(s, counts).currentChars == counts[|counts| - 1]
    ensures |counts| > 0 ==> Settled(ReplayCounts(s, counts))
    ensures s.achievements <= ReplayCounts(s, counts).achievements
    ensures ReplayCounts(s, counts).notesCreated == s.notesCreated
    decreases |counts|
  {
    if |counts| > 0 {
      var next := UpdateCharacterCount(s, counts[0]);
      ReplayWritten(next, counts[1..]);
      if |counts| > 1 {
        assert counts[1..][|counts[1..]| - 1] == counts[|counts| - 1];
      }
    }
  }

  /**
   * Once the total covers the current count it keeps covering it through any
   * run of count updates, deletions and negative counts included.
   */
  lemma WrittenCoversCurrent(s: State, counts: seq<int>)
    requires s.charsWritten >= s.currentChars
    ensures ReplayCounts(s, counts).charsWritten >= ReplayCounts(s, counts).currentChars
  {
    ReplayWritten(s, counts);
  }

  /** From a fresh tracker the total is the sum of the positive deltas from 0. */
  lemma ReplayFromZero(counts: seq<int>, now: int)
    ensures ReplayCounts(Zero(Absent, now), counts).charsWritten == PositiveDeltas(0, counts)
    ensures ReplayCounts(Zero(Absent, now), counts).charsWritten >=
            ReplayCounts(Zero(Absent, now), counts).currentChars
  {
    ReplayWritten(Zero(Absent, now), counts);
    WrittenCoversCurrent(Zero(Absent, now), counts);
  }

  // ------------------------------------------------------ runs of messages

  /** The state after handleObsidianMessage was called with each message in turn. */
  function Run(s: State, msgs: seq<Message>): State
    decreases |msgs|
  {
    if |msgs| == 0 then s else Run(HandleObsidianMessage(s, msgs[0]), msgs[1..])
  }

  /**
   * Without a sessionUpdate message the total never decreases, no badge is
   * lost, and a settled flag stays settled.
   */
  lemma {:induction false} RunWithoutSyncGrows(s: State, msgs: seq<Message>)
    requires forall i :: 0 <= i < |msgs| ==> msgs[i].kind != "sessionUpdate"
    ensures Run(s, msgs).charsWritten >= s.charsWritten
    ensures s.achievements <= Run(s, msgs).achievements
    ensures Settled(s) ==> Settled(Run(s, msgs))
    decreases |msgs|
  {
    if |msgs| > 0 {
      RunWithoutSyncGrows(HandleObsidianMessage(s, msgs[0]), msgs[1..]);
    }
  }

  /** A sessionUpdate with a smaller truthy total makes the total go down. */
  lemma SyncCanLowerTotal(s: State, total: int)
    requires total != 0 && total < s.charsWritten
    ensures HandleObsidianMessage(s, Message("sessionUpdate", 0, Some(total), None)).charsWritten < s.charsWritten
  {
  }

  /** A sessionUpdate whose totals are each zero or missing is ignored. */
  lemma SyncIgnoresFalsy(s: State, count: int, totalChars: Option<int>, totalNotes: Option<int>)
    requires !Truthy(totalChars) && !Truthy(totalNotes)
    ensures HandleObsidianMessage(s, Message("sessionUpdate", count, totalChars, totalNotes)) == s
  {
  }

  /**
   * updateSessionStats does not check the badges: a total of 5000 leaves
   * `dailyWriter` locked until the next event that checks them.
   */
  lemma SyncDefersUnlock(now: int)
    ensures UpdateSessionStats(Zero(Absent, now), Some(5000), None).charsWritten == 5000
    ensures DailyWriter !in UpdateSessionStats(Zero(Absent, now), Some(5000), None).achievements
    ensures DailyWriter in OnNewNoteCreated(UpdateSessionStats(Zero(Absent, now), Some(5000), None)).achievements
  {
  }

  // --------------------------------------------------------------- storage

  /**
   * Loading right after saving changes nothing, except that a zero
   * sessionStart (falsy) is replaced by the time of loading.
   */
  lemma SaveLoadRoundTrip(s: State, now: int)
    ensures LoadFromStorage(SaveToStorage(s), now) ==
            SaveToStorage(s).(sessionStart := if s.sessionStart != 0 then s.sessionStart else now)
  {
    ListedMembers(s.achievements);
    assert Unlisted(Listed(s.achievements)) == s.achievements;
  }

  /**
   * A tracker constructed on a saved record restores its counters, badges
   * and non-zero sessionStart, but starts idle whatever the count.
   */
  lemma SaveBootRoundTrip(s: State, now: int)
    ensures Boot(SaveToStorage(s).stored, now) ==
            Zero(SaveToStorage(s).stored, now).(
              currentChars := s.currentChars,
              notesCreated := s.notesCreated,
              charsWritten := s.charsWritten,
              achievements := s.achievements,
              sessionStart := if s.sessionStart != 0 then s.sessionStart else now)
  {
    ListedMembers(s.achievements);
    assert Unlisted(Listed(s.achievements)) == s.achievements;
  }

  /** A reload of a saved energized tracker is not settled: the flag is false at or above 200. */
  lemma BootIgnoresActivity(s: State, now: int)
    requires s.currentChars >= ActiveThreshold
    ensures !Settled(Boot(SaveToStorage(s).stored, now))
  {
    SaveBootRoundTrip(s, now);
  }

  /**
   * updateCharacterCount saves before it checks the badges, so the record it
   * writes lacks a badge that same update unlocks.
   */
  lemma SavedRecordLagsUnlock(now: int)
    ensures First200 in UpdateCharacterCount(Zero(Absent, now), 200).achievements
    ensures Boot(UpdateCharacterCount(Zero(Absent, now), 200).stored, now).achievements == {}
  {
    var r := UpdateCharacterCount(Zero(Absent, now), 200);
    assert Listed({}) == [];
    assert r.stored.record.achievements == Some([]);
  }

  /** After resetStats a load in place yields zero counters and no badges, and leaves the flag. */
  lemma ResetThenLoad(s: State, now: int)
    ensures LoadFromStorage(ResetStats(s), now) ==
            Zero(Absent, now).(isActive := s.isActive)
  {
  }

  // ------------------------------------------------------------- scenarios

  /** 199 characters: idle, no badge; then 200: energized, `first200`, total 200. */
  lemma ScenarioThreshold(now: int)
    ensures var a := UpdateCharacterCount(Zero(Absent, now), 199);
            !a.isActive && a.achievements == {}
    ensures var b := UpdateCharacterCount(UpdateCharacterCount(Zero(Absent, now), 199), 200);
            b.isActive && b.achievements == {First200} && b.charsWritten == 200
  {
  }

  /** 250 characters then five new notes: `fiveNotes` is unlocked. */
  lemma ScenarioFiveNotes(now: int)
    ensures var s := OnNewNoteCreated(OnNewNoteCreated(OnNewNoteCreated(OnNewNoteCreated(
                       OnNewNoteCreated(UpdateCharacterCount(Zero(Absent, now), 250))))));
            s.notesCreated == 5 && s.achievements == {First200, FiveNotes}
  {
  }

  /** 300 characters then a deletion to 150: total stays 300, one deactivation. */
  lemma ScenarioDeletion(now: int)
    ensures var a := UpdateCharacterCount(Zero(Absent, now), 300);
            var b := UpdateCharacterCount(a, 150);
            Transition(a.isActive, 150) == Deactivate &&
            b.currentChars == 150 && b.charsWritten == 300 && !b.isActive
  {
  }
}
