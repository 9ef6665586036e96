/**
 * The `MageSystem` object of the page: its fields, updated in place by its
 * methods, and the `mageSystem` storage entry it writes. Each method is proved
 * against the function of the same name in module Tracker, whose properties
 * module TrackerProperties states.
 */
module Mage {
  import opened Wrappers
  import Tracker

  class MageSystem {
    var currentChars: int
    var notesCreated: int
    var charsWritten: int
    var sessionStart: int
    var isActive: bool
    var achievements: set<Tracker.AchievementId>
    /** The storage entry under the key `mageSystem`. */
    var stored: Tracker.Storage

    /** The fields as a value. */
    function Model(): Tracker.State
      reads this
    {
      Tracker.State(currentChars, notesCreated, charsWritten, sessionStart, isActive, achievements, stored)
    }

    /**
     * Construction on the storage entry found at start-up, at time `now`:
     * zero counters, idle, no badges, then loadFromStorage.
     */
    constructor (stored: Tracker.Storage, now: int)
      ensures Model() == Tracker.Boot(stored, now)
      ensures !isActive
    {
      currentChars := 0;
      notesCreated := 0;
      charsWritten := 0;
      sessionStart := now;
      isActive := false;
      achievements := {};
      this.stored := stored;
      new;
      LoadFromStorage(now);
    }

    /** handleObsidianMessage: route by message type; other types are ignored. */
    method HandleObsidianMessage(msg: Tracker.Message)
      modifies this
      ensures Model() == Tracker.HandleObsidianMessage(old(Model()), msg)
    {
      if msg.kind == "characterCount" {
        UpdateCharacterCount(msg.count);
      } else if msg.kind == "newNote" {
        OnNewNoteCreated();
      } else if msg.kind == "sessionUpdate" {
        UpdateSessionStats(msg.totalChars, msg.totalNotes);
      }
    }

    /** handleKeydown: a one-character key reports one more character. */
    method HandleKeydown(key: string)
      modifies this
      ensures Model() == Tracker.HandleKeydown(old(Model()), key)
    {
      if |key| == 1 {
        UpdateCharacterCount(currentChars + 1);
      }
    }

    /** updateCharacterCount, without the display refresh and the log line. */
    method UpdateCharacterCount(count: int)
      modifies this
      ensures Model() == Tracker.UpdateCharacterCount(old(Model()), count)
      ensures currentChars == count && isActive == (count >= Tracker.ActiveThreshold)
      ensures charsWritten >= old(charsWritten) && old(achievements) <= achievements
    {
      var previousChars := currentChars;
      currentChars := count;
      charsWritten := charsWritten + Tracker.Gain(previousChars, count);

      SaveToStorage();
      CheckAchievements();

      if count >= Tracker.ActiveThreshold && !isActive {
        ActivateCharacter();
      } else if count < Tracker.ActiveThreshold && isActive {
        DeactivateCharacter();
      }
    }

    /** onNewNoteCreated, without the animation and the log line. */
    method OnNewNoteCreated()
      modifies this
      ensures Model() == Tracker.OnNewNoteCreated(old(Model()))
      ensures notesCreated == old(notesCreated) + 1
      ensures currentChars == old(currentChars) && charsWritten == old(charsWritten) && isActive == old(isActive)
    {
      notesCreated := notesCreated + 1;
      SaveToStorage();
      CheckAchievements();
    }

    /** The state part of activateCharacter. */
    method ActivateCharacter()
      modifies this
      ensures Model() == Tracker.ActivateCharacter(old(Model()))
    {
      isActive := true;
      UnlockAchievement(Tracker.First200);
    }

    /** The state part of deactivateCharacter. */
    method DeactivateCharacter()
      modifies this
      ensures Model() == Tracker.DeactivateCharacter(old(Model()))
    {
      isActive := false;
    }

    /** checkAchievements: unlock each badge whose goal is reached and that is still locked. */
    method CheckAchievements()
      modifies this
      ensures Model() == Tracker.CheckAchievements(old(Model()))
      ensures achievements == old(achievements) + Tracker.Earned(old(Model()))
    {
      if currentChars >= Tracker.ActiveThreshold && Tracker.First200 !in achievements {
        UnlockAchievement(Tracker.First200);
      }
      if notesCreated >= Tracker.NotesGoal && Tracker.FiveNotes !in achievements {
        UnlockAchievement(Tracker.FiveNotes);
      }
      if charsWritten >= Tracker.DailyGoal && Tracker.DailyWriter !in achievements {
        UnlockAchievement(Tracker.DailyWriter);
      }
    }

    /** The state part of unlockAchievement: add the id to the set. */
    method UnlockAchievement(id: Tracker.AchievementId)
      modifies this
      ensures Model() == Tracker.UnlockAchievement(old(Model()), id)
    {
      achievements := achievements + {id};
    }

    /** updateSessionStats: overwrite the totals that are given and truthy. */
    method UpdateSessionStats(totalChars: Option<int>, totalNotes: Option<int>)
      modifies this
      ensures Model() == Tracker.UpdateSessionStats(old(Model()), totalChars, totalNotes)
    {
      if Tracker.Truthy(totalChars) {
        charsWritten := totalChars.value;
      }
      if Tracker.Truthy(totalNotes) {
        notesCreated := totalNotes.value;
      }
    }

    /** saveToStorage: write the record of the current fields. */
    method SaveToStorage()
      modifies this
      ensures Model() == Tracker.SaveToStorage(old(Model()))
    {
      var data := Tracker.StoredRecord(
        Some(currentChars),
        Some(notesCreated),
        Some(charsWritten),
        Some(Tracker.Listed(achievements)),
        Some(sessionStart));
      stored := Tracker.Present(data);
    }

    /**
     * loadFromStorage: on an unparseable entry nothing is assigned; otherwise
     * each field takes the stored value, or its default when that is falsy.
     */
    method LoadFromStorage(now: int)
      modifies this
      ensures Model() == Tracker.LoadFromStorage(old(Model()), now)
    {
      if stored.Malformed? {
        return;
      }
      var data := if stored.Present? then stored.record else Tracker.EmptyRecord;
      currentChars := Tracker.OrElse(data.chars, 0);
      notesCreated := Tracker.OrElse(data.notes, 0);
      charsWritten := Tracker.OrElse(data.totalChars, 0);
      achievements := Tracker.Unlisted(if data.achievements.Some? then data.achievements.value else []);
      sessionStart := Tracker.OrElse(data.sessionStart, now);
    }
  }

  /**
   * resetStats on the page's tracker: remove the storage entry, clear the
   * badges, then reload the page, which constructs a new tracker at `now`.
   */
  method ResetStats(system: MageSystem, now: int) returns (reloaded: MageSystem)
    modifies system
    ensures system.Model() == Tracker.ResetStats(old(system.Model()))
    ensures fresh(reloaded) && reloaded.Model() == Tracker.Zero(Tracker.Absent, now)
  {
    system.stored := Tracker.Absent;
    system.achievements := {};
    reloaded := new MageSystem(system.stored, now);
  }
}
