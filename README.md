# obsidian-mage: the writing-activity tracker

The mage page of obsidian-mage shows an animated character that reacts to how
much the user writes in Obsidian. The only logic behind it is the `MageSystem`
object in `script.js`. It tracks the characters in the current note
(`currentChars`), the notes created (`notesCreated`) and the characters written
in total (`charsWritten`). It also keeps the energized flag (`isActive`, which
follows a threshold of 200 characters) and the unlocked badges (`first200`,
`fiveNotes`, `dailyWriter`). It persists five fields under the storage key
`mageSystem`: `currentChars`, `notesCreated`, `charsWritten`, the badge list and
`sessionStart`. The flag `isActive` is not stored.

This project models that object in Dafny:

- `wrappers.dfy`: module `Wrappers`, the `Option` type.
- `tracker.dfy`: module `Tracker`. The state as a value (`State`), the stored
  record (`StoredRecord`), the storage entry (`Storage`: absent, unparseable,
  or a record) and the host's messages (`Message`). It has one function per
  operation, each the specification of the class method of the same name.
  The function of each operation that a message, a key or a page action
  starts (count update, new note, badge check, session sync, load, start-up,
  reset, dispatch) states in its `ensures` what the operation promises. The
  small steps they are built from (`ActivateCharacter`, `DeactivateCharacter`,
  `UnlockAchievement`, `SaveToStorage`) are plain definitions; their effect is
  stated through the operations that use them and the lemmas.
- `properties.dfy`: module `TrackerProperties`. Lemmas that relate several
  calls: idempotent badge checks, the edge-triggered switch, the cumulative
  total over a run of updates, runs of messages, the storage round trip, the
  reset, and the worked scenarios.
- `mage_system.dfy`: module `Mage`. The class `MageSystem`, with the source's
  fields updated in place by methods that mirror the source statement by
  statement. Each method is proved to produce
  `Tracker.F(old(Model()))`. The module-level `ResetStats` acts on a tracker
  and returns the one the page reload builds.

The storage entry is the field `stored` of the class. Its record has optional
fields, so a partial record such as `{}` is covered. The JavaScript defaults
`x || d` become `OrElse`, which replaces a missing or zero value. "Now"
(`Date.now()`) is a parameter.

The model follows the code literally where its behaviour is surprising:

- Loading never sets `isActive` from the loaded count. A tracker built on a
  saved record with 200 or more characters starts idle
  (`TrackerProperties.BootIgnoresActivity`).
- `updateSessionStats` neither saves nor checks the badges. A synced total of
  5000 leaves `dailyWriter` locked until the next count update or new note
  (`TrackerProperties.SyncDefersUnlock`). A smaller truthy total lowers
  `charsWritten` (`TrackerProperties.SyncCanLowerTotal`).
- `saveToStorage` runs before `checkAchievements`. The record an update writes
  therefore lacks a badge that the same update unlocks
  (`TrackerProperties.SavedRecordLagsUnlock`).
- `count` is not clamped at zero.
- `resetStats` itself clears only the storage entry and the badge set. The
  zero counters come from the page reload.

## Model

| member | source | states |
|---|---|---|
| Tracker.Earned | script.js:154-166 | `first200` is earned iff `currentChars >= 200`, `fiveNotes` iff `notesCreated >= 5`, `dailyWriter` iff `charsWritten >= 1000` |
| Tracker.CheckAchievements | script.js:154-166 | the three guarded unlocks add exactly the earned badges to the set (a union) and change nothing else |
| Tracker.Gain | script.js:83 | the amount added to the total is non-negative, at least `count - previous`, and either 0 or exactly that difference |
| Tracker.UpdateCharacterCount | script.js:80-96 | `currentChars` becomes `count`; the total grows by exactly the positive difference and never drops; `isActive == (count >= 200)` whatever it was; badges become old ones plus those earned by the new counters; notes and sessionStart unchanged; the stored record is the one with the new counts and the old badges |
| Tracker.OnNewNoteCreated | script.js:98-106 | `notesCreated` grows by exactly 1; current count, total, flag and sessionStart unchanged; badges become old ones plus earned ones; the record with the new note count is stored |
| Tracker.UpdateSessionStats | script.js:198-202 | each total replaces its counter exactly when present and non-zero, else the counter is kept; nothing else changes (no save, no badge check) |
| Tracker.HandleObsidianMessage | script.js:57-71 | `characterCount` goes to the count update with the message's count, `newNote` to the note counter, `sessionUpdate` to the session sync; any other type leaves the state unchanged; no message but sessionUpdate lowers the total or removes a badge; if the flag agreed with the threshold before, it still does after |
| Tracker.HandleKeydown | script.js:73-78 | a one-character key is exactly the count update to `currentChars + 1`: both the current count and the total rise by 1 and the flag agrees with the threshold; any other key changes nothing |
| Tracker.LoadFromStorage | script.js:227-238 | an unparseable entry leaves every field as it was; an absent entry gives 0/0/0/no badges/now; a record gives each counter its stored value or 0 when missing, sessionStart its stored value or now when missing or 0, and the set of the ids in its badge list (no badges when the list is missing); the flag and the entry are never touched |
| Tracker.Boot | script.js:1-15 | a new tracker is idle and keeps the entry; on an absent or unparseable entry it is the zero state at `now`; on a record it has the record's counters (0 when missing), its badge ids, and its sessionStart (now when missing or 0) |
| Tracker.ResetStats | script.js:273-278 | the entry is removed and the badge set emptied; the tracker the reload then builds is the zero state |
| Tracker.ListedMembers | script.js:221 | the stored badge list names exactly the unlocked badges, none twice |
| TrackerProperties.CheckIdempotent | script.js:154-169 | a second badge check on an unchanged state changes nothing; a check never removes a badge |
| TrackerProperties.UnlockIdempotent | script.js:168-169 | unlocking a badge that is already unlocked leaves the state unchanged |
| TrackerProperties.EdgeTriggered | script.js:89-93 | when the flag agrees with the count, the activate step runs iff the count crosses from below 200 to at or above it, the deactivate step iff it crosses back, and neither iff it stays on one side |
| TrackerProperties.RepeatedSideNoTransition | script.js:89-93 | two updates on the same side of 200: the second runs no switch step |
| TrackerProperties.PositiveDeltas | script.js:83 | the sum of positive deltas is non-negative and at least the last count minus the start |
| TrackerProperties.ReplayWritten | script.js:80-93 | over any run of count updates the total grows by exactly the sum of the positive deltas; the current count is the last one; the flag agrees with it; no badge is lost; notes unchanged |
| TrackerProperties.WrittenCoversCurrent | script.js:80-83 | once the total covers the current count, it keeps covering it through any run of count updates |
| TrackerProperties.ReplayFromZero | script.js:80-83 | from a fresh tracker the total is the sum of the positive deltas from 0, and it is at least the current count |
| TrackerProperties.RunWithoutSyncGrows | script.js:57-71 | a run of messages without sessionUpdate never lowers the total, never removes a badge, and keeps the flag in agreement with the threshold |
| TrackerProperties.SyncCanLowerTotal | script.js:198-199 | a sessionUpdate with a smaller non-zero total lowers `charsWritten` |
| TrackerProperties.SyncIgnoresFalsy | script.js:198-200 | a sessionUpdate whose totals are each 0 or missing changes nothing, whatever the rest of the message |
| TrackerProperties.SyncDefersUnlock | script.js:198-202 | a synced total of 5000 sets the total but leaves `dailyWriter` locked until the next new note |
| TrackerProperties.SaveLoadRoundTrip | script.js:216-238 | loading right after saving restores every field, except a zero sessionStart, which becomes now |
| TrackerProperties.SaveBootRoundTrip | script.js:216-238 | a tracker built on a saved record has its counters, badges and non-zero sessionStart, and is idle |
| TrackerProperties.BootIgnoresActivity | script.js:7 | a tracker built on a saved record with at least 200 characters is idle, so its flag disagrees with its count |
| TrackerProperties.SavedRecordLagsUnlock | script.js:85-87 | the record written by the update that unlocks `first200` does not contain it |
| TrackerProperties.ResetThenLoad | script.js:229-234 | after the reset a load gives zero counters, no badges and sessionStart now |
| TrackerProperties.ScenarioThreshold | script.js:80-96 | 199 characters: idle, no badge; then 200: energized, only `first200`, total 200 |
| TrackerProperties.ScenarioFiveNotes | script.js:98-106 | 250 characters then five new notes: 5 notes, badges `first200` and `fiveNotes` |
| TrackerProperties.ScenarioDeletion | script.js:80-96 | 300 then 150 characters: one deactivation, count 150, total still 300, idle |
| Mage.MageSystem.constructor | script.js:1-15 | zero fields, sessionStart now, idle, then a load: the state `Boot` gives |
| Mage.MageSystem.HandleObsidianMessage | script.js:57-71 | the new state is `Tracker.HandleObsidianMessage` of the old |
| Mage.MageSystem.HandleKeydown | script.js:73-78 | the new state is `Tracker.HandleKeydown` of the old |
| Mage.MageSystem.UpdateCharacterCount | script.js:80-96 | the new state is `Tracker.UpdateCharacterCount` of the old; the count is taken, the flag matches the threshold, the total and the badges do not shrink |
| Mage.MageSystem.OnNewNoteCreated | script.js:98-106 | the new state is `Tracker.OnNewNoteCreated` of the old; one more note, other counters and flag unchanged |
| Mage.MageSystem.ActivateCharacter | script.js:108-119 | sets the flag and unlocks `first200` |
| Mage.MageSystem.DeactivateCharacter | script.js:121-131 | clears the flag |
| Mage.MageSystem.CheckAchievements | script.js:154-166 | the badge set becomes the old set plus the earned badges |
| Mage.MageSystem.UnlockAchievement | script.js:168-169 | adds the id to the badge set |
| Mage.MageSystem.UpdateSessionStats | script.js:198-202 | the new state is `Tracker.UpdateSessionStats` of the old |
| Mage.MageSystem.SaveToStorage | script.js:216-225 | the entry becomes the record of the current fields |
| Mage.MageSystem.LoadFromStorage | script.js:227-238 | the new state is `Tracker.LoadFromStorage` of the old |
| Mage.ResetStats | script.js:273-279 | removes the entry, empties the badge set, and the reloaded tracker is the zero state at now |

## Left out

- Everything the page shows: the element cache, the display refresh, the badge display, the new-note animation, the event listener wiring and the class and text edits in activateCharacter, deactivateCharacter and unlockAchievement (script.js:24-55, 110-118, 123-130, 133-152, 170-178, 181-189). None of these changes a tracked field.
- Mage.MageSystem.UnlockAchievement: the badge's page effect and log line are not modelled. activateCharacter calls it even when `first200` is already unlocked, so that effect can repeat; the set itself is unaffected.
- The session timer and the demo mode (script.js:191-196, 240-254): timer-driven, and they only read the state or replay calls the model already has.
- The progress percentage (script.js:142): a floating-point division used only for display.
- Logging (script.js:204-214) and the `noteTitle` argument, which only feeds the log.
- JSON text and the storage API: the entry is a value, and a parse failure is the `Malformed` case.
- Tracker.Listed: the stored badge list uses the fixed order first200, fiveNotes, dailyWriter. It does not use the set's insertion order. Loading turns the list back into a set, so the order is never observed.
- Tracker.LoadFromStorage: a stored `achievements` value that is truthy but not a list (a number, say) makes `new Set(...)` throw after the three counters were already assigned (script.js:230-233), a partial load that neither `Malformed` nor `Present` expresses.
- Tracker.LoadFromStorage: badge ids outside the three known ones, and non-number field values (strings, `NaN`), are not representable.
- Message payloads with a missing or non-numeric `count` are not modelled. JavaScript would store `undefined` and make the total `NaN`.
- Numbers are unbounded integers. JavaScript doubles lose precision above 2^53.
- Keys are Dafny strings of Unicode scalar values. JavaScript measures `key.length` in UTF-16 units.
- Mage.MageSystem.constructor: both clock reads at start-up take the same `now`.
- The global `window.mageSystem` singleton, its `if (window.mageSystem)` guards and the `DOMContentLoaded` bootstrap (script.js:274, 282-284). The reload in resetStats is the construction of a new tracker. `simulateTyping` and `simulateNewNote` (script.js:258-271) only call operations that are modelled.
