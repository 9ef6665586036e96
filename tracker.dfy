/**
 * The writing-activity tracker of the mage page as pure functions over a
 * value of its state. Each function here is the specification of the
 * `MageSystem` method of the same name (module Mage): it takes the state
 * before the call and gives the state after it.
 */
module Tracker {
  import opened Wrappers

  /** The three badges, by their `data-id` on the page. */
  datatype AchievementId = First200 | FiveNotes | DailyWriter

  /** Characters in the current note at which the mage is energized. */
  const ActiveThreshold: int := 200
  /** Notes created for the `fiveNotes` badge. */
  const NotesGoal: int := 5
  /** Cumulative characters for the `dailyWriter` badge. */
  const DailyGoal: int := 1000

  /**
   * The record kept under the storage key `mageSystem`. A record written by
   * this program has every field; one found in storage may lack any of them
   * (the empty object `{}` lacks all five).
   */
  datatype StoredRecord = StoredRecord(
    chars: Option<int>,
    notes: Option<int>,
    totalChars: Option<int>,
    achievements: Option<seq<AchievementId>>,
    sessionStart: Option<int>)

  /** The storage entry: missing, present but not parseable, or a record. */
  datatype Storage = Absent | Malformed | Present(record: StoredRecord)

  /** The fields of a `MageSystem`, together with the storage entry it writes. */
  datatype State = State(
    currentChars: int,
    notesCreated: int,
    charsWritten: int,
    sessionStart: int,
    isActive: bool,
    achievements: set<AchievementId>,
    stored: Storage)

  /** Which of activateCharacter / deactivateCharacter a count update runs. */
  datatype Edge = Activate | Deactivate | Stay

  /**
   * A message posted by the host application: its `type`, and the payload
   * fields the tracker reads (`count` for characterCount, `totalChars` and
   * `totalNotes` for sessionUpdate).
   */
  datatype Message = Message(kind: string, count: int, totalChars: Option<int>, totalNotes: Option<int>)

  /** The fresh tracker before anything is loaded: zero counters, idle, no badges. */
  function Zero(stored: Storage, now: int): State
  {
    State(0, 0, 0, now, false, {}, stored)
  }

  /** The mage is energized exactly when the current note has reached the threshold. */
  predicate Settled(s: State)
  {
    s.isActive == (s.currentChars >= ActiveThreshold)
  }

  /** JavaScript truthiness of an optional number: present and not zero. */
  predicate Truthy(o: Option<int>)
  {
    o.Some? && o.value != 0
  }

  /** The value of `o || default` for an optional number. */
  function OrElse(o: Option<int>, default: int): int
  {
    if Truthy(o) then o.value else default
  }

  /** The badges whose rule the counters of `s` satisfy. */
  function Earned(s: State): (r: set<AchievementId>)
    ensures First200 in r <==> s.currentChars >= ActiveThreshold
    ensures FiveNotes in r <==> s.notesCreated >= NotesGoal
    ensures DailyWriter in r <==> s.charsWritten >= DailyGoal
  {
    (if s.currentChars >= ActiveThreshold then {First200} else {})
    + (if s.notesCreated >= NotesGoal then {FiveNotes} else {})
    + (if s.charsWritten >= DailyGoal then {DailyWriter} else {})
  }

  /** unlockAchievement without its page effects: add the id to the set. */
  function UnlockAchievement(s: State, id: AchievementId): State
  {
    s.(achievements := s.achievements + {id})
  }

  /**
   * checkAchievements: the three rules, each unlocking its badge when the
   * counter has reached the goal and the badge is not yet unlocked.
   */
  function CheckAchievements(s: State): (r: State)
    ensures r.achievements == s.achievements + Earned(s)
    ensures r == s.(achievements := r.achievements)
  {
    var a := if s.currentChars >= ActiveThreshold && First200 !in s.achievements
             then UnlockAchievement(s, First200) else s;
    var b := if a.notesCreated >= NotesGoal && FiveNotes !in a.achievements
             then UnlockAchievement(a, FiveNotes) else a;
    if b.charsWritten >= DailyGoal && DailyWriter !in b.achievements
    then UnlockAchievement(b, DailyWriter) else b
  }

  /** The switch at the end of updateCharacterCount, decided on the flag before it. */
  function Transition(wasActive: bool, count: int): Edge
  {
    if count >= ActiveThreshold && !wasActive then Activate
    else if count < ActiveThreshold && wasActive then Deactivate
    else Stay
  }

  /** activateCharacter without its page effects: set the flag, unlock `first200`. */
  function ActivateCharacter(s: State): State
  {
    UnlockAchievement(s.(isActive := true), First200)
  }

  /** deactivateCharacter without its page effects: clear the flag. */
  function DeactivateCharacter(s: State): State
  {
    s.(isActive := false)
  }

  /** `Math.max(0, count - previous)`: what a count update adds to the total. */
  function Gain(previous: int, count: int): (r: nat)
    ensures r >= count - previous
    ensures r == 0 || r == count - previous
  {
    if count > previous then count - previous else 0
  }

  /** `Array.from(achievements)`, in the fixed order first200, fiveNotes, dailyWriter. */
  function Listed(a: set<AchievementId>): seq<AchievementId>
  {
    (if First200 in a then [First200] else [])
    + (if FiveNotes in a then [FiveNotes] else [])
    + (if DailyWriter in a then [DailyWriter] else [])
  }

  /** The stored list names every unlocked badge, and each only once. */
  lemma ListedMembers(a: set<AchievementId>)
    ensures forall id :: id in Listed(a) <==> id in a
    ensures forall i, j :: 0 <= i < j < |Listed(a)| ==> Listed(a)[i] != Listed(a)[j]
  {
    forall id ensures id in Listed(a) <==> id in a {
      match id
      case First200 =>
      case FiveNotes =>
      case DailyWriter =>
    }
  }

  /** `new Set(ids)`. */
  function Unlisted(ids: seq<AchievementId>): set<AchievementId>
  {
    set id | id in ids
  }

  /** The record saveToStorage writes. */
  function ToRecord(s: State): StoredRecord
  {
    StoredRecord(Some(s.currentChars), Some(s.notesCreated), Some(s.charsWritten),
                 Some(Listed(s.achievements)), Some(s.sessionStart))
  }

  /** saveToStorage: replace the storage entry by the record of the current fields. */
  function SaveToStorage(s: State): State
  {
    s.(stored := Present(ToRecord(s)))
  }

  /** The record an absent entry stands for (`localStorage.getItem(..) || '{}'`). */
  const EmptyRecord: StoredRecord := StoredRecord(None, None, None, None, None)

  /** The five assignments of loadFromStorage: each field of `rec`, or its default when falsy. */
  function Hydrate(s: State, rec: StoredRecord, now: int): State
  {
    s.(currentChars := OrElse(rec.chars, 0),
       notesCreated := OrElse(rec.notes, 0),
       charsWritten := OrElse(rec.totalChars, 0),
       achievements := Unlisted(if rec.achievements.Some? then rec.achievements.value else []),
       sessionStart := OrElse(rec.sessionStart, now))
  }

  /**
   * loadFromStorage: an unparseable entry changes nothing (the exception is
   * caught and logged); a missing entry reads as the empty record.
   */
  function LoadFromStorage(s: State, now: int): (r: State)
    ensures r.isActive == s.isActive && r.stored == s.stored
    ensures s.stored.Malformed? ==> r == s
    ensures s.stored.Absent? ==>
      r.currentChars == 0 && r.notesCreated == 0 && r.charsWritten == 0 &&
      r.achievements == {} && r.sessionStart == now
    ensures s.stored.Present? && s.stored.record.achievements.Some? ==>
      forall id :: id in r.achievements <==> id in s.stored.record.achievements.value
    ensures s.stored.Present? && s.stored.record.achievements.None? ==> r.achievements == {}
    ensures s.stored.Present? ==>
      r.currentChars == OrElse(s.stored.record.chars, 0) &&
      r.notesCreated == OrElse(s.stored.record.notes, 0) &&
      r.charsWritten == OrElse(s.stored.record.totalChars, 0) &&
      r.sessionStart == OrElse(s.stored.record.sessionStart, now)
  {
    match s.stored
    case Malformed => s
    case Absent => Hydrate(s, EmptyRecord, now)
    case Present(rec) => Hydrate(s, rec, now)
  }

  /**
   * The constructor: zero fields, sessionStart now, idle, then
   * loadFromStorage. Nothing sets the flag from the loaded count.
   */
  function Boot(stored: Storage, now: int): (r: State)
    ensures !r.isActive && r.stored == stored
    ensures stored.Absent? || stored.Malformed? ==> r == Zero(stored, now)
    ensures stored.Present? ==>
      r.currentChars == OrElse(stored.record.chars, 0) &&
      r.notesCreated == OrElse(stored.record.notes, 0) &&
      r.charsWritten == OrElse(stored.record.totalChars, 0) &&
      r.sessionStart == OrElse(stored.record.sessionStart, now)
    ensures stored.Present? && stored.record.achievements.Some? ==>
      forall id :: id in r.achievements <==> id in stored.record.achievements.value
    ensures stored.Present? && stored.record.achievements.None? ==> r.achievements == {}
  {
    LoadFromStorage(Zero(stored, now), now)
  }

  /**
   * updateCharacterCount: take the new count, add its positive difference to
   * the total, save, check the badges, then run the activation switch.
   */
  function UpdateCharacterCount(s: State, count: int): (r: State)
    ensures r.currentChars == count
    ensures r.charsWritten >= s.charsWritten
    ensures r.charsWritten - s.charsWritten == (if count > s.currentChars then count - s.currentChars else 0)
    ensures r.isActive == (count >= ActiveThreshold)
    ensures r.achievements == s.achievements + Earned(r)
    ensures r.notesCreated == s.notesCreated && r.sessionStart == s.sessionStart
    ensures r.stored == Present(ToRecord(s.(currentChars := count, charsWritten := r.charsWritten)))
  {
    var counted := s.(currentChars := count, charsWritten := s.charsWritten + Gain(s.currentChars, count));
    var checked := CheckAchievements(SaveToStorage(counted));
    match Transition(s.isActive, count)
    case Activate => ActivateCharacter(checked)
    case Deactivate => DeactivateCharacter(checked)
    case Stay => checked
  }

  /** onNewNoteCreated: count the note, save, check the badges. */
  function OnNewNoteCreated(s: State): (r: State)
    ensures r.notesCreated == s.notesCreated + 1
    ensures r.currentChars == s.currentChars && r.charsWritten == s.charsWritten
    ensures r.isActive == s.isActive && r.sessionStart == s.sessionStart
    ensures r.achievements == s.achievements + Earned(r)
    ensures r.stored == Present(ToRecord(s.(notesCreated := s.notesCreated + 1)))
  {
    CheckAchievements(SaveToStorage(s.(notesCreated := s.notesCreated + 1)))
  }

  /**
   * updateSessionStats: overwrite each total that is given and truthy;
   * neither save nor check the badges.
   */
  function UpdateSessionStats(s: State, totalChars: Option<int>, totalNotes: Option<int>): (r: State)
    ensures Truthy(totalChars) ==> r.charsWritten == totalChars.value
    ensures !Truthy(totalChars) ==> r.charsWritten == s.charsWritten
    ensures Truthy(totalNotes) ==> r.notesCreated == totalNotes.value
    ensures !Truthy(totalNotes) ==> r.notesCreated == s.notesCreated
    ensures r == s.(charsWritten := r.charsWritten, notesCreated := r.notesCreated)
  {
    var a := if Truthy(totalChars) then s.(charsWritten := totalChars.value) else s;
    if Truthy(totalNotes) then a.(notesCreated := totalNotes.value) else a
  }

  /** handleObsidianMessage: dispatch on the message type; other types are ignored. */
  function HandleObsidianMessage(s: State, msg: Message): (r: State)
    ensures msg.kind == "characterCount" ==> r == UpdateCharacterCount(s, msg.count)
    ensures msg.kind == "newNote" ==> r == OnNewNoteCreated(s)
    ensures msg.kind == "sessionUpdate" ==> r == UpdateSessionStats(s, msg.totalChars, msg.totalNotes)
    ensures msg.kind != "characterCount" && msg.kind != "newNote" && msg.kind != "sessionUpdate" ==> r == s
    ensures msg.kind != "sessionUpdate" ==>
      r.charsWritten >= s.charsWritten && s.achievements <= r.achievements
    ensures Settled(s) ==> Settled(r)
  {
    if msg.kind == "characterCount" then UpdateCharacterCount(s, msg.count)
    else if msg.kind == "newNote" then OnNewNoteCreated(s)
    else if msg.kind == "sessionUpdate" then UpdateSessionStats(s, msg.totalChars, msg.totalNotes)
    else s
  }

  /** handleKeydown: a printable key (one character) types one more character. */
  function HandleKeydown(s: State, key: string): (r: State)
    ensures |key| == 1 ==> r == UpdateCharacterCount(s, s.currentChars + 1)
    ensures |key| == 1 ==> r.currentChars == s.currentChars + 1 && r.charsWritten == s.charsWritten + 1
    ensures |key| == 1 ==> Settled(r)
    ensures |key| != 1 ==> r == s
  {
    if |key| == 1 then UpdateCharacterCount(s, s.currentChars + 1) else s
  }

  /**
   * The state part of resetStats: remove the storage entry and empty the
   * badge set; the counters stay until the page reloads.
   */
  function ResetStats(s: State): (r: State)
    ensures r.stored == Absent && r.achievements == {}
    ensures forall now :: Boot(r.stored, now) == Zero(Absent, now)
  {
    s.(stored := Absent, achievements := {})
  }
}
