/** The in-memory reminder data source used as a test double for the
    persistence contract: a nullable list of reminders plus an
    error-injection flag, queried through the `Result` envelope. */
module FakeDataSource {
  import opened Results
  import opened Reminders

  /** The double's whole state. `reminders` is fixed at construction (a
      `val`), so whether it is null never changes; only its contents do. */
  datatype Source = Source(reminders: Option<seq<ReminderDTO>>, shouldReturnError: bool)

  const NullMessage := "Reminders is Null"
  const DataErrorMessage := "Data Error"
  const NotFoundMessage := "Reminder not found"

  /** The state of a double built with its default argument: an empty list, flag off. */
  const Fresh := Source(Some([]), false)

  /** Some stored reminder carries `id`. */
  ghost predicate HasId(rs: seq<ReminderDTO>, id: ReminderId)
  {
    exists i :: 0 <= i < |rs| && rs[i].id == id
  }

  /** The reminders a query would see: the list, or nothing when it is null. */
  function Stored(s: Source): seq<ReminderDTO>
  {
    if s.reminders.Some? then s.reminders.value else []
  }

  function SetReturnError(s: Source, shouldReturnError: bool): (s': Source)
    ensures s'.reminders == s.reminders
    ensures s'.shouldReturnError == shouldReturnError
  {
    s.(shouldReturnError := shouldReturnError)
  }

  /** All stored reminders. A null list wins over the error flag. */
  function GetReminders(s: Source): (r: Result<seq<ReminderDTO>>)
    ensures s.reminders.None? ==> r == Error(NullMessage)
    ensures s.reminders.Some? && s.shouldReturnError ==> r == Error(DataErrorMessage)
    ensures r.Success? <==> s.reminders.Some? && !s.shouldReturnError
    ensures r.Success? ==> r.data == s.reminders.value
  {
    if s.reminders.None? then Error(NullMessage)
    else if s.shouldReturnError then Error(DataErrorMessage)
    else Success(s.reminders.value)
  }

  /** Appends; no de-duplication by id. A null list swallows the call. */
  function SaveReminder(s: Source, reminder: ReminderDTO): (s': Source)
    ensures s'.shouldReturnError == s.shouldReturnError
    ensures s'.reminders.None? <==> s.reminders.None?
    ensures s.reminders.Some? ==>
      var before, after := s.reminders.value, s'.reminders.value;
      && |after| == |before| + 1
      && (forall i :: 0 <= i < |before| ==> after[i] == before[i])
      && after[|before|] == reminder
  {
    match s.reminders
    case None => s
    case Some(rs) => s.(reminders := Some(rs + [reminder]))
  }

  /** Position of the first reminder whose id is `id`, scanning from the front. */
  function FirstIndexOf(rs: seq<ReminderDTO>, id: ReminderId): (k: Option<nat>)
    ensures k.None? <==> !HasId(rs, id)
    ensures k.Some? ==> k.value < |rs| && rs[k.value].id == id
    ensures k.Some? ==> forall i :: 0 <= i < k.value ==> rs[i].id != id
    decreases |rs|
  {
    if |rs| == 0 then None
    else if rs[0].id == id then Some(0)
    else
      match FirstIndexOf(rs[1..], id)
      case None =>
        assert forall i :: 1 <= i < |rs| ==> rs[i] == rs[1..][i - 1];
        None
      case Some(j) =>
        assert rs[j + 1] == rs[1..][j];
        assert forall i :: 1 <= i < j + 1 ==> rs[i] == rs[1..][i - 1];
        Some(j + 1)
  }

  /** The first stored reminder with the given id. The error flag plays no part. */
  function GetReminder(s: Source, id: ReminderId): (r: Result<ReminderDTO>)
    ensures r.Error? ==> r == Error(NotFoundMessage)
    ensures r.Success? <==> HasId(Stored(s), id)
    ensures r.Success? ==> r.data.id == id
    ensures r.Success? ==>
      exists k :: 0 <= k < |Stored(s)| && Stored(s)[k] == r.data
                  && forall i :: 0 <= i < k ==> Stored(s)[i].id != id
  {
    match FirstIndexOf(Stored(s), id)
    case None => Error(NotFoundMessage)
    case Some(k) => Success(Stored(s)[k])
  }

  /** Empties a non-null list; a null list stays null. */
  function DeleteAllReminders(s: Source): (s': Source)
    ensures s'.shouldReturnError == s.shouldReturnError
    ensures s.reminders.None? ==> s'.reminders.None?
    ensures s.reminders.Some? ==> s'.reminders == Some([])
  {
    match s.reminders
    case None => s
    case Some(_) => s.(reminders := Some([]))
  }

  /** The mutating calls a client can make, for reasoning about call sequences. */
  datatype Call = SetFlag(shouldReturnError: bool) | Save(reminder: ReminderDTO) | DeleteAll

  function Apply(s: Source, c: Call): Source
  {
    match c
    case SetFlag(b) => SetReturnError(s, b)
    case Save(r) => SaveReminder(s, r)
    case DeleteAll => DeleteAllReminders(s)
  }

  function Run(s: Source, calls: seq<Call>): Source
    decreases |calls|
  {
    if |calls| == 0 then s else Run(Apply(s, calls[0]), calls[1..])
  }

  /** Saving each reminder in turn. */
  function SaveAll(s: Source, rs: seq<ReminderDTO>): Source
    decreases |rs|
  {
    if |rs| == 0 then s else SaveAll(SaveReminder(s, rs[0]), rs[1..])
  }

  // ---------------------------------------------------------------- lemmas

  /** Lookup after a save: an earlier match still wins (no replacement), otherwise
      the new reminder is found by its own id, and any other id is unaffected. */
  lemma GetReminderAfterSave(s: Source, reminder: ReminderDTO, id: ReminderId)
    ensures GetReminder(SaveReminder(s, reminder), id) ==
      if s.reminders.None? then Error(NotFoundMessage)
      else if HasId(s.reminders.value, id) then GetReminder(s, id)
      else if reminder.id == id then Success(reminder)
      else Error(NotFoundMessage)
  {
  }

  /** Appending an element does not move the first match of an id. */
  lemma {:induction false} FirstIndexAfterAppend(rs: seq<ReminderDTO>, reminder: ReminderDTO, id: ReminderId)
    ensures FirstIndexOf(rs + [reminder], id) ==
      if HasId(rs, id) then FirstIndexOf(rs, id)
      else if reminder.id == id then Some(|rs|)
      else None
    decreases |rs|
  {
    if |rs| == 0 {
      assert [reminder][0] == reminder;
    } else if rs[0].id == id {
      assert (rs + [reminder])[0] == rs[0];
    } else {
      assert (rs + [reminder])[1..] == rs[1..] + [reminder];
      FirstIndexAfterAppend(rs[1..], reminder, id);
      assert HasId(rs, id) <==> HasId(rs[1..], id) by {
        if HasId(rs, id) {
          var i :| 0 <= i < |rs| && rs[i].id == id;
          assert rs[1..][i - 1] == rs[i];
        }
        if HasId(rs[1..], id) {
          var i :| 0 <= i < |rs[1..]| && rs[1..][i].id == id;
          assert rs[i + 1] == rs[1..][i];
        }
      }
    }
  }

  /** Save then get by the same id returns exactly what was saved, when no
      earlier reminder shares the id and the list is not null. */
  lemma SaveThenGetReminder(s: Source, reminder: ReminderDTO)
    requires s.reminders.Some?
    requires forall i :: 0 <= i < |s.reminders.value| ==> s.reminders.value[i].id != reminder.id
    ensures GetReminder(SaveReminder(s, reminder), reminder.id) == Success(reminder)
  {
    GetReminderAfterSave(s, reminder, reminder.id);
  }

  /** Saving a sequence of reminders into a healthy source: listing returns the
      old list followed by the new reminders, in the order they were saved. */
  lemma {:induction false} SaveAllThenGetReminders(s: Source, rs: seq<ReminderDTO>)
    requires s.reminders.Some? && !s.shouldReturnError
    ensures GetReminders(SaveAll(s, rs)) == Success(s.reminders.value + rs)
    decreases |rs|
  {
    if |rs| > 0 {
      var s1 := SaveReminder(s, rs[0]);
      assert s1.reminders.value == s.reminders.value + [rs[0]];
      SaveAllThenGetReminders(s1, rs[1..]);
      assert s.reminders.value + [rs[0]] + rs[1..] == s.reminders.value + rs;
    } else {
      assert s.reminders.value + rs == s.reminders.value;
    }
  }

  /** Deleting twice is the same as deleting once. */
  lemma DeleteAllIdempotent(s: Source)
    ensures DeleteAllReminders(DeleteAllReminders(s)) == DeleteAllReminders(s)
  {
  }

  /** After deleting, a healthy source lists nothing and finds no id. */
  lemma DeleteAllThenQuery(s: Source, id: ReminderId)
    ensures s.reminders.Some? && !s.shouldReturnError ==>
      GetReminders(DeleteAllReminders(s)) == Success([])
    ensures s.reminders.None? ==> GetReminders(DeleteAllReminders(s)) == Error(NullMessage)
    ensures GetReminder(DeleteAllReminders(s), id) == Error(NotFoundMessage)
  {
  }

  /** Switching the flag leaves the stored reminders, and every lookup by id, as they were. */
  lemma SetReturnErrorKeepsReminders(s: Source, b: bool, id: ReminderId)
    ensures GetReminder(SetReturnError(s, b), id) == GetReminder(s, id)
    ensures s.reminders.Some? ==>
      GetReminders(SetReturnError(s, false)) == Success(s.reminders.value)
    ensures s.reminders.Some? ==>
      GetReminders(SetReturnError(s, true)) == Error(DataErrorMessage)
  {
  }

  /** Whether the backing list is null never changes, whatever calls are made;
      so a double built with a null list lists nothing but `Error(NullMessage)`. */
  lemma {:induction false} NullnessIsFixed(s: Source, calls: seq<Call>)
    ensures Run(s, calls).reminders.None? <==> s.reminders.None?
    ensures s.reminders.None? ==> GetReminders(Run(s, calls)) == Error(NullMessage)
    decreases |calls|
  {
    if |calls| > 0 {
      NullnessIsFixed(Apply(s, calls[0]), calls[1..]);
    }
  }

  /** After any calls, listing fails exactly when the list is null or the most
      recent flag setting (or the initial one) asks for errors. */
  lemma {:induction false} ListingFailsOnlyByFlagOrNull(s: Source, calls: seq<Call>)
    ensures GetReminders(Run(s, calls)).Error? <==>
      s.reminders.None? || Run(s, calls).shouldReturnError
    ensures Run(s, calls).shouldReturnError == LastFlag(s.shouldReturnError, calls)
    decreases |calls|
  {
    if |calls| > 0 {
      ListingFailsOnlyByFlagOrNull(Apply(s, calls[0]), calls[1..]);
      NullnessIsFixed(Apply(s, calls[0]), calls[1..]);
    }
  }

  /** A double built with the default argument lists nothing; after any calls
      its listing fails exactly when the last flag setting asks for errors. A
      fresh double that is filled and then cleared lists `Success([])`. */
  lemma FreshSourceListing(calls: seq<Call>, rs: seq<ReminderDTO>)
    ensures GetReminders(Fresh) == Success([])
    ensures GetReminders(Run(Fresh, calls)).Error? <==> LastFlag(false, calls)
    ensures GetReminders(DeleteAllReminders(SaveAll(Fresh, rs))) == Success([])
  {
    ListingFailsOnlyByFlagOrNull(Fresh, calls);
    SaveAllThenGetReminders(Fresh, rs);
  }

  /** The flag value set by the last `SetFlag` in `calls`, or `initial` if none. */
  function LastFlag(initial: bool, calls: seq<Call>): bool
    decreases |calls|
  {
    if |calls| == 0 then initial
    else LastFlag(if calls[0].SetFlag? then calls[0].shouldReturnError else initial, calls[1..])
  }
}
