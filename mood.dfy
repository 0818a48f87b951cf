/** The mood journal page: the entry form (a mood and three text fields with
    length limits), the history of saved entries, and the handlers that load,
    submit and delete entries. Each handler takes the outcomes of its backend calls
    as parameters and returns the requests and navigations it performs, in order. */
module Mood {
  import opened Common

  /** The eight mood buttons, in the order the page shows them. */
  datatype MoodKind = Happy | Peaceful | Neutral | Sad | Angry | Anxious | Tired | Confused

  /** The `value` each mood button sends. */
  function MoodValue(m: MoodKind): string {
    match m
    case Happy => "Happy"
    case Peaceful => "Peaceful"
    case Neutral => "Neutral"
    case Sad => "Sad"
    case Angry => "Angry"
    case Anxious => "Anxious"
    case Tired => "Tired"
    case Confused => "Confused"
  }

  datatype MoodEntry = MoodEntry(
    id: string,
    mood: string,
    journal: string,
    gratitude: string,
    goals: string,
    createdAt: string)

  const JournalLimit := 500
  const GratitudeLimit := 200
  const GoalsLimit := 200

  const MoodPath := "/api/v1/mood"
  const HistoryPath := "/api/v1/mood/history"

  function EntryPath(id: string): string { MoodPath + "/" + id }

  /** The body of the save request: the selected mood and the three fields. */
  function EntryBody(mood: MoodKind, journal: string, gratitude: string, goals: string): Body {
    [("mood", MoodValue(mood)), ("journal", journal), ("gratitude", gratitude), ("goals", goals)]
  }

  const SelectMoodError := "Please select a mood"
  const SaveFailedError := "Failed to save mood entry"
  const LoadFailedError := "Failed to load content"

  /** A textarea's `onChange`: the new value is taken when it fits the limit and
      refused whole otherwise; it is never cut to fit. */
  function GuardedChange(current: string, proposed: string, limit: nat): (r: string)
    ensures r == proposed <==> |proposed| <= limit || proposed == current
    ensures r == current <==> |proposed| > limit || proposed == current
    ensures |current| <= limit ==> |r| <= limit
  {
    if |proposed| <= limit then proposed else current
  }

  /** `error.response?.data?.message || 'Failed to save mood entry'`: the
      server's message unless it is absent or empty. */
  function SaveErrorText(message: Option<string>): (r: string)
    ensures r != ""
    ensures message.Some? && message.value != "" ==> r == message.value
    ensures message == None || message == Some("") ==> r == SaveFailedError
  {
    if message.Some? && message.value != "" then message.value else SaveFailedError
  }

  class MoodPage {
    var selectedMood: Option<MoodKind>
    var journal: string
    var gratitude: string
    var goals: string
    var loading: bool
    var error: string
    var moodHistory: seq<MoodEntry>
    var currentUser: Option<User>

    /** The three text fields never exceed their limits. */
    ghost predicate Valid()
      reads this
    {
      |journal| <= JournalLimit && |gratitude| <= GratitudeLimit && |goals| <= GoalsLimit
    }

    constructor ()
      ensures Valid()
      ensures selectedMood == None && journal == "" && gratitude == "" && goals == ""
      ensures !loading && error == "" && moodHistory == [] && currentUser == None
    {
      selectedMood, journal, gratitude, goals := None, "", "", "";
      loading, error, moodHistory, currentUser := false, "", [], None;
    }

    method SelectMood(mood: MoodKind)
      requires Valid()
      modifies this`selectedMood
      ensures Valid() && selectedMood == Some(mood)
    {
      selectedMood := Some(mood);
    }

    method ChangeJournal(value: string)
      requires Valid()
      modifies this`journal
      ensures Valid() && journal == GuardedChange(old(journal), value, JournalLimit)
    {
      if |value| <= JournalLimit {
        journal := value;
      }
    }

    method ChangeGratitude(value: string)
      requires Valid()
      modifies this`gratitude
      ensures Valid() && gratitude == GuardedChange(old(gratitude), value, GratitudeLimit)
    {
      if |value| <= GratitudeLimit {
        gratitude := value;
      }
    }

    method ChangeGoals(value: string)
      requires Valid()
      modifies this`goals
      ensures Valid() && goals == GuardedChange(old(goals), value, GoalsLimit)
    {
      if |value| <= GoalsLimit {
        goals := value;
      }
    }

    /** `fetchMoodHistory`: on success the history becomes the server's list; a
        401 navigates to the login page; any other failure is only logged. */
    method FetchMoodHistory(fetched: Outcome<seq<MoodEntry>>) returns (effects: seq<Effect>)
      requires Valid()
      modifies this`moodHistory
      ensures Valid()
      ensures effects == [Request(GET, HistoryPath, [])] + (if fetched.Unauthorized? then [Navigate(LoginRoute)] else [])
      ensures moodHistory == if fetched.Ok? then fetched.value else old(moodHistory)
    {
      effects := [Request(GET, HistoryPath, [])];
      match fetched
      case Ok(entries) => moodHistory := entries;
      case Unauthorized(_) => effects := effects + [Navigate(LoginRoute)];
      case OtherError(_) =>
    }

    /** `checkAuthAndLoadData`: the history is fetched only after the probe
        returned a user. */
    method CheckAuthAndLoadData(probe: Outcome<Option<User>>, fetched: Outcome<seq<MoodEntry>>)
      returns (effects: seq<Effect>)
      requires Valid()
      modifies this`moodHistory, this`currentUser, this`error, this`loading
      ensures Valid() && !loading
      ensures probe.Ok? && probe.value.Some? ==>
                currentUser == probe.value && error == old(error)
                && effects == [ProbeRequest, Request(GET, HistoryPath, [])]
                              + (if fetched.Unauthorized? then [Navigate(LoginRoute)] else [])
                && moodHistory == (if fetched.Ok? then fetched.value else old(moodHistory))
      ensures !(probe.Ok? && probe.value.Some?) ==>
                currentUser == old(currentUser) && moodHistory == old(moodHistory)
                && effects == [ProbeRequest] + (if probe.OtherError? then [] else [Navigate(LoginRoute)])
                && error == (if probe.OtherError? then LoadFailedError else old(error))
    {
      effects := [ProbeRequest];
      match probe {
        case Ok(payload) =>
          if payload.Some? {
            currentUser := payload;
            var fetchEffects := FetchMoodHistory(fetched);
            effects := effects + fetchEffects;
          } else {
            effects := effects + [Navigate(LoginRoute)];
          }
        case Unauthorized(_) =>
          effects := effects + [Navigate(LoginRoute)];
        case OtherError(_) =>
          error := LoadFailedError;
      }
      loading := false;
    }

    /** `handleSubmit`: without a user, go to the login page; without a mood,
        only an error; otherwise post the entry, and on success clear the form
        and fetch the history once. On failure the form keeps what was typed. */
    method HandleSubmit(saved: Outcome<()>, fetched: Outcome<seq<MoodEntry>>) returns (effects: seq<Effect>)
      requires Valid()
      modifies this
      ensures Valid() && currentUser == old(currentUser)
      ensures currentUser == None ==>
                effects == [Navigate(LoginRoute)] && error == old(error) && loading == old(loading)
                && selectedMood == old(selectedMood) && moodHistory == old(moodHistory)
                && journal == old(journal) && gratitude == old(gratitude) && goals == old(goals)
      ensures currentUser.Some? && old(selectedMood) == None ==>
                effects == [] && error == SelectMoodError && loading == old(loading)
                && selectedMood == None && moodHistory == old(moodHistory)
                && journal == old(journal) && gratitude == old(gratitude) && goals == old(goals)
      ensures currentUser.Some? && old(selectedMood).Some? ==> !loading
      ensures currentUser.Some? && old(selectedMood).Some? && saved.Ok? ==>
                effects == [Request(POST, MoodPath, EntryBody(old(selectedMood).value, old(journal), old(gratitude), old(goals))),
                            Request(GET, HistoryPath, [])]
                           + (if fetched.Unauthorized? then [Navigate(LoginRoute)] else [])
                && error == "" && selectedMood == None
                && journal == "" && gratitude == "" && goals == ""
                && moodHistory == (if fetched.Ok? then fetched.value else old(moodHistory))
      ensures currentUser.Some? && old(selectedMood).Some? && !saved.Ok? ==>
                effects == [Request(POST, MoodPath, EntryBody(old(selectedMood).value, old(journal), old(gratitude), old(goals)))]
                           + (if saved.Unauthorized? then [Navigate(LoginRoute)] else [])
                && error == SaveErrorText(saved.message)
                && selectedMood == old(selectedMood) && moodHistory == old(moodHistory)
                && journal == old(journal) && gratitude == old(gratitude) && goals == old(goals)
    {
      if currentUser == None {
        return [Navigate(LoginRoute)];
      }
      if selectedMood == None {
        error := SelectMoodError;
        return [];
      }
      loading := true;
      error := "";
      effects := [Request(POST, MoodPath, EntryBody(selectedMood.value, journal, gratitude, goals))];
      match saved {
        case Ok(_) =>
          selectedMood := None;
          journal, gratitude, goals := "", "", "";
          var fetchEffects := FetchMoodHistory(fetched);
          effects := effects + fetchEffects;
        case Unauthorized(message) =>
          error := SaveErrorText(message);
          effects := effects + [Navigate(LoginRoute)];
        case OtherError(message) =>
          error := SaveErrorText(message);
      }
      loading := false;
    }

    /** `handleDelete`: nothing is removed locally; after the server deletes the
        entry the whole history is fetched again. */
    method HandleDelete(id: string, deleted: Outcome<()>, fetched: Outcome<seq<MoodEntry>>)
      returns (effects: seq<Effect>)
      requires Valid()
      modifies this`moodHistory
      ensures Valid()
      ensures currentUser == None ==> effects == [Navigate(LoginRoute)] && moodHistory == old(moodHistory)
      ensures currentUser.Some? && deleted.Ok? ==>
                effects == [Request(DELETE, EntryPath(id), []), Request(GET, HistoryPath, [])]
                           + (if fetched.Unauthorized? then [Navigate(LoginRoute)] else [])
                && moodHistory == (if fetched.Ok? then fetched.value else old(moodHistory))
      ensures currentUser.Some? && !deleted.Ok? ==>
                effects == [Request(DELETE, EntryPath(id), [])]
                           + (if deleted.Unauthorized? then [Navigate(LoginRoute)] else [])
                && moodHistory == old(moodHistory)
    {
      if currentUser == None {
        return [Navigate(LoginRoute)];
      }
      effects := [Request(DELETE, EntryPath(id), [])];
      match deleted {
        case Ok(_) =>
          var fetchEffects := FetchMoodHistory(fetched);
          effects := effects + fetchEffects;
        case Unauthorized(_) =>
          effects := effects + [Navigate(LoginRoute)];
        case OtherError(_) =>
      }
    }
  }
}
