/**
 * The session lifecycle controller (the handlers of src/App.tsx).
 *
 * `App` owns the store object and the screen-local state: the view, the
 * onboarding flag, the playback flag, the severe-mood banner, the last
 * generated bundle and the last check-in notes. Each handler is a method that
 * runs its updates in order. Browser speech is reduced to the `isPlaying`
 * flag and the `speechSupported` capability; generation failure, the random
 * picks, the session id and the calendar day are parameters.
 */
module Controller {
  import opened Wrappers
  import opened Generator
  import opened Store

  datatype ViewState = Home | Session | Checkout | Complete

  datatype SevereBanner = NoBanner | Warning

  // ---------------------------------------------------------------------------
  // Offline fallback bundle, used when generation throws
  // ---------------------------------------------------------------------------

  const RelaxFallback: string :=
    "Take three slow breaths. Roll your shoulders and scan from head to toe. Thank yourself for pausing."
  const FocusFallback: string :=
    "Breathe in for four, hold for four, out for six. Choose one task and imagine it already complete."
  const SleepFallback: string :=
    "Dim the lights. Breathe slowly and count each exhale from ten to one. With each number, release more tension."

  function OfflineFallback(goal: Goal): string
  {
    match goal
    case Relax => RelaxFallback
    case Focus => FocusFallback
    case Sleep => SleepFallback
  }

  const FallbackReflection: string := "What is one kind thing you can offer yourself right now?"
  const FallbackTip: string := "Place a hand on your chest to feel your breath rise."

  function FallbackSession(goal: Goal): GeneratedSession
  {
    GeneratedSession(OfflineFallback(goal), FallbackReflection, FallbackTip, OfflineFallback(goal))
  }

  /** Whatever generation does, the bundle a started session shows speaks exactly its own script. */
  lemma SessionContentSpeaksScript(p: GeneratePayload, bodyIx: nat, promptIx: nat, generationFails: bool)
    requires IndicesInRange(p.goal, bodyIx, promptIx)
    ensures var c := if generationFails then FallbackSession(p.goal) else Generate(p, bodyIx, promptIx);
      && c.audioText == c.script
      && (generationFails ==> c.script == OfflineFallback(p.goal))
      && (!generationFails ==> c.script[..|SettleTemplate|] == SettleTemplate)
  {
    if !generationFails {
      ScriptFrame(p, bodyIx, promptIx);
    }
  }

  // ---------------------------------------------------------------------------
  // Recent notes: the notes of up to three newest records that have one
  // ---------------------------------------------------------------------------

  /** `Boolean(session.notes)`: a note is present and non-empty. */
  predicate HasNote(r: SessionRecord)
  {
    r.notes.Some? && r.notes.value != ""
  }

  /** `sessions.filter(s => Boolean(s.notes)).map(s => s.notes)`. */
  function NotesOf(sessions: seq<SessionRecord>): seq<string>
  {
    if sessions == [] then []
    else (if HasNote(sessions[0]) then [sessions[0].notes.value] else []) + NotesOf(sessions[1..])
  }

  /** The filtered notes, `.slice(0, 3)`. */
  function RecentNotes(sessions: seq<SessionRecord>): seq<string>
  {
    var all := NotesOf(sessions);
    all[..Min(3, |all|)]
  }

  /** Every collected note is non-empty and is the note of some record. */
  lemma {:induction false} NotesOfSound(sessions: seq<SessionRecord>)
    ensures forall k :: 0 <= k < |NotesOf(sessions)| ==>
      NotesOf(sessions)[k] != "" && exists i :: 0 <= i < |sessions| && sessions[i].notes == Some(NotesOf(sessions)[k])
  {
    if sessions != [] {
      NotesOfSound(sessions[1..]);
      var all := NotesOf(sessions);
      forall k | 0 <= k < |all|
        ensures all[k] != "" && exists i :: 0 <= i < |sessions| && sessions[i].notes == Some(all[k])
      {
        if HasNote(sessions[0]) && k == 0 {
          assert sessions[0].notes == Some(all[k]);
        } else {
          var k' := if HasNote(sessions[0]) then k - 1 else k;
          assert all[k] == NotesOf(sessions[1..])[k'];
          var i :| 0 <= i < |sessions[1..]| && sessions[1..][i].notes == Some(all[k]);
          assert sessions[i + 1].notes == Some(all[k]);
        }
      }
    }
  }

  /**
   * The first collected note is the note of the newest record that has one,
   * and there is none exactly when no record has a note.
   */
  lemma {:induction false} NotesOfNewestFirst(sessions: seq<SessionRecord>)
    ensures NotesOf(sessions) == [] <==> forall i :: 0 <= i < |sessions| ==> !HasNote(sessions[i])
    ensures NotesOf(sessions) != [] ==>
      exists i :: 0 <= i < |sessions| && HasNote(sessions[i]) && sessions[i].notes.value == NotesOf(sessions)[0]
        && forall j :: 0 <= j < i ==> !HasNote(sessions[j])
  {
    if sessions != [] {
      NotesOfNewestFirst(sessions[1..]);
      if !HasNote(sessions[0]) && NotesOf(sessions) != [] {
        var i :| 0 <= i < |sessions[1..]| && HasNote(sessions[1..][i])
          && sessions[1..][i].notes.value == NotesOf(sessions[1..])[0]
          && forall j :: 0 <= j < i ==> !HasNote(sessions[1..][j]);
        assert HasNote(sessions[i + 1]);
        assert forall j :: 0 <= j < i + 1 ==> !HasNote(sessions[j]) by {
          forall j | 0 <= j < i + 1 ensures !HasNote(sessions[j]) {
            if j > 0 { assert sessions[j] == sessions[1..][j - 1]; }
          }
        }
      }
      if NotesOf(sessions) == [] {
        forall i | 0 <= i < |sessions| ensures !HasNote(sessions[i]) {
          if i > 0 { assert sessions[i] == sessions[1..][i - 1]; }
        }
      }
      if forall i :: 0 <= i < |sessions| ==> !HasNote(sessions[i]) {
        assert forall i :: 0 <= i < |sessions[1..]| ==> !HasNote(sessions[1..][i]) by {
          forall i | 0 <= i < |sessions[1..]| ensures !HasNote(sessions[1..][i]) {
            assert sessions[1..][i] == sessions[i + 1];
          }
        }
      }
    }
  }

  /**
   * Notes keep history order: the notes of the newer records (before `i`)
   * all come before the notes of the older ones.
   */
  lemma {:induction false} NotesOfSplit(sessions: seq<SessionRecord>, i: nat)
    requires i <= |sessions|
    ensures NotesOf(sessions) == NotesOf(sessions[..i]) + NotesOf(sessions[i..])
  {
    if i > 0 {
      NotesOfSplit(sessions[1..], i - 1);
      assert sessions[..i][1..] == sessions[1..][..i - 1];
      assert sessions[1..][i - 1..] == sessions[i..];
      assert sessions[..i][0] == sessions[0];
    } else {
      assert sessions[..0] == [];
      assert sessions[0..] == sessions;
    }
  }

  /**
   * At most three notes, none empty, each some record's note, the first being
   * the newest record's note that exists.
   */
  lemma RecentNotesSpec(sessions: seq<SessionRecord>)
    ensures var r := RecentNotes(sessions);
      && |r| == Min(3, |NotesOf(sessions)|)
      && r == NotesOf(sessions)[..|r|]
      && (forall k :: 0 <= k < |r| ==> r[k] != "")
      && (forall k :: 0 <= k < |r| ==> exists i :: 0 <= i < |sessions| && sessions[i].notes == Some(r[k]))
      && (r == [] <==> forall i :: 0 <= i < |sessions| ==> !HasNote(sessions[i]))
      && (r != [] ==>
            exists i :: (0 <= i < |sessions| && HasNote(sessions[i]) && sessions[i].notes.value == r[0]
              && forall j :: 0 <= j < i ==> !HasNote(sessions[j])))
  {
    NotesOfSound(sessions);
    NotesOfNewestFirst(sessions);
  }

  /**
   * After a check-in with a non-empty note, the next generated script reminds
   * the user of exactly that note.
   */
  lemma NoteCarriedToNextSession(record: SessionRecord, sessions: seq<SessionRecord>, n: string)
    requires record.notes == Some(n) && n != ""
    ensures RecentNotes(HistoryAfter(record, sessions)) != []
    ensures RecentNotes(HistoryAfter(record, sessions))[0] == n
    ensures NoteLine(RecentNotes(HistoryAfter(record, sessions))) == "Remember: " + n + ". "
  {
    var h := HistoryAfter(record, sessions);
    assert h[0] == record;
    assert NotesOf(h) == [n] + NotesOf(h[1..]);
  }

  // ---------------------------------------------------------------------------
  // Severe-mood escalation
  // ---------------------------------------------------------------------------

  /** The counter after a session start at mood `mood`. */
  function SevereCountAfter(mood: MoodScore, count: nat): nat
  {
    if mood == 1 then count + 1 else 0
  }

  function BannerFor(count: nat): SevereBanner
  {
    if count >= 3 then Warning else NoBanner
  }

  /** The counter after session starts at the moods `moods`, oldest first. */
  function CountAfterStarts(count: nat, moods: seq<MoodScore>): nat
  {
    if moods == [] then count
    else SevereCountAfter(moods[|moods| - 1], CountAfterStarts(count, moods[..|moods| - 1]))
  }

  /** The number of starts at mood 1 at the end of `moods`. */
  function TrailingLows(moods: seq<MoodScore>): nat
  {
    if moods == [] || moods[|moods| - 1] != 1 then 0 else TrailingLows(moods[..|moods| - 1]) + 1
  }

  /**
   * The counter counts the trailing run of minimum-mood starts: a run over
   * the whole sequence adds to the starting value, any other start resets it.
   */
  lemma {:induction false} CountIsTrailingLows(count: nat, moods: seq<MoodScore>)
    ensures TrailingLows(moods) == |moods| ==> CountAfterStarts(count, moods) == count + |moods|
    ensures TrailingLows(moods) < |moods| ==> CountAfterStarts(count, moods) == TrailingLows(moods)
    ensures TrailingLows(moods) <= |moods|
  {
    if moods != [] {
      CountIsTrailingLows(count, moods[..|moods| - 1]);
    }
  }

  /** Starting from a reset counter, the banner shows exactly when the last three starts were at mood 1. */
  lemma BannerAfterStarts(moods: seq<MoodScore>)
    ensures BannerFor(CountAfterStarts(0, moods)) == Warning <==>
      (|moods| >= 3 && moods[|moods| - 1] == 1 && moods[|moods| - 2] == 1 && moods[|moods| - 3] == 1)
  {
    CountIsTrailingLows(0, moods);
    if |moods| >= 3 && moods[|moods| - 1] == 1 && moods[|moods| - 2] == 1 {
      var m1 := moods[..|moods| - 1];
      var m2 := m1[..|m1| - 1];
      assert m1[|m1| - 1] == moods[|moods| - 2];
      assert m2[|m2| - 1] == moods[|moods| - 3];
    }
    if |moods| >= 3 && TrailingLows(moods) >= 3 {
      var m1 := moods[..|moods| - 1];
      var m2 := m1[..|m1| - 1];
      assert m1[|m1| - 1] == moods[|moods| - 2];
      assert m2[|m2| - 1] == moods[|moods| - 3];
    }
  }

  // ---------------------------------------------------------------------------
  // The controller
  // ---------------------------------------------------------------------------

  class App {
    const store: AppStore
    const speechSupported: bool
    var view: ViewState
    var showOnboarding: bool
    var isPlaying: bool
    var banner: SevereBanner
    var lastResult: Option<GeneratedSession>
    var lastNotes: string

    /**
     * The store is consistent, the last result mirrors the store's current
     * bundle, and the streak counts at least the check-in days still in history.
     */
    ghost predicate Valid()
      reads this, store
    {
      && store.Valid()
      && lastResult == store.todaySession
      && DayRuns(store.sessions) <= store.streak
    }

    constructor (store: AppStore, speechSupported: bool)
      requires store.Valid() && DayRuns(store.sessions) <= store.streak
      ensures Valid()
      ensures this.store == store && this.speechSupported == speechSupported
      ensures view == Home && showOnboarding == !store.onboardingComplete && !isPlaying
      ensures banner == NoBanner && lastResult == store.todaySession && lastNotes == ""
    {
      this.store := store;
      this.speechSupported := speechSupported;
      view := Home;
      showOnboarding := !store.onboardingComplete;
      isPlaying := false;
      banner := NoBanner;
      lastResult := store.todaySession;
      lastNotes := "";
    }

    /** The onboarding form was submitted with `profile` and starting mood `mood`. */
    method OnboardingComplete(profile: Profile, mood: MoodScore)
      requires Valid()
      modifies this, store
      ensures Valid()
      ensures store.State() == old(store.State()).(profile := Some(profile), currentMood := mood, onboardingComplete := true)
      ensures view == Home && !showOnboarding
      ensures isPlaying == old(isPlaying) && banner == old(banner)
      ensures lastResult == old(lastResult) && lastNotes == old(lastNotes)
    {
      store.SetProfile(profile);
      store.SetCurrentMood(mood);
      store.SetOnboardingComplete(true);
      view := Home;
      showOnboarding := false;
    }

    /**
     * Starts a session. Without a profile it only asks for onboarding.
     * `generationFails` says whether the generator throws; `bodyIx` and
     * `promptIx` are its random picks.
     */
    method StartSession(generationFails: bool, bodyIx: nat, promptIx: nat)
      requires Valid()
      requires store.profile.Some? ==> IndicesInRange(store.profile.value.goal, bodyIx, promptIx)
      modifies this, store
      ensures Valid()
      ensures old(store.profile).None? ==>
        && store.State() == old(store.State())
        && showOnboarding
        && view == old(view) && banner == old(banner) && isPlaying == old(isPlaying)
        && lastResult == old(lastResult) && lastNotes == old(lastNotes)
      ensures old(store.profile).Some? ==>
        var profile := old(store.profile).value;
        var count := SevereCountAfter(old(store.currentMood), old(store.severeMoodCount));
        var payload := GeneratePayload(profile.name, profile.goal, old(store.currentMood), profile.length,
                                       RecentNotes(old(store.sessions)));
        var content := if generationFails then FallbackSession(profile.goal) else Generate(payload, bodyIx, promptIx);
        && store.State() == old(store.State()).(severeMoodCount := count, todaySession := Some(content))
        && banner == BannerFor(count)
        && view == Session
        && lastResult == Some(content)
        && !isPlaying && lastNotes == "" && showOnboarding == old(showOnboarding)
    {
      if store.profile.None? {
        showOnboarding := true;
        return;
      }
      var profile := store.profile.value;
      lastNotes := "";
      isPlaying := false;
      var newSevereCount := if store.currentMood == 1 then store.severeMoodCount + 1 else 0;
      var mood := store.currentMood;
      var notes := RecentNotes(store.sessions);
      store.SetSevereMoodCount(newSevereCount);
      banner := if newSevereCount >= 3 then Warning else NoBanner;
      var content: GeneratedSession;
      if generationFails {
        content := FallbackSession(profile.goal);
      } else {
        content := Generate(GeneratePayload(profile.name, profile.goal, mood, profile.length, notes), bodyIx, promptIx);
      }
      store.SetTodaySession(Some(content));
      lastResult := Some(content);
      view := Session;
    }

    /** Play/pause: refused without speech support or without a bundle, otherwise flips playback. */
    method TogglePlay()
      requires Valid()
      modifies this
      ensures Valid()
      ensures isPlaying == if speechSupported && lastResult.Some? then !old(isPlaying) else old(isPlaying)
      ensures store.State() == old(store.State())
      ensures view == old(view) && banner == old(banner) && showOnboarding == old(showOnboarding)
      ensures lastResult == old(lastResult) && lastNotes == old(lastNotes)
    {
      if !speechSupported || lastResult.None? {
        return;
      }
      if isPlaying {
        isPlaying := false;
        return;
      }
      isPlaying := true;
    }

    /** The speech engine reports that the utterance has ended. */
    method PlaybackEnded()
      requires Valid()
      modifies this
      ensures Valid()
      ensures !isPlaying
      ensures store.State() == old(store.State())
      ensures view == old(view) && banner == old(banner) && showOnboarding == old(showOnboarding)
      ensures lastResult == old(lastResult) && lastNotes == old(lastNotes)
    {
      isPlaying := false;
    }

    /** The session view's "finish" button: playback stops and the check-in opens. */
    method FinishSession()
      requires Valid()
      modifies this
      ensures Valid()
      ensures view == Checkout && !isPlaying
      ensures store.State() == old(store.State())
      ensures banner == old(banner) && showOnboarding == old(showOnboarding)
      ensures lastResult == old(lastResult) && lastNotes == old(lastNotes)
    {
      isPlaying := false;
      view := Checkout;
    }

    /** The check-in's "back" button returns to the session. */
    method Back()
      requires Valid()
      modifies this
      ensures Valid()
      ensures view == Session
      ensures store.State() == old(store.State())
      ensures isPlaying == old(isPlaying) && banner == old(banner) && showOnboarding == old(showOnboarding)
      ensures lastResult == old(lastResult) && lastNotes == old(lastNotes)
    {
      view := Session;
    }

    /**
     * Submits the check-in with the after-mood and the (already trimmed)
     * notes; `id` is the fresh record id and `today` the calendar day.
     */
    method SubmitCheckout(moodAfter: MoodScore, notes: string, id: string, today: string)
      requires Valid()
      modifies this, store
      ensures Valid()
      ensures isPlaying == old(isPlaying) && banner == old(banner) && showOnboarding == old(showOnboarding)
      ensures lastResult == old(lastResult)
      ensures (old(store.profile).None? || old(lastResult).None?) ==>
        && store.State() == old(store.State())
        && view == old(view) && lastNotes == old(lastNotes)
      ensures (old(store.profile).Some? && old(lastResult).Some?) ==>
        var profile := old(store.profile).value;
        var result := old(lastResult).value;
        var record := SessionRecord(id, today, profile.goal, profile.length, old(store.currentMood), moodAfter,
                                    if notes == "" then None else Some(notes),
                                    result.script, result.reflection, result.microTip);
        && store.State() == Logged(old(store.State()), record, today)
        && store.sessions[0] == record
        && store.currentMood == moodAfter
        && view == Complete
        && lastNotes == notes
    {
      if store.profile.None? || lastResult.None? {
        return;
      }
      var profile := store.profile.value;
      var result := lastResult.value;
      var record := SessionRecord(id, today, profile.goal, profile.length, store.currentMood, moodAfter,
                                  if notes == "" then None else Some(notes),
                                  result.script, result.reflection, result.microTip);
      LoggedKeepsRunsBelowStreak(store.State(), record, today);
      LoggedHistory(store.State(), record, today);
      store.LogSession(record, today);
      store.SetCurrentMood(moodAfter);
      lastNotes := notes;
      view := Complete;
    }

    /** "Do another session" (and "Back home") on the completion view. */
    method DoAnother()
      requires Valid()
      modifies this
      ensures Valid()
      ensures view == Home
      ensures store.State() == old(store.State())
      ensures isPlaying == old(isPlaying) && banner == old(banner) && showOnboarding == old(showOnboarding)
      ensures lastResult == old(lastResult) && lastNotes == old(lastNotes)
    {
      view := Home;
    }
  }

  /**
   * A first check-in, end to end: onboarding at mood 2, a session start whose
   * generation fails, finishing, going back, finishing again and checking in
   * at mood 4 with a note. It exercises the contracts above one after another
   * and does not model a function of the app.
   */
  method FirstCheckIn()
  {
    var store := new AppStore();
    var app := new App(store, true);
    assert app.showOnboarding;
    app.OnboardingComplete(Profile("Ana", Focus, 5, "08:00"), 2);
    app.StartSession(true, 0, 0);
    assert app.view == Session && store.severeMoodCount == 0 && app.banner == NoBanner;
    assert app.lastResult == Some(FallbackSession(Focus));
    app.TogglePlay();
    assert app.isPlaying;
    app.FinishSession();
    assert app.view == Checkout && !app.isPlaying;
    app.Back();
    app.FinishSession();
    app.SubmitCheckout(4, "felt clearer", "id-1", "2024-05-01");
    assert |store.sessions| == 1;
    assert store.sessions[0].moodBefore == 2 && store.sessions[0].moodAfter == 4;
    assert store.sessions[0].notes == Some("felt clearer");
    assert store.streak == 1 && store.currentMood == 4 && app.view == Complete;
    app.DoAnother();
    assert app.view == Home;
  }
}
