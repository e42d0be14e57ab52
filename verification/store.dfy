/**
 * The persisted application store (src/hooks/useAppStore.ts).
 *
 * `AppStore` is the store object: its fields are overwritten by single-field
 * setters and by `LogSession`, which commits a check-in record. The clock read
 * inside `logSession` becomes the `today` parameter. The pure functions
 * `Logged` and `Partialize` specify the commit and the persisted projection
 * on `StoreState` values; the lemmas state what the commit guarantees.
 */
module Store {
  import opened Wrappers
  import opened Generator

  /** A mood register, 1 to 5. */
  type MoodScore = m: int | 1 <= m <= 5 witness 3

  /** A session length in minutes: 3, 5 or 10. */
  type SessionLength = n: int | n == 3 || n == 5 || n == 10 witness 5

  datatype Profile = Profile(name: string, goal: Goal, length: SessionLength, reminder: string)

  /** One committed check-in; `date` is a calendar-day string such as "2024-05-01". */
  datatype SessionRecord = SessionRecord(
    id: string,
    date: string,
    goal: Goal,
    length: SessionLength,
    moodBefore: MoodScore,
    moodAfter: MoodScore,
    notes: Option<string>,
    script: string,
    reflection: string,
    microTip: string)

  /** The store's whole state, `lastReminder` included (it is declared but never set). */
  datatype StoreState = StoreState(
    profile: Option<Profile>,
    onboardingComplete: bool,
    currentMood: MoodScore,
    streak: nat,
    sessions: seq<SessionRecord>,
    todaySession: Option<GeneratedSession>,
    lastReminder: Option<string>,
    severeMoodCount: nat)

  /** What `partialize` hands to the persistence layer. */
  datatype PersistedState = PersistedState(
    profile: Option<Profile>,
    onboardingComplete: bool,
    currentMood: MoodScore,
    streak: nat,
    sessions: seq<SessionRecord>,
    todaySession: Option<GeneratedSession>,
    severeMoodCount: nat)

  /** The history keeps the newest ten records. */
  const MaxHistory: nat := 10

  function Min(a: int, b: int): int
  {
    if a <= b then a else b
  }

  /** `[record, ...sessions].slice(0, 10)`. */
  function HistoryAfter(record: SessionRecord, sessions: seq<SessionRecord>): seq<SessionRecord>
  {
    ([record] + sessions)[..Min(|sessions| + 1, MaxHistory)]
  }

  /** The streak stays put when the newest record is dated today, and otherwise grows by one. */
  function StreakAfter(streak: nat, sessions: seq<SessionRecord>, today: string): nat
  {
    if |sessions| > 0 && sessions[0].date == today then streak else streak + 1
  }

  /** The state after `logSession(record)` on calendar day `today`. */
  function Logged(s: StoreState, record: SessionRecord, today: string): StoreState
  {
    s.(sessions := HistoryAfter(record, s.sessions),
       streak := StreakAfter(s.streak, s.sessions, today),
       currentMood := record.moodAfter)
  }

  /** The initial state, used when nothing has been persisted yet. */
  function InitialState(): StoreState
  {
    StoreState(None, false, 3, 0, [], None, None, 0)
  }

  /** The `partialize` projection: every field but `lastReminder`. */
  function Partialize(s: StoreState): PersistedState
  {
    PersistedState(s.profile, s.onboardingComplete, s.currentMood, s.streak,
                   s.sessions, s.todaySession, s.severeMoodCount)
  }

  // ---------------------------------------------------------------------------
  // Properties of logSession
  // ---------------------------------------------------------------------------

  /** The new record comes first, the previous records follow in order, and the newest ten are kept. */
  lemma LoggedHistory(s: StoreState, record: SessionRecord, today: string)
    ensures var h := Logged(s, record, today).sessions;
      && |h| == Min(|s.sessions| + 1, MaxHistory)
      && h[0] == record
      && (forall i :: 1 <= i < |h| ==> h[i] == s.sessions[i - 1])
  {
  }

  /** Committing onto a full history drops exactly the oldest record. */
  lemma LoggedEvictsOldest(s: StoreState, record: SessionRecord, today: string)
    requires |s.sessions| == MaxHistory
    ensures Logged(s, record, today).sessions == [record] + s.sessions[..MaxHistory - 1]
  {
    var h := Logged(s, record, today).sessions;
    assert |h| == MaxHistory;
    forall i | 0 <= i < MaxHistory
      ensures h[i] == ([record] + s.sessions[..MaxHistory - 1])[i]
    {
    }
  }

  /** History never grows past ten records, however long it was before. */
  lemma LoggedCapped(s: StoreState, record: SessionRecord, today: string)
    ensures 0 < |Logged(s, record, today).sessions| <= MaxHistory
    ensures |s.sessions| < MaxHistory ==> |Logged(s, record, today).sessions| == |s.sessions| + 1
  {
  }

  /**
   * The streak is unchanged exactly when the newest existing record is dated
   * today, and goes up by one otherwise; so it never drops, never jumps by
   * more than one, and always grows on an empty history.
   */
  lemma LoggedStreak(s: StoreState, record: SessionRecord, today: string)
    ensures var n := Logged(s, record, today).streak;
      && (n == s.streak <==> (|s.sessions| > 0 && s.sessions[0].date == today))
      && (n == s.streak + 1 <==> !(|s.sessions| > 0 && s.sessions[0].date == today))
      && s.streak <= n <= s.streak + 1
      && (s.sessions == [] ==> n == s.streak + 1)
  {
  }

  /** The mood register takes the record's after-mood; no other field than history, streak and mood changes. */
  lemma LoggedFrame(s: StoreState, record: SessionRecord, today: string)
    ensures var t := Logged(s, record, today);
      && t.currentMood == record.moodAfter
      && t.profile == s.profile
      && t.onboardingComplete == s.onboardingComplete
      && t.todaySession == s.todaySession
      && t.severeMoodCount == s.severeMoodCount
      && t.lastReminder == s.lastReminder
  {
  }

  /** Two check-ins on the same day, the first dated today, raise the streak by at most one in total. */
  lemma SameDayTwice(s: StoreState, r1: SessionRecord, r2: SessionRecord, today: string)
    requires r1.date == today
    ensures Logged(Logged(s, r1, today), r2, today).streak <= s.streak + 1
    ensures Logged(Logged(s, r1, today), r2, today).streak == Logged(s, r1, today).streak
  {
    LoggedHistory(s, r1, today);
  }

  /** Check-ins on two different days, each dated its own day, raise the streak by two when the first day is new. */
  lemma TwoDays(s: StoreState, r1: SessionRecord, day1: string, r2: SessionRecord, day2: string)
    requires r1.date == day1 && day1 != day2
    requires s.sessions == [] || s.sessions[0].date != day1
    ensures Logged(Logged(s, r1, day1), r2, day2).streak == s.streak + 2
  {
    LoggedHistory(s, r1, day1);
  }

  // ---------------------------------------------------------------------------
  // The streak counts at least the check-in days the history still shows
  // ---------------------------------------------------------------------------

  /** The number of maximal runs of equal dates in a history. */
  function DayRuns(sessions: seq<SessionRecord>): nat
  {
    if |sessions| <= 1 then |sessions|
    else DayRuns(sessions[1..]) + (if sessions[0].date == sessions[1].date then 0 else 1)
  }

  lemma {:induction false} DayRunsPrefix(sessions: seq<SessionRecord>, k: nat)
    requires k <= |sessions|
    ensures DayRuns(sessions[..k]) <= DayRuns(sessions)
  {
    if k >= 2 {
      DayRunsPrefix(sessions[1..], k - 1);
      assert sessions[..k][1..] == sessions[1..][..k - 1];
    } else if |sessions| >= 2 {
      DayRunsPositive(sessions);
    }
  }

  lemma {:induction false} DayRunsPositive(sessions: seq<SessionRecord>)
    requires |sessions| > 0
    ensures DayRuns(sessions) >= 1
  {
    if |sessions| > 1 {
      DayRunsPositive(sessions[1..]);
    }
  }

  /**
   * When each record is dated on the day it is committed, a commit keeps the
   * number of distinct-day runs in the history at or below the streak.
   */
  lemma LoggedKeepsRunsBelowStreak(s: StoreState, record: SessionRecord, today: string)
    requires record.date == today
    requires DayRuns(s.sessions) <= s.streak
    ensures DayRuns(Logged(s, record, today).sessions) <= Logged(s, record, today).streak
  {
    var full := [record] + s.sessions;
    assert full[1..] == s.sessions;
    assert DayRuns(full) <= StreakAfter(s.streak, s.sessions, today);
    DayRunsPrefix(full, Min(|s.sessions| + 1, MaxHistory));
  }

  // ---------------------------------------------------------------------------
  // Properties of the persisted projection
  // ---------------------------------------------------------------------------

  /**
   * Two states persist to the same value exactly when they agree on every
   * field other than `lastReminder`: the projection keeps the seven fields
   * and only those.
   */
  lemma PartializeKeepsExactlySeven(s: StoreState, t: StoreState)
    ensures Partialize(s) == Partialize(t) <==> s.(lastReminder := t.lastReminder) == t
  {
  }

  // ---------------------------------------------------------------------------
  // The store object
  // ---------------------------------------------------------------------------

  class AppStore {
    var profile: Option<Profile>
    var onboardingComplete: bool
    var currentMood: MoodScore
    var streak: nat
    var sessions: seq<SessionRecord>
    var todaySession: Option<GeneratedSession>
    var lastReminder: Option<string>
    var severeMoodCount: nat

    /** The history never holds more than ten records. */
    ghost predicate Valid()
      reads this
    {
      |sessions| <= MaxHistory
    }

    function State(): StoreState
      reads this
    {
      StoreState(profile, onboardingComplete, currentMood, streak, sessions,
                 todaySession, lastReminder, severeMoodCount)
    }

    /** What the persistence layer stores for this object. */
    function Persisted(): (p: PersistedState)
      reads this
      ensures p.profile == profile && p.onboardingComplete == onboardingComplete
      ensures p.currentMood == currentMood && p.streak == streak && p.sessions == sessions
      ensures p.todaySession == todaySession && p.severeMoodCount == severeMoodCount
    {
      Partialize(State())
    }

    constructor ()
      ensures Valid()
      ensures State() == InitialState()
      ensures profile == None && !onboardingComplete && currentMood == 3 && streak == 0
      ensures sessions == [] && todaySession == None && severeMoodCount == 0
    {
      profile := None;
      onboardingComplete := false;
      currentMood := 3;
      streak := 0;
      sessions := [];
      todaySession := None;
      lastReminder := None;
      severeMoodCount := 0;
    }

    method SetProfile(p: Profile)
      requires Valid()
      modifies this
      ensures Valid()
      ensures State() == old(State()).(profile := Some(p))
    {
      profile := Some(p);
    }

    method SetOnboardingComplete(complete: bool)
      requires Valid()
      modifies this
      ensures Valid()
      ensures State() == old(State()).(onboardingComplete := complete)
    {
      onboardingComplete := complete;
    }

    method SetCurrentMood(mood: MoodScore)
      requires Valid()
      modifies this
      ensures Valid()
      ensures State() == old(State()).(currentMood := mood)
    {
      currentMood := mood;
    }

    method SetTodaySession(session: Option<GeneratedSession>)
      requires Valid()
      modifies this
      ensures Valid()
      ensures State() == old(State()).(todaySession := session)
    {
      todaySession := session;
    }

    method SetSevereMoodCount(count: nat)
      requires Valid()
      modifies this
      ensures Valid()
      ensures State() == old(State()).(severeMoodCount := count)
    {
      severeMoodCount := count;
    }

    /** Commits `record` on calendar day `today`. */
    method LogSession(record: SessionRecord, today: string)
      requires Valid()
      modifies this
      ensures Valid()
      ensures State() == Logged(old(State()), record, today)
    {
      var newStreak := if |sessions| > 0 && sessions[0].date == today then streak else streak + 1;
      var newSessions := ([record] + sessions)[..Min(|sessions| + 1, MaxHistory)];
      sessions := newSessions;
      streak := newStreak;
      currentMood := record.moodAfter;
    }
  }
}
