/**
 * The history chip (src/components/HistoryChip.tsx): a summary of the newest
 * seven records and whether one of them is dated today. The calendar day is a
 * parameter.
 */
module HistoryChip {
  import opened Store

  /** The chip's two faces: no history yet, or a window size and the "checked in today" flag. */
  datatype ChipView = NoSessionsYet | LastDays(shown: nat, completedToday: bool)

  const Window: nat := 7

  /** `records.some(r => r.date === today)`. */
  function AnyDatedOn(records: seq<SessionRecord>, today: string): bool
  {
    if records == [] then false else records[0].date == today || AnyDatedOn(records[1..], today)
  }

  function Chip(sessions: seq<SessionRecord>, today: string): ChipView
  {
    if |sessions| == 0 then NoSessionsYet
    else
      var window := sessions[..Min(Window, |sessions|)];
      LastDays(|window|, AnyDatedOn(window, today))
  }

  lemma {:induction false} AnyDatedOnIff(records: seq<SessionRecord>, today: string)
    ensures AnyDatedOn(records, today) <==> exists i :: 0 <= i < |records| && records[i].date == today
  {
    if records != [] {
      AnyDatedOnIff(records[1..], today);
      if exists i :: 0 <= i < |records| && records[i].date == today {
        var i :| 0 <= i < |records| && records[i].date == today;
        if i > 0 {
          assert records[1..][i - 1].date == today;
        }
      }
    }
  }

  /**
   * Empty history shows the "no sessions yet" face; otherwise the chip shows
   * min(7, length) and says "checked in today" exactly when one of those
   * records is dated today.
   */
  lemma ChipSpec(sessions: seq<SessionRecord>, today: string)
    ensures Chip(sessions, today).NoSessionsYet? <==> sessions == []
    ensures sessions != [] ==> Chip(sessions, today).shown == Min(Window, |sessions|)
    ensures sessions != [] ==>
      (Chip(sessions, today).completedToday <==>
        exists i :: 0 <= i < Min(Window, |sessions|) && sessions[i].date == today)
  {
    if sessions != [] {
      var window := sessions[..Min(Window, |sessions|)];
      AnyDatedOnIff(window, today);
      assert forall i :: 0 <= i < |window| ==> window[i] == sessions[i];
    }
  }

  /** Records beyond the seventh never affect the chip. */
  lemma ChipIgnoresOlder(sessions: seq<SessionRecord>, older: seq<SessionRecord>, today: string)
    requires |sessions| >= Window
    ensures Chip(sessions + older, today) == Chip(sessions, today)
  {
    assert (sessions + older)[..Window] == sessions[..Window];
  }

  /** Right after a record dated today is committed, the chip says the user checked in today. */
  lemma ChipAfterCheckIn(s: StoreState, record: SessionRecord, today: string)
    requires record.date == today
    ensures Chip(Logged(s, record, today).sessions, today) == LastDays(Min(Window, Min(|s.sessions| + 1, MaxHistory)), true)
  {
    LoggedHistory(s, record, today);
    var h := Logged(s, record, today).sessions;
    ChipSpec(h, today);
    assert h[0].date == today;
  }
}
