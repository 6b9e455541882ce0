/** The view-mode scheduler: the dashboard shows the top sellers for 60 s,
    then the recent sales for 30 s, and so on. Each expiry flips the mode, and
    the flip re-arms a single timeout for the new mode's dwell. */
module ModeSchedule {

  datatype Mode = Top | Recent

  const TopDwellMs := 60000
  const RecentDwellMs := 30000

  /** The mode updater run when the timeout expires. */
  function Toggle(m: Mode): (next: Mode)
    ensures next != m
  {
    if m == Top then Recent else Top
  }

  /** The delay armed while `m` is shown. */
  function Dwell(m: Mode): nat
  {
    if m == Top then TopDwellMs else RecentDwellMs
  }

  /** The mode shown `elapsed` ms after `start` was shown and its timeout was
      armed, when every expiry toggles the mode and arms the next timeout. */
  function ModeAt(start: Mode, elapsed: nat): Mode
    decreases elapsed
  {
    if elapsed < Dwell(start) then start
    else ModeAt(Toggle(start), elapsed - Dwell(start))
  }

  /** Starting in the top-sellers view, the schedule repeats every 90 s:
      top sellers for the first 60 s, recent sales for the next 30 s. */
  lemma {:induction false} ModeCycle(elapsed: nat)
    ensures ModeAt(Top, elapsed) == if elapsed % 90000 < 60000 then Top else Recent
  {
    if elapsed >= 90000 {
      ModeCycle(elapsed - 90000);
      assert ModeAt(Top, elapsed) == ModeAt(Recent, elapsed - 60000)
                                  == ModeAt(Top, elapsed - 90000);
    }
  }
}
