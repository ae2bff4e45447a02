/**
 * Tick timers: Win32 timers that send synthetic ticks to a chart window. The DLL keeps every active
 * timer in one global table and numbers them from a static counter. Window-system calls are
 * parameters: the thread that owns a window, whether SetTimer and KillTimer succeed, and how much
 * of a chart is visible.
 */
module TickTimers {
  import opened Expander

  /** The timer flags (TICK_CHART_REFRESH, TICK_TESTER, TICK_IF_VISIBLE, TICK_PAUSE_ON_WEEKEND). */
  datatype TickFlags = TickFlags(chartRefresh: bool, tester: bool, ifVisible: bool, pauseOnWeekend: bool)

  /** One entry of the table: the timer id, the chart window that receives the ticks, the flags. */
  datatype TickTimer = TickTimer(id: nat, hWnd: nat, flags: TickFlags)

  /** The counter's start value; ids have at least five digits. */
  const FIRST_TIMER_ID: nat := 10000

  /** What GetClipBox reports about a chart window. */
  datatype Region = NullRegion | RegionError | Visible

  /** What the timer callback does for one WM_TIMER message. */
  datatype TimerAction =
    | TimerNotFound            // logged: no timer with this id
    | Skipped                  // chart hidden, or its visibility could not be determined
    | PostChartRefresh(hWnd: nat)
    | PostStepForward(hWnd: nat)
    | PostTick(hWnd: nat)

  /** Ids grow strictly from the front of the table to its end. */
  ghost predicate IdsIncrease(timers: seq<TickTimer>) {
    forall i, j :: 0 <= i < j < |timers| ==> timers[i].id < timers[j].id
  }

  /** The position of the first timer with the given id, if any. */
  function IndexOfId(timers: seq<TickTimer>, id: int): (r: Option<nat>)
    ensures r.Some? ==> r.value < |timers| && timers[r.value].id == id
    ensures r.Some? ==> forall k :: 0 <= k < r.value ==> timers[k].id != id
    ensures r.None? ==> forall k :: 0 <= k < |timers| ==> timers[k].id != id
  {
    if timers == [] then None
    else if timers[0].id == id then Some(0)
    else match IndexOfId(timers[1..], id)
      case None => None
      case Some(i) => Some(i + 1)
  }

  /** The action for a timer: refresh before step-forward before the default tick. */
  function Dispatch(t: TickTimer, visibility: Region): (a: TimerAction)
    ensures !a.TimerNotFound?
    ensures !a.Skipped? ==> a.hWnd == t.hWnd
    ensures visibility == Visible ==> !a.Skipped?
  {
    if t.flags.ifVisible && visibility != Visible then Skipped
    else if t.flags.chartRefresh then PostChartRefresh(t.hWnd)
    else if t.flags.tester then PostStepForward(t.hWnd)
    else PostTick(t.hWnd)
  }

  /**
   * The flag priority of the callback: a visibility test only for TICK_IF_VISIBLE, then a refresh
   * whenever TICK_CHART_REFRESH is set, a step-forward only for TICK_TESTER without it, and the
   * default tick otherwise. Every posted message goes to the timer's own window.
   */
  lemma DispatchPriority(t: TickTimer, visibility: Region)
    ensures Dispatch(t, visibility) == Skipped <==> t.flags.ifVisible && visibility != Visible
    ensures Dispatch(t, visibility).PostChartRefresh? <==>
              (!t.flags.ifVisible || visibility == Visible) && t.flags.chartRefresh
    ensures Dispatch(t, visibility).PostStepForward? <==>
              (!t.flags.ifVisible || visibility == Visible) && !t.flags.chartRefresh && t.flags.tester
    ensures Dispatch(t, visibility).PostTick? <==>
              (!t.flags.ifVisible || visibility == Visible) && !t.flags.chartRefresh && !t.flags.tester
    ensures !Dispatch(t, visibility).Skipped? && !Dispatch(t, visibility).TimerNotFound? ==>
              Dispatch(t, visibility).hWnd == t.hWnd
  {
  }

  /** The timers of s whose kill fails, in their order: what a remove-all pass leaves behind. */
  function Survivors(s: seq<TickTimer>, killSucceeds: TickTimer -> bool): (r: seq<TickTimer>)
    ensures |r| <= |s|
    ensures forall i :: 0 <= i < |r| ==> !killSucceeds(r[i])
  {
    if s == [] then []
    else (if killSucceeds(s[0]) then [] else [s[0]]) + Survivors(s[1..], killSucceeds)
  }

  /** A timer survives exactly when it was in the table and its kill failed. */
  lemma {:induction false} SurvivorsAreFailedKills(s: seq<TickTimer>, killSucceeds: TickTimer -> bool, t: TickTimer)
    ensures t in Survivors(s, killSucceeds) <==> t in s && !killSucceeds(t)
  {
    if s != [] {
      SurvivorsAreFailedKills(s[1..], killSucceeds, t);
      assert s == [s[0]] + s[1..];
    }
  }

  lemma {:induction false} SurvivorsKeepOrder(s: seq<TickTimer>, killSucceeds: TickTimer -> bool)
    requires IdsIncrease(s)
    ensures IdsIncrease(Survivors(s, killSucceeds))
    ensures forall t :: t in Survivors(s, killSucceeds) ==> t in s
  {
    if s != [] {
      SurvivorsKeepOrder(s[1..], killSucceeds);
      forall t | t in Survivors(s[1..], killSucceeds)
        ensures s[0].id < t.id
      {
        var k :| 0 <= k < |s[1..]| && s[1..][k] == t;
        assert s[k + 1] == t;
      }
    }
  }

  class TickTimerTable {
    /** tickTimers: the active timers in the order they were set up. */
    var timers: seq<TickTimer>
    /** The static counter of SetupTickTimer: the last id handed out. */
    var lastId: nat

    ghost predicate Valid()
      reads this
    {
      lastId >= FIRST_TIMER_ID
      && IdsIncrease(timers)
      && forall i :: 0 <= i < |timers| ==> FIRST_TIMER_ID < timers[i].id <= lastId
    }

    constructor()
      ensures Valid()
      ensures timers == [] && lastId == FIRST_TIMER_ID
    {
      timers := [];
      lastId := FIRST_TIMER_ID;
    }

    /**
     * SetupTickTimer. Returns 0 and changes nothing if the window does not belong to the calling
     * thread (windowThread 0: not a window at all), if millis is not positive, or if both
     * TICK_CHART_REFRESH and TICK_TESTER are set. Otherwise it takes the next id from the counter,
     * even if SetTimer then fails (result 0), and on success appends the timer to the table and
     * returns its id. `warned` reports the unimplemented TICK_PAUSE_ON_WEEKEND.
     */
    method Setup(hWnd: nat, millis: int, flags: TickFlags, windowThread: nat, currentThread: nat, setTimerSucceeds: bool)
      returns (id: nat, warned: bool)
      requires Valid()
      modifies this
      ensures Valid()
      ensures var rejected := windowThread != currentThread || millis <= 0 || (flags.chartRefresh && flags.tester);
              (rejected ==> id == 0 && !warned && timers == old(timers) && lastId == old(lastId))
              && (!rejected ==> lastId == old(lastId) + 1 && warned == flags.pauseOnWeekend)
              && (!rejected && setTimerSucceeds ==> id == lastId && timers == old(timers) + [TickTimer(id, hWnd, flags)])
              && (!rejected && !setTimerSucceeds ==> id == 0 && timers == old(timers))
      ensures id != 0 ==> forall t :: t in old(timers) ==> t.id < id
    {
      if windowThread != currentThread {
        return 0, false;
      }
      if millis <= 0 {
        return 0, false;
      }
      if flags.chartRefresh && flags.tester {
        return 0, false;
      }
      warned := flags.pauseOnWeekend;

      lastId := lastId + 1;
      if !setTimerSucceeds {
        return 0, warned;
      }
      timers := timers + [TickTimer(lastId, hWnd, flags)];
      id := lastId;
    }

    /**
     * RemoveTickTimer. Rejects ids <= 0; otherwise finds the first timer with the id, kills it and
     * erases it, keeping the order of the others. An unknown id or a failed kill changes nothing.
     */
    method Remove(timerId: int, killSucceeds: TickTimer -> bool) returns (ok: bool)
      requires Valid()
      modifies this
      ensures Valid()
      ensures lastId == old(lastId)
      ensures ok <==> timerId > 0 && IndexOfId(old(timers), timerId).Some?
                      && killSucceeds(old(timers)[IndexOfId(old(timers), timerId).value])
      ensures ok ==> var i := IndexOfId(old(timers), timerId).value;
                     timers == old(timers)[..i] + old(timers)[i + 1..]
      ensures !ok ==> timers == old(timers)
    {
      if timerId <= 0 {
        return false;
      }
      var i := 0;
      while i < |timers|
        invariant 0 <= i <= |timers|
        invariant forall k :: 0 <= k < i ==> timers[k].id != timerId
      {
        if timers[i].id == timerId {
          assert IndexOfId(timers, timerId) == Some(i) by {
            IndexOfIdIsFirst(timers, timerId, i);
          }
          if !killSucceeds(timers[i]) {
            return false;
          }
          timers := timers[..i] + timers[i + 1..];
          return true;
        }
        i := i + 1;
      }
      return false;
    }

    /**
     * RemoveTickTimers: walks the table from its end and removes every timer. Only timers whose
     * kill fails remain, in their order; when every kill succeeds the table is empty.
     */
    method RemoveAll(killSucceeds: TickTimer -> bool)
      requires Valid()
      modifies this
      ensures Valid()
      ensures lastId == old(lastId)
      ensures timers == Survivors(old(timers), killSucceeds)
    {
      ghost var before := timers;
      var i := |timers|;
      while i > 0
        invariant 0 <= i <= |before|
        invariant IdsIncrease(before)
        invariant Valid() && lastId == old(lastId)
        invariant timers == before[..i] + Survivors(before[i..], killSucceeds)
      {
        i := i - 1;
        RemoveAllStep(before, i, killSucceeds);
        var id := timers[i].id;
        var removed := Remove(id, killSucceeds);
      }
      assert before[0..] == before;
    }

    /** TimerCallback: dispatches on the first timer with the id, or reports that none exists. */
    method Callback(timerId: nat, visibility: Region) returns (action: TimerAction)
      requires Valid()
      ensures IndexOfId(timers, timerId).None? ==> action == TimerNotFound
      ensures IndexOfId(timers, timerId).Some? ==>
                action == Dispatch(timers[IndexOfId(timers, timerId).value], visibility)
    {
      var i := 0;
      while i < |timers|
        invariant 0 <= i <= |timers|
        invariant forall k :: 0 <= k < i ==> timers[k].id != timerId
      {
        if timers[i].id == timerId {
          IndexOfIdIsFirst(timers, timerId, i);
          var t := timers[i];
          if t.flags.ifVisible && visibility != Visible {
            return Skipped;
          }
          if t.flags.chartRefresh {
            return PostChartRefresh(t.hWnd);
          } else if t.flags.tester {
            return PostStepForward(t.hWnd);
          }
          return PostTick(t.hWnd);
        }
        i := i + 1;
      }
      return TimerNotFound;
    }
  }

  lemma {:induction false} IndexOfIdIsFirst(timers: seq<TickTimer>, id: int, i: nat)
    requires i < |timers| && timers[i].id == id
    requires forall k :: 0 <= k < i ==> timers[k].id != id
    ensures IndexOfId(timers, id) == Some(i)
  {
    if i > 0 {
      IndexOfIdIsFirst(timers[1..], id, i - 1);
    }
  }

  /**
   * One step of the backward remove-all pass: with the untouched prefix up to position i and the
   * survivors after it, the timer at i is the first with its id, and removing it (or failing to)
   * leaves the prefix before i followed by the survivors from i on.
   */
  lemma RemoveAllStep(before: seq<TickTimer>, i: nat, killSucceeds: TickTimer -> bool)
    requires IdsIncrease(before) && i < |before|
    ensures var timers := before[..i + 1] + Survivors(before[i + 1..], killSucceeds);
            i < |timers| && timers[i] == before[i]
            && IndexOfId(timers, before[i].id) == Some(i)
            && (killSucceeds(before[i]) ==>
                  timers[..i] + timers[i + 1..] == before[..i] + Survivors(before[i..], killSucceeds))
            && (!killSucceeds(before[i]) ==> timers == before[..i] + Survivors(before[i..], killSucceeds))
  {
    var rest := Survivors(before[i + 1..], killSucceeds);
    var timers := before[..i + 1] + rest;
    assert timers[i] == before[i];
    forall k | 0 <= k < i
      ensures timers[k].id != before[i].id
    {
      assert timers[k] == before[k];
    }
    IndexOfIdIsFirst(timers, before[i].id, i);
    assert before[i..] == [before[i]] + before[i + 1..];
    assert timers[..i] == before[..i];
    assert timers[i + 1..] == rest;
    assert before[..i + 1] == before[..i] + [before[i]];
  }

  /**
   * A timer that Setup has just installed is found by the callback, which dispatches on exactly
   * the flags and window it was set up with; removing it again restores the table.
   */
  method SetupThenDispatchThenRemove(table: TickTimerTable, hWnd: nat, millis: int, flags: TickFlags, thread: nat,
                                     visibility: Region, killSucceeds: TickTimer -> bool)
      returns (id: nat, action: TimerAction, removed: bool)
    requires table.Valid() && millis > 0 && !(flags.chartRefresh && flags.tester)
    requires killSucceeds(TickTimer(table.lastId + 1, hWnd, flags))
    modifies table
    ensures table.Valid()
    ensures id == old(table.lastId) + 1
    ensures action == Dispatch(TickTimer(id, hWnd, flags), visibility)
    ensures removed && table.timers == old(table.timers)
  {
    var warned;
    id, warned := table.Setup(hWnd, millis, flags, thread, thread, true);
    IndexOfIdIsFirst(table.timers, id, |table.timers| - 1);
    action := table.Callback(id, visibility);
    removed := table.Remove(id, killSucceeds);
    assert old(table.timers) == table.timers;
  }
}
