/** The entry point of the backup script: it parses the optional `--type` flag, decides
    from today's date and the configured weekday which backups are due, exits when none
    is, and otherwise runs the monthly backup before the weekly one inside one handler
    that reports any escaping exception as a critical error. */
module BackupMain {
  import opened Wrappers
  import opened Calendar
  import opened BackupExecutor

  /** The two values `--type` accepts. */
  datatype Kind = Monthly | Weekly

  /** The backup type string handed to the run for each kind. */
  function KindName(k: Kind): string
  {
    match k
    case Monthly => "monthly"
    case Weekly => "weekly"
  }

  /** argparse with `choices=['monthly', 'weekly']`: no flag means no override, one of the
      choices is that override, and any other value is a usage error (`None`). */
  function ParseTypeFlag(arg: Option<string>): (r: Option<Option<Kind>>)
    ensures r.None? <==> arg.Some? && arg.value != "monthly" && arg.value != "weekly"
    ensures r == Some(None) <==> arg.None?
    ensures forall k :: r == Some(Some(k)) <==> arg == Some(KindName(k))
  {
    match arg
    case None => Some(None)
    case Some(s) =>
      if s == "monthly" then Some(Some(Monthly))
      else if s == "weekly" then Some(Some(Weekly))
      else None
  }

  /** The flag names a kind back. */
  lemma ParseKindName(k: Kind)
    ensures ParseTypeFlag(Some(KindName(k))) == Some(Some(k))
    ensures KindName(k) == "monthly" || KindName(k) == "weekly"
  {
  }

  datatype Schedule = Schedule(runMonthly: bool, runWeekly: bool)

  /** The two due flags. `None` is the `OverflowError` that `date + timedelta(days=1)`
      raises on the last representable date, before the handler is entered. */
  function Decide(today: Date, configuredDay: Option<string>, override: Option<Kind>): (r: Option<Schedule>)
    requires ValidDate(today)
    ensures r.None? <==> today == LastDate
    ensures r.Some? ==>
      (r.value.runMonthly <==> today.day == DaysInMonth(today.year, today.month) || override == Some(Monthly))
    ensures r.Some? ==>
      (r.value.runWeekly <==> configuredDay == Some(WeekdayName(today)) || override == Some(Weekly))
  {
    match IsLastDayOfMonth(today)
    case None => None
    case Some(last) =>
      Some(Schedule(last || override == Some(Monthly),
                    Some(WeekdayName(today)) == configuredDay || override == Some(Weekly)))
  }

  /** The message the handler sends for an exception: its type name and `str(e)`. */
  function CriticalNotice(e: PyError): Event
  {
    Notify(CriticalError(e.typeName, e.message), None)
  }

  /** The process outcome: exit status and every effect, in order. */
  datatype Outcome = Outcome(exitCode: int, events: seq<Event>)

  /** What happens once the schedule is known, given what the monthly run `m` and the
      weekly run `w` would do: nothing when neither is due, otherwise the due runs in
      order, stopping at the first that raises. A monthly run that raises keeps the
      weekly run from being attempted at all. */
  function Dispatch(s: Schedule, m: RunResult, w: RunResult): (r: Outcome)
    ensures r.exitCode == 0 || r.exitCode == 1
    ensures r.exitCode == 1 <==> (s.runMonthly && m.raised.Some?) || (s.runWeekly && w.raised.Some?)
    ensures !s.runMonthly && !s.runWeekly ==> r == Outcome(0, [])
    ensures s.runMonthly ==> |m.events| <= |r.events| && r.events[..|m.events|] == m.events
    ensures s.runMonthly && m.raised.Some? ==> r.events == m.events + [CriticalNotice(m.raised.value)]
    ensures !s.runMonthly && s.runWeekly ==> |w.events| <= |r.events| && r.events[..|w.events|] == w.events
    ensures s.runMonthly && !s.runWeekly ==>
      r.events == m.events + (if m.raised.Some? then [CriticalNotice(m.raised.value)] else [])
    ensures !s.runMonthly && s.runWeekly ==>
      r.events == w.events + (if w.raised.Some? then [CriticalNotice(w.raised.value)] else [])
  {
    if !s.runMonthly && !s.runWeekly then Outcome(0, [])
    else
      var me := if s.runMonthly then m else RunResult([], None);
      if me.raised.Some? then Outcome(1, me.events + [CriticalNotice(me.raised.value)])
      else
        var we := if s.runWeekly then w else RunResult([], None);
        if we.raised.Some? then Outcome(1, me.events + we.events + [CriticalNotice(we.raised.value)])
        else Outcome(0, me.events + we.events)
  }

  /** The whole script, from the command-line flag to the exit status. */
  function MainSpec(arg: Option<string>, config: Config, today: Date, monthlyEnv: RunEnv, weeklyEnv: RunEnv): (r: Outcome)
    requires ValidDate(today) && EnvFits(config, monthlyEnv) && EnvFits(config, weeklyEnv)
    ensures r.exitCode == 2 <==> ParseTypeFlag(arg).None?
    ensures r.exitCode == 2 ==> r.events == []
    ensures ParseTypeFlag(arg).Some? && today == LastDate ==> r == Outcome(1, [])
  {
    match ParseTypeFlag(arg)
    case None => Outcome(2, [])
    case Some(override) =>
      match Decide(today, config.weeklyBackupDay, override)
      case None => Outcome(1, [])
      case Some(s) => Dispatch(s, ExecuteSpec(config, "monthly", monthlyEnv), ExecuteSpec(config, "weekly", weeklyEnv))
  }

  /** The `try` block of `main` and its handler. */
  method RunDue(config: Config, s: Schedule, monthlyEnv: RunEnv, weeklyEnv: RunEnv)
    returns (exitCode: int, events: seq<Event>)
    requires s.runMonthly || s.runWeekly
    requires EnvFits(config, monthlyEnv) && EnvFits(config, weeklyEnv)
    ensures Outcome(exitCode, events) ==
      Dispatch(s, ExecuteSpec(config, "monthly", monthlyEnv), ExecuteSpec(config, "weekly", weeklyEnv))
  {
    var monthly := RunResult([], None);
    if s.runMonthly {
      monthly := ExecuteMongodump(config, "monthly", monthlyEnv);
    }
    if monthly.raised.Some? {
      return 1, monthly.events + [CriticalNotice(monthly.raised.value)];
    }
    var weekly := RunResult([], None);
    if s.runWeekly {
      weekly := ExecuteMongodump(config, "weekly", weeklyEnv);
    }
    events := monthly.events + weekly.events;
    if weekly.raised.Some? {
      return 1, events + [CriticalNotice(weekly.raised.value)];
    }
    exitCode := 0;
  }

  /** `main` as the script runs it: the flag is parsed, the two due flags are set step by
      step, and the due runs are executed. */
  method RunMain(arg: Option<string>, config: Config, today: Date, monthlyEnv: RunEnv, weeklyEnv: RunEnv)
    returns (exitCode: int, events: seq<Event>)
    requires ValidDate(today) && EnvFits(config, monthlyEnv) && EnvFits(config, weeklyEnv)
    ensures Outcome(exitCode, events) == MainSpec(arg, config, today, monthlyEnv, weeklyEnv)
  {
    var parsed := ParseTypeFlag(arg);
    if parsed.None? {
      return 2, [];
    }
    var override := parsed.value;
    var shouldRunMonthly := false;
    var shouldRunWeekly := false;
    var last := IsLastDayOfMonth(today);
    if last.None? {
      return 1, [];
    }
    if last.value || override == Some(Monthly) {
      shouldRunMonthly := true;
    }
    var configuredDay := config.weeklyBackupDay;
    if Some(WeekdayName(today)) == configuredDay || override == Some(Weekly) {
      shouldRunWeekly := true;
    }
    if !(shouldRunMonthly || shouldRunWeekly) {
      return 0, [];
    }
    exitCode, events := RunDue(config, Schedule(shouldRunMonthly, shouldRunWeekly), monthlyEnv, weeklyEnv);
  }

  //
  // What the script promises
  //

  /** The exit status: 2 exactly for a rejected flag, 1 on the date overflow (with no
      effect at all) or after a run raised, 0 otherwise; when nothing is due nothing
      happens. */
  lemma ExitStatus(arg: Option<string>, config: Config, today: Date, monthlyEnv: RunEnv, weeklyEnv: RunEnv)
    requires ValidDate(today) && EnvFits(config, monthlyEnv) && EnvFits(config, weeklyEnv)
    ensures var o := MainSpec(arg, config, today, monthlyEnv, weeklyEnv);
      && (o.exitCode == 0 || o.exitCode == 1 || o.exitCode == 2)
      && (o.exitCode == 2 <==> ParseTypeFlag(arg).None?)
      && (o.exitCode == 2 ==> o.events == [])
      && (ParseTypeFlag(arg).Some? && today == LastDate ==> o == Outcome(1, []))
      && (ParseTypeFlag(arg).Some? && today != LastDate ==>
            var s := Decide(today, config.weeklyBackupDay, ParseTypeFlag(arg).value).value;
            !s.runMonthly && !s.runWeekly ==> o == Outcome(0, []))
  {
  }

  /** A handled exception produces exactly one critical message, as the last effect,
      carrying the type name and text of the exception of the run that raised; a clean
      exit sends none. */
  lemma CriticalOnlyOnFailure(config: Config, s: Schedule, monthlyEnv: RunEnv, weeklyEnv: RunEnv)
    requires EnvFits(config, monthlyEnv) && EnvFits(config, weeklyEnv)
    ensures var m := ExecuteSpec(config, "monthly", monthlyEnv);
      var w := ExecuteSpec(config, "weekly", weeklyEnv);
      var o := Dispatch(s, m, w);
      && (o.exitCode == 0 || o.exitCode == 1)
      && (o.exitCode == 1 <==> (s.runMonthly && m.raised.Some?) || (s.runWeekly && w.raised.Some?))
      && (o.exitCode == 0 ==> forall n :: n in Notices(o.events) ==> !n.CriticalError?)
      && (o.exitCode == 1 ==>
            && o.events != []
            && (forall n :: n in Notices(o.events[..|o.events| - 1]) ==> !n.CriticalError?)
            && o.events[|o.events| - 1] ==
                 CriticalNotice(if s.runMonthly && m.raised.Some? then m.raised.value else w.raised.value))
  {
    var m := ExecuteSpec(config, "monthly", monthlyEnv);
    var w := ExecuteSpec(config, "weekly", weeklyEnv);
    RunSendsNoCritical(config, "monthly", monthlyEnv);
    RunSendsNoCritical(config, "weekly", weeklyEnv);
    DispatchCritical(s, m, w);
  }

  lemma DispatchCritical(s: Schedule, m: RunResult, w: RunResult)
    requires forall n :: n in Notices(m.events) ==> !n.CriticalError?
    requires forall n :: n in Notices(w.events) ==> !n.CriticalError?
    ensures var o := Dispatch(s, m, w);
      && (o.exitCode == 0 || o.exitCode == 1)
      && (o.exitCode == 1 <==> (s.runMonthly && m.raised.Some?) || (s.runWeekly && w.raised.Some?))
      && (o.exitCode == 0 ==> forall n :: n in Notices(o.events) ==> !n.CriticalError?)
      && (o.exitCode == 1 ==>
            && o.events != []
            && (forall n :: n in Notices(o.events[..|o.events| - 1]) ==> !n.CriticalError?)
            && o.events[|o.events| - 1] ==
                 CriticalNotice(if s.runMonthly && m.raised.Some? then m.raised.value else w.raised.value))
  {
    var o := Dispatch(s, m, w);
    var me := if s.runMonthly then m.events else [];
    var we := if s.runMonthly && m.raised.Some? then [] else if s.runWeekly then w.events else [];
    NoticesAppend(me, we);
    if o.exitCode == 1 {
      assert o.events[..|o.events| - 1] == me + we;
    } else if s.runMonthly || s.runWeekly {
      assert o.events == me + we;
    }
  }

  /** Monthly before weekly: when both are due the monthly folder is created first; the
      whole weekly run (starting with its own folder, and followed by the critical message
      if it raises) comes right after the monthly run's effects only if the monthly run
      did not raise, and otherwise no program of the weekly run is launched. */
  lemma MonthlyBeforeWeekly(config: Config, monthlyEnv: RunEnv, weeklyEnv: RunEnv)
    requires EnvFits(config, monthlyEnv) && EnvFits(config, weeklyEnv)
    ensures var m := ExecuteSpec(config, "monthly", monthlyEnv);
      var w := ExecuteSpec(config, "weekly", weeklyEnv);
      var o := Dispatch(Schedule(true, true), m, w);
      && o.events[0] == MakeDirs(OutputPath(config, "monthly", monthlyEnv.now))
      && o.events[..|m.events|] == m.events
      && (m.raised.None? ==>
            && o.events[|m.events|] == MakeDirs(OutputPath(config, "weekly", weeklyEnv.now))
            && o.events == m.events + w.events + (if w.raised.Some? then [CriticalNotice(w.raised.value)] else []))
      && (m.raised.Some? ==> ToolRuns(o.events) == ToolRuns(m.events) && o.exitCode == 1)
  {
    var m := ExecuteSpec(config, "monthly", monthlyEnv);
    var w := ExecuteSpec(config, "weekly", weeklyEnv);
    RunStartsWithFolder(config, "monthly", monthlyEnv);
    RunStartsWithFolder(config, "weekly", weeklyEnv);
    BothDueInOrder(m, w);
  }

  lemma BothDueInOrder(m: RunResult, w: RunResult)
    requires m.events != [] && w.events != []
    ensures var o := Dispatch(Schedule(true, true), m, w);
      && o.events[0] == m.events[0]
      && o.events[..|m.events|] == m.events
      && (m.raised.None? ==>
            && o.events[|m.events|] == w.events[0]
            && o.events == m.events + w.events + (if w.raised.Some? then [CriticalNotice(w.raised.value)] else []))
      && (m.raised.Some? ==> ToolRuns(o.events) == ToolRuns(m.events) && o.exitCode == 1)
  {
    var o := Dispatch(Schedule(true, true), m, w);
    if m.raised.Some? {
      var c := CriticalNotice(m.raised.value);
      ToolRunsAppend(m.events, [c]);
      SingleEvent(c);
    } else {
      assert o.events[..|m.events|] == m.events;
    }
  }

  /** Concrete schedules: an ordinary Wednesday with Sunday configured runs nothing; the
      last day of February in a leap year runs the monthly backup; a Sunday with Sunday
      configured runs the weekly one; forcing `weekly` on the last day of a month runs
      both. */
  lemma ScheduleExamples()
    ensures Decide(Date(2025, 1, 15), Some("Sunday"), None) == Some(Schedule(false, false))
    ensures Decide(Date(2024, 2, 29), Some("Sunday"), None) == Some(Schedule(true, false))
    ensures Decide(Date(2025, 1, 19), Some("Sunday"), None) == Some(Schedule(false, true))
    ensures Decide(Date(2025, 1, 31), None, Some(Weekly)) == Some(Schedule(true, true))
    ensures Decide(Date(2025, 1, 19), None, None) == Some(Schedule(false, false))
  {
  }
}
