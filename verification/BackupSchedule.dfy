/** Scheduled backups against the cron schedule they serve. */
module BackupSchedule {
  import opened VersionedStore
  import Lifecycle

  /** Instants count nanoseconds; cron times and recorded times whole seconds. */
  type Instant = int

  function Seconds(t: Instant): int {
    t / 1_000_000_000
  }

  function AtSecond(t: int): Instant {
    t * 1_000_000_000
  }

  /** What is assumed of the cron library: Next returns the first fire strictly
      after its argument, and there always is one. */
  ghost predicate IsNext(fires: int -> bool, next: int -> int) {
    IsLater(next) && (forall t :: fires(next(t))) && forall t, u :: t < u < next(t) ==> !fires(u)
  }

  ghost predicate IsLater(next: int -> int) {
    forall t :: t < next(t)
  }

  /** `created` is the server's creation time, `last` the annotation, `made` the
      timestamps of the backups created, oldest first. */
  datatype Schedule = Schedule(created: int, last: Option<int>, made: seq<int>)

  /** What a run finds: the schedule annotation and whether it parses, the
      server's state, and whether the update of the time annotation succeeds. */
  datatype Wakeup = Wakeup(now: Instant, schedule: string, parses: bool, state: Lifecycle.State, recorded: bool)

  predicate IsEligible(w: Wakeup) {
    w.schedule != "" && Lifecycle.IsServing(w.state) && w.parses
  }

  function Reference(s: Schedule): int {
    if s.last.Some? then s.last.value else s.created
  }

  predicate IsDue(s: Schedule, now: Instant, next: int -> int) {
    AtSecond(next(Reference(s))) <= now
  }

  /** A name carries the second it was made in; a second one of the same name is
      refused and the run goes on. */
  function Woken(s: Schedule, w: Wakeup, next: int -> int): Schedule {
    if !IsEligible(w) || !IsDue(s, w.now, next) then s
    else
      var t := Seconds(w.now);
      Schedule(s.created, if w.recorded then Some(t) else s.last, if t in s.made then s.made else s.made + [t])
  }

  /** When the run asks to be woken again. */
  function Alarm(s: Schedule, now: Instant, next: int -> int): Instant {
    if IsDue(s, now, next) then AtSecond(next(Seconds(now))) else AtSecond(next(Reference(s)))
  }

  class Scheduler {
    var created: int
    var last: Option<int>
    var made: seq<int>

    ghost function View(): Schedule
      reads this
    {
      Schedule(created, last, made)
    }

    method ReconcileSchedule(w: Wakeup, next: int -> int) returns (requeueAfter: Option<Instant>)
      modifies this`last, this`made
      ensures View() == Woken(old(View()), w, next)
      ensures requeueAfter == if !IsEligible(w) || (IsDue(old(View()), w.now, next) && !w.recorded) then None
        else Some(Alarm(old(View()), w.now, next) - w.now)
    {
      if w.schedule == "" {
        return None;
      }
      if w.state != Lifecycle.Ready && w.state != Lifecycle.Allocated {
        return None;
      }
      if !w.parses {
        return None;
      }
      var nextTime := if last.None? then next(created) else next(last.value);
      if w.now < AtSecond(nextTime) {
        return Some(AtSecond(nextTime) - w.now);
      }
      var timestamp := Seconds(w.now);
      if timestamp !in made {
        made := made + [timestamp];
      }
      if !w.recorded {
        return None;
      }
      last := Some(timestamp);
      requeueAfter := Some(AtSecond(next(timestamp)) - w.now);
    }
  }

  function Run(s: Schedule, wakeups: seq<Wakeup>, next: int -> int): Schedule {
    if wakeups == [] then s
    else Woken(Run(s, wakeups[..|wakeups| - 1], next), wakeups[|wakeups| - 1], next)
  }

  /** The fire time the i-th backup is charged to: the first one after the backup
      before it. Fires missed in between are covered by the same backup. */
  function Charge(s: Schedule, i: nat, next: int -> int): int
    requires i < |s.made|
  {
    next(if i == 0 then s.created else s.made[i - 1])
  }

  /** The i-th backup was not made before the fire it is charged to. */
  predicate IsOnTime(s: Schedule, i: nat, next: int -> int)
    requires i < |s.made|
  {
    Charge(s, i, next) <= s.made[i]
  }

  ghost predicate IsServed(s: Schedule, next: int -> int) {
    && (forall i: nat :: i < |s.made| ==> IsOnTime(s, i, next))
    && (if s.made == [] then s.last.None? else s.last == Some(s.made[|s.made| - 1]))
  }

  lemma DueInSeconds(s: Schedule, now: Instant, next: int -> int)
    ensures IsDue(s, now, next) <==> next(Reference(s)) <= Seconds(now)
  {}

  /** A due backup is on time, and later than all before it. */
  lemma DueIsNew(s: Schedule, now: Instant, next: int -> int)
    requires IsLater(next) && IsServed(s, next) && IsDue(s, now, next)
    ensures Seconds(now) !in s.made
    ensures var s' := s.(last := Some(Seconds(now)), made := s.made + [Seconds(now)]); IsOnTime(s', |s.made|, next)
  {
    DueInSeconds(s, now, next);
    if Seconds(now) in s.made {
      var i :| 0 <= i < |s.made| && s.made[i] == Seconds(now);
      if i < |s.made| - 1 {
        IncreasingTo(s, i, |s.made| - 1, next);
      }
    }
  }

  lemma WokenServes(s: Schedule, w: Wakeup, next: int -> int)
    requires IsLater(next) && IsServed(s, next) && w.recorded
    ensures IsServed(Woken(s, w, next), next)
  {
    var s' := Woken(s, w, next);
    if IsEligible(w) && IsDue(s, w.now, next) {
      DueIsNew(s, w.now, next);
      forall i: nat | i < |s'.made| ensures IsOnTime(s', i, next) {
        if i < |s.made| {
          assert IsOnTime(s, i, next);
        }
      }
    }
  }

  lemma {:induction false} RunServes(created: int, wakeups: seq<Wakeup>, next: int -> int)
    requires IsLater(next) && forall w <- wakeups :: w.recorded
    ensures var s := Run(Schedule(created, None, []), wakeups, next); IsServed(s, next) && s.created == created
  {
    if wakeups != [] {
      var before, w := wakeups[..|wakeups| - 1], wakeups[|wakeups| - 1];
      RunServes(created, before, next);
      WokenServes(Run(Schedule(created, None, []), before, next), w, next);
    }
  }

  lemma {:induction false} IncreasingTo(s: Schedule, i: nat, j: nat, next: int -> int)
    requires IsLater(next) && IsServed(s, next) && i < j < |s.made|
    ensures s.made[i] < s.made[j]
  {
    assert IsOnTime(s, j, next);
    if i < j - 1 {
      IncreasingTo(s, i, j - 1, next);
    }
  }

  /** In every series of wake-ups that record their time, whenever they come, no
      two backups are charged to one fire, and each is charged to a fire that had
      come when it was made. */
  lemma AtMostOneBackupPerFire(created: int, wakeups: seq<Wakeup>, fires: int -> bool, next: int -> int)
    requires IsNext(fires, next) && forall w <- wakeups :: w.recorded
    ensures var s := Run(Schedule(created, None, []), wakeups, next);
      && (forall i :: 0 <= i < |s.made| ==> fires(Charge(s, i, next)) && created < Charge(s, i, next) <= s.made[i])
      && (forall i, j :: 0 <= i < j < |s.made| ==> Charge(s, i, next) < Charge(s, j, next))
  {
    RunServes(created, wakeups, next);
    var s := Run(Schedule(created, None, []), wakeups, next);
    forall i: nat | i < |s.made| ensures fires(Charge(s, i, next)) && created < Charge(s, i, next) <= s.made[i] {
      assert IsOnTime(s, i, next);
      ChargeIsAfterCreation(s, i, next);
    }
    forall i: nat, j: nat | i < j < |s.made| ensures Charge(s, i, next) < Charge(s, j, next) {
      ChargesIncrease(s, i, j, next);
    }
  }

  lemma {:induction false} ChargeIsAfterCreation(s: Schedule, i: nat, next: int -> int)
    requires IsLater(next) && IsServed(s, next) && i < |s.made|
    ensures s.created < Charge(s, i, next)
  {
    if i > 0 {
      ChargeIsAfterCreation(s, i - 1, next);
      assert IsOnTime(s, i - 1, next);
    }
  }

  lemma ChargesIncrease(s: Schedule, i: nat, j: nat, next: int -> int)
    requires IsLater(next) && IsServed(s, next) && i < j < |s.made|
    ensures Charge(s, i, next) < Charge(s, j, next)
  {
    assert IsOnTime(s, i, next);
    if i < j - 1 {
      IncreasingTo(s, i, j - 1, next);
    }
  }

  // ---------------------------------------------------------- one wake-up

  /** The second that an instant lies in. */
  predicate IsWithin(t: int, now: Instant) {
    t * 1_000_000_000 <= now < (t + 1) * 1_000_000_000
  }

  /** Whether a run makes a backup: there is a schedule that parses, the server is
      up, and the fire after the last run (or after creation) has come. */
  predicate Serves(s: Schedule, w: Wakeup, next: int -> int) {
    && w.schedule != "" && w.parses && (w.state == Lifecycle.Ready || w.state == Lifecycle.Allocated)
    && next(if s.last.None? then s.created else s.last.value) * 1_000_000_000 <= w.now
  }

  /** A run that serves a fire adds a backup of its own second, if there is none
      yet, and records that second if it can; any other run does nothing. */
  lemma WakeupOutcome(s: Schedule, w: Wakeup, next: int -> int)
    ensures var s' := Woken(s, w, next);
      && s'.created == s.created && s.made <= s'.made
      && (forall t :: t in s'.made <==> t in s.made || (Serves(s, w, next) && IsWithin(t, w.now)))
      && (if Serves(s, w, next) && w.recorded then s'.last.Some? && IsWithin(s'.last.value, w.now) else s'.last == s.last)
      && (!Serves(s, w, next) ==> s' == s)
  {
    assert forall t :: IsWithin(t, w.now) <==> t == Seconds(w.now);
  }

  /** The alarm is set to the first fire that is still to come. */
  lemma AlarmIsNextFire(s: Schedule, now: Instant, fires: int -> bool, next: int -> int)
    requires IsNext(fires, next) && AtSecond(Reference(s)) <= now
    ensures exists u :: Alarm(s, now, next) == u * 1_000_000_000 && IsFirstAfter(u, now, fires)
  {
    var u := if IsDue(s, now, next) then next(Seconds(now)) else next(Reference(s));
    assert Seconds(now) < u && fires(u);
    assert Alarm(s, now, next) == u * 1_000_000_000 && IsFirstAfter(u, now, fires);
  }

  ghost predicate IsFirstAfter(u: int, now: Instant, fires: int -> bool) {
    fires(u) && now < u * 1_000_000_000 && forall t :: now < t * 1_000_000_000 && t < u ==> !fires(t)
  }

  // ------------------------------------------- a second backup for one fire

  predicate Records(w: Wakeup) {
    IsEligible(w) && w.recorded
  }

  /** From the instant `w` serves a fire until the fire after it. */
  predicate IsInWindow(w: Wakeup, w': Wakeup, next: int -> int) {
    w.now <= w'.now < AtSecond(next(Seconds(w.now)))
  }

  predicate AnyRecords(w: Wakeup, more: seq<Wakeup>) {
    Records(w) || exists w' <- more :: Records(w')
  }

  lemma WindowStep(
    s: Schedule, w: Wakeup, r: Schedule, w': Wakeup, recorded: bool, fires: int -> bool, next: int -> int)
    requires IsNext(fires, next) && IsDue(s, w.now, next) && IsInWindow(w, w', next)
    requires var t := Seconds(w.now); if recorded then t <= Reference(r) < next(t) else Reference(r) == Reference(s)
    ensures IsDue(r, w'.now, next) <==> !recorded
    ensures var r', t := Reference(Woken(r, w', next)), Seconds(w.now);
      if recorded || Records(w') then t <= r' < next(t) else r' == Reference(s)
  {
    var t := Seconds(w.now);
    assert fires(next(Reference(r)));
    if recorded {
      assert !(t < next(Reference(r)) < next(t));
    }
  }

  /** Within the window a wake-up is due exactly while nothing was recorded. */
  lemma DueWhileUnrecorded(
    s: Schedule, w: Wakeup, more: seq<Wakeup>, w': Wakeup, fires: int -> bool, next: int -> int)
    requires IsNext(fires, next) && IsEligible(w) && IsDue(s, w.now, next)
    requires IsInWindow(w, w', next) && forall x <- more :: IsInWindow(w, x, next)
    ensures IsDue(Run(Woken(s, w, next), more, next), w'.now, next) <==> !AnyRecords(w, more)
  {
    WindowReference(s, w, more, fires, next);
    WindowStep(s, w, Run(Woken(s, w, next), more, next), w', AnyRecords(w, more), fires, next);
  }

  lemma {:induction false} WindowReference(s: Schedule, w: Wakeup, more: seq<Wakeup>, fires: int -> bool, next: int -> int)
    requires IsNext(fires, next) && IsEligible(w) && IsDue(s, w.now, next)
    requires forall w' <- more :: IsInWindow(w, w', next)
    ensures var r, t := Reference(Run(Woken(s, w, next), more, next)), Seconds(w.now);
      if AnyRecords(w, more) then t <= r < next(t) else r == Reference(s)
  {
    if more != [] {
      var before, last := more[..|more| - 1], more[|more| - 1];
      assert more == before + [last];
      assert AnyRecords(w, more) <==> AnyRecords(w, before) || Records(last);
      assert IsInWindow(w, last, next);
      WindowReference(s, w, before, fires, next);
      WindowStep(s, w, Run(Woken(s, w, next), before, next), last, AnyRecords(w, before), fires, next);
    }
  }

  /** Who makes a second backup: an eligible wake-up of another second that comes
      before anything was recorded. */
  predicate Repeats(made: seq<int>, w: Wakeup, more: seq<Wakeup>, j: nat)
    requires j < |more|
  {
    IsEligible(more[j]) && !AnyRecords(w, more[..j]) && Seconds(more[j].now) !in made
  }

  ghost predicate AnyRepeats(made: seq<int>, w: Wakeup, more: seq<Wakeup>) {
    exists j: nat :: j < |more| && Repeats(made, w, more, j)
  }

  lemma AnyRepeatsAppended(made: seq<int>, w: Wakeup, before: seq<Wakeup>, last: Wakeup)
    ensures AnyRepeats(made, w, before + [last]) <==>
      AnyRepeats(made, w, before) || (IsEligible(last) && !AnyRecords(w, before) && Seconds(last.now) !in made)
  {
    var more := before + [last];
    assert more[..|before|] == before;
    forall j: nat | j < |before| ensures Repeats(made, w, before, j) == Repeats(made, w, more, j) {
      assert before[..j] == more[..j];
    }
    if AnyRepeats(made, w, before) {
      var j: nat :| j < |before| && Repeats(made, w, before, j);
      assert Repeats(made, w, more, j);
    }
    if IsEligible(last) && !AnyRecords(w, before) && Seconds(last.now) !in made {
      assert Repeats(made, w, more, |before|);
    }
  }

  /** Once a fire has its backup, and until the next fire, wake-ups of any number
      and kind make another one if and only if one of them is eligible, comes
      before any run has recorded its time, and is of another second. */
  lemma {:induction false} SecondBackupExactlyWhenUnrecorded(
    s: Schedule, w: Wakeup, more: seq<Wakeup>, fires: int -> bool, next: int -> int)
    requires IsNext(fires, next) && IsEligible(w) && IsDue(s, w.now, next)
    requires forall w' <- more :: IsInWindow(w, w', next)
    ensures var once := Woken(s, w, next); Run(once, more, next).made != once.made <==> AnyRepeats(once.made, w, more)
  {
    var once := Woken(s, w, next);
    if more != [] {
      var before, last := more[..|more| - 1], more[|more| - 1];
      assert more == before + [last] && IsInWindow(w, last, next);
      SecondBackupExactlyWhenUnrecorded(s, w, before, fires, next);
      AnyRepeatsAppended(once.made, w, before, last);
      DueWhileUnrecorded(s, w, before, last, fires, next);
      MadeGrows(once, before, next);
    }
  }

  /** In particular the very next eligible wake-up makes a second backup for the
      same fire if and only if the first run failed to record its time and the
      second comes in another second. */
  lemma UnrecordedRunRepeats(s: Schedule, w: Wakeup, w': Wakeup, next: int -> int)
    requires IsEligible(w) && IsDue(s, w.now, next) && IsEligible(w') && IsInWindow(w, w', next)
    ensures var once := Woken(s, w, next);
      Woken(once, w', next).made != once.made <==> !w.recorded && Seconds(w'.now) !in once.made
  {}

  lemma {:induction false} MadeGrows(s: Schedule, wakeups: seq<Wakeup>, next: int -> int)
    ensures s.made <= Run(s, wakeups, next).made
  {
    if wakeups != [] {
      MadeGrows(s, wakeups[..|wakeups| - 1], next);
    }
  }

  // ------------------------------------------------- waking at every alarm

  /** The first n fires after t. */
  function FiresAfter(t: int, n: nat, next: int -> int): seq<int>
    decreases n
  {
    if n == 0 then [] else [next(t)] + FiresAfter(next(t), n - 1, next)
  }

  /** A run of a scheduled, running server that records its time. */
  function Punctual(now: Instant): Wakeup {
    Wakeup(now, "* * * * *", true, Lifecycle.Ready, true)
  }

  /** The backups made when every alarm is kept to the instant. */
  function Kept(s: Schedule, now: Instant, n: nat, next: int -> int): Schedule
    decreases n
  {
    if n == 0 then s
    else Kept(Woken(s, Punctual(now), next), Alarm(s, now, next), n - 1, next)
  }

  lemma KeptAlarm(s: Schedule, t: int, next: int -> int)
    requires t == next(Reference(s)) && t !in s.made
    ensures Woken(s, Punctual(AtSecond(t)), next) == Schedule(s.created, Some(t), s.made + [t])
    ensures Alarm(s, AtSecond(t), next) == AtSecond(next(t))
  {
    assert Seconds(AtSecond(t)) == t;
  }

  lemma KeptStep(s: Schedule, t: int, n: nat, next: int -> int)
    requires t == next(Reference(s)) && t !in s.made && n > 0
    ensures Kept(s, AtSecond(t), n, next) == Kept(Schedule(s.created, Some(t), s.made + [t]), AtSecond(next(t)), n - 1, next)
  {
    KeptAlarm(s, t, next);
  }

  /** Nothing was made after the time of the last run. */
  predicate IsBehind(s: Schedule) {
    forall m <- s.made :: m <= Reference(s)
  }

  lemma NextIsAhead(s: Schedule, next: int -> int)
    requires IsLater(next) && IsBehind(s)
    ensures var t := next(Reference(s)); t !in s.made && IsBehind(Schedule(s.created, Some(t), s.made + [t]))
  {}

  lemma FiresUnfold(made: seq<int>, t: int, n: nat, next: int -> int)
    ensures made + FiresAfter(t, n + 1, next) == made + [next(t)] + FiresAfter(next(t), n, next)
  {}

  /** One more fire kept, given that the rest are. */
  lemma KeptOneMore(s: Schedule, n: nat, next: int -> int)
    requires next(Reference(s)) !in s.made
    requires var t := next(Reference(s));
      Kept(Schedule(s.created, Some(t), s.made + [t]), AtSecond(next(t)), n, next).made
      == s.made + [t] + FiresAfter(t, n, next)
    ensures Kept(s, AtSecond(next(Reference(s))), n + 1, next).made == s.made + FiresAfter(Reference(s), n + 1, next)
  {
    KeptStep(s, next(Reference(s)), n + 1, next);
    FiresUnfold(s.made, Reference(s), n, next);
  }

  lemma {:induction false} KeptFrom(s: Schedule, n: nat, next: int -> int)
    requires IsLater(next) && IsBehind(s)
    ensures Kept(s, AtSecond(next(Reference(s))), n, next).made == s.made + FiresAfter(Reference(s), n, next)
    decreases n
  {
    if n > 0 {
      var t := next(Reference(s));
      NextIsAhead(s, next);
      KeptFrom(Schedule(s.created, Some(t), s.made + [t]), n - 1, next);
      KeptOneMore(s, n - 1, next);
    }
  }

  /** Started before the first fire and woken exactly when asked, n further runs
      make exactly one backup for each of the next n fires. */
  lemma OneBackupPerFire(created: int, now: Instant, n: nat, fires: int -> bool, next: int -> int)
    requires IsNext(fires, next) && now < AtSecond(next(created))
    ensures Kept(Schedule(created, None, []), now, n + 1, next).made == FiresAfter(created, n, next)
  {
    KeptFrom(Schedule(created, None, []), n, next);
  }

  /** FiresAfter leaves out no fire. */
  lemma {:induction false} FiresAfterIsComplete(t: int, n: nat, fires: int -> bool, next: int -> int)
    requires IsNext(fires, next) && n > 0
    ensures var fs := FiresAfter(t, n, next);
      |fs| == n && forall u :: t < u <= fs[n - 1] ==> (fires(u) <==> u in fs)
    decreases n
  {
    var fs := FiresAfter(t, n, next);
    if n > 1 {
      var rest := FiresAfter(next(t), n - 1, next);
      FiresAfterIsComplete(next(t), n - 1, fires, next);
      assert fs == [next(t)] + rest && fs[n - 1] == rest[n - 2];
      forall u | t < u <= fs[n - 1] ensures fires(u) <==> u in fs {
        RestIsLater(next(t), n - 1, u, next);
        assert u in fs <==> u == next(t) || u in rest;
      }
    }
  }

  lemma {:induction false} RestIsLater(t: int, n: nat, u: int, next: int -> int)
    requires IsLater(next)
    ensures u in FiresAfter(t, n, next) ==> t < u
    decreases n
  {
    if n > 0 {
      RestIsLater(next(t), n - 1, u, next);
    }
  }
}
