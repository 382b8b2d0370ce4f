/** What each goroutine of the process leaves alone. */
module Frames {
  import opened Monitor
  import P = WorkerPool

  /** Main, the server and its requests have not moved. */
  ghost predicate MainSame(s: State, t: State) {
    && t.main == s.main && t.serverUp == s.serverUp && t.serverFailed == s.serverFailed
    && t.handlers == s.handlers && t.drained == s.drained
  }

  /** The scheduler's goroutine has not moved. */
  ghost predicate SchedulerSame(s: State, t: State) {
    t.plan == s.plan && t.phase == s.phase && t.discovery == s.discovery && t.snapshot == s.snapshot
  }

  lemma PoolFrame(s: State, p: P.Step)
    requires PoolEnabled(s, p)
    ensures var t := s.(pool := P.Next(s.pool, p));
      MainSame(s, t) && SchedulerSame(s, t) && t.owners == s.owners && t.loops == s.loops && t.pool.done == s.pool.done
  {
  }

  lemma LoopFrame(s: State, l: LoopStep)
    requires LoopEnabled(s, l)
    ensures var t := LoopNext(s, l);
      && MainSame(s, t) && SchedulerSame(s, t) && t.pool.done == s.pool.done && |t.loops| == |s.loops|
      && (forall h :: 0 <= h < |s.loops| && h != l.g ==> t.loops[h] == s.loops[h])
      && t.owners == (if l.FirstCheck? || l.TakeTick? then s.owners + [l.g] else s.owners)
  {
  }

  /** Main has not moved, and generations have at most been added. */
  ghost predicate Scheduled(s: State, t: State) {
    && MainSame(s, t) && t.owners == s.owners && t.pool.done == s.pool.done
    && (t.loops == s.loops || t.loops == s.loops + [Loop(Fresh, false)])
  }

  lemma PassFrame(s: State, c: SchedulerStep)
    requires SchedulerEnabled(s, c) && (c.PruneOne? || c.StartOne? || c.CancelOne?)
    ensures Scheduled(s, SchedulerNext(s, c))
  {
  }

  lemma StopInFrame(s: State, id: string)
    requires Sized(s)
    ensures Scheduled(s, StopIn(s, id)) && StopIn(s, id).loops == s.loops
  {
  }

  lemma VisitFrame(s: State)
    requires SchedulerEnabled(s, VisitOne)
    ensures Scheduled(s, SchedulerNext(s, VisitOne))
  {
    StopInFrame(s, s.phase.list[s.phase.at].id);
  }

  lemma SelectFrame(s: State, c: SchedulerStep)
    requires SchedulerEnabled(s, c) && !c.VisitOne? && !c.PruneOne? && !c.StartOne? && !c.CancelOne?
    ensures Scheduled(s, SchedulerNext(s, c))
  {
  }

  lemma SchedulerFrame(s: State, c: SchedulerStep)
    requires SchedulerEnabled(s, c)
    ensures Scheduled(s, SchedulerNext(s, c))
  {
    if c.VisitOne? {
      VisitFrame(s);
    } else if c.PruneOne? || c.StartOne? || c.CancelOne? {
      PassFrame(s, c);
    } else {
      SelectFrame(s, c);
    }
  }

  lemma MainFrame(s: State, m: MainStep)
    requires MainEnabled(s, m)
    ensures var t := MainNext(s, m);
      && SchedulerSame(s, t) && t.owners == s.owners && t.loops == s.loops
      && (!m.Signal? && !m.StopRoot? ==> t.pool == s.pool)
  {
  }
}
