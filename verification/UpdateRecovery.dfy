/** Updates across crashes: an operation that dies anywhere, followed by recoveries that may die anywhere too. */
module UpdateRecovery {
  import opened Wrappers
  import opened UpdateWorlds
  import opened Updater

  /** The process may die leaving the world at `p`: before the first effect or after any of them. */
  ghost predicate DiesAt(x: Session, p: Point) {
    p == x.start || exists k :: 0 <= k < |x.trace| && x.trace[k].point == p
  }

  /** Each session after the first is a recovery that starts where its predecessor died. */
  ghost predicate Crashes(sessions: seq<Session>) {
    forall i :: 0 < i < |sessions| ==> RecoverSession(sessions[i]) && DiesAt(sessions[i - 1], sessions[i].start)
  }

  lemma PointsOfSession(operation: Operation, x: Session, p: Point)
    requires Kept(operation, x.start, x.trace) && DiesAt(x, p)
    ensures PointOf(operation, p, Watch(x.trace).synced)
  {
    KeptMeansEveryPoint(operation, x.start, x.trace);
  }

  /**
   Dying inside a recovery leaves the record as it was found, or settled to what the link points at; or, after a switch
   that was taken for a failure, settled to what the link pointed at before.
   */
  lemma RecoveryKeepsOrSettles(x: Session, p: Point)
    requires RecoverSession(x) && DiesAt(x, p)
    ensures || (p.persisted == x.start.persisted && (p.link == x.start.link || p.link == RecoveryTarget(p.persisted)))
            || p.persisted == Settled(x.start.persisted, p.link, x.start.link)
            || (&& !Watch(x.trace).synced && p.link == RecoveryTarget(x.start.persisted)
                && p.persisted == Settled(x.start.persisted, x.start.link, x.start.link))
  {
    PointsOfSession(Recover(x.start.persisted, x.start.link), x, p);
  }

  /** A record that is still interrupted after any number of crashed recoveries is the one the first of them found. */
  lemma {:induction false} InterruptedIsUnchanged(sessions: seq<Session>, i: nat)
    requires Crashes(sessions) && 0 < i < |sessions| && Interrupted(sessions[i].start.persisted)
    ensures sessions[1].start.persisted == sessions[i].start.persisted
  {
    if i > 1 {
      RecoveryKeepsOrSettles(sessions[i - 1], sessions[i].start);
      InterruptedIsUnchanged(sessions, i - 1);
    }
  }

  /** Wherever an apply dies, an interrupted record leads back to the release it started from. */
  lemma ApplyDiesRecoverably(s: UpdateState, x: Session, p: Point)
    requires s.phase.Staged? && ApplySession(s, x) && DiesAt(x, p)
    ensures Interrupted(p.persisted) ==> RecoveryTarget(p.persisted) == s.current
    ensures p.persisted.phase.Staged? ==> p == x.start
    ensures p.persisted.phase.Idle? ==> p.link == p.persisted.current == s.staged
    ensures p.link == s.current || p.link == s.staged
  {
    PointsOfSession(Apply(s), x, p);
  }

  /**
   An apply that dies anywhere, then any number of recoveries that die anywhere: the first recovery that completes
   ends with the link and the record both at the release the update started from.
   */
  lemma ApplySurvivesCrashes(s: UpdateState, sessions: seq<Session>)
    requires s.phase.Staged? && |sessions| > 1 && ApplySession(s, sessions[0]) && Crashes(sessions)
    requires var last := sessions[|sessions| - 1]; Interrupted(last.start.persisted) && last.outcome.Done?
    ensures var end := End(sessions[|sessions| - 1]);
            end.link == end.persisted.current == s.current && end.persisted.phase.Failed?
  {
    InterruptedIsUnchanged(sessions, |sessions| - 1);
    ApplyDiesRecoverably(s, sessions[0], sessions[1].start);
  }

  /** A rollback dies towards the previous release while ROLLING_BACK and towards the original one afterwards. */
  lemma RollbackDiesRecoverably(s: UpdateState, x: Session, p: Point)
    requires (s.phase.Idle? || s.phase.Failed?) && RollbackSession(s, x) && DiesAt(x, p)
    ensures p.persisted.phase.RollingBack? ==> RecoveryTarget(p.persisted) == s.previous
    ensures p.persisted.phase.HealthCheck? ==> RecoveryTarget(p.persisted) == s.current
    ensures !p.persisted.phase.Applying?
    ensures p.link == s.current || p.link == s.previous
  {
    PointsOfSession(Rollback(s), x, p);
  }

  lemma RollbackSurvivesCrashes(s: UpdateState, sessions: seq<Session>)
    requires (s.phase.Idle? || s.phase.Failed?) && |sessions| > 1
    requires RollbackSession(s, sessions[0]) && Crashes(sessions)
    requires var last := sessions[|sessions| - 1]; Interrupted(last.start.persisted) && last.outcome.Done?
    ensures var end := End(sessions[|sessions| - 1]);
            && end.persisted.phase.Failed? && end.link == end.persisted.current
            && end.link == if sessions[1].start.persisted.phase.RollingBack? then s.previous else s.current
  {
    InterruptedIsUnchanged(sessions, |sessions| - 1);
    RollbackDiesRecoverably(s, sessions[0], sessions[1].start);
  }

  /** A settled record is final: recovery leaves it and the link alone. */
  lemma {:induction false} SettledStaysSettled(sessions: seq<Session>, i: nat, j: nat)
    requires Crashes(sessions) && 0 < i <= j < |sessions| && !Interrupted(sessions[i].start.persisted)
    ensures sessions[j].start == sessions[i].start && sessions[j].trace == []
  {
    if i < j {
      SettledStaysSettled(sessions, i, j - 1);
    }
  }
}
