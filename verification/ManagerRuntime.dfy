/** The network manager as the program keeps it: flags, state and deadline updated in place. */
module ManagerRuntime {
  import opened Base
  import opened Deadline
  import opened NetworkManager

  class ManagerRecord {
    var state: State
    var deadline: Deadline
    var alive: bool
    var confirmation: bool
    var rollback: bool
    var bindings: bool
    var generation: Word
    var reason: Reason
    var error: int
    /** Record for the proofs. */
    ghost var trace: seq<Op>

    ghost function Abs(): Manager
      reads this
    {
      Manager(state, deadline, alive, confirmation, rollback, bindings, generation, reason, error, trace)
    }

    constructor ()
      ensures Abs() == InitManager()
    {
      state, deadline := Idle, Deadline(0, false);
      alive, confirmation, rollback, bindings := false, false, false, false;
      generation, reason, error, trace := 0, NoReason, 0, [];
    }

    /** `rollback`. */
    method BeginRollback(now: Tick, p: Provider)
      modifies this
      ensures Abs() == Rollback(old(Abs()), now, p)
    {
      confirmation, rollback, bindings := false, false, false;
      trace := trace + [Restored(p.restore)];
      if p.restore != 0 {
        error := p.restore;
        state := RollbackFailed;
        return;
      }
      state := RollingBack;
      deadline := After(now, ROLLBACK_MS);
    }

    method BusyNow() returns (b: bool)
      ensures b == Busy(Abs())
    {
      b := state == Applying || state == WaitBindings || state == WaitConfirm || state == Committing
           || state == RollingBack || state == RollbackBindings;
    }

    /** `gateway_network_manager_apply`; `valid` is the verdict of the settings check. */
    method ApplyCandidate(valid: bool, now: Tick, p: Provider) returns (r: int)
      modifies this
      ensures Abs() == ApplySettings(old(Abs()), valid, now, p)
      ensures r == 0 <==> !Refuses(old(Abs()), valid) && p.stage == 0 && p.apply == 0
    {
      hide Rollback, After, NextWord, Busy;
      var busy := BusyNow();
      if busy || state == RollbackFailed || state == DurabilityUncertain || !valid {
        return -1;
      }
      confirmation, rollback, bindings, alive := false, false, false, true;
      reason, error, trace := NoReason, 0, [];
      if p.stage != 0 {
        reason, error, state := StageFailed, p.stage, FailedState;
        return -1;
      }
      generation := NextWord(generation);
      if p.apply != 0 {
        reason, error := ApplyFailed, p.apply;
        BeginRollback(now, p);
        return -1;
      }
      state := Applying;
      deadline := After(now, APPLY_MS);
      r := 0;
    }

    method ConfirmCandidate() returns (r: int)
      modifies this
      ensures Abs() == Confirm(old(Abs())) && (r == 0 <==> Confirmable(old(Abs())))
    {
      if state != WaitConfirm || !alive || !bindings {
        return -1;
      }
      confirmation := true;
      trace := trace + [ConfirmTaken];
      r := 0;
    }

    method RequestRevert()
      modifies this`rollback
      ensures Abs() == React(old(Abs()), Reversion, 0)
    {
      rollback := true;
    }

    /** `gateway_network_manager_step`. */
    method StepRecord(now: Tick, p: Provider)
      modifies this
      ensures Abs() == Step(old(Abs()), now, p)
    {
      hide Rollback, After, Expired;
      if state == Applying || state == WaitBindings || state == WaitConfirm || state == Committing {
        if !alive || rollback || Expired(deadline, now) {
          reason := if !alive then Peer else if rollback then Revert else DeadlinePassed;
          BeginRollback(now, p);
          return;
        }
      }
      match state {
        case Applying =>
          if p.poll < 0 {
            reason, error := Observation, p.poll;
            BeginRollback(now, p);
          } else if p.poll > 0 {
            state, trace := WaitBindings, trace + [ReadySeen];
          }
        case WaitBindings =>
          if bindings {
            state, deadline, trace := WaitConfirm, After(now, CONFIRM_MS), trace + [BindingsSeen];
          }
        case WaitConfirm =>
          if p.poll != 1 || !bindings {
            reason, error := Observation, p.poll;
            BeginRollback(now, p);
          } else if confirmation {
            state, deadline := Committing, After(now, COMMIT_MS);
          }
        case Committing => StepCommitting(now, p);
        case RollingBack => StepRollingBack(now, p);
        case RollbackBindings =>
          if bindings || !alive {
            state := Reverted;
          } else if Expired(deadline, now) {
            error, state := -1, RollbackFailed;
          }
        case _ =>
      }
    }

    method StepCommitting(now: Tick, p: Provider)
      requires state == Committing && !MustRollBack(Abs(), now)
      modifies this
      ensures Abs() == Step(old(Abs()), now, p)
    {
      hide Rollback, After, Expired;
      trace := trace + [Committed(p.commit)];
      if p.commit == 1 {
        return;
      }
      if p.commit != 0 {
        reason, error := CommitFailed, p.commit;
      }
      if p.commit == -2 {
        state := DurabilityUncertain;
      } else if p.commit != 0 {
        BeginRollback(now, p);
      } else {
        state := Kept;
      }
    }

    method StepRollingBack(now: Tick, p: Provider)
      requires state == RollingBack
      modifies this
      ensures Abs() == Step(old(Abs()), now, p)
    {
      hide Rollback, After, Expired;
      trace := trace + [PolledBack(p.poll)];
      if p.poll == 2 {
        state := Kept;
      } else if p.poll < 0 || Expired(deadline, now) {
        error, state := if p.poll < 0 then p.poll else -1, RollbackFailed;
      } else if p.poll > 0 {
        trace := trace + [Discarded(p.discard)];
        if p.discard != 0 {
          error, state := p.discard, RollbackFailed;
        } else {
          state := if alive then RollbackBindings else Reverted;
        }
      }
    }
  }
}
