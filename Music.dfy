/**
  The leave timer of a guild's music manager (GuildMusicManager.java). When the voice channel
  empties, the bot schedules a task that leaves two minutes later; if someone comes back, the
  task is cancelled. The executor, the audio link and the track scheduler's player are outside
  the model: a scheduled task is an abstract handle handed in by the caller, and the track
  scheduler contributes only its queue and whether its guild still resolves.
*/
module Music {
  import opened Wrappers

  /** A ScheduledFuture returned by the bot's executor. */
  type LeaveTask = nat

  class GuildMusicManager {
    const guildId: string
    var isAwaitingDeath: bool
    /** The pending leave task; None stands for null. */
    var leaveTask: Option<LeaveTask>
    /** The track scheduler's queue of tracks waiting to play. */
    var queue: seq<string>
    /** The tasks on which this manager has called cancel(true). */
    var cancelled: set<LeaveTask>

    constructor (guildId: string)
      ensures this.guildId == guildId
      ensures leaveTask == None && !isAwaitingDeath && queue == [] && cancelled == {}
    {
      this.guildId := guildId;
      isAwaitingDeath, leaveTask, queue, cancelled := false, None, [], {};
    }

    /**
      leave(), run when the timer fires: nothing happens if the guild no longer resolves;
      otherwise the manager stops awaiting death and the queue is emptied. The task handle is
      not reset.
    */
    method Leave(guildResolves: bool)
      modifies this`isAwaitingDeath, this`queue
      ensures !guildResolves ==> isAwaitingDeath == old(isAwaitingDeath) && queue == old(queue)
      ensures guildResolves ==> !isAwaitingDeath && queue == []
    {
      if !guildResolves {
        return;
      }
      isAwaitingDeath := false;
      queue := [];
    }

    /** scheduleLeave(): keeps a pending task; otherwise `task` is the newly scheduled one. */
    method ScheduleLeave(task: LeaveTask)
      modifies this`leaveTask
      ensures old(leaveTask).Some? ==> leaveTask == old(leaveTask)
      ensures old(leaveTask).None? ==> leaveTask == Some(task)
    {
      if leaveTask.Some? {
        return;
      }
      leaveTask := Some(task);
    }

    /** cancelLeave(): with no pending task a no-op, else cancels it and forgets it. */
    method CancelLeave()
      modifies this`leaveTask, this`cancelled
      ensures old(leaveTask).None? ==> leaveTask == None && cancelled == old(cancelled)
      ensures old(leaveTask).Some? ==> leaveTask == None && cancelled == old(cancelled) + {old(leaveTask).value}
    {
      if leaveTask.None? {
        return;
      }
      cancelled := cancelled + {leaveTask.value};
      leaveTask := None;
    }
  }

  /** Scheduling twice keeps the first task; cancelling afterwards returns to the idle state. */
  method ScheduleTwiceThenCancel(m: GuildMusicManager, first: LeaveTask, second: LeaveTask)
    requires m.leaveTask == None
    modifies m
    ensures m.leaveTask == None
    ensures m.cancelled == old(m.cancelled) + {first}
    ensures m.queue == old(m.queue) && m.isAwaitingDeath == old(m.isAwaitingDeath)
  {
    m.ScheduleLeave(first);
    m.ScheduleLeave(second);
    assert m.leaveTask == Some(first);
    m.CancelLeave();
  }

  /**
    leave() does not clear the handle of the task that ran it, so once the timer has fired a
    new scheduleLeave() is ignored until cancelLeave() runs.
  */
  method FiredTimerBlocksRescheduling(m: GuildMusicManager, task: LeaveTask, next: LeaveTask)
    requires m.leaveTask == None
    modifies m
    ensures m.leaveTask == Some(task) && !m.isAwaitingDeath && m.queue == []
  {
    m.ScheduleLeave(task);
    m.Leave(true);
    m.ScheduleLeave(next);
  }
}
