/** The reminder entity embedded in a news item. */
module Reminders {
  import opened Common

  /** The persisted form of a reminder, as a news document embeds it. */
  datatype ReminderDoc = ReminderDoc(reminderId: Option<string>, schedule: Option<Instant>)

  /** A reminder object. Both fields may be null. The schedule is never taken from a
      caller: it is either unset or the clock reading of the moment it was assigned. */
  class Reminder {
    var reminderId: Option<string>
    var schedule: Option<Instant>

    /** The no-argument constructor; `now` is its clock reading. */
    constructor (now: Instant)
      ensures reminderId == None && schedule == Some(now)
    {
      reminderId := None;
      schedule := Some(now);
    }

    /** The two-argument constructor stores the id and ignores the schedule it is given. */
    constructor WithId(reminderId: Option<string>, schedule: Option<Instant>)
      ensures this.reminderId == reminderId
      ensures this.schedule == None
    {
      this.reminderId := reminderId;
      this.schedule := None;
    }

    function GetReminderId(): Option<string>
      reads this
    {
      reminderId
    }

    function GetSchedule(): Option<Instant>
      reads this
    {
      schedule
    }

    method SetReminderId(reminderId: Option<string>)
      modifies this
      ensures GetReminderId() == reminderId
      ensures GetSchedule() == old(GetSchedule())
    {
      this.reminderId := reminderId;
    }

    /** Takes no value from the caller: the schedule becomes the clock reading `now`. */
    method SetSchedule(now: Instant)
      modifies this
      ensures GetSchedule() == Some(now)
      ensures GetReminderId() == old(GetReminderId())
    {
      schedule := Some(now);
    }

    /** The value a news document stores for this reminder. */
    function Doc(): ReminderDoc
      reads this
    {
      ReminderDoc(reminderId, schedule)
    }
  }
}
