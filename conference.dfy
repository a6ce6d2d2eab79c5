/** The finished aggregate: a conference owning an ordered schedule of talks. */
module Conferences {
  import opened Talks

  class Conference {
    const name: string
    const location: string
    /** The private `schedule`; no other object refers to it. */
    const schedule: MutableTalkList

    constructor (name: string, location: string)
      ensures this.name == name && this.location == location
      ensures fresh(schedule) && schedule.elems == []
    {
      this.name := name;
      this.location := location;
      schedule := new MutableTalkList();
    }

    /** `addTalk`: appends `t` at the end of the schedule; cannot fail. */
    method AddTalk(t: Talk)
      modifies schedule
      ensures schedule.elems == old(schedule.elems) + [t]
    {
      var _ := schedule.Add(t);
    }

    /** The `talks` getter: a snapshot copy of the schedule. */
    function Talks(): (r: seq<Talk>)
      reads this, schedule
      ensures |r| == |schedule.elems| && forall i :: 0 <= i < |r| ==> r[i] == schedule.elems[i]
    {
      schedule.ToList()
    }
  }

  /**
   * A snapshot taken by `talks` is a value: appending afterwards changes what
   * `talks` returns next, but not the snapshot already handed out.
   */
  method SnapshotIsIndependent(c: Conference, t: Talk) returns (before: seq<Talk>, after: seq<Talk>)
    modifies c.schedule
    ensures before == old(c.Talks())
    ensures after == before + [t] && after == c.Talks()
  {
    before := c.Talks();
    c.AddTalk(t);
    after := c.Talks();
  }
}
