/** Channels and the poller they register with. A channel's requests take the steps
    of the machine in `Interests`. */
module ChannelAndPoller {
  import opened Runs
  import opened Interests

  datatype Index = New | Added | Deleted

  class Channel {
    const fd: nat
    var events: Interest
    var index: Index

    constructor (fd: nat)
      ensures this.fd == fd && events == NONE && index == New
    {
      this.fd, events, index := fd, NONE, New;
    }

    /** The channel's own request changes before the poller is told. */
    method Request(poller: EpollPoller, wanted: Interest)
      requires poller.Knows(this)
      modifies `events
      ensures poller.Knows(this) && events == wanted
      ensures SameButEvents(old(poller.Model()), poller.Model(), fd)
    {
      assert forall d :: d in poller.channels && d != fd ==> poller.channels[d] != this;
      events := wanted;
    }

    method ChangeEvents(poller: EpollPoller, wanted: Interest)
      requires poller.Knows(this)
      modifies this, poller
      ensures poller.Knows(this) && index != New && events == wanted
      ensures Some(poller.Model()) == Next(old(poller.Model()), SetEvents(fd, wanted))
      ensures !poller.failed ==>
                poller.kernel == if old(index) == Added && wanted == NONE
                          then old(poller.kernel) - {fd} else old(poller.kernel)[fd := wanted]
      ensures index == if old(index) == Added && wanted == NONE then Deleted else Added
      ensures poller.channels == old(poller.channels)[fd := this]
    {
      ghost var p := poller.Model();
      Request(poller, wanted);
      UpdateIgnoresOldEvents(p, poller.Model(), fd, wanted);
      poller.UpdateChannel(this);
    }

    method EnableReading(poller: EpollPoller)
      requires poller.Knows(this)
      modifies this, poller
      ensures poller.Knows(this) && index != New && events == Interest(true, old(events.write))
      ensures Some(poller.Model()) == Next(old(poller.Model()), SetEvents(fd, events))
      ensures poller.channels == old(poller.channels)[fd := this]
    {
      ChangeEvents(poller, events.(read := true));
    }

    method EnableWriting(poller: EpollPoller)
      requires poller.Knows(this)
      modifies this, poller
      ensures poller.Knows(this) && index != New && events == Interest(old(events.read), true)
      ensures Some(poller.Model()) == Next(old(poller.Model()), SetEvents(fd, events))
      ensures poller.channels == old(poller.channels)[fd := this]
    {
      ChangeEvents(poller, events.(write := true));
    }

    method DisableWriting(poller: EpollPoller)
      requires poller.Knows(this)
      modifies this, poller
      ensures poller.Knows(this) && index != New && events == Interest(old(events.read), false)
      ensures Some(poller.Model()) == Next(old(poller.Model()), SetEvents(fd, events))
      ensures poller.channels == old(poller.channels)[fd := this]
    {
      ChangeEvents(poller, events.(write := false));
    }

    method DisableAll(poller: EpollPoller)
      requires poller.Knows(this)
      modifies this, poller
      ensures poller.Knows(this) && index != New && events == NONE
      ensures Some(poller.Model()) == Next(old(poller.Model()), SetEvents(fd, NONE))
      ensures poller.channels == old(poller.channels)[fd := this]
    {
      ChangeEvents(poller, NONE);
    }

    method Remove(poller: EpollPoller)
      requires poller.Knows(this) && index != New && events.IsNone()
      modifies this, poller
      ensures poller.Knows(this) && index == New && events == old(events)
      ensures Some(poller.Model()) == Next(old(poller.Model()), RemoveChannel(fd))
      ensures !poller.failed ==>
                poller.kernel == if old(index) == Added then old(poller.kernel) - {fd} else old(poller.kernel)
      ensures poller.channels == old(poller.channels) - {fd}
    {
      poller.RemoveChannel(this);
    }
  }

  class EpollPoller {
    var channels: map<nat, Channel>
    var kernel: map<nat, Interest>
    var failed: bool

    constructor ()
      ensures Model() == Interests.Fresh && channels == map[]
    {
      channels, kernel, failed := map[], map[], false;
    }

    ghost function Model(): (r: Poller)
      reads this, channels.Values
    {
      Poller(map fd | fd in channels :: Registered(channels[fd].index == Added, channels[fd].events), kernel, failed)
    }

    /** Descriptors are distinct: `c` is the channel known under its descriptor, if
        it is known, and every known channel is filed under its own. */
    ghost predicate Knows(c: Channel)
      reads this, c, channels.Values
    {
      && (c.index == New <==> c.fd !in channels)
      && (c.fd in channels ==> channels[c.fd] == c)
      && (forall fd :: fd in channels ==> channels[fd].fd == fd && channels[fd].index != New)
    }

    method EpollControl(op: Control, c: Channel)
      modifies `kernel, `failed
      ensures channels == old(channels)
      ensures Model() == EpollCtl(old(Model()), op, c.fd, c.events)
      ensures failed == (old(failed) || (op == Add) == (c.fd in old(kernel)))
      ensures (op == Add) != (c.fd in old(kernel)) ==>
                kernel == if op == Del then old(kernel) - {c.fd} else old(kernel)[c.fd := c.events]
    {
      if (op == Add) == (c.fd in kernel) {
        failed := true;
      } else if op == Del {
        kernel := kernel - {c.fd};
      } else {
        kernel := kernel[c.fd := c.events];
      }
    }

    /** `c` becomes known, with index `i`. */
    method File(c: Channel, i: Index)
      requires Knows(c) && i != New
      modifies `channels, c`index
      ensures Knows(c) && c.index == i && channels == old(channels)[c.fd := c]
      ensures Model() == old(Model()).(known := old(Model()).known[c.fd := Registered(i == Added, c.events)])
    {
      ghost var p := Model();
      assert forall fd :: fd in channels && fd != c.fd ==> channels[fd] != c;
      channels := channels[c.fd := c];
      c.index := i;
      assert Model().known == p.known[c.fd := Registered(i == Added, c.events)];
    }

    method UpdateChannel(c: Channel)
      requires Knows(c)
      modifies this, c`index
      ensures Knows(c) && c.index != New
      ensures Model() == Update(old(Model()), c.fd, c.events)
      ensures !failed ==>
                kernel == if old(c.index) == Added && c.events == NONE
                          then old(kernel) - {c.fd} else old(kernel)[c.fd := c.events]
      ensures c.index == if old(c.index) == Added && c.events == NONE then Deleted else Added
      ensures channels == old(channels)[c.fd := c]
    {
      if c.index != Added {
        File(c, Added);
        EpollControl(Add, c);
      } else if c.events.IsNone() {
        EpollControl(Del, c);
        File(c, Deleted);
      } else {
        File(c, Added);
        EpollControl(Mod, c);
      }
    }

    method RemoveChannel(c: Channel)
      requires Knows(c) && c.index != New && c.events.IsNone()
      modifies this, c`index
      ensures Knows(c) && c.index == New
      ensures Model() == Interests.Remove(old(Model()), c.fd)
      ensures !failed ==> kernel == if old(c.index) == Added then old(kernel) - {c.fd} else old(kernel)
      ensures channels == old(channels) - {c.fd}
    {
      ghost var p := Model();
      channels := channels - {c.fd};
      if c.index == Added {
        EpollControl(Del, c);
      }
      c.index := New;
      assert Model().known == p.known - {c.fd};
    }
  }
}
