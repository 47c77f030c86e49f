/** EPollPoller and Channel as they are written, above a kernel interest list with epoll_ctl's rules. */
module EPollPoller {
  import opened Interest

  class Channel {
    const fd: int
    var events: set<Event>
    var revents: set<Event>
    var index: Index
    var addedToLoop: bool

    constructor (fd: int)
      ensures this.fd == fd && events == NONE_EVENT && index == New && !addedToLoop
    {
      this.fd := fd;
      events, revents, index, addedToLoop := NONE_EVENT, {}, New, false;
    }

    ghost function Mark(): Mark
      reads this
    {
      Interest.Mark(index, events)
    }

    /** enableReading, disableReading, enableWriting, disableWriting, disableAll: change the mask, then update. */
    method Change(change: Change, poller: EPollPoller)
      requires poller.Valid() && poller.Knows(this)
      modifies this`events, this`index, this`addedToLoop, poller
      ensures poller.Valid() && poller.Knows(this)
      ensures Mark() == Interest.Apply(old(Mark()), change)
      ensures poller.channels == old(poller.channels)[fd := this] && poller.capacity == old(poller.capacity)
      ensures poller.kernel == if index.Added? then old(poller.kernel)[fd := Registration(events, this)]
                               else old(poller.kernel) - {fd}
      ensures poller.refused == old(poller.refused)
    {
      events := Changed(events, change);
      addedToLoop := true;
      poller.UpdateChannel(this);
    }

    /** remove: the channel must be silent. */
    method Remove(poller: EPollPoller)
      requires poller.Valid() && poller.Knows(this) && !index.New? && events == NONE_EVENT
      modifies this`index, this`addedToLoop, poller
      ensures poller.Valid() && poller.Knows(this) && index.New? && !addedToLoop
      ensures poller.channels == old(poller.channels) - {fd} && poller.kernel == old(poller.kernel) - {fd}
      ensures poller.refused == old(poller.refused) && poller.capacity == old(poller.capacity)
    {
      addedToLoop := false;
      poller.RemoveChannel(this);
    }
  }

  /** One entry of the kernel's interest list: the mask and the data pointer. */
  datatype Registration = Registration(events: set<Event>, channel: Channel)

  datatype Operation = ADD | MOD | DEL

  // What epoll_wait stores for one ready descriptor.
  datatype Ready = Ready(revents: set<Event>, channel: Channel)

  class EPollPoller {
    var channels: map<int, Channel>
    var kernel: map<int, Registration>
    var capacity: nat                    // events_.size()
    ghost var refused: nat               // epoll_ctl calls the kernel turned down

    /** The kernel's list is exactly the added channels with their current masks; deleted ones are silent. */
    ghost predicate Valid()
      reads this, channels.Values
    {
      ValidExcept({}) && capacity > 0
    }

    // Valid but for the masks of the channels in `stale`, whose update is under way.
    ghost predicate ValidExcept(stale: set<Channel>)
      reads this, channels.Values
    {
      && (forall fd <- channels :: channels[fd].fd == fd && !channels[fd].index.New?)
      && (forall fd <- channels | channels[fd] !in stale :: Coherent(channels[fd].Mark()))
      && (forall fd <- kernel :: fd in channels && channels[fd].index.Added? && kernel[fd].channel == channels[fd])
      && (forall fd <- channels | channels[fd].index.Added? :: fd in kernel)
      && (forall fd <- kernel | channels[fd] !in stale :: kernel[fd].events == channels[fd].events)
    }

    /** kNew means absent: no other live channel of this loop has the same descriptor. */
    ghost predicate Knows(c: Channel)
      reads this, c
    {
      if c.index.New? then c.fd !in channels && c.events == NONE_EVENT
      else c.fd in channels && channels[c.fd] == c
    }

    constructor ()
      ensures Valid() && channels == map[] && kernel == map[] && refused == 0
    {
      channels, kernel, capacity, refused := map[], map[], 16, 0;
    }

    /** epoll_ctl: ADD fails on a descriptor that is present, MOD and DEL on one that is absent. */
    method EpollCtl(operation: Operation, c: Channel)
      modifies this`kernel, this`refused
      ensures refused == old(refused) + if operation.ADD? <==> c.fd in old(kernel) then 1 else 0
      ensures refused == old(refused) ==>
        kernel == if operation.DEL? then old(kernel) - {c.fd} else old(kernel)[c.fd := Registration(c.events, c)]
    {
      match operation {
        case ADD =>
          if c.fd in kernel { refused := refused + 1; } else { kernel := kernel[c.fd := Registration(c.events, c)]; }
        case MOD =>
          if c.fd in kernel { kernel := kernel[c.fd := Registration(c.events, c)]; } else { refused := refused + 1; }
        case DEL =>
          if c.fd in kernel { kernel := kernel - {c.fd}; } else { refused := refused + 1; }
      }
    }

    method UpdateChannel(c: Channel)
      requires ValidExcept({c}) && capacity > 0
      requires if c.index.New? then c.fd !in channels else c.fd in channels && channels[c.fd] == c
      modifies this`channels, this`kernel, this`refused, c`index
      ensures Valid() && Knows(c) && c.index == Updated(old(c.index), c.events)
      ensures channels == old(channels)[c.fd := c]
      ensures kernel == if c.index.Added? then old(kernel)[c.fd := Registration(c.events, c)] else old(kernel) - {c.fd}
      ensures refused == old(refused)
    {
      if c.index.New? || c.index.Deleted? {
        Enlist(c);
      } else {
        Amend(c);
      }
    }

    // The first branch of updateChannel: the channel joins, or joins again.
    method Enlist(c: Channel)
      requires ValidExcept({c}) && capacity > 0 && !c.index.Added?
      requires if c.index.New? then c.fd !in channels else c.fd in channels && channels[c.fd] == c
      modifies this`channels, this`kernel, this`refused, c`index
      ensures Valid() && Knows(c) && c.index.Added?
      ensures channels == old(channels)[c.fd := c]
      ensures kernel == old(kernel)[c.fd := Registration(c.events, c)] && refused == old(refused)
    {
      if c.index.New? {
        assert c.fd !in channels;
        channels := channels[c.fd := c];
      } else {
        assert channels[c.fd] == c;
      }
      c.index := Added;
      EpollCtl(ADD, c);
    }

    // The second branch: the channel is in the kernel's list.
    method Amend(c: Channel)
      requires ValidExcept({c}) && capacity > 0 && c.index.Added? && c.fd in channels && channels[c.fd] == c
      modifies this`kernel, this`refused, c`index
      ensures Valid() && Knows(c) && c.index == if c.events == NONE_EVENT then Deleted else Added
      ensures kernel == if c.index.Added? then old(kernel)[c.fd := Registration(c.events, c)] else old(kernel) - {c.fd}
      ensures refused == old(refused)
    {
      assert channels[c.fd] == c && c.index.Added?;
      if c.events == NONE_EVENT {
        EpollCtl(DEL, c);
        c.index := Deleted;
      } else {
        EpollCtl(MOD, c);
      }
    }

    method RemoveChannel(c: Channel)
      requires Valid() && c.fd in channels && channels[c.fd] == c && c.events == NONE_EVENT
      modifies this`channels, this`kernel, this`refused, c`index
      ensures Valid() && Knows(c) && c.index.New?
      ensures channels == old(channels) - {c.fd} && kernel == old(kernel) - {c.fd}
      ensures refused == old(refused)
    {
      assert c.index.Added? || c.index.Deleted?;
      channels := channels - {c.fd};
      if c.index.Added? {
        EpollCtl(DEL, c);
      }
      c.index := New;
    }

    /** What epoll_wait may answer: at most `capacity` registered descriptors, each once, with the data pointer
        given at registration. */
    ghost predicate Answer(ready: seq<Ready>)
      reads this, channels.Values
    {
      && |ready| <= capacity
      && (forall r <- ready :: r.channel.fd in kernel && kernel[r.channel.fd].channel == r.channel)
      && (forall i, j | 0 <= i < j < |ready| :: ready[i].channel.fd != ready[j].channel.fd)
    }

    /** poll and fillActiveChannels: the active channels are registered ones, none twice; a full event array grows. */
    method Poll(ready: seq<Ready>) returns (activeChannels: seq<Channel>)
      requires Valid() && Answer(ready)
      modifies this`capacity, channels.Values`revents
      ensures Valid() && channels == old(channels) && kernel == old(kernel) && refused == old(refused)
      ensures |activeChannels| == |ready| && forall i | 0 <= i < |ready| :: activeChannels[i] == ready[i].channel
      ensures forall i | 0 <= i < |ready| :: activeChannels[i].revents == ready[i].revents
      ensures forall c <- activeChannels :: c.fd in channels && channels[c.fd] == c && c.index.Added?
      ensures forall i, j | 0 <= i < j < |activeChannels| :: activeChannels[i] != activeChannels[j]
      ensures capacity == if |ready| == old(capacity) then 2 * old(capacity) else old(capacity)
    {
      activeChannels := [];
      for i := 0 to |ready|
        invariant Valid() && channels == old(channels) && kernel == old(kernel) && capacity == old(capacity)
        invariant refused == old(refused)
        invariant |activeChannels| == i && forall j | 0 <= j < i :: activeChannels[j] == ready[j].channel
        invariant forall j | 0 <= j < i :: activeChannels[j].revents == ready[j].revents
      {
        var channel := ready[i].channel;
        assert ready[i] in ready;
        assert channel.fd in channels && channels[channel.fd] == channel;
        channel.revents := ready[i].revents;
        activeChannels := activeChannels + [channel];
      }
      if |ready| == capacity {
        capacity := capacity * 2;
      }
      assert forall r <- ready :: r.channel.index.Added?;
    }
  }
}
