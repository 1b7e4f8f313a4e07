/**
 The epoll registry of a loop: which channels it knows, which of them the kernel watches and for what.
 */
module EPoller {
  import opened Channel

  const NEW := -1
  const ADDED := 1
  const DELETED := 2
  const INIT_EVENT_LIST_SIZE: nat := 16

  datatype Operation = Add | Mod | Del

  /** What the kernel keeps for a descriptor: the wanted events and the pointer it hands back. */
  datatype Entry = Entry(interest: Interest, ptr: Channel)

  datatype Event = Event(ptr: Channel, mask: Mask)

  class EPoller {
    var kernel: map<nat, Entry>
    var channels: map<nat, Channel>
    var eventListSize: nat
    /** The channels of this loop, registered or not. A descriptor may be that of several of them, one
        after the other. */
    ghost var owned: set<Channel>

    /** A channel's index says in which of the two tables it is. */
    ghost predicate InStep(c: Channel)
      reads this, c
    {
      && c.index in {NEW, ADDED, DELETED}
      && (c.index != NEW <==> c.fd in channels && channels[c.fd] == c)
      && (c.index == ADDED <==> c.fd in kernel && kernel[c.fd].ptr == c)
    }

    ghost predicate ValidBut(moving: set<Channel>)
      reads this, owned
    {
      && (forall c :: c in owned ==> InStep(c))
      && (forall c :: c in owned - moving && c.index == ADDED ==> kernel[c.fd].interest == c.events)
      && (forall fd :: fd in channels ==> channels[fd] in owned && channels[fd].fd == fd)
      && (forall fd :: fd in kernel ==> fd in channels && kernel[fd].ptr == channels[fd])
    }

    /** The kernel watches exactly the added channels, each for the events it last asked for;
        `channels` holds exactly the added and the deleted ones. */
    ghost predicate Valid()
      reads this, owned
    {
      ValidBut({})
    }

    constructor ()
      ensures Valid() && owned == {} && channels == map[] && kernel == map[]
    {
      owned := {};
      kernel, channels := map[], map[];
      eventListSize := INIT_EVENT_LIST_SIZE;
    }

    /** A channel that has been made for this loop. */
    ghost method Adopt(channel: Channel)
      requires Valid() && channel !in owned && channel.index == NEW
      modifies this`owned
      ensures Valid() && owned == old(owned) + {channel}
    {
      owned := owned + {channel};
    }

    /** What `updateChannel` asks of a channel that it does not know: its descriptor is not in use. */
    predicate MayUpdate(channel: Channel)
      reads this, channel
    {
      channel.index == NEW ==> channel.fd !in channels
    }

    /** `epoll_ctl`; its preconditions are the cases in which the kernel reports no error. */
    method Update(operation: Operation, channel: Channel)
      requires operation.Add? ==> channel.fd !in kernel
      requires !operation.Add? ==> channel.fd in kernel
      modifies this`kernel
      ensures kernel == if operation.Del? then old(kernel) - {channel.fd}
                        else old(kernel)[channel.fd := Entry(channel.events, channel)]
    {
      match operation
      case Del =>
        kernel := kernel - {channel.fd};
      case _ =>
        kernel := kernel[channel.fd := Entry(channel.events, channel)];
    }

    /** The first branch of `updateChannel`: a channel that the kernel does not watch. */
    method AddChannel(channel: Channel)
      requires channel in owned && ValidBut({channel}) && MayUpdate(channel) && channel.index != ADDED
      modifies this`kernel, this`channels, channel`index
      ensures Valid() && channel.index == ADDED && channels == old(channels)[channel.fd := channel]
    {
      assert InStep(channel);
      var fd := channel.fd;
      if channel.index == NEW {
        assert fd !in channels;
        channels := channels[fd := channel];
      } else {
        assert fd in channels && channels[fd] == channel;
      }
      channel.index := ADDED;
      Update(Add, channel);
    }

    /** The second branch: a channel that the kernel watches. */
    method ChangeChannel(channel: Channel)
      requires channel in owned && ValidBut({channel}) && channel.index == ADDED
      modifies this`kernel, channel`index
      ensures Valid() && channel.index == if channel.events == NONE then DELETED else ADDED
    {
      assert InStep(channel);
      assert channel.fd in channels && channels[channel.fd] == channel;
      if channel.IsNoneEvent() {
        Update(Del, channel);
        channel.index := DELETED;
      } else {
        Update(Mod, channel);
      }
    }

    method UpdateChannel(channel: Channel)
      requires channel in owned && ValidBut({channel}) && MayUpdate(channel)
      modifies this`kernel, this`channels, channel`index
      ensures Valid()
      ensures channel.index == if old(channel.index) == ADDED && channel.events == NONE then DELETED else ADDED
      ensures channels == old(channels)[channel.fd := channel]
    {
      assert InStep(channel);
      if channel.index == NEW || channel.index == DELETED {
        AddChannel(channel);
      } else {
        ChangeChannel(channel);
      }
    }

    method RemoveChannel(channel: Channel)
      requires Valid() && channel in owned && channel.index != NEW && channel.events == NONE
      modifies this`kernel, this`channels, channel`index
      ensures Valid()
      ensures channel.index == NEW && channels == old(channels) - {channel.fd} && channel.fd !in kernel
    {
      var fd := channel.fd;
      assert fd in channels && channels[fd] == channel;
      var index := channel.index;
      channels := channels - {fd};
      if index == ADDED {
        Update(Del, channel);
      }
      channel.index := NEW;
    }

    // ----- The channel operations that reach the poller -----

    method EnableReading(channel: Channel)
      requires Valid() && channel in owned && MayUpdate(channel)
      modifies this`kernel, this`channels, channel`events, channel`index
      ensures Valid() && channel.events == old(channel.events).(read := true) && channel.index == ADDED
      ensures channels == old(channels)[channel.fd := channel]
    {
      channel.events := channel.events.(read := true);
      UpdateChannel(channel);
    }

    method EnableWriting(channel: Channel)
      requires Valid() && channel in owned && MayUpdate(channel)
      modifies this`kernel, this`channels, channel`events, channel`index
      ensures Valid() && channel.events == old(channel.events).(write := true) && channel.index == ADDED
      ensures channels == old(channels)[channel.fd := channel]
    {
      channel.events := channel.events.(write := true);
      UpdateChannel(channel);
    }

    method DisableWriting(channel: Channel)
      requires Valid() && channel in owned && MayUpdate(channel)
      modifies this`kernel, this`channels, channel`events, channel`index
      ensures Valid() && channel.events == old(channel.events).(write := false)
      ensures channel.index == if old(channel.index) == ADDED && channel.events == NONE then DELETED else ADDED
      ensures channels == old(channels)[channel.fd := channel]
    {
      channel.events := channel.events.(write := false);
      UpdateChannel(channel);
    }

    /** Disabling an already disabled channel puts it back into the kernel's set, for no events. */
    method DisableAll(channel: Channel)
      requires Valid() && channel in owned && MayUpdate(channel)
      modifies this`kernel, this`channels, channel`events, channel`index
      ensures Valid() && channel.events == NONE
      ensures channel.index == if old(channel.index) == ADDED then DELETED else ADDED
      ensures channels == old(channels)[channel.fd := channel]
      ensures channel.fd in kernel <==> old(channel.index) != ADDED
    {
      channel.events := NONE;
      UpdateChannel(channel);
    }

    // ----- Polling -----

    /** What `epoll_wait` may return: distinct watched descriptors with their pointers. */
    ghost predicate MayReport(events: seq<Event>)
      reads this
    {
      && |events| <= eventListSize
      && (forall i :: 0 <= i < |events| ==> events[i].ptr.fd in kernel && kernel[events[i].ptr.fd].ptr == events[i].ptr)
      && (forall i, j :: 0 <= i < j < |events| ==> events[i].ptr.fd != events[j].ptr.fd)
    }

    /** Every reported pointer is a registered channel; it gets exactly the events reported for it. */
    method FillActiveChannels(events: seq<Event>) returns (active: seq<Channel>)
      requires Valid() && MayReport(events)
      modifies set i | 0 <= i < |events| :: events[i].ptr
      ensures Valid() && |active| == |events|
      ensures forall i :: 0 <= i < |events| ==>
                            && active[i] == events[i].ptr && active[i].revents == events[i].mask
                            && active[i].fd in channels && channels[active[i].fd] == active[i]
    {
      active := [];
      for i := 0 to |events|
        invariant Valid() && MayReport(events) && |active| == i
        invariant forall k :: 0 <= k < i ==>
                                && active[k] == events[k].ptr && active[k].revents == events[k].mask
                                && active[k].fd in channels && channels[active[k].fd] == active[k]
        invariant unchanged(this)
      {
        var channel := events[i].ptr;
        assert channel.fd in channels && channels[channel.fd] == channel;
        channel.revents := events[i].mask;
        active := active + [channel];
      }
    }

    method Poll(events: seq<Event>) returns (active: seq<Channel>)
      requires Valid() && MayReport(events)
      modifies this`eventListSize, set i | 0 <= i < |events| :: events[i].ptr
      ensures Valid() && |active| == |events|
      ensures forall i :: 0 <= i < |events| ==> active[i] == events[i].ptr && active[i].revents == events[i].mask
      ensures eventListSize == if |events| > 0 && |events| == old(eventListSize) then 2 * old(eventListSize) else old(eventListSize)
    {
      active := [];
      if |events| > 0 {
        active := FillActiveChannels(events);
        if |events| == eventListSize {
          eventListSize := eventListSize * 2;
        }
      }
    }
  }
}
