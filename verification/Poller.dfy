/**
 The poll(2) registry of a loop: one slot per channel, removal by swapping with the last slot, and a
 negated descriptor for a channel that wants nothing.
 */
module Poller {
  import opened Channel

  datatype PollFd = PollFd(fd: int, events: Interest, revents: Mask)

  /** Marks a descriptor as ignored; applied twice it gives the descriptor back. */
  function Negated(fd: int): (r: int)
    ensures fd >= 0 <==> r < 0
  {
    -fd - 1
  }

  /** The descriptor behind a slot, negated or not. */
  function SlotFd(slot: PollFd): (fd: nat)
    ensures slot.fd == fd || slot.fd == Negated(fd)
  {
    if slot.fd < 0 then Negated(slot.fd) else slot.fd
  }

  /** Removal of a slot: the last one takes its place. */
  function WithoutSlot(slots: seq<PollFd>, idx: nat): seq<PollFd>
    requires idx < |slots|
  {
    var last := |slots| - 1;
    if idx == last then slots[..last] else slots[idx := slots[last]][..last]
  }

  lemma SwapAndPop(slots: seq<PollFd>, idx: nat)
    requires idx < |slots| - 1
    ensures var last := |slots| - 1;
            && slots[idx := slots[last]][last := slots[idx]][..last] == WithoutSlot(slots, idx)
            && |WithoutSlot(slots, idx)| == last
            && forall i :: 0 <= i < last ==> WithoutSlot(slots, idx)[i] == if i == idx then slots[last] else slots[i]
  {
  }

  /** The slots with events, in order. */
  function ActiveSlots(slots: seq<PollFd>): (r: seq<nat>)
    ensures forall k :: 0 <= k < |r| ==> r[k] < |slots|
  {
    if slots == [] then []
    else
      var n := |slots| - 1;
      ActiveSlots(slots[..n]) + (if slots[n].revents != NO_EVENTS then [n] else [])
  }

  /** All slots with events are listed, once each, and no others. */
  lemma {:induction false} ActiveSlotsFilter(slots: seq<PollFd>)
    ensures var r := ActiveSlots(slots);
            && (forall k :: 0 <= k < |r| ==> slots[r[k]].revents != NO_EVENTS)
            && (forall i :: 0 <= i < |slots| && slots[i].revents != NO_EVENTS ==> i in r)
            && (forall j, k :: 0 <= j < k < |r| ==> r[j] < r[k])
  {
    if slots != [] {
      ActiveSlotsFilter(slots[..|slots| - 1]);
    }
  }

  /** The active slots of a prefix come first among the active slots. */
  lemma {:induction false} ActiveSlotsOfPrefix(slots: seq<PollFd>, i: nat)
    requires i <= |slots|
    ensures ActiveSlots(slots[..i]) <= ActiveSlots(slots)
    decreases |slots| - i
  {
    if i < |slots| {
      ActiveSlotsOfPrefix(slots, i + 1);
      assert slots[..i + 1][..i] == slots[..i];
    } else {
      assert slots[..i] == slots;
    }
  }

  lemma NoActiveSlots(slots: seq<PollFd>)
    ensures ActiveSlots(slots[..0]) == []
  {
  }

  lemma NextActiveSlot(slots: seq<PollFd>, i: nat)
    requires i < |slots|
    ensures ActiveSlots(slots[..i + 1]) == ActiveSlots(slots[..i]) + (if slots[i].revents != NO_EVENTS then [i] else [])
    ensures ActiveSlots(slots[..i + 1]) <= ActiveSlots(slots)
  {
    assert slots[..i + 1][..i] == slots[..i];
    ActiveSlotsOfPrefix(slots, i + 1);
  }

  /** An existing slot keeps a negated descriptor: a channel that wanted nothing once is ignored from then on. */
  function UpdatedSlot(slot: PollFd, fd: nat, events: Interest): PollFd {
    PollFd(if events == NONE then Negated(fd) else slot.fd, events, NO_EVENTS)
  }

  class Poller {
    var pollfds: seq<PollFd>
    var channels: map<nat, Channel>
    /** The channels of this loop, registered or not. */
    ghost var owned: set<Channel>

    ghost predicate ValidBut(moving: set<Channel>)
      reads this, owned
    {
      && (forall fd :: fd in channels ==> channels[fd] in owned && channels[fd].fd == fd)
      && (forall fd :: fd in channels ==> 0 <= channels[fd].index < |pollfds| && SlotFd(pollfds[channels[fd].index]) == fd)
      && (forall i :: 0 <= i < |pollfds| ==> SlotFd(pollfds[i]) in channels && channels[SlotFd(pollfds[i])].index == i)
      && (forall fd :: fd in channels && channels[fd] !in moving ==> pollfds[channels[fd].index].events == channels[fd].events)
    }

    /** Slots and registered channels are in bijection through the channels' indices, and each slot has
        its channel's wanted events. */
    ghost predicate Valid()
      reads this, owned
    {
      ValidBut({})
    }

    predicate Registered(channel: Channel)
      reads this
    {
      channel.fd in channels && channels[channel.fd] == channel
    }

    /** What `updateChannel` asserts: a channel without an index has a descriptor that is not in use, a channel
        with one is registered. */
    predicate MayUpdate(channel: Channel)
      reads this, channel
    {
      if channel.index < 0 then channel.fd !in channels else Registered(channel)
    }

    /** A channel that was registered and is not any more; its index is still that of its old slot. */
    predicate Retired(channel: Channel)
      reads this, channel
    {
      channel.index >= 0 && !Registered(channel)
    }

    constructor ()
      ensures Valid() && owned == {} && pollfds == [] && channels == map[]
    {
      owned := {};
      pollfds, channels := [], map[];
    }

    /** A channel that has been made for this loop. */
    ghost method Adopt(channel: Channel)
      requires Valid() && channel !in owned
      modifies this`owned
      ensures Valid() && owned == old(owned) + {channel}
    {
      owned := owned + {channel};
    }

    /** The first branch of `updateChannel`: a channel without a slot. */
    method AddChannel(channel: Channel)
      requires channel in owned && Valid() && channel.index < 0 && channel.fd !in channels
      modifies this`pollfds, this`channels, channel`index
      ensures Valid() && Registered(channel) && channels == old(channels)[channel.fd := channel]
      ensures pollfds == old(pollfds) + [PollFd(channel.fd, channel.events, NO_EVENTS)]
    {
      var pfd := PollFd(channel.fd, channel.events, NO_EVENTS);
      pollfds := pollfds + [pfd];
      channel.index := |pollfds| - 1;
      channels := channels[channel.fd := channel];
    }

    /** The second branch: a channel with a slot. */
    method ChangeChannel(channel: Channel)
      requires channel in owned && ValidBut({channel}) && Registered(channel)
      modifies this`pollfds
      ensures Valid()
      ensures pollfds == old(pollfds)[channel.index := UpdatedSlot(old(pollfds)[channel.index], channel.fd, channel.events)]
    {
      var idx := channel.index;
      assert 0 <= idx < |pollfds|;
      assert pollfds[idx].fd == channel.fd || pollfds[idx].fd == Negated(channel.fd);
      var pfd := pollfds[idx].(events := channel.events, revents := NO_EVENTS);
      if channel.IsNoneEvent() {
        pfd := pfd.(fd := Negated(channel.fd));
      }
      pollfds := pollfds[idx := pfd];
    }

    method UpdateChannel(channel: Channel)
      requires channel in owned && ValidBut({channel}) && MayUpdate(channel)
      modifies this`pollfds, this`channels, channel`index
      ensures Valid() && Registered(channel) && channels == old(channels)[channel.fd := channel]
      ensures pollfds == (if old(channel.index) < 0 then old(pollfds) + [PollFd(channel.fd, channel.events, NO_EVENTS)]
                          else old(pollfds)[old(channel.index) := UpdatedSlot(old(pollfds[channel.index]), channel.fd, channel.events)])
      ensures old(channel.index) >= 0 ==> channel.index == old(channel.index)
      ensures forall c :: c in owned && old(Retired(c)) ==> Retired(c)
    {
      if channel.index < 0 {
        AddChannel(channel);
      } else {
        ChangeChannel(channel);
      }
    }

    /** The bijection without the slot of a channel that has just been erased. */
    ghost predicate ValidExcept(idx: nat)
      requires idx < |pollfds|
      reads this, owned
    {
      && (forall fd :: fd in channels ==> channels[fd] in owned && channels[fd].fd == fd)
      && (forall fd :: fd in channels ==> 0 <= channels[fd].index < |pollfds| && channels[fd].index != idx
                                          && SlotFd(pollfds[channels[fd].index]) == fd)
      && (forall i :: 0 <= i < |pollfds| && i != idx ==> SlotFd(pollfds[i]) in channels && channels[SlotFd(pollfds[i])].index == i)
      && (forall fd :: fd in channels ==> pollfds[channels[fd].index].events == channels[fd].events)
    }

    /** The erasure from the map: the channel's slot is left over. */
    method EraseChannel(channel: Channel)
      requires Valid() && channel in owned && Registered(channel)
      modifies this`channels
      ensures channels == old(channels) - {channel.fd} && 0 <= channel.index < |pollfds|
      ensures ValidExcept(channel.index) && SlotFd(pollfds[channel.index]) == channel.fd
      ensures Retired(channel) && forall c :: c in owned && old(Retired(c)) ==> Retired(c)
    {
      assert 0 <= channel.index < |pollfds|;
      channels := channels - {channel.fd};
    }

    /** The slot is the last one. */
    method PopLast(idx: nat)
      requires idx == |pollfds| - 1 && ValidExcept(idx)
      modifies this`pollfds
      ensures Valid() && pollfds == WithoutSlot(old(pollfds), idx)
    {
      pollfds := pollfds[..idx];
    }

    /** The swap with the last slot: its channel gets the index of the slot that is removed. */
    method MoveLastTo(idx: nat, removed: Channel)
      requires idx < |pollfds| - 1 && removed in owned && removed.fd !in channels && SlotFd(pollfds[idx]) == removed.fd
      requires ValidExcept(idx)
      modifies this`pollfds, channels.Values`index
      ensures Valid() && pollfds == WithoutSlot(old(pollfds), idx) && removed.index == old(removed.index)
    {
      hide WithoutSlot;
      SwapAndPop(pollfds, idx);
      var last := |pollfds| - 1;
      var channelAtEnd := pollfds[last].fd;
      pollfds := pollfds[idx := pollfds[last]][last := pollfds[idx]];
      if channelAtEnd < 0 {
        channelAtEnd := Negated(channelAtEnd);
      }
      channels[channelAtEnd].index := idx;
      pollfds := pollfds[..last];
    }

    /** A removed channel keeps its index: it is retired, and no operation can make it fit for `updateChannel`
        again. */
    method RemoveChannel(channel: Channel)
      requires Valid() && channel in owned && Registered(channel) && channel.events == NONE
      requires pollfds[channel.index].fd == Negated(channel.fd)
      modifies this`pollfds, this`channels, owned`index
      ensures Valid() && channels == old(channels) - {channel.fd}
      ensures pollfds == WithoutSlot(old(pollfds), old(channel.index)) && channel.index == old(channel.index)
      ensures Retired(channel) && forall c :: c in owned && old(Retired(c)) ==> Retired(c)
    {
      var idx := channel.index;
      EraseChannel(channel);
      hide ValidBut, WithoutSlot;
      if idx == |pollfds| - 1 {
        PopLast(idx);
      } else {
        MoveLastTo(idx, channel);
      }
    }

    /** What poll(2) may have stored: no events for a negated descriptor. */
    ghost predicate MayReport()
      reads this
    {
      forall i :: 0 <= i < |pollfds| && pollfds[i].revents != NO_EVENTS ==> pollfds[i].fd >= 0
    }

    ghost predicate Reported(i: int)
      requires 0 <= i < |pollfds|
      reads this, channels.Values
    {
      var fd := SlotFd(pollfds[i]);
      fd in channels && channels[fd].revents == pollfds[i].revents
    }

    /** One round of the loop below, for a slot with events. */
    method Activate(i: nat) returns (channel: Channel)
      requires Valid() && MayReport() && i < |pollfds| && pollfds[i].revents != NO_EVENTS
      modifies owned`revents
      ensures Valid() && Reported(i) && channel == channels[SlotFd(pollfds[i])]
      ensures forall j :: 0 <= j < |pollfds| && old(Reported(j)) ==> Reported(j)
    {
      var slot := pollfds[i];
      assert slot.fd in channels;
      channel := channels[slot.fd];
      assert channel.fd == slot.fd;
      channel.revents := slot.revents;
    }

    /** The early exit: the channels of the first `numEvents` active slots, each with its slot's events.
        With the true number of events these are all active slots. */
    method FillActiveChannels(numEvents: nat) returns (active: seq<Channel>)
      requires Valid() && MayReport()
      modifies owned`revents
      ensures Valid()
      ensures |active| == if numEvents <= |ActiveSlots(pollfds)| then numEvents else |ActiveSlots(pollfds)|
      ensures forall k :: 0 <= k < |active| ==>
                            Reported(ActiveSlots(pollfds)[k]) && active[k] == channels[SlotFd(pollfds[ActiveSlots(pollfds)[k]])]
    {
      hide ActiveSlots, ValidBut, SlotFd;
      active := [];
      var remaining := numEvents;
      var i := 0;
      ghost var slots := ActiveSlots(pollfds);
      NoActiveSlots(pollfds);
      while i < |pollfds| && remaining > 0
        invariant 0 <= i <= |pollfds| && 0 <= remaining && Valid()
        invariant remaining + |active| == numEvents && |active| == |ActiveSlots(pollfds[..i])|
        invariant ActiveSlots(pollfds[..i]) <= slots
        invariant forall k :: 0 <= k < |active| ==> Reported(slots[k]) && active[k] == channels[SlotFd(pollfds[slots[k]])]
      {
        NextActiveSlot(pollfds, i);
        if pollfds[i].revents != NO_EVENTS {
          assert slots[|active|] == i;
          remaining := remaining - 1;
          var channel := Activate(i);
          active := active + [channel];
        }
        i := i + 1;
      }
      assert i == |pollfds| ==> pollfds[..i] == pollfds;
    }
  }

  /** A channel may be registered or updated if and only if it has not been removed, and its descriptor is not
      that of another registered channel. */
  lemma MayUpdateExactly(poller: Poller, channel: Channel)
    requires poller.Valid() && channel in poller.owned
    ensures poller.MayUpdate(channel) <==>
            !poller.Retired(channel) && (channel.fd in poller.channels ==> poller.channels[channel.fd] == channel)
  {
  }

  /** Removal drops one slot and keeps the others. */
  lemma WithoutSlotDropsOne(slots: seq<PollFd>, idx: nat)
    requires idx < |slots|
    ensures multiset(WithoutSlot(slots, idx)) + multiset{slots[idx]} == multiset(slots)
  {
    var last := |slots| - 1;
    assert slots == slots[..last] + [slots[last]];
    if idx < last {
      var moved := slots[idx := slots[last]];
      assert moved[..last] == slots[..last][idx := slots[last]];
    }
  }

  /** A slot is watched after updates exactly when its channel never wanted nothing; it has the events of the last
      update, and no events reported before it. */
  function AfterUpdates(slot: PollFd, fd: nat, updates: seq<Interest>): PollFd {
    if updates == [] then slot
    else UpdatedSlot(AfterUpdates(slot, fd, updates[..|updates| - 1]), fd, updates[|updates| - 1])
  }

  lemma {:induction false} WatchedUntilDisabled(slot: PollFd, fd: nat, updates: seq<Interest>)
    requires SlotFd(slot) == fd
    ensures SlotFd(AfterUpdates(slot, fd, updates)) == fd
    ensures AfterUpdates(slot, fd, updates).fd == fd <==> slot.fd == fd && NONE !in updates
    ensures updates != [] ==>
              AfterUpdates(slot, fd, updates).events == updates[|updates| - 1] && AfterUpdates(slot, fd, updates).revents == NO_EVENTS
  {
    if updates != [] {
      var n := |updates| - 1;
      WatchedUntilDisabled(slot, fd, updates[..n]);
      assert updates == updates[..n] + [updates[n]];
    }
  }
}
