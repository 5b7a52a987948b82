/** Channel.h, Channel.cc and the object side of EPollPoller.cc: channels with their event
    masks, the poller's descriptor map, and the kernel's interest set it talks to. */
module Channels {
  import opened Registration

  const POLLIN: bv16 := 0x01
  const POLLPRI: bv16 := 0x02
  const POLLOUT: bv16 := 0x04
  const POLLERR: bv16 := 0x08
  const POLLHUP: bv16 := 0x10

  const NO_MASK: bv16 := 0
  const READ_MASK: bv16 := POLLIN | POLLPRI
  const WRITE_MASK: bv16 := POLLOUT

  /** The masks events_ can hold: any union of the two units. */
  predicate EventMask(m: bv16) { m == NO_MASK || m == READ_MASK || m == WRITE_MASK || m == READ_MASK | WRITE_MASK }

  function InterestOf(m: bv16): Interest {
    Interest(m == READ_MASK || m == READ_MASK | WRITE_MASK, m == WRITE_MASK || m == READ_MASK | WRITE_MASK)
  }

  /** Testing, setting and clearing the two units of a mask are what they say on interests. */
  lemma MaskUnits(m: bv16)
    requires EventMask(m)
    ensures InterestOf(m) == Interest(m & READ_MASK != 0, m & WRITE_MASK != 0)
    ensures EventMask(m | READ_MASK) && InterestOf(m | READ_MASK) == InterestOf(m).(read := true)
    ensures EventMask(m & !READ_MASK) && InterestOf(m & !READ_MASK) == InterestOf(m).(read := false)
    ensures EventMask(m | WRITE_MASK) && InterestOf(m | WRITE_MASK) == InterestOf(m).(write := true)
    ensures EventMask(m & !WRITE_MASK) && InterestOf(m & !WRITE_MASK) == InterestOf(m).(write := false)
    ensures m == NO_MASK <==> InterestOf(m) == NONE_EVENT
  {
  }

  /** Channel.h:53-54 as written compare the whole mask with one unit. */
  predicate IsReadingAsWritten(m: bv16) { m == READ_MASK }

  predicate IsWritingAsWritten(m: bv16) { m == WRITE_MASK }

  /** Those tests agree with the interest they name exactly while the two are not on together;
      a connection's channel always reads, so there isWriteing() is false whenever asked. */
  lemma TestsAsWrittenIff(m: bv16)
    requires EventMask(m)
    ensures IsWritingAsWritten(m) == InterestOf(m).write <==> m != READ_MASK | WRITE_MASK
    ensures IsReadingAsWritten(m) == InterestOf(m).read <==> m != READ_MASK | WRITE_MASK
    ensures InterestOf(m).read ==> !IsWritingAsWritten(m)
  {
  }

  datatype Callback = Close | Error | Read | Write

  /** The bits of revents_ that handleEventWithGuard looks at. */
  datatype Revents = Revents(hup: bool, pollin: bool, pri: bool, err: bool, out: bool)

  function ReventsOf(m: bv16): Revents {
    Revents(m & POLLHUP != 0, m & POLLIN != 0, m & POLLPRI != 0, m & POLLERR != 0, m & POLLOUT != 0)
  }

  /** Which of the installed callbacks run, in order. */
  function Callbacks(r: Revents, installed: set<Callback>): seq<Callback> {
    (if r.hup && !r.pollin && Close in installed then [Close] else [])
    + (if r.err && Error in installed then [Error] else [])
    + (if (r.pollin || r.pri) && Read in installed then [Read] else [])
    + (if r.out && Write in installed then [Write] else [])
  }

  function Rank(c: Callback): nat {
    match c case Close => 0 case Error => 1 case Read => 2 case Write => 3
  }

  /** Which callback each bit of the mask selects. */
  lemma CallbacksByMask(m: bv16, installed: set<Callback>)
    ensures var cs := Callbacks(ReventsOf(m), installed);
      && (Close in cs <==> Close in installed && m & POLLHUP != 0 && m & POLLIN == 0)
      && (Error in cs <==> Error in installed && m & POLLERR != 0)
      && (Read in cs <==> Read in installed && (m & POLLIN != 0 || m & POLLPRI != 0))
      && (Write in cs <==> Write in installed && m & POLLOUT != 0)
  {
  }

  /** Each callback runs at most once per event, in the order close, error, read, write. */
  lemma CallbacksOrdered(r: Revents, installed: set<Callback>)
    ensures var cs := Callbacks(r, installed);
            && (forall i, j :: 0 <= i < j < |cs| ==> Rank(cs[i]) < Rank(cs[j]))
            && (forall c :: c in cs ==> c in installed)
  {
  }

  /** The close and the read callback run in one dispatch, so that a read returning zero closes a
      second time, exactly on a hang-up that carries PRI but not IN. */
  lemma CloseAndReadIff(r: Revents, installed: set<Callback>)
    requires Close in installed && Read in installed
    ensures (Close in Callbacks(r, installed) && Read in Callbacks(r, installed))
            <==> (r.hup && r.pri && !r.pollin)
  {
  }

  class Channel {
    const fd: int
    const poller: EPollPoller  // loop_->poller_
    var events: bv16
    var revents: bv16
    var index: Index
    var tied: bool
    var installed: set<Callback>

    constructor (poller: EPollPoller, fd: int)
      requires poller.Valid()
      modifies poller`known
      ensures this.poller == poller && this.fd == fd && poller.Valid() && fresh(this)
      ensures this !in old(poller.known) && poller.View() == Create(old(poller.View()), this, fd)
      ensures poller.known == old(poller.known) + {this} && events == NO_MASK && !tied && installed == {}
    {
      this.poller, this.fd := poller, fd;
      events, revents, index, tied, installed := 0, 0, New, false, {};
      new;
      poller.known := poller.known + {this};
    }

    method SetCallbacks(installed: set<Callback>)
      requires Registered()
      modifies `installed
      ensures Registered() && this.installed == installed && poller.View() == old(poller.View())
    {
      this.installed := installed;
    }

    method Tie()
      requires Registered()
      modifies `tied
      ensures Registered() && tied && poller.View() == old(poller.View())
    {
      tied := true;
    }

    predicate IsNoneEvent()
      reads this
      ensures EventMask(events) ==> (IsNoneEvent() <==> InterestOf(events) == NONE_EVENT)
    {
      events == NO_MASK
    }

    predicate IsReading()
      reads this
    {
      events & READ_MASK != 0  // REPAIR of Channel.h:53
    }

    predicate IsWriting()
      reads this
    {
      events & WRITE_MASK != 0  // REPAIR of Channel.h:54
    }

    ghost predicate Registered()
      reads this, poller, poller.known
    {
      poller.Valid() && this in poller.known
    }

    /** events_ |= unit, for one of the two units. */
    method SetUnit(unit: bv16)
      requires Registered() && (unit == READ_MASK || unit == WRITE_MASK)
      modifies `events
      ensures Registered()
      ensures InterestOf(events) == if unit == READ_MASK then InterestOf(old(events)).(read := true)
                                    else InterestOf(old(events)).(write := true)
      ensures poller.View() == SetEvents(old(poller.View()), this, InterestOf(events))
    {
      MaskUnits(events);
      events := events | unit;
    }

    /** events_ &= ~unit. */
    method ClearUnit(unit: bv16)
      requires Registered() && (unit == READ_MASK || unit == WRITE_MASK)
      modifies `events
      ensures Registered()
      ensures InterestOf(events) == if unit == READ_MASK then InterestOf(old(events)).(read := false)
                                    else InterestOf(old(events)).(write := false)
      ensures poller.View() == SetEvents(old(poller.View()), this, InterestOf(events))
    {
      MaskUnits(events);
      events := events & !unit;
    }

    method EnableReading()
      requires Registered()
      modifies this`events, this`index, poller
      ensures Registered() && poller.known == old(poller.known)
      ensures InterestOf(events) == InterestOf(old(events)).(read := true)
      ensures poller.View() == Change(old(poller.View()), this, InterestOf(old(events)).(read := true))
    {
      SetUnit(READ_MASK);
      Update();
    }

    method DisableReading()
      requires Registered()
      modifies this`events, this`index, poller
      ensures Registered() && poller.known == old(poller.known)
      ensures InterestOf(events) == InterestOf(old(events)).(read := false)
      ensures poller.View() == Change(old(poller.View()), this, InterestOf(old(events)).(read := false))
    {
      ClearUnit(READ_MASK);
      Update();
    }

    method EnableWriting()
      requires Registered()
      modifies this`events, this`index, poller
      ensures Registered() && poller.known == old(poller.known)
      ensures InterestOf(events) == InterestOf(old(events)).(write := true)
      ensures poller.View() == Change(old(poller.View()), this, InterestOf(old(events)).(write := true))
    {
      SetUnit(WRITE_MASK);
      Update();
    }

    method DisableWriting()
      requires Registered()
      modifies this`events, this`index, poller
      ensures Registered() && poller.known == old(poller.known)
      ensures InterestOf(events) == InterestOf(old(events)).(write := false)
      ensures poller.View() == Change(old(poller.View()), this, InterestOf(old(events)).(write := false))
    {
      ClearUnit(WRITE_MASK);
      Update();
    }

    method DisableAll()
      requires Registered()
      modifies this`events, this`index, poller
      ensures Registered() && poller.known == old(poller.known) && events == NO_MASK
      ensures poller.View() == Change(old(poller.View()), this, NONE_EVENT)
    {
      events := NO_MASK;
      assert poller.View() == SetEvents(old(poller.View()), this, NONE_EVENT);
      Update();
    }

    method Update()
      requires Registered()
      modifies this`index, poller
      ensures Registered() && poller.known == old(poller.known)
      ensures poller.View() == UpdateChannel(old(poller.View()), this)
    {
      poller.UpdateChannelOf(this);
    }

    method Remove()
      requires Registered()
      modifies this`index, poller
      ensures Registered() && poller.known == old(poller.known)
      ensures poller.View() == RemoveChannel(old(poller.View()), this)
    {
      poller.RemoveChannelOf(this);
    }

    /** `locked` is whether tie_.lock() found the owner alive. */
    method HandleEvent(locked: bool) returns (calls: seq<Callback>)
      ensures calls == if tied && !locked then [] else Callbacks(ReventsOf(revents), installed)
      ensures tied && !locked ==> calls == []
      ensures !tied || locked ==> Selected(calls)
    {
      if tied {
        if locked {
          calls := HandleEventWithGuard();
        } else {
          calls := [];
        }
      } else {
        calls := HandleEventWithGuard();
      }
    }

    /** `calls` are the installed callbacks whose bits are in revents_, in order. */
    ghost predicate Selected(calls: seq<Callback>)
      reads this
    {
      && (Close in calls <==> Close in installed && revents & POLLHUP != 0 && revents & POLLIN == 0)
      && (Error in calls <==> Error in installed && revents & POLLERR != 0)
      && (Read in calls <==> Read in installed && (revents & POLLIN != 0 || revents & POLLPRI != 0))
      && (Write in calls <==> Write in installed && revents & POLLOUT != 0)
      && (forall i, j :: 0 <= i < j < |calls| ==> Rank(calls[i]) < Rank(calls[j]))
    }

    lemma CallbacksSelected()
      ensures Selected(Callbacks(ReventsOf(revents), installed))
    {
      CallbacksByMask(revents, installed);
      CallbacksOrdered(ReventsOf(revents), installed);
      hide Callbacks, ReventsOf;
    }

    method HandleEventWithGuard() returns (calls: seq<Callback>)
      ensures calls == Callbacks(ReventsOf(revents), installed) && Selected(calls)
    {
      hide Selected;
      CallbacksSelected();
      calls := [];
      if revents & POLLHUP != 0 && revents & POLLIN == 0 {
        if Close in installed { calls := calls + [Close]; }
      }
      if revents & POLLERR != 0 {
        if Error in installed { calls := calls + [Error]; }
      }
      if revents & (POLLIN | POLLPRI) != 0 {
        if Read in installed { calls := calls + [Read]; }
      }
      if revents & POLLOUT != 0 {
        if Write in installed { calls := calls + [Write]; }
      }
    }
  }

  datatype EpollEvent = EpollEvent(events: bv16, ptr: Channel)

  class EPollPoller {
    var channels: map<int, Channel>
    var kernel: map<int, EpollEvent>  // the epoll instance behind epollfd_
    var errors: nat                   // epoll_ctl calls that were refused and logged
    ghost var known: set<Channel>     // the channels constructed on this poller

    ghost predicate Valid()
      reads this, known
    {
      && (forall c :: c in known ==> c.poller == this && EventMask(c.events))
      && (forall fd :: fd in channels ==> channels[fd] in known)
      && (forall fd :: fd in kernel ==> kernel[fd].ptr in known)
    }

    ghost function View(): Poller<Channel>
      reads this, known
    {
      Poller(map c | c in known :: Chan(c.fd, InterestOf(c.events), c.index), channels,
             map fd | fd in kernel :: Entry(InterestOf(kernel[fd].events), kernel[fd].ptr), errors)
    }

    constructor ()
      ensures Valid() && known == {} && View() == Poller(map[], map[], map[], 0) && Consistent(View())
    {
      channels, kernel, errors, known := map[], map[], 0, {};
    }

    /** set_index. */
    method Mark(channel: Channel, index: Index)
      requires Valid() && channel in known
      modifies channel`index
      ensures Valid() && View() == SetIndex(old(View()), channel, index)
    {
      channel.index := index;
    }

    /** channels_[fd] = channel. */
    method MapIn(channel: Channel)
      requires Valid() && channel in known
      modifies `channels
      ensures Valid() && View() == old(View()).(channels := old(View()).channels[channel.fd := channel])
    {
      channels := channels[channel.fd := channel];
    }

    /** channels_.erase(fd). */
    method Erase(fd: int)
      requires Valid()
      modifies `channels
      ensures Valid() && View() == old(View()).(channels := old(View()).channels - {fd})
    {
      channels := channels - {fd};
    }

    method UpdateChannelOf(channel: Channel)
      requires Valid() && channel in known
      modifies channel`index, this
      ensures Valid() && known == old(known)
      ensures View() == UpdateChannel(old(View()), channel)
    {
      var index := channel.index;
      if index == New || index == Deleted {
        if index == New {
          MapIn(channel);
        }
        Mark(channel, Added);
        Control(Add, channel);
      } else {
        if channel.IsNoneEvent() {
          Control(Del, channel);
          Mark(channel, Deleted);
        } else {
          Control(Mod, channel);
        }
      }
    }

    method RemoveChannelOf(channel: Channel)
      requires Valid() && channel in known
      modifies channel`index, this
      ensures Valid() && known == old(known)
      ensures View() == RemoveChannel(old(View()), channel)
    {
      Erase(channel.fd);
      if channel.index == Added {
        Control(Del, channel);
      }
      Mark(channel, New);
    }

    /** update(): one epoll_ctl, whose refusal is only logged. */
    method Control(op: Ctl, channel: Channel)
      requires Valid() && channel in known
      modifies this`kernel, this`errors
      ensures Valid() && View() == EpollCtl(old(View()), op, channel)
    {
      assert channel in View().chans && View().chans[channel].fd == channel.fd;
      hide Valid, View;
      if op.Add? == Holds(channel.fd) {
        Refuse();
      } else if op.Del? {
        KernelDelete(channel.fd);
      } else {
        KernelPut(channel);
      }
    }

    predicate Holds(fd: int)
      reads this, known
      ensures Holds(fd) == (fd in View().kernel)
    {
      fd in kernel
    }

    /** The kernel's side of update(). */
    method Refuse()
      requires Valid()
      modifies `errors
      ensures Valid() && View() == old(View()).(errors := old(View()).errors + 1)
    {
      errors := errors + 1;
    }

    method KernelDelete(fd: int)
      requires Valid()
      modifies `kernel
      ensures Valid() && View() == old(View()).(kernel := old(View()).kernel - {fd})
    {
      kernel := kernel - {fd};
    }

    method KernelPut(channel: Channel)
      requires Valid() && channel in known
      modifies `kernel
      ensures Valid()
      ensures var entry := Entry(View().chans[channel].events, channel);
              View() == old(View()).(kernel := old(View()).kernel[channel.fd := entry])
    {
      kernel := kernel[channel.fd := EpollEvent(channel.events, channel)];
    }

    /** Copies what epoll_wait reported into the channels and lists them in order; nothing the
        poller is judged by changes. */
    method FillActiveChannels(reported: seq<EpollEvent>, activeChannels: seq<Channel>) returns (active: seq<Channel>)
      requires Valid() && forall i :: 0 <= i < |reported| ==> reported[i].ptr in known
      modifies set i | 0 <= i < |reported| :: reported[i].ptr`revents
      ensures Valid() && View() == old(View())
      ensures |active| == |activeChannels| + |reported| && activeChannels <= active
      ensures forall i :: 0 <= i < |reported| ==> active[|activeChannels| + i] == reported[i].ptr
      ensures forall i :: 0 <= i < |reported| && (forall j :: i < j < |reported| ==> reported[j].ptr != reported[i].ptr)
                ==> reported[i].ptr.revents == reported[i].events
    {
      active := activeChannels;
      var i := 0;
      while i < |reported|
        invariant 0 <= i <= |reported|
        invariant Valid() && View() == old(View())
        invariant |active| == |activeChannels| + i && activeChannels <= active
        invariant forall k :: 0 <= k < i ==> active[|activeChannels| + k] == reported[k].ptr
        invariant forall k :: 0 <= k < i && (forall j :: k < j < i ==> reported[j].ptr != reported[k].ptr)
                    ==> reported[k].ptr.revents == reported[k].events
      {
        var channel := reported[i].ptr;
        channel.revents := reported[i].events;
        active := active + [channel];
        i := i + 1;
      }
    }
  }
}
