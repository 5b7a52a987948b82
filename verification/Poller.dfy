/** The registration state machine that EPollPoller.cc runs against the kernel's interest set,
    as a value: what every channel's index_ and events_, the map channels_ and the kernel say. */
module Registration {
  /** events_: kReadEvent and kWriteEvent are switched as units (module Channels relates the masks). */
  datatype Interest = Interest(read: bool, write: bool)

  const NONE_EVENT := Interest(false, false)

  /** index_: kNew = -1, kAdded = 1, kDeleted = 2. */
  datatype Index = New | Added | Deleted

  datatype Chan = Chan(fd: int, events: Interest, index: Index)

  datatype Ctl = Add | Mod | Del

  /** The kernel's entry for a descriptor: the mask and epoll_data's channel pointer. */
  datatype Entry<Id> = Entry(mask: Interest, ptr: Id)

  /** `errors` counts the epoll_ctl calls the kernel refused. */
  datatype Poller<Id(==)> = Poller(
    chans: map<Id, Chan>,
    channels: map<int, Id>,
    kernel: map<int, Entry<Id>>,
    errors: nat)

  /** epoll_ctl: ADD fails on a descriptor that is present, MOD and DEL on one that is not. */
  function EpollCtl<Id>(p: Poller<Id>, op: Ctl, id: Id): Poller<Id>
    requires id in p.chans
  {
    var ch := p.chans[id];
    var present := ch.fd in p.kernel;
    if op.Add? == present then p.(errors := p.errors + 1)
    else if op.Del? then p.(kernel := p.kernel - {ch.fd})
    else p.(kernel := p.kernel[ch.fd := Entry(ch.events, id)])
  }

  function SetIndex<Id>(p: Poller<Id>, id: Id, index: Index): Poller<Id>
    requires id in p.chans
  {
    p.(chans := p.chans[id := p.chans[id].(index := index)])
  }

  function SetEvents<Id>(p: Poller<Id>, id: Id, events: Interest): Poller<Id>
    requires id in p.chans
  {
    p.(chans := p.chans[id := p.chans[id].(events := events)])
  }

  /** EPollPoller::updateChannel */
  function UpdateChannel<Id>(p: Poller<Id>, id: Id): Poller<Id>
    requires id in p.chans
  {
    var ch := p.chans[id];
    if ch.index != Added then
      var q := if ch.index == New then p.(channels := p.channels[ch.fd := id]) else p;
      EpollCtl(SetIndex(q, id, Added), Add, id)
    else if ch.events == NONE_EVENT then SetIndex(EpollCtl(p, Del, id), id, Deleted)
    else EpollCtl(p, Mod, id)
  }

  /** EPollPoller::removeChannel */
  function RemoveChannel<Id>(p: Poller<Id>, id: Id): Poller<Id>
    requires id in p.chans
  {
    var ch := p.chans[id];
    var q := p.(channels := p.channels - {ch.fd});
    var r := if ch.index == Added then EpollCtl(q, Del, id) else q;
    SetIndex(r, id, New)
  }

  /** Channel's enable and disable calls: change events_, then update(). */
  function Change<Id>(p: Poller<Id>, id: Id, events: Interest): Poller<Id>
    requires id in p.chans
  {
    UpdateChannel(SetEvents(p, id, events), id)
  }

  /** The Channel constructor. */
  function Create<Id>(p: Poller<Id>, id: Id, fd: int): Poller<Id>
    requires id !in p.chans
  {
    p.(chans := p.chans[id := Chan(fd, NONE_EVENT, New)])
  }

  ghost predicate Agrees<Id>(p: Poller<Id>, id: Id)
    requires id in p.chans
  {
    var ch := p.chans[id];
    match ch.index
    case New => forall fd :: fd in p.channels ==> p.channels[fd] != id
    case Added => ch.fd in p.channels && p.channels[ch.fd] == id
                  && ch.fd in p.kernel && p.kernel[ch.fd] == Entry(ch.events, id)
    case Deleted => ch.fd in p.channels && p.channels[ch.fd] == id
                    && ch.fd !in p.kernel && ch.events == NONE_EVENT
  }

  /** index_, events_, channels_ and the kernel set say the same, and no epoll_ctl was refused. */
  ghost predicate Consistent<Id>(p: Poller<Id>) {
    && (forall id :: id in p.chans ==> Agrees(p, id))
    && (forall fd :: fd in p.channels ==> p.channels[fd] in p.chans && p.chans[p.channels[fd]].fd == fd)
    && (forall fd :: fd in p.kernel ==> fd in p.channels && p.kernel[fd].ptr == p.channels[fd])
    && p.errors == 0
  }

  /** No other registered channel holds id's descriptor. */
  ghost predicate OwnDescriptor<Id>(p: Poller<Id>, id: Id)
    requires id in p.chans
  {
    forall other :: other in p.chans && other != id && p.chans[other].index != New
      ==> p.chans[other].fd != p.chans[id].fd
  }

  /** Registered channels have distinct descriptors, whatever the calls were. */
  lemma RegisteredDistinct<Id>(p: Poller<Id>, a: Id, b: Id)
    requires Consistent(p) && a in p.chans && b in p.chans && a != b
    requires p.chans[a].index != New && p.chans[b].index != New
    ensures p.chans[a].fd != p.chans[b].fd
  {
    assert Agrees(p, a) && Agrees(p, b);
  }

  lemma UnregisteredDescriptor<Id>(p: Poller<Id>, id: Id)
    requires Consistent(p) && id in p.chans && p.chans[id].index == New
    ensures OwnDescriptor(p, id) <==> p.chans[id].fd !in p.channels
  {
    var fd := p.chans[id].fd;
    assert Agrees(p, id);
    if fd in p.channels {
      var other := p.channels[fd];
      assert Agrees(p, other);
    }
    forall other | other in p.chans && other != id && p.chans[other].index != New
      ensures fd !in p.channels ==> p.chans[other].fd != fd
    {
      assert Agrees(p, other);
    }
  }

  /** A consistent poller stays consistent under a Channel call exactly when the channel is
      already registered or its descriptor belongs to no registered channel. */
  lemma ChangeConsistentIff<Id>(p: Poller<Id>, id: Id, events: Interest)
    requires Consistent(p) && id in p.chans
    ensures Consistent(Change(p, id, events)) <==> (p.chans[id].index == New ==> OwnDescriptor(p, id))
  {
    var ch := p.chans[id];
    if ch.index == New { UnregisteredDescriptor(p, id); }
    if ch.index == New && ch.fd in p.channels {
      ChangeBreaks(p, id, events);
    } else {
      ChangeKeeps(p, id, events);
    }
  }

  lemma ChangeBreaks<Id>(p: Poller<Id>, id: Id, events: Interest)
    requires Consistent(p) && id in p.chans && p.chans[id].index == New && p.chans[id].fd in p.channels
    ensures !Consistent(Change(p, id, events))
  {
    var other := p.channels[p.chans[id].fd];
    assert Agrees(p, id) && Agrees(p, other) && other != id;
    assert !Agrees(Change(p, id, events), other);
  }

  lemma ChangeKeeps<Id>(p: Poller<Id>, id: Id, events: Interest)
    requires Consistent(p) && id in p.chans && (p.chans[id].index == New ==> p.chans[id].fd !in p.channels)
    ensures Consistent(Change(p, id, events))
  {
    var q := Change(p, id, events);
    assert Agrees(p, id);
    forall x | x in q.chans ensures Agrees(q, x) {
      assert Agrees(p, x);
    }
  }

  /** The same for remove(): erasing by descriptor takes the caller's own entry, or nothing. */
  lemma RemoveConsistentIff<Id>(p: Poller<Id>, id: Id)
    requires Consistent(p) && id in p.chans
    ensures Consistent(RemoveChannel(p, id)) <==> (p.chans[id].index == New ==> OwnDescriptor(p, id))
    ensures p.chans[id].index != New ==> p.chans[id].fd in p.channels && p.channels[p.chans[id].fd] == id
  {
    var ch := p.chans[id];
    var q := RemoveChannel(p, id);
    assert Agrees(p, id);
    if ch.index == New { UnregisteredDescriptor(p, id); }
    if ch.index == New && ch.fd in p.channels {
      var other := p.channels[ch.fd];
      assert Agrees(p, other) && other != id;
      assert !Agrees(q, other);
    } else {
      forall x | x in q.chans ensures Agrees(q, x) {
        assert Agrees(p, x);
      }
    }
  }

  /** What a call means to the kernel: from then on the descriptor is watched for exactly `events` on
      behalf of id, or no longer watched if a watched one is disabled; no other descriptor is touched. */
  lemma ChangeMeans<Id>(p: Poller<Id>, id: Id, events: Interest)
    requires Consistent(p) && id in p.chans && (p.chans[id].index == New ==> OwnDescriptor(p, id))
    ensures var q, fd := Change(p, id, events), p.chans[id].fd;
      && q.kernel == (if fd in p.kernel && events == NONE_EVENT then p.kernel - {fd}
                      else p.kernel[fd := Entry(events, id)])
      && q.channels == p.channels[fd := id] && q.errors == p.errors
      && q.chans == p.chans[id := q.chans[id]] && q.chans[id].events == events && q.chans[id].fd == fd
  {
    assert Agrees(p, id);
    if p.chans[id].index == New { UnregisteredDescriptor(p, id); }
  }

  /** remove() leaves the descriptor to nobody, in the map and in the kernel, and touches no other. */
  lemma RemoveMeans<Id>(p: Poller<Id>, id: Id)
    requires Consistent(p) && id in p.chans && (p.chans[id].index == New ==> OwnDescriptor(p, id))
    ensures var q, fd := RemoveChannel(p, id), p.chans[id].fd;
      && q.kernel == p.kernel - {fd} && q.channels == p.channels - {fd} && q.errors == p.errors
      && q.chans == p.chans[id := p.chans[id].(index := New)]
  {
    assert Agrees(p, id);
    if p.chans[id].index == New { UnregisteredDescriptor(p, id); }
  }

  lemma CreateConsistent<Id>(p: Poller<Id>, id: Id, fd: int)
    requires Consistent(p) && id !in p.chans
    ensures Consistent(Create(p, id, fd))
  {
    var q := Create(p, id, fd);
    forall x | x in q.chans ensures Agrees(q, x) {
      if x != id { assert Agrees(p, x); }
    }
  }

  /** What any code may do to the channels of one poller. */
  datatype Call<Id> = Construct(id: Id, fd: int) | Interests(id: Id, events: Interest) | Remove(id: Id)

  ghost predicate Legal<Id>(p: Poller<Id>, c: Call<Id>) {
    match c
    case Construct(id, _) => id !in p.chans
    case Interests(id, _) => id in p.chans && (p.chans[id].index == New ==> OwnDescriptor(p, id))
    case Remove(id) => id in p.chans && (p.chans[id].index == New ==> OwnDescriptor(p, id))
  }

  function Perform<Id>(p: Poller<Id>, c: Call<Id>): Poller<Id>
    requires match c
             case Construct(id, _) => id !in p.chans
             case Interests(id, _) => id in p.chans
             case Remove(id) => id in p.chans
  {
    match c
    case Construct(id, fd) => Create(p, id, fd)
    case Interests(id, events) => Change(p, id, events)
    case Remove(id) => RemoveChannel(p, id)
  }

  ghost predicate LegalRun<Id>(p: Poller<Id>, calls: seq<Call<Id>>)
    decreases |calls|
  {
    calls != [] ==> Legal(p, calls[0]) && LegalRun(Perform(p, calls[0]), calls[1..])
  }

  ghost function Run<Id>(p: Poller<Id>, calls: seq<Call<Id>>): Poller<Id>
    requires LegalRun(p, calls)
    decreases |calls|
  {
    if calls == [] then p else Run(Perform(p, calls[0]), calls[1..])
  }

  /** Any sequence of calls over channels with distinct descriptors, disables repeated at will,
      keeps the four views in agreement and meets no EEXIST and no ENOENT. */
  lemma {:induction false} RunConsistent<Id>(p: Poller<Id>, calls: seq<Call<Id>>)
    requires Consistent(p) && LegalRun(p, calls)
    ensures Consistent(Run(p, calls)) && Run(p, calls).errors == 0
    decreases |calls|
  {
    if calls != [] {
      match calls[0] {
        case Construct(id, fd) => CreateConsistent(p, id, fd);
        case Interests(id, events) => ChangeConsistentIff(p, id, events);
        case Remove(id) => RemoveConsistentIff(p, id);
      }
      RunConsistent(Perform(p, calls[0]), calls[1..]);
    }
  }

  /** Two channels on one descriptor: the second registration is refused and takes the map entry. */
  lemma SharedDescriptorRefused()
    ensures var p: Poller<nat> := Poller(map[0 := Chan(5, Interest(true, false), Added), 1 := Chan(5, NONE_EVENT, New)],
                                         map[5 := 0], map[5 := Entry(Interest(true, false), 0)], 0);
            var q := Change(p, 1, Interest(true, false));
            Consistent(p) && q.errors == 1 && q.channels[5] == 1 && !Consistent(q)
  {
  }
}
