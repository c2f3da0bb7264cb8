/**
  Properties that relate several server operations: inverses, involutions,
  the tick seen after a snapshot update, and what any serialized sequence of
  calls can and cannot change.
 */
module ServerProperties {
  import opened Wrappers
  import opened Seqs
  import opened Server

  /** One remote call, with the foreign lookup's answer for `add_video`
      already resolved. */
  datatype Call =
    | Connect(name: string, group: string, handle: Handle)
    | Disconnect(name: string)
    | Broadcast(sender: string, message: string)
    | Add(userName: string, lookup: Option<VideoEntry>)
    | Remove(index: int)
    | Sort(initial: int, dropped: int)
    | SetSync(vidId: string, time: Float, state: string, queueIndex: int)
    | Tick

  /** One atomic call. A call that raised leaves the state as it was and
      sends nothing: the one-way remote call swallows the exception. */
  function Apply(s: State, c: Call): Step {
    match c
    case Connect(n, g, h) => ConnectUser(s, n, g, h)
    case Disconnect(n) => DisconnectUser(s, n)
    case Broadcast(n, m) => BroadcastMessage(s, n, m)
    case Add(n, l) => Recover(s, AddVideo(s, n, l))
    case Remove(i) => Recover(s, RemoveVideo(s, i))
    case Sort(a, b) => Recover(s, SortQueue(s, a, b))
    case SetSync(v, t, st, q) => SetSyncData(s, v, t, st, q)
    case Tick => SyncUsersWithCurator(s)
  }

  function Recover(s: State, r: Result<Step, Error>): Step {
    match r
    case Success(st) => st
    case Failure(_) => Step(s, [])
  }

  /** A serialized run of calls under the transition `next`: the final
      state and every callback, in the order they were made. */
  function RunWith(next: (State, Call) -> Step, s: State, calls: seq<Call>): Step
    decreases |calls|
  {
    if |calls| == 0 then Step(s, [])
    else
      var first := next(s, calls[0]);
      var rest := RunWith(next, first.state, calls[1..]);
      Step(rest.state, first.outbox + rest.outbox)
  }

  /** A serialized run of server calls. */
  function Run(s: State, calls: seq<Call>): Step {
    RunWith(Apply, s, calls)
  }

  predicate TouchesQueue(c: Call) {
    c.Add? || c.Remove?
  }

  predicate TouchesRoster(c: Call) {
    c.Connect? || c.Disconnect?
  }

  /** The number of `Connect` calls in a run. */
  function Connects(calls: seq<Call>): nat {
    if |calls| == 0 then 0
    else (if calls[0].Connect? then 1 else 0) + Connects(calls[1..])
  }

  /** `c` is a disconnect whose name is in the roster of `s`. */
  predicate FindsUser(s: State, c: Call) {
    c.Disconnect? && exists j :: 0 <= j < |s.users| && s.users[j].name == c.name
  }

  /** The number of `Disconnect` calls in a run whose name was connected
      when the call arrived. */
  function Departures(s: State, calls: seq<Call>): nat
    decreases |calls|
  {
    if |calls| == 0 then 0
    else
      (if FindsUser(s, calls[0]) then 1 else 0) + Departures(Apply(s, calls[0]).state, calls[1..])
  }

  /** The fresh session: nobody connected, nothing queued, no snapshot, and
      its first tick sends nothing. */
  lemma InitialSession()
    ensures GetUsers(Init()) == [] && GetQueue(Init()) == [] && GetSyncData(Init()).None?
    ensures SyncUsersWithCurator(Init()).outbox == []
  {
  }

  /** Connecting a user under a fresh name and disconnecting that name
      restores the session; the others are told the newcomer's index. */
  lemma ConnectThenDisconnect(s: State, name: string, group: string, handle: Handle)
    requires forall j :: 0 <= j < |s.users| ==> s.users[j].name != name
    ensures DisconnectUser(ConnectUser(s, name, group, handle).state, name).state == s
    ensures DisconnectUser(ConnectUser(s, name, group, handle).state, name).outbox
            == Fanout(s.users, UserDisconnected(|s.users|))
  {
  }

  /** After `disconnect_user` removes position `i`, users before `i` keep
      their index and users after it move down by one. */
  lemma DisconnectShiftsLaterUsers(s: State, name: string, i: int)
    requires IsFirstNamed(s.users, name, i)
    ensures var users := DisconnectUser(s, name).state.users;
            && |users| == |s.users| - 1
            && (forall j :: 0 <= j < i ==> users[j] == s.users[j])
            && (forall j :: i < j < |s.users| ==> users[j - 1] == s.users[j])
  {
  }

  /** Adding a video and then removing the last item (by its index or as
      `-1`) restores the session. */
  lemma AddThenRemoveLast(s: State, userName: string, e: VideoEntry)
    ensures var added := AddVideo(s, userName, Some(e)).value.state;
            && RemoveVideo(added, |s.queue|).Success?
            && RemoveVideo(added, |s.queue|).value.state == s
            && RemoveVideo(added, -1).value.state == s
  {
  }

  /** `remove_video` takes exactly one item out of the queue: the one at the
      resolved index, counting from the end for a negative index. */
  lemma RemoveVideoTakesOneItem(s: State, index: int)
    requires -|s.queue| <= index < |s.queue|
    ensures var k := if index < 0 then index + |s.queue| else index;
            multiset(RemoveVideo(s, index).value.state.queue) == multiset(s.queue) - multiset{s.queue[k]}
  {
    RemoveAtMultiset(s.queue, ResolveIndex(index, |s.queue|).value);
  }

  /** `sort_queue(a, b)` twice with the same arguments restores the queue;
      the second call notifies the same recipients again. */
  lemma SortQueueTwice(s: State, a: int, b: int)
    requires SortQueue(s, a, b).Success?
    ensures var once := SortQueue(s, a, b).value;
            && SortQueue(once.state, a, b).Success?
            && SortQueue(once.state, a, b).value.state == s
            && SortQueue(once.state, a, b).value.outbox == once.outbox
  {
  }

  /** `sort_queue(a, a)` leaves the queue as it was. */
  lemma SortQueueSameIndex(s: State, a: int)
    requires -|s.queue| <= a < |s.queue|
    ensures SortQueue(s, a, a).value.state == s
  {
  }

  /** `sort_queue` tells no curator: every recipient is a non-curator's
      handle, and with no non-curators connected nobody is told. */
  lemma SortQueueSkipsCurators(s: State, a: int, b: int)
    requires SortQueue(s, a, b).Success?
    ensures var out := SortQueue(s, a, b).value.outbox;
            && (forall k :: 0 <= k < |out| ==>
                  exists u :: u in s.users && !IsCurator(u) && out[k].to == u.handle)
            && ((forall j :: 0 <= j < |s.users| ==> IsCurator(s.users[j])) ==> out == [])
  {
  }

  /** After `set_sync_data`, `get_sync_data` returns exactly the written
      fields and the next tick pushes them once to every non-curator. */
  lemma SetSyncThenTick(s: State, vidId: string, time: Float, state: string, queueIndex: int)
    ensures var t := SetSyncData(s, vidId, time, state, queueIndex).state;
            var out := SyncUsersWithCurator(t).outbox;
            && GetSyncData(t) == Some(SyncData(vidId, time, state, queueIndex))
            && out[|SyncRequest(s.users)|..]
               == Fanout(NonCurators(s.users), SyncPlayer(SyncData(vidId, time, state, queueIndex)))
  {
  }

  /** With no curator connected, a tick requests nothing from anyone, and
      a set snapshot is pushed to every user in roster order. */
  lemma TickWithoutCurator(s: State)
    requires forall i :: 0 <= i < |s.users| ==> !IsCurator(s.users[i])
    ensures forall k :: 0 <= k < |SyncUsersWithCurator(s).outbox| ==>
              !SyncUsersWithCurator(s).outbox[k].note.SyncDataRequested?
    ensures s.sync.Some? ==> SyncUsersWithCurator(s).outbox == Fanout(s.users, SyncPlayer(s.sync.value))
  {
    FilterKeepsAll(s.users, IsNonCurator);
    assert SyncRequest(s.users) == [];
  }

  /** Once a snapshot exists, no sequence of calls makes it empty again. */
  lemma {:induction false} SnapshotPersists(s: State, calls: seq<Call>)
    requires s.sync.Some?
    ensures Run(s, calls).state.sync.Some?
    decreases |calls|
  {
    if |calls| > 0 {
      SnapshotPersists(Apply(s, calls[0]).state, calls[1..]);
    }
  }

  /** Any serialized interleaving of calls that neither add nor remove
      videos (connects, disconnects, sorts, chat, ticks, snapshot updates)
      keeps the queue's items: none lost, none duplicated. */
  lemma {:induction false} QueueItemsPreserved(s: State, calls: seq<Call>)
    requires forall k :: 0 <= k < |calls| ==> !TouchesQueue(calls[k])
    ensures multiset(Run(s, calls).state.queue) == multiset(s.queue)
    decreases |calls|
  {
    if |calls| > 0 {
      var next := Apply(s, calls[0]).state;
      assert multiset(next.queue) == multiset(s.queue);
      QueueItemsPreserved(next, calls[1..]);
    }
  }

  /** Calls other than connect and disconnect never change the roster. */
  lemma {:induction false} RosterOnlyByConnection(s: State, calls: seq<Call>)
    requires forall k :: 0 <= k < |calls| ==> !TouchesRoster(calls[k])
    ensures Run(s, calls).state.users == s.users
    decreases |calls|
  {
    if |calls| > 0 {
      RosterOnlyByConnection(Apply(s, calls[0]).state, calls[1..]);
    }
  }

  /** One call changes the roster size by its connect minus its departure. */
  lemma StepRosterSize(s: State, c: Call)
    ensures |Apply(s, c).state.users| + (if FindsUser(s, c) then 1 else 0)
            == |s.users| + (if c.Connect? then 1 else 0)
  {
    if c.Disconnect? {
      var i := IndexWhere(s.users, (u: User) => u.name == c.name);
      if i.Some? {
        assert IsFirstNamed(s.users, c.name, i.value);
      }
    }
  }

  /** The roster size after any run is the starting size plus the connects
      minus the disconnects that found their user. */
  lemma {:induction false} RosterSize(s: State, calls: seq<Call>)
    ensures |Run(s, calls).state.users| + Departures(s, calls) == |s.users| + Connects(calls)
    decreases |calls|
  {
    if |calls| > 0 {
      StepRosterSize(s, calls[0]);
      RosterSize(Apply(s, calls[0]).state, calls[1..]);
    }
  }

  /** Connecting a user extends the non-curator fan-out at its end: a new
      non-curator is the last to receive `queue_sorted` and `sync_player`,
      after the earlier non-curators in their old order; a new curator
      leaves it as it was. */
  lemma ConnectExtendsNonCurators(s: State, name: string, group: string, handle: Handle)
    ensures NonCurators(ConnectUser(s, name, group, handle).state.users)
            == NonCurators(s.users) + (if group == CuratorGroup then [] else [User(name, group, handle)])
  {
    var u := User(name, group, handle);
    FilterAppend(s.users, [u], IsNonCurator);
    assert Filter([u], IsNonCurator) == if IsNonCurator(u) then [u] else [] by {
      assert [u][1..] == [];
    }
  }

  /** A run of one call is that call. */
  lemma RunOne(s: State, c: Call)
    ensures Run(s, [c]) == Apply(s, c)
  {
    assert [c][1..] == [];
    assert Run(Apply(s, c).state, []) == Step(Apply(s, c).state, []);
  }

  /** Running `a` and then `b` is running `a + b`: the calls compose and the
      callbacks of `a` all precede those of `b`, whatever the transition. */
  lemma {:induction false} RunWithAppend(next: (State, Call) -> Step, s: State, a: seq<Call>, b: seq<Call>)
    ensures RunWith(next, s, a + b).state == RunWith(next, RunWith(next, s, a).state, b).state
    ensures RunWith(next, s, a + b).outbox
            == RunWith(next, s, a).outbox + RunWith(next, RunWith(next, s, a).state, b).outbox
    decreases |a|
  {
    if |a| == 0 {
      assert a + b == b;
    } else {
      var first := next(s, a[0]);
      var mid := RunWith(next, first.state, a[1..]);
      var last := RunWith(next, mid.state, b);
      assert (a + b)[0] == a[0];
      assert (a + b)[1..] == a[1..] + b;
      RunWithAppend(next, first.state, a[1..], b);
      assert first.outbox + (mid.outbox + last.outbox) == (first.outbox + mid.outbox) + last.outbox;
    }
  }

  /** Server runs compose. */
  lemma RunAppend(s: State, a: seq<Call>, b: seq<Call>)
    ensures Run(s, a + b).state == Run(Run(s, a).state, b).state
    ensures Run(s, a + b).outbox == Run(s, a).outbox + Run(Run(s, a).state, b).outbox
  {
    RunWithAppend(Apply, s, a, b);
  }

  /** Step one of the example run: the first user connects to the empty
      session and hears its own arrival. */
  lemma ExampleFirstConnect(na: string, ga: string, ha: Handle)
    ensures Apply(Init(), Connect(na, ga, ha))
            == Step(State([User(na, ga, ha)], [], None), [Delivery(ha, UserConnected(User(na, ga, ha)))])
  {
  }

  /** Step two of the example run: the second user joins and both users
      hear its arrival, in roster order. */
  lemma ExampleSecondConnect(a: User, nb: string, gb: string, hb: Handle)
    ensures var b := User(nb, gb, hb);
            Apply(State([a], [], None), Connect(nb, gb, hb))
            == Step(State([a, b], [], None), [Delivery(a.handle, UserConnected(b)), Delivery(hb, UserConnected(b))])
  {
  }

  /** Step three of the example run: the first user leaves and the
      remaining one hears `user_disconnected(0)`. */
  lemma ExampleDisconnect(a: User, b: User)
    requires a.name != b.name
    ensures Apply(State([a, b], [], None), Disconnect(a.name))
            == Step(State([b], [], None), [Delivery(b.handle, UserDisconnected(0))])
  {
  }

  /** The example run: A (say, a curator) and then B connect, then A
      leaves. The roster is `[B]`; A heard both arrivals, B heard its own
      arrival and then `user_disconnected(0)`. */
  lemma ConnectConnectDisconnectExample(na: string, ga: string, ha: Handle, nb: string, gb: string, hb: Handle)
    requires na != nb
    ensures var a := User(na, ga, ha);
            var b := User(nb, gb, hb);
            var r := Run(Init(), [Connect(na, ga, ha), Connect(nb, gb, hb), Disconnect(na)]);
            && r.state.users == [b]
            && r.outbox == [Delivery(ha, UserConnected(a)),
                            Delivery(ha, UserConnected(b)), Delivery(hb, UserConnected(b)),
                            Delivery(hb, UserDisconnected(0))]
  {
    var a := User(na, ga, ha);
    var b := User(nb, gb, hb);
    var c0, c1, c2 := Connect(na, ga, ha), Connect(nb, gb, hb), Disconnect(na);
    ExampleFirstConnect(na, ga, ha);
    ExampleSecondConnect(a, nb, gb, hb);
    ExampleDisconnect(a, b);
    RunOne(Init(), c0);
    RunOne(State([a], [], None), c1);
    RunOne(State([a, b], [], None), c2);
    RunAppend(Init(), [c0], [c1]);
    RunAppend(Init(), [c0, c1], [c2]);
    assert [c0] + [c1] == [c0, c1];
    assert [c0, c1] + [c2] == [c0, c1, c2];
  }
}
