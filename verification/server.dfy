/**
  The in-memory session of the Cutie watch-together server: a roster of
  connected users, a shared video queue and the curator's last reported
  playback snapshot.

  Every public operation of the server is a pure transition from a state to
  a `Step`: the next state plus the outbox of callbacks the operation fans
  out, in the order it makes them. Each operation is one atomic step; the
  remote transport that delivers the outbox is not modelled.
 */
module Server {
  import opened Wrappers
  import opened Seqs

  /** A client's callback proxy, identified by its remote URI. */
  datatype Handle = Handle(uri: string)

  /** Python floats (`rating`, `time`) are carried, never computed on. */
  type Float = real

  /** The group name that marks the user who drives playback. */
  const CuratorGroup: string := "curator"

  /** One roster entry: the `{name, group, callback_handler}` dict. */
  datatype User = User(name: string, group: string, handle: Handle)

  /** One queue entry: the `qi` dict built by `add_video`. */
  datatype QueueItem = QueueItem(
    vidId: string,
    title: string,
    views: int,
    rating: Float,
    duration: int,
    addedBy: string)

  /** The four fields `set_sync_data` writes. */
  datatype SyncData = SyncData(vidId: string, time: Float, state: string, queueIndex: int)

  /** What the foreign video-id parser and metadata service return for a
      url when they succeed. */
  datatype VideoEntry = VideoEntry(
    vidId: string,
    title: string,
    views: int,
    rating: Float,
    duration: int)

  /** The whole session. `sync == None` stands for the empty `{}` dict. */
  datatype State = State(users: seq<User>, queue: seq<QueueItem>, sync: Option<SyncData>)

  /** The client callbacks the server invokes. */
  datatype Notification =
    | UserConnected(user: User)
    | UserDisconnected(index: int)
    | MessageReceived(sender: string, message: string)
    | VideoAdded(item: QueueItem)
    | VideoRemoved(index: int)
    | QueueSorted(initial: int, dropped: int)
    | SyncPlayer(data: SyncData)
    | SyncDataRequested

  /** One callback invocation: recipient and payload. */
  datatype Delivery = Delivery(to: Handle, note: Notification)

  /** The result of one operation. */
  datatype Step = Step(state: State, outbox: seq<Delivery>)

  /** Why an operation raised before mutating anything. */
  datatype Error =
    | LookupFailed      // the video id could not be parsed or its metadata fetched
    | IndexOutOfRange   // `pop` or the swap hit an index outside the queue

  predicate IsCurator(u: User) {
    u.group == CuratorGroup
  }

  predicate IsNonCurator(u: User) {
    u.group != CuratorGroup
  }

  /** `i` is the position the tick's first loop stops at. */
  ghost predicate IsFirstCurator(users: seq<User>, i: int) {
    0 <= i < |users| && IsCurator(users[i])
    && forall j :: 0 <= j < i ==> !IsCurator(users[j])
  }

  /** `i` is the position `disconnect_user(name)`'s loop stops at. */
  ghost predicate IsFirstNamed(users: seq<User>, name: string, i: int) {
    0 <= i < |users| && users[i].name == name
    && forall j :: 0 <= j < i ==> users[j].name != name
  }

  /** `get_queue`: the queue as a value, in queue order. */
  function GetQueue(s: State): (r: seq<QueueItem>)
    ensures |r| == |s.queue| && forall i :: 0 <= i < |r| ==> r[i] == s.queue[i]
  {
    s.queue
  }

  /** `get_users`: the roster as a value, in connection order. */
  function GetUsers(s: State): (r: seq<User>)
    ensures |r| == |s.users| && forall i :: 0 <= i < |r| ==> r[i] == s.users[i]
  {
    s.users
  }

  /** `get_sync_data`: `None` while the dict is still empty, otherwise the
      four fields last written. */
  function GetSyncData(s: State): (r: Option<SyncData>)
    ensures r.None? <==> s.sync.None?
    ensures r.Some? ==> r.value == s.sync.value
  {
    s.sync
  }

  /** The initial session of `Server.__init__`: nobody connected, nothing
      queued, and the snapshot still empty. */
  function Init(): (s: State)
    ensures GetUsers(s) == [] && GetQueue(s) == [] && GetSyncData(s).None?
  {
    State([], [], None)
  }

  /** A loop `for user in users: user.callback_handler.<n>`: one delivery per
      user, in roster order. */
  function Fanout(users: seq<User>, n: Notification): (out: seq<Delivery>)
    ensures |out| == |users|
    ensures forall i :: 0 <= i < |users| ==> out[i] == Delivery(users[i].handle, n)
  {
    if |users| == 0 then []
    else [Delivery(users[0].handle, n)] + Fanout(users[1..], n)
  }

  /** The users a `group != 'curator'` loop reaches, in roster order. */
  function NonCurators(users: seq<User>): (r: seq<User>)
    ensures forall k :: 0 <= k < |r| ==> !IsCurator(r[k])
    ensures forall u :: multiset(r)[u] == if IsCurator(u) then 0 else multiset(users)[u]
  {
    Filter(users, IsNonCurator)
  }

  /** The first curator in roster order, where the tick's first loop breaks. */
  function FirstCurator(users: seq<User>): (r: Option<nat>)
    ensures r.None? <==> forall i :: 0 <= i < |users| ==> !IsCurator(users[i])
    ensures r.Some? ==> IsFirstCurator(users, r.value)
  {
    IndexWhere(users, IsCurator)
  }

  /** Phase one of a tick: ask the first curator, and nobody else, for its
      playback position. */
  function SyncRequest(users: seq<User>): (out: seq<Delivery>)
    ensures |out| <= 1
    ensures |out| == 0 <==> forall i :: 0 <= i < |users| ==> !IsCurator(users[i])
    ensures forall i :: IsFirstCurator(users, i) ==> out == [Delivery(users[i].handle, SyncDataRequested)]
  {
    match FirstCurator(users)
    case None => []
    case Some(i) => [Delivery(users[i].handle, SyncDataRequested)]
  }

  /** `sync_users_with_curator`, one tick of the background thread: the
      first curator is asked for its position, then the current snapshot is
      pushed to every non-curator, but only once a snapshot has been set.
      The state is left unchanged. */
  function SyncUsersWithCurator(s: State): (r: Step)
    ensures r.state == s
    ensures |r.outbox| == |SyncRequest(s.users)| + (if s.sync.Some? then |NonCurators(s.users)| else 0)
    ensures r.outbox[..|SyncRequest(s.users)|] == SyncRequest(s.users)
    ensures s.sync.None? ==> r.outbox == SyncRequest(s.users)
    ensures s.sync.Some? ==>
              r.outbox[|SyncRequest(s.users)|..] == Fanout(NonCurators(s.users), SyncPlayer(s.sync.value))
  {
    var request := SyncRequest(s.users);
    var push := match s.sync
      case None => []
      case Some(d) => Fanout(NonCurators(s.users), SyncPlayer(d));
    assert (request + push)[..|request|] == request;
    assert (request + push)[|request|..] == push;
    Step(s, request + push)
  }

  /** `broadcast_message`: every connected user, the sender included, gets
      the message once; nothing in the session changes. */
  function BroadcastMessage(s: State, name: string, message: string): (r: Step)
    ensures r.state == s
    ensures |r.outbox| == |s.users|
    ensures forall i :: 0 <= i < |s.users| ==>
              r.outbox[i] == Delivery(s.users[i].handle, MessageReceived(name, message))
  {
    Step(s, Fanout(s.users, MessageReceived(name, message)))
  }

  /** `connect_user`: the new user is appended and then announced to the
      whole updated roster, itself included. */
  function ConnectUser(s: State, name: string, group: string, handle: Handle): (r: Step)
    ensures |r.state.users| == |s.users| + 1
    ensures r.state.users[..|s.users|] == s.users
    ensures r.state.users[|s.users|] == User(name, group, handle)
    ensures r.state.queue == s.queue && r.state.sync == s.sync
    ensures |r.outbox| == |r.state.users|
    ensures forall i :: 0 <= i < |r.state.users| ==>
              r.outbox[i] == Delivery(r.state.users[i].handle, UserConnected(User(name, group, handle)))
  {
    var u := User(name, group, handle);
    var users := s.users + [u];
    Step(s.(users := users), Fanout(users, UserConnected(u)))
  }

  /** `disconnect_user`: the first user with a matching name is removed with
      `list.remove`, and the remaining users are told its pre-removal index.
      An unknown name changes nothing and notifies nobody. */
  function DisconnectUser(s: State, name: string): (r: Step)
    ensures (forall j :: 0 <= j < |s.users| ==> s.users[j].name != name) ==> r == Step(s, [])
    ensures forall i :: IsFirstNamed(s.users, name, i) ==>
              && r.state == s.(users := s.users[..i] + s.users[i + 1..])
              && |r.outbox| == |s.users| - 1
              && forall k :: 0 <= k < |r.outbox| ==>
                   r.outbox[k] == Delivery(r.state.users[k].handle, UserDisconnected(i))
  {
    match IndexWhere(s.users, (u: User) => u.name == name)
    case None => Step(s, [])
    case Some(i) =>
      assert IsFirstOccurrence(s.users, s.users[i], i);
      var users := RemoveFirst(s.users, s.users[i]);
      Step(s.(users := users), Fanout(users, UserDisconnected(i)))
  }

  /** `add_video`. `lookup` stands for `get_video_id(url)` followed by the
      YouTube metadata fetch; when either fails the call raises before the
      queue is touched. On success the item is appended, credited to
      `userName`, and announced to every user. */
  function AddVideo(s: State, userName: string, lookup: Option<VideoEntry>): (r: Result<Step, Error>)
    ensures r.Success? <==> lookup.Some?
    ensures r.Failure? ==> r.error == LookupFailed
    ensures r.Success? ==>
              var q := r.value.state.queue;
              var e := lookup.value;
              && r.value.state.users == s.users && r.value.state.sync == s.sync
              && |q| == |s.queue| + 1 && q[..|s.queue|] == s.queue
              && q[|s.queue|].vidId == e.vidId && q[|s.queue|].addedBy == userName
              && q[|s.queue|].title == e.title && q[|s.queue|].views == e.views
              && q[|s.queue|].rating == e.rating && q[|s.queue|].duration == e.duration
              && |r.value.outbox| == |s.users|
              && forall i :: 0 <= i < |s.users| ==>
                   r.value.outbox[i] == Delivery(s.users[i].handle, VideoAdded(q[|s.queue|]))
  {
    match lookup
    case None => Failure(LookupFailed)
    case Some(e) =>
      var item := QueueItem(e.vidId, e.title, e.views, e.rating, e.duration, userName);
      Success(Step(s.(queue := s.queue + [item]), Fanout(s.users, VideoAdded(item))))
  }

  /** `remove_video`: `queue.pop(index)` (Python index rules, so `-1` is the
      last item), then every user is told the index exactly as given. An
      index outside the queue raises before anything changes. */
  function RemoveVideo(s: State, index: int): (r: Result<Step, Error>)
    ensures r.Failure? <==> !(-|s.queue| <= index < |s.queue|)
    ensures r.Failure? ==> r.error == IndexOutOfRange
    ensures r.Success? ==>
              var k := if index < 0 then index + |s.queue| else index;
              && 0 <= k < |s.queue|
              && r.value.state.users == s.users && r.value.state.sync == s.sync
              && r.value.state.queue == s.queue[..k] + s.queue[k + 1..]
              && |r.value.outbox| == |s.users|
              && forall i :: 0 <= i < |s.users| ==>
                   r.value.outbox[i] == Delivery(s.users[i].handle, VideoRemoved(index))
  {
    match ResolveIndex(index, |s.queue|)
    case None => Failure(IndexOutOfRange)
    case Some(k) =>
      Success(Step(s.(queue := RemoveAt(s.queue, k)), Fanout(s.users, VideoRemoved(index))))
  }

  /** `sort_queue`: the items at `initial` and `dropped` trade places, and
      only the non-curators (the curator made the move) are told. Either
      index outside the queue raises before anything changes. */
  function SortQueue(s: State, initial: int, dropped: int): (r: Result<Step, Error>)
    ensures r.Failure? <==> !(-|s.queue| <= initial < |s.queue| && -|s.queue| <= dropped < |s.queue|)
    ensures r.Failure? ==> r.error == IndexOutOfRange
    ensures r.Success? ==>
              var a := if initial < 0 then initial + |s.queue| else initial;
              var b := if dropped < 0 then dropped + |s.queue| else dropped;
              && 0 <= a < |s.queue| && 0 <= b < |s.queue|
              && r.value.state.users == s.users && r.value.state.sync == s.sync
              && |r.value.state.queue| == |s.queue|
              && r.value.state.queue[a] == s.queue[b] && r.value.state.queue[b] == s.queue[a]
              && (forall k :: 0 <= k < |s.queue| && k != a && k != b ==> r.value.state.queue[k] == s.queue[k])
              && multiset(r.value.state.queue) == multiset(s.queue)
              && r.value.outbox == Fanout(NonCurators(s.users), QueueSorted(initial, dropped))
  {
    match (ResolveIndex(initial, |s.queue|), ResolveIndex(dropped, |s.queue|))
    case (Some(a), Some(b)) =>
      SwapMultiset(s.queue, a, b);
      Success(Step(s.(queue := Swap(s.queue, a, b)), Fanout(NonCurators(s.users), QueueSorted(initial, dropped))))
    case _ => Failure(IndexOutOfRange)
  }

  /** `set_sync_data`: all four fields are overwritten at once; nobody is
      notified (the next tick pushes the snapshot). */
  function SetSyncData(s: State, vidId: string, time: Float, state: string, queueIndex: int): (r: Step)
    ensures r.state.users == s.users && r.state.queue == s.queue
    ensures GetSyncData(r.state) == Some(SyncData(vidId, time, state, queueIndex))
    ensures r.outbox == []
  {
    Step(s.(sync := Some(SyncData(vidId, time, state, queueIndex))), [])
  }
}
