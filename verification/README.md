# Cutie session server — a Dafny model

Cutie is a watch-together service: one server holds a single shared session
(the connected users, a queue of YouTube videos, and the curator's last
reported playback position) and pushes every change to the connected clients
through remote callbacks. One client, the curator, drives playback; a
background thread ticks every half second, asks the first curator for its
position and pushes the last known position to every non-curator.

This project models the `Server` class of `src/server.py` as a pure state
machine:

- `Server.State` is the session: `users` (the roster, in connection order),
  `queue` (the video queue, where position is identity) and `sync`
  (`None` for the initial empty dict, otherwise the four fields of the last
  `set_sync_data`).
- Every public operation is a function from a state (and its arguments) to a
  `Step`: the next state and the outbox, the ordered list of
  `(recipient handle, callback)` pairs the operation makes. Operations that
  raise in the source (`add_video` when the lookup fails, `remove_video` and
  `sort_queue` on a bad index) return `Failure` and change nothing.
- The read accessors `get_queue`, `get_users` and `get_sync_data` are the
  projections `Server.GetQueue`, `Server.GetUsers` and `Server.GetSyncData`.
- `Seqs` holds the Python list semantics the server leans on (first match,
  `list.pop`, `list.remove`, the tuple swap, negative index resolution) and
  their laws. `ServerProperties` strings calls into serialized runs
  (`Run`, one call at a time) and proves properties across operations.

Files: `wrappers.dfy` (Option, Result), `seqs.dfy` (module `Seqs`),
`server.dfy` (module `Server`), `properties.dfy` (module `ServerProperties`).

The model follows the code in three places where a reader might expect
otherwise:
- a user's group is any string, and "curator" is the exact string
  `"curator"`; every other group counts as a non-curator;
- indices follow Python: `remove_video(-1)` removes the last item and
  `sort_queue` accepts indices from `-len` to `len - 1`; the callbacks carry
  the index as the caller sent it;
- a failed metadata lookup is not reported to anybody: the call raises
  before the queue is touched, and nothing is sent.

## Model

| member | source | states |
|---|---|---|
| Server.Init | src/server.py:27-30 | the new server has an empty roster, an empty queue and an empty snapshot |
| Server.GetQueue | src/server.py:42-43 | returns the state's queue by value, item for item in queue order |
| Server.GetUsers | src/server.py:45-46 | returns the state's roster by value, user for user in connection order |
| Server.GetSyncData | src/server.py:48-49 | returns nothing while the snapshot dict is empty, otherwise exactly the stored four fields |
| Server.Fanout | src/server.py:65-66 | a callback loop reaches every user once, in roster order: the i-th delivery goes to the i-th user's handle |
| Server.NonCurators | src/server.py:59-60 | the users a `group != 'curator'` loop reaches: no curator, and every non-curator exactly as often as in the roster |
| Server.FirstCurator | src/server.py:53-56 | the position the request loop breaks at: the first curator, or none iff no user is a curator |
| Server.SyncRequest | src/server.py:52-56 | the request phase sends at most one `sync_data_requested`, to the first curator, and none iff there is no curator |
| Server.SyncUsersWithCurator | src/server.py:51-61 | a tick changes no state; it sends the request phase first, then `sync_player(snapshot)` once to every non-curator, and nothing of that phase while the snapshot is empty |
| Server.BroadcastMessage | src/server.py:63-66 | chat leaves roster, queue and snapshot unchanged and reaches every user once, the sender included |
| Server.ConnectUser | src/server.py:70-79 | the new user is appended with earlier users untouched, and all users of the updated roster, the newcomer included, get `user_connected(new user)` in roster order |
| Server.DisconnectUser | src/server.py:83-96 | only the first user with the name is removed, the reported index is its pre-removal position, exactly the remaining users are told; an unknown name changes nothing and sends nothing |
| Server.AddVideo | src/server.py:100-119 | the call succeeds exactly when the lookup does; a failed lookup fails it with `LookupFailed` and the queue untouched; on success the item is appended last, credited to the adder, carries the looked-up id and metadata, and every user gets `video_added(item)` |
| Server.RemoveVideo | src/server.py:123-128 | an index outside `-len..len-1` fails and changes nothing; otherwise exactly the item at the resolved index leaves and every user gets `video_removed(index)` |
| Server.SortQueue | src/server.py:132-138 | exactly the two resolved positions trade items, length and multiset of the queue are kept, only non-curators are told; a bad index fails and changes nothing |
| Server.SetSyncData | src/server.py:142-147 | all four snapshot fields are overwritten, `get_sync_data` then returns exactly them, roster and queue are untouched, nobody is told |
| Seqs.IndexWhere | src/server.py:87-92 | a first-match search: the found position satisfies the test and no earlier one does; nothing is found iff no element satisfies it |
| Seqs.FilterAppend | src/server.py:59-60 | a filtering loop keeps roster order: filtering a concatenation concatenates the filtered parts |
| Seqs.ResolveIndex | src/server.py:125 | Python's index rule: accepted iff `-n <= i < n`, negative indices count from the end |
| Seqs.RemoveAt | src/server.py:125 | `pop`: one element fewer, earlier elements keep their index, later ones move down by one |
| Seqs.RemoveAtMultiset | src/server.py:125 | `pop` takes away exactly one copy of the popped element |
| Seqs.RemoveFirst | src/server.py:89 | `list.remove(x)` deletes the first occurrence of `x` and nothing else: the result is the list with that one position cut out, the rest in order |
| Seqs.RemoveFirstMultiset | src/server.py:89 | `list.remove(x)` takes away exactly one copy of `x` |
| Seqs.Swap | src/server.py:134 | the tuple swap: the two positions trade elements, all others and the length stay |
| Seqs.SwapInvolution | src/server.py:134 | swapping the same positions twice restores the list |
| Seqs.SwapMultiset | src/server.py:134 | a swap neither loses nor duplicates an element |
| ServerProperties.InitialSession | src/server.py:27-30 | the fresh session has no users, an empty queue and an empty snapshot, and its first tick sends nothing |
| ServerProperties.ConnectThenDisconnect | src/server.py:71-96 | connecting under a fresh name and then disconnecting that name restores the session, and the others are told the newcomer's index |
| ServerProperties.DisconnectShiftsLaterUsers | src/server.py:84-96 | after a disconnect at `i`, users before `i` keep their index and users after it move down by one |
| ServerProperties.AddThenRemoveLast | src/server.py:101-128 | adding a video and then removing the last index (as `len` or as `-1`) restores the session |
| ServerProperties.RemoveVideoTakesOneItem | src/server.py:124-125 | for every accepted index, negative ones included, `remove_video(i)` takes exactly the item at the resolved position out of the queue's multiset |
| ServerProperties.SortQueueTwice | src/server.py:133-138 | `sort_queue(a, b)` twice restores the session, and both calls notify the same recipients |
| ServerProperties.SortQueueSameIndex | src/server.py:133-134 | `sort_queue(a, a)` changes nothing |
| ServerProperties.SortQueueSkipsCurators | src/server.py:136-138 | every `queue_sorted` recipient is the handle of a connected non-curator |
| ServerProperties.SetSyncThenTick | src/server.py:48-61 | after `set_sync_data`, `get_sync_data` returns the written fields and the next tick pushes them once to every non-curator |
| ServerProperties.TickWithoutCurator | src/server.py:51-61 | with no curator connected, a tick requests nothing from anyone and pushes a set snapshot to every user in roster order |
| ServerProperties.SnapshotPersists | src/server.py:143-147 | once set, the snapshot stays non-empty under every sequence of calls |
| ServerProperties.QueueItemsPreserved | src/server.py:132-138 | any serialized interleaving of calls other than add and remove keeps the queue's multiset of items |
| ServerProperties.RosterOnlyByConnection | src/server.py:70-98 | calls other than connect and disconnect never change the roster |
| ServerProperties.RosterSize | src/server.py:70-98 | after any run, roster size = starting size + connects − disconnects whose name was in the roster when they arrived |
| ServerProperties.ConnectExtendsNonCurators | src/server.py:76 | connecting appends a new non-curator at the end of the non-curator fan-out, earlier non-curators keep their order; a new curator leaves it unchanged |
| ServerProperties.RunAppend | src/server.py:26-147 | serialized runs compose, and the callbacks of the earlier calls precede those of the later ones |
| ServerProperties.ConnectConnectDisconnectExample | src/server.py:70-98 | A and then B connect and A leaves: the roster is `[B]`, A heard both arrivals, B heard its own arrival and then `user_disconnected(0)` |

## Left out

- The Pyro4 transport (daemon, naming, registration, one-way call semantics,
  remote failures): callbacks are outbox entries, and delivery is not
  modelled. A call that raised is modelled as a `Failure` that changes
  nothing and sends nothing (`ServerProperties.Apply` folds it that way).
- The `run` thread and its 0.5 s sleep loop (src/server.py:32-40): timing
  and interleavings are not modelled; each operation, and each tick, is one
  atomic step, and a run is a serialized sequence of such steps.
- `get_video_id(url)` (from `utils`, which is not part of this model) and
  the gdata YouTube lookup: together they are the `lookup` parameter of
  `Server.AddVideo`, `None` when either raises or when one of the metadata
  attribute reads at src/server.py:111-114 raises (an unrated video has no
  rating, for one); all of these happen before the append at
  src/server.py:116. The url itself is not carried.
- The numeric content of `rating` and `time` (Python floats): carried as
  `real` values and never computed on.
- `print`, logging configuration, socket host binding and `main`.
- Aliasing of the mutable lists returned by the getters: the getters return
  values.
