# Client registry, acceptor and scheduler of the esound daemon, in Dafny

This project models `clients.c` of the esound sound daemon, in three modules that follow its parts:

- **Clients** (`clients.dfy`): the client registry. `esd_clients_list` is a singly linked list with the newest client at the head. Here it is a `Registry` class that holds a `seq<Client>`, head first, plus a log of the descriptors passed to `close()`. A record's identity is a `Handle`, which stands for the pointer that `erase_client` compares. `add_new_client` is `Registry.Add`. `erase_client` is `Registry.Erase`: a loop that scans from the head and splices out the node. The function `Remove` specifies it, and lemmas prove the list-surgery facts about it.
- **Acceptor** (`acceptor.dfy`): `get_new_clients`, the `do … while (fd > 0)` loop that drains the listening socket's backlog. Each `accept()` call is a `Pending` input carrying:
  - the descriptor (negative when nothing is waiting);
  - the peer;
  - the access-control verdict;
  - whether `malloc` succeeds;
  - whether `ioctl(FIONBIO)` succeeds.

  `GetNewClients` is tied to the function `Drain`. Drain is then described independently, by the fate of each accept result: admitted, refused, or a failed setup. That description gives the return value, the records linked (newest first), the descriptors closed, and how far the drain gets.
- **Scheduler** (`scheduler.dfy`): one turn of the `while (1)` loop of `esd_comm_loop`, as the method `Loop.Iterate` of a class that holds:
  - `is_paused_here`, `first`, `max_fd` and `length`;
  - the globals `esd_last_activity`, `esd_on_standby` and `esd_on_autostandby`;
  - the registry.

  Its parts are:
  - the readiness-set loop (`BuildReadiness`);
  - the timeout rule chain (`WaitTimeout`, a pure function);
  - the terminate test (`ShouldExit`);
  - the handling of a failed wait and of a wait where nothing was ready (`React`, `Idle`);
  - the gated dispatch (`Dispatch`, `Play` = `Wake` + `Filter` + `Output`, then `Record`).

  The results of everything the loop calls outside `clients.c` are fields of the iteration's `Tick` input. The calls themselves are recorded, in order, as `Event`s: select, the audio device, the request parser, the mixer, the filters, the monitor and recorder writes, standby, resume, the reconnect sleep and the exit. Three kinds of call are handled differently:
  - `time()` is not an event; the iteration's clock reading `now` is an input.
  - Inside the acceptor, the `accept`, `hosts_access`, `malloc` and `ioctl` calls are not events. Their outcomes are the `Pending` inputs, and only the acceptor's return value appears, as `Accept(result)`.
  - `close()` is not an event either. The descriptors it closes are appended to the registry's close log, `Registry.closed`.

  Each stage's method states its effect as a relation between a snapshot of the loop and registry before and after the call (`LoopState`), and the calls it made: `WakeStep`, `FilterStep`, `OutputStep`, `PlayStep`, `RecordStep`, `ServeStep`, `DispatchStep`, `IdleStep`, `Prepared`, `Reacted` and `Turned`.
  - Every stage gives its whole new state through a function of the old one: `AfterQuiet`, `AfterPlay`, `AfterRecord`, `AfterAccept`, `AfterServe`, `AfterDispatch`, and `ReactState` for a whole reaction.
  - Every stage gives its exact call list through a function: `QuietEvents`, `WakeEvents`, `OutputEvents`, `PlayEvents`, `RecordEvents`, `ServeEvents`, `DispatchEvents`, and `ReactEvents` for a whole reaction.
  - Lemmas say which calls each list holds. Each is stated as an if-and-only-if against the guard in the code: `QuietCalls`, `PlayCalls`, `ServePlays`, `ServeReads`, `DispatchAccepts`, `DispatchPlays`, `DispatchReads`, `DispatchPolls`, `ReactAccepts`, `ReactQuiets`, `ReactReads` and `ReactPlays`.
  - Lemmas prove that the stages compose: `PlayComposes`, `ServeComposes`, `AcceptComposes`, `FailureReacts`, `IdleReacts`, `DispatchReacts` and `TurnComposes`.

  So `Iterate`'s contract gives the state after the turn and every call it made. The next turn's terminate test can be decided from that state (`TurnEndsFirst`, `IdleTurnKeeps`, `ExitsOnceEmpty`).

Points where the model follows the code exactly:
- `write_wait` is never set in the file. It is the constant `WriteWait := false`, so the "device write outstanding" branches are dead.
- `max_fd` is set to the listening socket once, when the loop starts, and only grows after that.
- When paused with autostandby on, the timeout is `last + secs + 1 - now` seconds. If that value is outside `[0, secs + 1]` it becomes 0. A clamp to `[0, secs + 1]` would wait `secs + 1` seconds after the clock went back; the code waits 0 (`BackwardClockWakesAtOnce`).
- The pacing timeout is `(frame * 1000 / rate + 1) * 1000` µs: integer division plus one. When `rate` divides `frame * 1000`, this is one millisecond more than the ceiling of the frame time (`PacingIsNotCeiling`).
- `monitor_write` sits inside the `length > 0 && !write_wait` block (the brace at clients.c:423), even though its indentation suggests otherwise.
- An accepted descriptor 0 ends the drain after its client is linked. A refusal `continue`s to the loop test, so a refused descriptor 0 also ends the drain.

## Model

| member | source | states |
|---|---|---|
| `Clients.Position` | clients.c:103-130 | the scan from the head stops at a record with the wanted identity, and no earlier record has it |
| `Clients.Remove` | clients.c:100-134 | the list loses exactly one record if the identity is linked and none otherwise; it gains no identity |
| `Clients.ClosedBy` | clients.c:118-124 | erase closes one descriptor exactly when the identity is linked, and none otherwise |
| `Clients.RemoveSplices` | clients.c:106-125 | removing the record at position k, head or middle, leaves the records before and after it in their original order |
| `Clients.RemoveAbsent` | clients.c:127-134 | erasing a client that is not linked leaves the list unchanged |
| `Clients.RemoveKeepsOthers` | clients.c:103-125 | a record whose identity differs from the erased one stays linked |
| `Clients.RemoveDrops` | clients.c:110-125 | with unique identities, the erased identity is no longer linked |
| `Clients.PositionAt` | clients.c:106-110 | the scan stops at the first record with the identity: if position k holds it and no earlier record does, `Position` is k |
| `Clients.UnlinkAt` | clients.c:103-125 | when the scan stops at position k, that is the first record with the identity; unlinking it gives `Remove`, closes exactly its descriptor, and keeps identities unique |
| `Clients.RemoveExactly` | clients.c:100-134 | with unique identities, erase removes only that identity, keeps every other record, and identities stay unique |
| `Clients.RemoveKeepsFdsUnique` | clients.c:100-134 | erasing never makes two linked records share a descriptor |
| `Clients.Registry.Add` | clients.c:90-96 | the new record is the head, the rest is the old list unchanged, and erasing it gives back the old list |
| `Clients.Registry.Close` | clients.c:121 | `close(fd)` appends fd to the close log and leaves the list alone; the acceptor's closes at clients.c:202, 213 and 226 go through it too |
| `Clients.Registry.Erase` | clients.c:100-135 | the list becomes `Remove(old, id)`, which is the splice at the found position; the found record's descriptor is closed once; an absent client changes nothing |
| `Acceptor.FreshId` | clients.c:211 | the allocated record's identity differs from every linked one |
| `Acceptor.NewClient` | clients.c:235-245 | the record for an accepted connection carries its identity, descriptor and peer, and for a valid descriptor it needs request data, serves a connect request and has no pending header bytes |
| `Acceptor.Drain` | clients.c:154-253 | the accept loop over the remaining accept results, from the registry and close log so far; the return value is 0 or -1 (its full meaning is given by the lemmas below) |
| `Acceptor.Taken` | clients.c:154-251 | a drain consumes every accept result up to and including the first after which it stops; all earlier ones continue the loop |
| `Acceptor.DrainResult` | clients.c:154-253 | the result is -1 exactly when the last consumed connection failed allocation or the blocking-mode switch, and 0 otherwise |
| `Acceptor.DrainKeepsEarlier` | clients.c:212-229 | clients linked before the call stay linked, in order, behind the new ones, also on the -1 paths; earlier closes stay recorded |
| `Acceptor.DrainAdmits` | clients.c:235-247 | the new records are the admitted connections (descriptor and peer), most recent first, in front of the old list |
| `Acceptor.DrainAdmitsNext` | clients.c:197-247 | the induction step of `DrainAdmits` for a result after which the drain goes on: an admitted connection is linked at the head, a refused one adds nothing |
| `Acceptor.DrainAdmitsLast` | clients.c:172-251 | the base case of `DrainAdmits`: the result that ends the drain adds its record only when it is admitted |
| `Acceptor.AdmitStep` | clients.c:235-247 | linking an admitted connection at the head puts it last in the reversed admissions |
| `Acceptor.DrainCloses` | clients.c:197-229 | the descriptors closed are exactly those of refused and failed connections, in accept order |
| `Acceptor.DrainInitialises` | clients.c:235-247 | every added record is in state needs-request-data with request connect, zero pending header bytes and a valid descriptor; identities stay unique |
| `Acceptor.DrainKeepsFdsUnique` | clients.c:172-247 | if accept never returns an open descriptor, no two linked records share one |
| `Acceptor.GetNewClients` | clients.c:140-254 | the accept loop's return value, registry and close log are those `Drain` gives |
| `Scheduler.BuildReadiness` | clients.c:269-295 | the set holds the listen socket, every non-monitor client's descriptor, and nothing else (so with unique descriptors no monitor's); max_fd never decreases, bounds every descriptor in the set (the listening socket's too, when max_fd started at least there, as it does from the loop's start), and is attained |
| `Scheduler.WaitTimeout` | clients.c:297-330 | zero wait when recording or playing; no timeout exactly when paused with autostandby off or in standby; never negative; otherwise the autostandby deadline (0 when out of range) or the first whole millisecond after one mix frame |
| `Scheduler.StereoAt44100` | clients.c:314-324 | stereo at 44100 Hz with nothing else active waits 1000 µs |
| `Scheduler.PacingIsNotCeiling` | clients.c:321-323 | mono at 1000 Hz waits 2000 µs: integer division plus one, not a ceiling |
| `Scheduler.OverdueDeadline` | clients.c:307-312 | threshold 5, last activity T, now T+7: the wait is 0, not -1 |
| `Scheduler.BackwardClockWakesAtOnce` | clients.c:308-310 | a raw wait above secs+1 is replaced by 0 |
| `Scheduler.ShouldExit` | clients.c:280-284 | the terminate test: no client linked, past the first request poll, terminate mode, and autostandby off or on autostandby |
| `Scheduler.ExitsOnceEmpty` | clients.c:280-284 | the terminate test (`ShouldExit`: no clients, past the first request poll, terminate mode, autostandby off or on autostandby) fires after a turn that polled with no client linked and the listening socket not ready, in terminate mode with autostandby off |
| `Scheduler.TurnEndsFirst` | clients.c:369-376 | a turn runs the request poll exactly when it dispatches and something was ready or samples are playing; after such a turn the loop is no longer first, and after any other turn first is unchanged |
| `Scheduler.IdleTurnKeeps` | clients.c:349-366 | after an idle turn the buffer length, first and the registry are unchanged, the loop is paused, and the standby flag is `esd_server_standby`'s result exactly when autostandby is on and the inactivity threshold has passed |
| `Scheduler.ReconnectEvents` | clients.c:272-278 | calls are made exactly when a reconnect is pending; then the device is closed first, the 100 µs sleep is the only call between, and the reopen with its reported outcome comes last |
| `Scheduler.GatedPrefix` | clients.c:267-434 | calls that are not device I/O, a request poll or a resume (reconnect, exit, select) do not break the dispatch gating |
| `Scheduler.Resumes` | clients.c:383 | a resume is attempted exactly when on autostandby, the mix produced sound and standby was not forced |
| `Scheduler.WakeEvents` | clients.c:373-388 | the request poll comes first; no device I/O; a resume with the reported outcome exactly when `Resumes` holds: on autostandby, a nonzero mix length and standby not forced (clients.c:383) |
| `Scheduler.OutputEvents` | clients.c:397-423 | nothing in standby or for an empty buffer; otherwise a device write of the length, and a monitor write of it exactly when someone monitors |
| `Scheduler.AfterQuiet` | clients.c:349-362 | after a wait with nothing ready, only the pause flag, last activity and standby flags change; the server is paused exactly when it was already paused or nothing plays or records; pausing stamps last activity with now and an already paused or busy server keeps its stamp; automatic standby is entered exactly when paused, the threshold is armed and now is past last activity plus the threshold, and then the standby flag is the one `esd_server_standby` leaves, otherwise it is kept |
| `Scheduler.AfterPlay` | clients.c:373-424 | the playback path changes only first (to false), the buffer length, last activity and the standby flags |
| `Scheduler.AfterRecord` | clients.c:426-433 | without a recorder, or in standby, nothing changes; otherwise the buffer length is what the recorders report when the device read returned data and 0 when it returned none; last activity is stamped with now exactly when the read returned data |
| `Scheduler.AfterAccept` | clients.c:369-371 | the acceptor changes only the registry and the close log, and nothing when the listening socket is not ready |
| `Scheduler.AfterServe` | clients.c:373-433 | after the parser, playback and recorder paths the loop is no longer first exactly when it polled; without a poll the standby flags are kept; the registry, pause flag and max_fd are untouched |
| `Scheduler.AfterDispatch` | clients.c:369-433 | the dispatch keeps the pause flag and max_fd; the registry and close log are the drain's exactly when the listening socket was ready; first becomes false exactly when something was ready or samples play |
| `Scheduler.QuietCalls` | clients.c:349-362 | after a wait with nothing ready: the device is flushed exactly when the server pauses (not paused, nothing playing or recording), and that is the first call; it is paused exactly when the server pauses and this is not the first iteration; `esd_server_standby` is called exactly when the paused server is past the inactivity threshold with autostandby armed, and that is the last call; nothing else is called |
| `Scheduler.PlayCalls` | clients.c:373-423 | the playback path polls first; resumes, with the reported outcome, exactly when `Resumes` holds; runs the filters on the mix exactly when filters exist and the server is not left in standby; writes the device exactly when the final length is positive and not in standby; writes the monitors exactly when also someone monitors |
| `Scheduler.PlayKinds` | clients.c:373-423 | every playback call is a poll, mix, resume, sleep, filter, device write or monitor write; the writes carry the final length and the filter call the mix's; in standby there is no filter, device or monitor I/O |
| `Scheduler.RecordEvents` | clients.c:426-433 | the device is read exactly when a recorder exists and the server is not in standby; the recorders are written exactly when, in addition, the read returned data, and with that length; nothing else is called |
| `Scheduler.ServePlays` | clients.c:373-423 | after the acceptor: a resume exactly when polled and `Resumes` holds; the filter call, the device write and the monitor write exactly when polled, their own guards hold and the server is not left in standby |
| `Scheduler.ServeReads` | clients.c:426-433 | after the acceptor: the device read exactly when a recorder exists (as the poll left it, when polled) and the server is not in standby; the recorder write exactly when the read also returned data |
| `Scheduler.ServeKinds` | clients.c:373-433 | after the acceptor only playback and recorder calls; a monitor write only of a non-empty buffer with someone monitoring; no filter, device or monitor I/O when the stage ends in standby |
| `Scheduler.ServePolls` | clients.c:373-388 | after the acceptor the request poll runs exactly when polled, and a resume only when polled and `Resumes` holds |
| `Scheduler.DispatchAccepts` | clients.c:369-371 | the dispatch stage calls the acceptor exactly when the listening socket is ready: then it is the first call, with the drain's return value, and otherwise no acceptor call is made |
| `Scheduler.DispatchPlays` | clients.c:373-423 | the dispatch stage resumes exactly when something was ready or samples play and `Resumes` holds; it runs the filters, writes the device and writes the monitors exactly when, in addition, the call's guard holds and the state `AfterDispatch` leaves is not in standby |
| `Scheduler.DispatchReads` | clients.c:426-433 | the dispatch stage reads the device exactly when a recorder exists and the state after it is not in standby, and forwards the data exactly when the read returned some |
| `Scheduler.DispatchKinds` | clients.c:369-433 | the dispatch stage makes only acceptor, playback and recorder calls; a monitor write only of a non-empty buffer; no filter, device or monitor I/O when it ends in standby |
| `Scheduler.DispatchPolls` | clients.c:373-388 | the dispatch stage polls exactly when something was ready or samples play, and resumes only then and when `Resumes` holds |
| `Scheduler.PlayComposes` | clients.c:373-424 | poll and mix, then the filters, then the output give the playback path: the whole state `AfterPlay` gives, and exactly the calls `PlayEvents` lists, whose content `PlayCalls` and `PlayKinds` state |
| `Scheduler.ServeComposes` | clients.c:373-433 | the playback path when polled, then the recorder path, give the state `AfterServe` gives and exactly the calls `ServeEvents` lists, whose content `ServePlays`, `ServeReads`, `ServeKinds` and `ServePolls` state |
| `Scheduler.AcceptComposes` | clients.c:369-433 | the acceptor's call, made exactly when the listening socket is ready, in front of the rest of the dispatch gives the whole state `AfterDispatch` gives and exactly the calls `DispatchEvents` lists; `DispatchAccepts` states the acceptor's call in both directions |
| `Scheduler.IdleReacts` | clients.c:349-366 | a quiet wait that pauses and skips the dispatch is an idle reaction: its state is `AfterQuiet`'s and its calls are exactly `QuietEvents`' (flush and pause, `esd_server_standby`, as `QuietCalls` states); no request poll; the gating facts hold |
| `Scheduler.FailureReacts` | clients.c:340-347 | a failed wait not treated as ready is retried on EINTR or EAGAIN and exits with status 1 otherwise, changing nothing |
| `Scheduler.DispatchReacts` | clients.c:340-433 | an interrupted wait with no timeout, a wait with something ready, or a quiet wait that does not skip, followed by the dispatch, is a dispatched reaction: its state is `AfterDispatch` of the unpaused state, its calls are exactly the quiet wait's followed by `DispatchEvents`', the request poll runs exactly when something was ready or samples play, and the gating facts hold |
| `Scheduler.ReactAccepts` | clients.c:340-371 | a reaction calls the acceptor, on the registry it was entered with, exactly when it dispatches with the listening socket ready; it makes no acceptor call otherwise |
| `Scheduler.ReactQuiets` | clients.c:349-362 | a reaction flushes the device exactly when the wait found nothing ready, the reaction goes past the wait and the server pauses; it pauses the device exactly when also not first; it calls `esd_server_standby` exactly when the wait found nothing ready and the paused server is past the inactivity threshold |
| `Scheduler.ReactReads` | clients.c:426-433 | a reaction reads the device exactly when it dispatches with a recorder and does not end in standby, and forwards the data exactly when the read also returned some |
| `Scheduler.ReactPlays` | clients.c:373-423 | a reaction resumes exactly when it dispatches with a poll and `Resumes` holds; it runs the filters, writes the device and writes the monitors exactly when it dispatches with a poll, the call's guard holds and it does not end in standby |
| `Scheduler.TurnComposes` | clients.c:269-433 | preparing the wait (readiness set, nfds, timeout) and reacting to it make one turn: the select call first, then exactly the reaction's calls (`ReactEvents`), the whole new state (`ReactState`), and the gating over all of them |
| `Scheduler.Loop.constructor` | clients.c:262-265 | the loop starts unpaused, first, with max_fd at the listen socket and length 0 |
| `Scheduler.Loop.Idle` | clients.c:349-366 | the new state is `AfterQuiet`'s; the device is flushed, and paused unless first, exactly when the server pauses; `esd_server_standby` is called exactly when automatic standby is entered; the rest is skipped when paused with no recorder |
| `Scheduler.Loop.Wake` | clients.c:373-388 | poll, then mix; a resume is attempted only from autostandby with a nonzero mix length and no forced standby |
| `Scheduler.Loop.Filter` | clients.c:390-395 | filters run, even on an empty buffer, exactly when some exist and the server is not in standby |
| `Scheduler.Loop.Output` | clients.c:397-423 | the device write (stamping last activity) and the monitor fan-out happen only when length > 0, no write is outstanding, and the server is not in standby |
| `Scheduler.Loop.Play` | clients.c:373-424 | the whole new state is `AfterPlay`'s and the calls are exactly `PlayEvents`': the poll first; a resume exactly when `Resumes` holds; the filter call, the device write of the final length and the monitor write of it each exactly when its guard holds and the server is not left in standby (`PlayCalls`, `PlayKinds`) |
| `Scheduler.Loop.Record` | clients.c:426-433 | the new state is `AfterRecord`'s; the device is read only with a recorder and not in standby; data read is forwarded to the recorders and stamps last activity |
| `Scheduler.Loop.Dispatch` | clients.c:369-433 | the whole new state is `AfterDispatch`'s and the calls are exactly `DispatchEvents`': the acceptor first exactly when the listen socket is ready, with the drain's return value (`DispatchAccepts`); the parser exactly when something was ready or samples play (`DispatchPolls`); resume, filter, device and monitor writes exactly when their guards hold (`DispatchPlays`); the device read and recorder write exactly when a recorder exists and the server is not in standby (`DispatchReads`) |
| `Scheduler.Loop.Prepare` | clients.c:269-330 | select waits on exactly the readiness set, with nfds = max_fd + 1, and the timeout the rule chain gives |
| `Scheduler.Loop.Turn` | clients.c:286-433 | a turn past the terminate test: the select call on the readiness set with only max_fd grown, then `React`'s outcome, exactly the reaction's calls and its whole new state, and the dispatch gating over all its calls |
| `Scheduler.Loop.React` | clients.c:340-433 | an interrupted wait with no timeout counts as ready; EINTR/EAGAIN otherwise retries; other errors exit(1); both change nothing; otherwise the state is `ReactState`'s (`AfterQuiet`'s when idle, `AfterDispatch`'s when dispatching) and the calls are exactly `ReactEvents`'; the acceptor runs exactly when it dispatches with the listen socket ready (`ReactAccepts`); flush, pause and standby as `ReactQuiets`, reads as `ReactReads`, resume and writes as `ReactPlays` state; the parser runs exactly when it dispatches and something was ready or samples play |
| `Scheduler.Loop.Iterate` | clients.c:267-434 | exit(0) exactly when the registry is empty, not first, in terminate mode and (autostandby off or on autostandby), changing nothing; otherwise the whole turn as `Turn` states it: every call after the select is the reaction's, and the new state is the one the next terminate test reads |
| `Scheduler.Loop.Run` | clients.c:267-434 | the loop ends only by exit(0) or exit(1); max_fd never decreases over the run |
| `Scheduler.IdleServerStandsBy` | clients.c:349-366 | an idle server is paused (last activity stamped) by the first quiet wait, and enters automatic standby on a quiet wait past the threshold |
| `Scheduler.ThreeAcceptsLinkAll` | clients.c:154-251 | three accepted connections followed by an empty backlog: the drain links all three, most recent first, and returns 0 |
| `Scheduler.ThreePendingConnections` | clients.c:340-371 | three pending connections in one wake-up are all linked in the same iteration, the most recent first |

## Left out

- `dump_clients`: debug printing of the list, with no effect on state. In IPv6 mode its loop never advances.
- `free_client` and the `free` on the FIONBIO failure path: releasing memory is not observable here. An erased record simply leaves the list.
- `esd_set_socket_buffers` (socket buffer tuning): it changes no state that the model keeps.
- The `ESDBG_*` trace output, `printf`, `perror` and `fprintf`: diagnostics only.
- `FreshId`: models `malloc` as one more than the largest linked identity, not an arbitrary unlinked address. The real allocator may reuse the address of a freed record. That does not matter, because only linked identities are compared.
- System calls (`select`, `accept`, `ioctl`, `time`, `usleep`, `close`): the results of `select`, `accept`, `ioctl` and `time` are inputs. `usleep` is recorded as the `Sleep` event. `close` is not an event: the descriptors it closes go to `Registry.closed`.
- `time`: the source calls it several times per iteration. The model uses one `now` per iteration.
- The peer address records (`sockaddr_in`, `sockaddr_in6`): opaque values.
- External collaborators: `poll_client_requests`, `refresh_mix_funcs`, `mix_players`, `filter_write`, `esd_audio_*`, `monitor_write`, `recorder_write`, `esd_server_standby`, `esd_server_resume`, `clean_exit`. They are recorded as events and their results are inputs, because their code is not part of this model. This includes the values of `esd_on_standby` and `esd_on_autostandby` after standby, the request poll and resume.
- `poll_client_requests`: the model does not change the registry during the request poll. Erasing clients is modelled by `Registry.Erase`, but no iteration calls it. Changes to a client's protocol cursor are not modelled.
- `hosts_access`: the libwrap check is an input flag. Without libwrap, or outside TCP/IP mode, the flag is always true.
- The contents of the readiness set after a failed `select`: input (`listenFlagged`).
- Open descriptors: the model does not track which descriptors are open. Descriptors are reused after `close`, so "open until erased" is a claim about time that a log of closes cannot capture. `DrainKeepsFdsUnique` states the registry-level consequence instead.
- `FD_SETSIZE` bounds and C integer widths (`time_t`, `long`, `int`): arithmetic is unbounded, and no realistic value overflows. `rate > 0` is required, because the code divides by it.
- `Scheduler.Loop.Run`: models the infinite loop over a finite sequence of iterations. It states only how the loop ends and that max_fd grows; the per-turn facts are `Iterate`'s.
- `esdctl.c`: the command-line front end, which is not part of the core.
