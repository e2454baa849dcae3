/** The event scheduler and power-state controller of the sound daemon
    (esd_comm_loop in clients.c). Each turn of its while (1) loop builds the
    readiness set from the listening socket and the registry, computes how
    long select() may block, waits, moves between active, paused and
    automatic standby when nothing was ready, and then runs the acceptor,
    the request parser, the mixer, the filters, the device write, the
    monitor fan-out and the recorder path, each under its own guard.

    Everything the loop calls into (select, time, the audio device, the
    parser, the mixer, the filters, standby and resume) is outside this
    model: its results are the fields of a Tick. The calls are recorded in
    order as Events, except time (its reading is the Tick's now), the
    acceptor's accept, hosts_access, malloc and ioctl (their outcomes are
    the Pending inputs), and close (its descriptors go to the registry's
    close log). */
module Scheduler {
  import opened Clients
  import opened Acceptor

  /** write_wait in clients.c: a static flag that nothing in the file ever sets. */
  const WriteWait := false

  /** A monitor client only receives a copy of the mix and is never polled for reading. */
  predicate IsMonitor(c: Client)
  {
    c.state == StreamingData && c.request == ProtoStreamMon
  }

  /** rd is the readiness set of one iteration: the listening socket, every
      non-monitor client's descriptor, and nothing else. */
  ghost predicate ReadinessSet(rd: set<int>, listen: int, clients: seq<Client>)
  {
    && listen in rd
    && (forall i :: 0 <= i < |clients| && !IsMonitor(clients[i]) ==> clients[i].fd in rd)
    && (forall fd :: fd in rd ==>
          (fd == listen || exists i :: 0 <= i < |clients| && !IsMonitor(clients[i]) && clients[i].fd == fd))
  }

  /** The FD_ZERO/FD_SET pass over the registry (clients.c:269-295); max_fd
      only ever grows, bounds every client descriptor in the set, and the
      listening socket too when it started at least there. */
  method BuildReadiness(listen: int, clients: seq<Client>, maxFd: int) returns (rd: set<int>, newMax: int)
    ensures ReadinessSet(rd, listen, clients)
    ensures UniqueFds(clients) ==>
              forall i :: 0 <= i < |clients| && IsMonitor(clients[i]) && clients[i].fd != listen ==>
                clients[i].fd !in rd
    ensures newMax >= maxFd
    ensures forall fd :: fd in rd && fd != listen ==> fd <= newMax
    ensures listen <= maxFd ==> forall fd :: fd in rd ==> fd <= newMax
    ensures newMax == maxFd || newMax in rd
  {
    rd := {listen};
    newMax := maxFd;
    var i := 0;
    while i < |clients|
      invariant 0 <= i <= |clients|
      invariant ReadinessSet(rd, listen, clients[..i])
      invariant newMax >= maxFd
      invariant forall fd :: fd in rd && fd != listen ==> fd <= newMax
      invariant newMax == maxFd || newMax in rd
    {
      var c := clients[i];
      assert clients[..i + 1] == clients[..i] + [c];
      if !IsMonitor(c) {
        rd := rd + {c.fd};
        if c.fd > newMax {
          newMax := c.fd;
        }
      }
      i := i + 1;
    }
    assert clients[..i] == clients;
  }

  /** The timeout passed to select(): none (block until something is ready),
      or a struct timeval of seconds and microseconds. */
  datatype Timeout = Forever | Timeval(sec: int, usec: int)

  /** The timeout rule chain of clients.c:297-330; the first rule that
      applies wins. */
  function WaitTimeout(recording: bool, playing: bool, paused: bool, autostandbySecs: int,
                       onStandby: bool, lastActivity: int, now: int, stereo: bool, rate: int): (t: Timeout)
    requires rate > 0
    // audio work pending: return at once
    ensures recording || playing ==> t == Timeval(0, 0)
    // block indefinitely exactly when paused with autostandby off or already in standby
    ensures t.Forever? <==> !recording && !playing && paused && (autostandbySecs < 0 || onStandby)
    // a timeout is never negative, which select() would refuse
    ensures t.Timeval? ==> 0 <= t.sec && 0 <= t.usec
    // paused with autostandby armed: wake at the autostandby deadline if it
    // lies ahead within one threshold, otherwise at once
    ensures !recording && !playing && paused && autostandbySecs >= 0 && !onStandby ==>
              t.Timeval? && t.usec == 0 && t.sec <= autostandbySecs + 1 &&
              (lastActivity <= now <= lastActivity + autostandbySecs + 1 ==>
                 now + t.sec == lastActivity + autostandbySecs + 1) &&
              (now < lastActivity || now > lastActivity + autostandbySecs + 1 ==> t.sec == 0)
    // active: the first whole millisecond after one mix frame has drained
    ensures !recording && !playing && !paused ==>
              var frame := if stereo then 2 else 1;
              t.Timeval? && t.sec == 0 && t.usec % 1000 == 0 && t.usec >= 1000 &&
              (t.usec / 1000 - 1) * rate <= frame * 1000 < (t.usec / 1000) * rate
  {
    if recording || playing then Timeval(0, 0)
    else if paused && (autostandbySecs < 0 || onStandby) then Forever
    else if paused && autostandbySecs >= 0 then
      var s := (lastActivity + autostandbySecs + 1) - now;
      Timeval(if s < 0 || s > autostandbySecs + 1 then 0 else s, 0)
    else if !WriteWait then
      var samples := if stereo then 2 else 1;
      var ms := samples * 1000 / rate + 1;
      PacingBounds(samples * 1000, rate);
      Timeval(0, ms * 1000)
    else Forever
  }

  /** Euclidean division brackets its dividend. */
  lemma DivisionBounds(x: nat, d: int)
    requires d > 0
    ensures (x / d) * d <= x < (x / d + 1) * d
  {
    var q, r := x / d, x % d;
    assert x == q * d + r && 0 <= r < d;
    assert (q + 1) * d == q * d + d;
  }

  /** A wait of x / d + 1 whole milliseconds, in microseconds, is a
      multiple of 1000 of at least 1000 whose millisecond count brackets x
      in steps of d. */
  lemma PacingBounds(x: nat, d: int)
    requires d > 0
    ensures var ms := x / d + 1;
            && (ms * 1000) % 1000 == 0 && ms * 1000 >= 1000 && (ms * 1000) / 1000 == ms
            && (ms - 1) * d <= x < ms * d
  {
    DivisionBounds(x, d);
    var ms := x / d + 1;
    assert ms * 1000 == 0 + ms * 1000;
  }

  /** Stereo output at 44100 Hz with nothing else going on: a 1 ms wait. */
  lemma StereoAt44100(secs: int, standby: bool, last: int, now: int)
    ensures WaitTimeout(false, false, false, secs, standby, last, now, true, 44100) == Timeval(0, 1000)
  {
  }

  /** The pacing timeout is integer division plus one: when the frame time
      is a whole number of milliseconds the wait is one millisecond longer
      than its ceiling (mono at 1000 Hz: 2 ms, not 1 ms). */
  lemma PacingIsNotCeiling(secs: int, standby: bool, last: int, now: int)
    ensures WaitTimeout(false, false, false, secs, standby, last, now, false, 1000) == Timeval(0, 2000)
  {
  }

  /** An overdue autostandby deadline gives a zero wait, never a negative one:
      threshold 5, last activity at T, now T + 7. */
  lemma OverdueDeadline(T: int)
    ensures WaitTimeout(false, false, true, 5, false, T, T + 7, true, 44100) == Timeval(0, 0)
  {
  }

  /** A clock that went back (now before the last activity) makes the raw
      wait exceed the threshold; it is replaced by 0, not clamped to secs + 1. */
  lemma BackwardClockWakesAtOnce(T: int)
    ensures WaitTimeout(false, false, true, 5, false, T, T - 10, true, 44100) == Timeval(0, 0)
  {
  }

  /** The terminate test of clients.c:280-284: no clients, past the first
      request poll, started in terminate mode and standby-eligible. */
  predicate ShouldExit(clients: seq<Client>, first: bool, terminate: bool, autostandbySecs: int, onAutostandby: bool)
  {
    clients == [] && !first && terminate && (autostandbySecs < 0 || onAutostandby)
  }

  /** Settings the loop reads and never changes. */
  datatype Config = Config(listenSocket: int, terminate: bool, autostandbySecs: int, stereo: bool, rate: int)

  /** The process-wide source lists and flags as the loop observes them:
      esd_recorder_list, esd_playing_samples, esd_filter_list,
      esd_monitor_list and esd_forced_standby. */
  datatype Presence = Presence(recording: bool, playing: bool, filtering: bool, monitoring: bool, forcedStandby: bool)

  /** The standby flags esd_on_standby and esd_on_autostandby. */
  datatype Flags = Flags(onStandby: bool, onAutostandby: bool)

  datatype Errno = EINTR | EAGAIN | OtherErrno(code: int)

  /** What select() reports: the number of ready descriptors and whether the
      listening socket is still set in the readiness set afterwards, or an
      error. */
  datatype WaitResult = Ready(count: nat, listenFlagged: bool) | Failed(errno: Errno, listenFlagged: bool)

  /** Everything one iteration learns from outside: the clock, the reconnect
      request, the lists and flags before and after the request poll, what
      select() and accept() return, and the results of the mixer, resume,
      the filters, the device read and the recorder write. */
  datatype Tick = Tick(
    now: int,
    reconnect: bool, reopenOk: bool,
    before: Presence,
    wait: WaitResult,
    standbyAfterStandby: bool,
    accepts: seq<Pending>,
    afterPoll: Presence, pollFlags: Flags,
    mixLength: int,
    resumeOk: bool, resumeFlags: Flags,
    filterLength: int,
    readLength: int, recordedLength: int)

  /** The calls the loop makes, in order. */
  datatype Event =
    | AudioClose | AudioOpen(ok: bool) | Sleep(usec: int) | CleanExit
    | Select(nfds: int, readable: set<int>, timeout: Timeout) | SelectFailed(errno: Errno)
    | AudioFlush | AudioPause | ServerStandby
    | Accept(result: int)
    | PollRequests | RefreshMix | MixPlayers | ServerResume(ok: bool)
    | FilterWrite(length: int) | AudioWrite(length: int) | MonitorWrite(length: int)
    | AudioRead | RecorderWrite(length: int)

  /** Filtering, device and monitor I/O: none of it happens in standby. */
  predicate DeviceIo(e: Event)
  {
    e.FilterWrite? || e.AudioWrite? || e.MonitorWrite? || e.AudioRead? || e.RecorderWrite?
  }

  /** How one iteration ends: exit(status), a retry after an interrupted
      wait, a skip while paused, or a completed dispatch. */
  datatype Outcome = Exited(status: int) | Retried | Idled | Dispatched

  /** The dispatch gating of clients.c:373-433, as a property of the calls
      an iteration made: no filter, device or monitor I/O when the server
      ends in standby; monitor writes only of a non-empty buffer; the
      request poll only in a dispatching iteration, after which the loop is
      no longer first; a resume only from automatic standby with sound to
      play and standby not forced. */
  predicate Gated(t: Tick, o: Outcome, first: bool, standby: bool, ev: seq<Event>)
  {
    && (standby ==> forall e :: e in ev ==> !DeviceIo(e))
    && (forall e :: e in ev && e.MonitorWrite? ==> e.length > 0)
    && (PollRequests in ev ==> o == Dispatched && !first)
    && ((exists e :: e in ev && e.ServerResume?) ==> Resumes(t))
  }

  /** An event that is neither device I/O, nor a request poll, nor a resume:
      the driver reconnect, the exit, the wait. */
  predicate Plain(e: Event)
  {
    !DeviceIo(e) && !e.PollRequests? && !e.ServerResume?
  }

  /** Plain events alone are gated, and poll nothing. */
  lemma PlainGated(t: Tick, o: Outcome, first: bool, standby: bool, ev: seq<Event>)
    requires forall e :: e in ev ==> Plain(e)
    ensures PollRequests !in ev && Gated(t, o, first, standby, ev)
  {
  }

  /** Plain events in front of a gated trace keep it gated. */
  lemma {:induction false} GatedPrefix(t: Tick, o: Outcome, first: bool, standby: bool,
                                       head: seq<Event>, rest: seq<Event>)
    requires forall e :: e in head ==> Plain(e)
    requires Gated(t, o, first, standby, rest)
    ensures Gated(t, o, first, standby, head + rest)
  {
    assert forall e :: e in head + rest ==> e in head || e in rest;
  }


  /** The driver reconnect check of clients.c:272-278. */
  function ReconnectEvents(t: Tick): (r: seq<Event>)
    ensures r == [] <==> !t.reconnect
    ensures t.reconnect ==> r[0] == AudioClose && r[|r| - 1] == AudioOpen(t.reopenOk) && r[1..|r| - 1] == [Sleep(100)]
  {
    if t.reconnect then [AudioClose, Sleep(100), AudioOpen(t.reopenOk)] else []
  }

  /** A resume is attempted when the server is on automatic standby, the
      mix produced sound, and standby was not forced (clients.c:383). */
  predicate Resumes(t: Tick)
  {
    t.pollFlags.onAutostandby && t.mixLength != 0 && !t.afterPoll.forcedStandby
  }

  /** The calls of the request poll, the mix and the wake-up
      (clients.c:373-388): the poll always comes first, no device I/O is
      done, and a resume, whose outcome is the one reported, happens exactly
      when Resumes holds. */
  function WakeEvents(t: Tick): (r: seq<Event>)
    ensures |r| >= 3 && r[0] == PollRequests
    ensures forall e :: e in r ==> !DeviceIo(e) && PlayCall(e)
    ensures ServerResume(t.resumeOk) in r <==> Resumes(t)
    ensures ServerResume(!t.resumeOk) !in r
  {
    [PollRequests, RefreshMix, MixPlayers] +
      (if Resumes(t) then [ServerResume(t.resumeOk)] + (if t.resumeOk then [] else [Sleep(100)]) else [])
  }

  /** The calls of the output block (clients.c:397-423) for a buffer of
      `length` octets: nothing in standby; otherwise a device write and a
      monitor write of that length, each only when length > 0, the monitor
      write only when someone monitors. */
  function OutputEvents(length: int, monitoring: bool, standby: bool): (r: seq<Event>)
    ensures standby || length <= 0 ==> r == []
    ensures forall e :: e in r ==> e == AudioWrite(length) || e == MonitorWrite(length)
    ensures AudioWrite(length) in r <==> length > 0 && !standby
    ensures MonitorWrite(length) in r <==> length > 0 && monitoring && !standby
  {
    var written := length > 0 && !WriteWait && !standby;
    var monitored := length > 0 && !WriteWait && monitoring && !standby && length != 0;
    (if written then [AudioWrite(length)] else []) + (if monitored then [MonitorWrite(length)] else [])
  }

  /** A snapshot of the loop's variables and of the registry. */
  datatype LoopState = LoopState(isPausedHere: bool, first: bool, maxFd: int, length: int, lastActivity: int,
                                 onStandby: bool, onAutostandby: bool, clients: seq<Client>, closed: seq<int>)

  /** The ready count the dispatch tests: select()'s count, or 1 for an
      interrupted wait that is treated as ready (clients.c:341-342). */
  function Readiness(w: WaitResult): int
  {
    if w.Failed? then 1 else w.count
  }

  /** The listening socket is ready: still set after a wait that did not
      report nothing ready. */
  predicate ListenReady(w: WaitResult)
  {
    w.listenFlagged && (w.Failed? || w.count > 0)
  }

  // The state each stage of a turn leaves behind.

  /** After a wait that found nothing ready (clients.c:349-362): an idle
      server that is not yet paused is paused and its activity time
      stamped; a paused server idle for longer than the threshold enters
      automatic standby, with the standby flag esd_server_standby leaves. */
  function AfterQuiet(cfg: Config, now: int, before: Presence, standbyAfterStandby: bool, s: LoopState): (s': LoopState)
    ensures s' == s.(isPausedHere := s'.isPausedHere, lastActivity := s'.lastActivity,
                     onStandby := s'.onStandby, onAutostandby := s'.onAutostandby)
    ensures s'.isPausedHere == (s.isPausedHere || (!before.playing && !before.recording))
    ensures s'.lastActivity == (if !s.isPausedHere && !before.playing && !before.recording then now else s.lastActivity)
    ensures s'.onAutostandby ==
              (s.onAutostandby || (s'.isPausedHere && cfg.autostandbySecs >= 0 && now > s'.lastActivity + cfg.autostandbySecs))
    ensures s'.onStandby ==
              (if s'.isPausedHere && cfg.autostandbySecs >= 0 && now > s'.lastActivity + cfg.autostandbySecs
               then standbyAfterStandby else s.onStandby)
  {
    var pausing := !s.isPausedHere && !before.playing && !before.recording;
    var last := if pausing then now else s.lastActivity;
    var bored := (s.isPausedHere || pausing) && cfg.autostandbySecs >= 0 && now > last + cfg.autostandbySecs;
    s.(isPausedHere := s.isPausedHere || pausing, lastActivity := last,
       onAutostandby := s.onAutostandby || bored,
       onStandby := if bored then standbyAfterStandby else s.onStandby)
  }

  /** The standby flags after the request poll, or after a resume (clients.c:375-388). */
  function PlayFlags(t: Tick): Flags
  {
    if Resumes(t) then t.resumeFlags else t.pollFlags
  }

  /** The buffer length after the mix and the filters (clients.c:379-395). */
  function PlayLength(t: Tick): int
  {
    if t.afterPoll.filtering && !PlayFlags(t).onStandby then t.filterLength else t.mixLength
  }

  /** After the playback path (clients.c:373-424): past the first request
      poll; the standby flags the poll, or a resume, leaves; the buffer holds
      the filters' output when they run and the mix otherwise; a device write
      stamps the activity time. */
  function AfterPlay(t: Tick, s: LoopState): (s': LoopState)
    ensures s' == s.(first := false, length := s'.length, lastActivity := s'.lastActivity,
                     onStandby := s'.onStandby, onAutostandby := s'.onAutostandby)
  {
    var flags, length := PlayFlags(t), PlayLength(t);
    s.(first := false, length := length,
       lastActivity := if length > 0 && !WriteWait && !flags.onStandby then t.now else s.lastActivity,
       onStandby := flags.onStandby, onAutostandby := flags.onAutostandby)
  }

  /** After the recorder path (clients.c:426-433): with a recorder and not
      in standby, the buffer holds what the device read, or, when that is
      not empty, what the recorders report, and data read stamps the
      activity time. */
  function AfterRecord(t: Tick, recording: bool, s: LoopState): (s': LoopState)
    ensures s' == s.(length := s'.length, lastActivity := s'.lastActivity)
    ensures !(recording && !s.onStandby) ==> s' == s
    ensures recording && !s.onStandby ==>
              s'.length == (if t.readLength != 0 then t.recordedLength else 0)
    ensures s'.lastActivity == (if recording && !s.onStandby && t.readLength != 0 then t.now else s.lastActivity)
  {
    var reading := recording && !s.onStandby;
    s.(length := if !reading then s.length else if t.readLength != 0 then t.recordedLength else t.readLength,
       lastActivity := if reading && t.readLength != 0 then t.now else s.lastActivity)
  }

  /** After the acceptor (clients.c:369-371): when the listening socket is
      ready, the registry and close log the drain leaves. */
  function AfterAccept(t: Tick, listenReady: bool, s: LoopState): (s': LoopState)
    ensures s' == s.(clients := s'.clients, closed := s'.closed)
    ensures !listenReady ==> s' == s
  {
    if listenReady then
      var d := Drain(t.accepts, s.clients, s.closed);
      s.(clients := d.clients, closed := d.closed)
    else s
  }

  /** After the playback path, when polled, and the recorder path: the loop
      is no longer first exactly when it polled; without a poll the standby
      flags are kept. The registry is not touched. */
  function AfterServe(t: Tick, polled: bool, s: LoopState): (s': LoopState)
    ensures s' == s.(first := s'.first, length := s'.length, lastActivity := s'.lastActivity,
                     onStandby := s'.onStandby, onAutostandby := s'.onAutostandby)
    ensures s'.first == (s.first && !polled)
    ensures !polled ==> s'.onStandby == s.onStandby && s'.onAutostandby == s.onAutostandby
    ensures polled ==> s'.onStandby == PlayFlags(t).onStandby && s'.onAutostandby == PlayFlags(t).onAutostandby
  {
    AfterRecord(t, if polled then t.afterPoll.recording else t.before.recording, if polled then AfterPlay(t, s) else s)
  }

  /** After the dispatch stage (clients.c:369-433): the registry and close
      log are the drain's exactly when the listening socket was ready; the
      loop is no longer first exactly when it polled; the pause flag and
      max_fd are kept. */
  function AfterDispatch(t: Tick, ready: int, listenReady: bool, s: LoopState): (s': LoopState)
    ensures s'.isPausedHere == s.isPausedHere && s'.maxFd == s.maxFd
    ensures s'.first == (s.first && !(ready != 0 || t.before.playing))
    ensures s'.onStandby == (if ready != 0 || t.before.playing then PlayFlags(t).onStandby else s.onStandby)
    ensures s'.clients == (if listenReady then Drain(t.accepts, s.clients, s.closed).clients else s.clients)
    ensures s'.closed == (if listenReady then Drain(t.accepts, s.clients, s.closed).closed else s.closed)
  {
    AfterServe(t, ready != 0 || t.before.playing, AfterAccept(t, listenReady, s))
  }

  // The calls each stage makes.

  /** A call of the playback path: the request poll, the mix, the wake-up
      and its retry sleep, the filters, and the device and monitor writes. */
  predicate PlayCall(e: Event)
  {
    || e.PollRequests? || e.RefreshMix? || e.MixPlayers? || e.ServerResume? || e.Sleep?
    || e.FilterWrite? || e.AudioWrite? || e.MonitorWrite?
  }

  /** The calls of a wait that found nothing ready (clients.c:349-362). */
  function QuietEvents(cfg: Config, now: int, before: Presence, standbyAfterStandby: bool, s: LoopState): seq<Event>
  {
    var pausing := !s.isPausedHere && !before.playing && !before.recording;
    var q := AfterQuiet(cfg, now, before, standbyAfterStandby, s);
    var bored := q.isPausedHere && cfg.autostandbySecs >= 0 && now > q.lastActivity + cfg.autostandbySecs;
    (if pausing then [AudioFlush] + (if s.first then [] else [AudioPause]) else []) +
      (if bored then [ServerStandby] else [])
  }

  /** The device is flushed, and then paused unless this is the first
      iteration, exactly when the server pauses; esd_server_standby is
      called, last, exactly when the server enters automatic standby; no
      other call is made. */
  lemma QuietCalls(cfg: Config, now: int, before: Presence, standbyAfterStandby: bool, s: LoopState)
    ensures var r, q := QuietEvents(cfg, now, before, standbyAfterStandby, s), AfterQuiet(cfg, now, before, standbyAfterStandby, s);
            var pausing := !s.isPausedHere && !before.playing && !before.recording;
            && (AudioFlush in r <==> pausing)
            && (AudioPause in r <==> pausing && !s.first)
            && (ServerStandby in r <==> q.isPausedHere && cfg.autostandbySecs >= 0 && now > q.lastActivity + cfg.autostandbySecs)
            && (pausing ==> r[0] == AudioFlush)
            && (ServerStandby in r ==> r[|r| - 1] == ServerStandby)
            && (forall e :: e in r ==> e == AudioFlush || e == AudioPause || e == ServerStandby)
  {
  }

  /** A wait that found nothing ready makes no call of the dispatch stage. */
  lemma QuietLacks(cfg: Config, now: int, before: Presence, standbyAfterStandby: bool, s: LoopState, x: Event)
    requires x.Accept? || PlayCall(x) || x.AudioRead? || x.RecorderWrite?
    ensures x !in QuietEvents(cfg, now, before, standbyAfterStandby, s)
  {
    QuietCalls(cfg, now, before, standbyAfterStandby, s);
  }

  /** The calls of the playback path (clients.c:373-424): the wake-up's, the
      filter chain on the mix when filters exist and the server is not in
      standby, and the output block's on the resulting buffer. */
  function PlayEvents(t: Tick): seq<Event>
  {
    var filtered := t.afterPoll.filtering && !PlayFlags(t).onStandby;
    WakeEvents(t) + (if filtered then [FilterWrite(t.mixLength)] else []) +
      OutputEvents(PlayLength(t), t.afterPoll.monitoring, PlayFlags(t).onStandby)
  }

  /** The playback path polls first; resumes, with the reported outcome,
      exactly when Resumes holds; and runs the filters on the mix, writes
      the device and sends the monitors the final buffer, each exactly when
      its guard holds and the server is not left in standby. */
  lemma PlayCalls(t: Tick)
    ensures var r, len, standby := PlayEvents(t), PlayLength(t), PlayFlags(t).onStandby;
            && |r| > 0 && r[0] == PollRequests
            && (ServerResume(t.resumeOk) in r <==> Resumes(t)) && ServerResume(!t.resumeOk) !in r
            && (FilterWrite(t.mixLength) in r <==> t.afterPoll.filtering && !standby)
            && (AudioWrite(len) in r <==> len > 0 && !standby)
            && (MonitorWrite(len) in r <==> len > 0 && t.afterPoll.monitoring && !standby)
  {
    PlayParts(t);
  }

  /** Every call of the playback path is one of PlayCall's; writes carry the
      final length, the filter call the mix's; in standby there is no
      filter, device or monitor I/O. */
  lemma PlayKinds(t: Tick)
    ensures var r, len := PlayEvents(t), PlayLength(t);
            && (forall e :: e in r ==> PlayCall(e))
            && (forall e :: e in r && (e.AudioWrite? || e.MonitorWrite?) ==> e.length == len)
            && (forall e :: e in r && e.FilterWrite? ==> e.length == t.mixLength)
            && (forall e :: e in r && e.MonitorWrite? ==> len > 0 && t.afterPoll.monitoring)
            && (PlayFlags(t).onStandby ==> forall e :: e in r ==> !DeviceIo(e))
  {
    PlayParts(t);
  }

  /** The three parts of the playback path's calls. */
  lemma PlayParts(t: Tick)
    ensures var f := if t.afterPoll.filtering && !PlayFlags(t).onStandby then [FilterWrite(t.mixLength)] else [];
            var o := OutputEvents(PlayLength(t), t.afterPoll.monitoring, PlayFlags(t).onStandby);
            && PlayEvents(t) == WakeEvents(t) + f + o
            && (forall e :: e in PlayEvents(t) ==> e in WakeEvents(t) || e in f || e in o)
  {
  }

  /** The calls of the recorder path (clients.c:426-433) when `reading`, that
      is with a recorder and not in standby: the device read, then, when it
      returned data, the write of that data to the recorders. */
  function RecordEvents(t: Tick, reading: bool): (r: seq<Event>)
    ensures AudioRead in r <==> reading
    ensures RecorderWrite(t.readLength) in r <==> reading && t.readLength != 0
    ensures forall e :: e in r ==> e == AudioRead || e == RecorderWrite(t.readLength)
  {
    if reading then [AudioRead] + (if t.readLength != 0 then [RecorderWrite(t.readLength)] else []) else []
  }

  /** The calls of the dispatch stage after the acceptor (clients.c:373-433),
      entered with the given standby flag: the playback path's when polled,
      then the recorder path's. */
  function ServeEvents(t: Tick, polled: bool, standby: bool): seq<Event>
  {
    var rec := if polled then t.afterPoll.recording else t.before.recording;
    (if polled then PlayEvents(t) else []) + RecordEvents(t, rec && !(if polled then PlayFlags(t).onStandby else standby))
  }

  /** The dispatch stage after the acceptor resumes exactly when polled and
      Resumes holds; runs the filters, writes the device and sends the
      monitors the buffer exactly when polled, their own guards hold and the
      server is not left in standby. */
  lemma ServePlays(t: Tick, polled: bool, standby: bool)
    ensures var r, len := ServeEvents(t, polled, standby), PlayLength(t);
            var standby' := if polled then PlayFlags(t).onStandby else standby;
            && (ServerResume(true) in r || ServerResume(false) in r <==> polled && Resumes(t))
            && (FilterWrite(t.mixLength) in r <==> polled && t.afterPoll.filtering && !standby')
            && (AudioWrite(len) in r <==> polled && len > 0 && !standby')
            && (MonitorWrite(len) in r <==> polled && len > 0 && t.afterPoll.monitoring && !standby')
  {
    if polled {
      PlayCalls(t);
    }
  }

  /** The dispatch stage after the acceptor reads the device, and forwards
      what it read, exactly when a recorder exists and the server is not in
      standby. */
  lemma ServeReads(t: Tick, polled: bool, standby: bool)
    ensures var r := ServeEvents(t, polled, standby);
            var standby' := if polled then PlayFlags(t).onStandby else standby;
            var rec := if polled then t.afterPoll.recording else t.before.recording;
            && (AudioRead in r <==> rec && !standby')
            && (RecorderWrite(t.readLength) in r <==> rec && !standby' && t.readLength != 0)
  {
    if polled {
      PlayKinds(t);
    }
  }

  /** The calls of the dispatch stage after the acceptor are playback and
      recorder calls; monitor writes only of a non-empty buffer with someone
      monitoring; no filter, device or monitor I/O when the stage ends in
      standby. */
  lemma ServeKinds(t: Tick, polled: bool, standby: bool)
    ensures var r := ServeEvents(t, polled, standby);
            var standby' := if polled then PlayFlags(t).onStandby else standby;
            && (forall e :: e in r ==> PlayCall(e) || e.AudioRead? || e.RecorderWrite?)
            && (forall e :: e in r && e.MonitorWrite? ==> e.length > 0 && t.afterPoll.monitoring)
            && (standby' ==> forall e :: e in r ==> !DeviceIo(e))
  {
    if polled {
      PlayKinds(t);
      var pev := PlayEvents(t);
      var rev := RecordEvents(t, t.afterPoll.recording && !PlayFlags(t).onStandby);
      assert ServeEvents(t, polled, standby) == pev + rev;
      assert forall e :: e in pev + rev ==> e in pev || e in rev;
    }
  }

  /** The dispatch stage after the acceptor does not call the acceptor. */
  lemma ServeAcceptFree(t: Tick, polled: bool, standby: bool)
    ensures forall e :: e in ServeEvents(t, polled, standby) ==> !e.Accept?
  {
    ServeKinds(t, polled, standby);
  }

  /** The dispatch stage after the acceptor polls exactly when polled, and
      resumes only when polled and Resumes holds. */
  lemma ServePolls(t: Tick, polled: bool, standby: bool)
    ensures var r := ServeEvents(t, polled, standby);
            && (PollRequests in r <==> polled)
            && (forall e :: e in r && e.ServerResume? ==> polled && Resumes(t))
  {
    if polled {
      PlayCalls(t);
      var pev := PlayEvents(t);
      var rev := RecordEvents(t, t.afterPoll.recording && !PlayFlags(t).onStandby);
      assert ServeEvents(t, polled, standby) == pev + rev;
      forall e: Event | e in pev + rev && e.ServerResume? ensures Resumes(t) {
        assert e == ServerResume(t.resumeOk) || e == ServerResume(!t.resumeOk);
      }
    }
  }

  /** The calls of the dispatch stage (clients.c:369-433): the acceptor's
      return value when the listening socket is ready, then ServeEvents'. */
  function DispatchEvents(t: Tick, ready: int, listenReady: bool, s: LoopState): seq<Event>
  {
    (if listenReady then [Accept(Drain(t.accepts, s.clients, s.closed).result)] else []) +
      ServeEvents(t, ready != 0 || t.before.playing, s.onStandby)
  }

  /** The dispatch stage calls the acceptor first and exactly when the
      listening socket is ready. */
  lemma DispatchAccepts(t: Tick, ready: int, listenReady: bool, s: LoopState)
    ensures var r := DispatchEvents(t, ready, listenReady, s);
            && (listenReady ==> |r| > 0 && r[0] == Accept(Drain(t.accepts, s.clients, s.closed).result))
            && (forall e :: e in r && e.Accept? ==> listenReady)
  {
    var rest := ServeEvents(t, ready != 0 || t.before.playing, s.onStandby);
    ServeAcceptFree(t, ready != 0 || t.before.playing, s.onStandby);
    if listenReady {
      assert DispatchEvents(t, ready, listenReady, s) == [Accept(Drain(t.accepts, s.clients, s.closed).result)] + rest;
    } else {
      assert DispatchEvents(t, ready, listenReady, s) == rest;
    }
  }

  /** The dispatch stage, which ends in AfterDispatch's state, resumes,
      runs the filters, writes the device and sends the monitors the buffer
      as ServePlays describes. */
  lemma DispatchPlays(t: Tick, ready: int, listenReady: bool, s: LoopState)
    ensures var r, s', len := DispatchEvents(t, ready, listenReady, s), AfterDispatch(t, ready, listenReady, s), PlayLength(t);
            var polled := ready != 0 || t.before.playing;
            && (ServerResume(true) in r || ServerResume(false) in r <==> polled && Resumes(t))
            && (FilterWrite(t.mixLength) in r <==> polled && t.afterPoll.filtering && !s'.onStandby)
            && (AudioWrite(len) in r <==> polled && len > 0 && !s'.onStandby)
            && (MonitorWrite(len) in r <==> polled && len > 0 && t.afterPoll.monitoring && !s'.onStandby)
  {
    ServePlays(t, ready != 0 || t.before.playing, s.onStandby);
  }

  /** The dispatch stage, which ends in AfterDispatch's state, reads the
      device and forwards what it read exactly when a recorder exists and
      the server is not left in standby. */
  lemma DispatchReads(t: Tick, ready: int, listenReady: bool, s: LoopState)
    ensures var r, s' := DispatchEvents(t, ready, listenReady, s), AfterDispatch(t, ready, listenReady, s);
            var rec := if ready != 0 || t.before.playing then t.afterPoll.recording else t.before.recording;
            && (AudioRead in r <==> rec && !s'.onStandby)
            && (RecorderWrite(t.readLength) in r <==> rec && !s'.onStandby && t.readLength != 0)
  {
    ServeReads(t, ready != 0 || t.before.playing, s.onStandby);
  }

  /** The calls of the dispatch stage are the acceptor's and those
      ServeKinds describes. */
  lemma DispatchKinds(t: Tick, ready: int, listenReady: bool, s: LoopState)
    ensures var r, s' := DispatchEvents(t, ready, listenReady, s), AfterDispatch(t, ready, listenReady, s);
            && (forall e :: e in r ==> e.Accept? || PlayCall(e) || e.AudioRead? || e.RecorderWrite?)
            && (forall e :: e in r && e.MonitorWrite? ==> e.length > 0 && t.afterPoll.monitoring)
            && (s'.onStandby ==> forall e :: e in r ==> !DeviceIo(e))
  {
    ServeKinds(t, ready != 0 || t.before.playing, s.onStandby);
  }

  /** The dispatch stage makes none of the calls of a quiet wait. */
  lemma DispatchQuietFree(t: Tick, ready: int, listenReady: bool, s: LoopState)
    ensures var r := DispatchEvents(t, ready, listenReady, s);
            AudioFlush !in r && AudioPause !in r && ServerStandby !in r
  {
    var acc := if listenReady then [Accept(Drain(t.accepts, s.clients, s.closed).result)] else [];
    var rest := ServeEvents(t, ready != 0 || t.before.playing, s.onStandby);
    ServeQuietFree(t, ready != 0 || t.before.playing, s.onStandby);
    assert DispatchEvents(t, ready, listenReady, s) == acc + rest;
  }

  /** The dispatch stage after the acceptor makes none of the calls of a
      quiet wait. */
  lemma ServeQuietFree(t: Tick, polled: bool, standby: bool)
    ensures var r := ServeEvents(t, polled, standby);
            AudioFlush !in r && AudioPause !in r && ServerStandby !in r
  {
    var rec := if polled then t.afterPoll.recording else t.before.recording;
    var rev := RecordEvents(t, rec && !(if polled then PlayFlags(t).onStandby else standby));
    assert AudioFlush !in rev && AudioPause !in rev && ServerStandby !in rev;
    if polled {
      PlayKinds(t);
      var pev := PlayEvents(t);
      assert AudioFlush !in pev && AudioPause !in pev && ServerStandby !in pev;
      assert ServeEvents(t, polled, standby) == pev + rev;
    }
  }

  /** The dispatch stage polls exactly when something was ready or samples
      are playing, and resumes only then and when Resumes holds. */
  lemma DispatchPolls(t: Tick, ready: int, listenReady: bool, s: LoopState)
    ensures var r, polled := DispatchEvents(t, ready, listenReady, s), ready != 0 || t.before.playing;
            && (PollRequests in r <==> polled)
            && (forall e :: e in r && e.ServerResume? ==> polled && Resumes(t))
  {
    ServePolls(t, ready != 0 || t.before.playing, s.onStandby);
  }

  // Each stage as a relation between the state before, the state after and
  // the calls it makes.

  /** A wait that found nothing ready (clients.c:349-366): AfterQuiet's
      state and QuietEvents' calls; the rest of the iteration is skipped
      when paused with no recorder. */
  ghost predicate IdleStep(cfg: Config, now: int, before: Presence, standbyAfterStandby: bool,
                           s: LoopState, s': LoopState, skip: bool, ev: seq<Event>)
  {
    && s' == AfterQuiet(cfg, now, before, standbyAfterStandby, s)
    && ev == QuietEvents(cfg, now, before, standbyAfterStandby, s)
    && skip == (!before.recording && s'.isPausedHere)
  }

  /** The request poll, the mix and the wake-up (clients.c:373-388), from
      state s to state s': the loop is no longer first, the buffer holds
      the mix, and the standby flags are those the poll, or the resume,
      leaves. Nothing else changes. */
  ghost predicate WakeStep(t: Tick, s: LoopState, s': LoopState, ev: seq<Event>)
  {
    var flags := PlayFlags(t);
    && s' == s.(first := false, length := t.mixLength,
                onStandby := flags.onStandby, onAutostandby := flags.onAutostandby)
    && ev == WakeEvents(t)
  }

  /** The filter chain (clients.c:390-395), from state s to state s': run,
      even on an empty buffer, whenever filters exist and the server is not
      in standby, and the buffer then holds their output. */
  ghost predicate FilterStep(t: Tick, s: LoopState, s': LoopState, ev: seq<Event>)
  {
    var filtered := t.afterPoll.filtering && !s.onStandby;
    && ev == (if filtered then [FilterWrite(s.length)] else [])
    && s' == s.(length := if filtered then t.filterLength else s.length)
  }

  /** The output block (clients.c:397-423), from state s to state s': the
      calls OutputEvents gives, and a device write stamps the activity time. */
  ghost predicate OutputStep(t: Tick, s: LoopState, s': LoopState, ev: seq<Event>)
  {
    && ev == OutputEvents(s.length, t.afterPoll.monitoring, s.onStandby)
    && s' == s.(lastActivity := if s.length > 0 && !WriteWait && !s.onStandby then t.now else s.lastActivity)
  }

  /** The playback path (clients.c:373-424), from state s to state s':
      AfterPlay's state and PlayEvents' calls. */
  ghost predicate PlayStep(t: Tick, s: LoopState, s': LoopState, ev: seq<Event>)
  {
    s' == AfterPlay(t, s) && ev == PlayEvents(t)
  }

  /** Poll and mix, then filter, then output make the playback path. */
  lemma PlayComposes(t: Tick, s0: LoopState, s1: LoopState, s2: LoopState, s3: LoopState,
                     wev: seq<Event>, fev: seq<Event>, oev: seq<Event>)
    requires WakeStep(t, s0, s1, wev) && FilterStep(t, s1, s2, fev) && OutputStep(t, s2, s3, oev)
    ensures PlayStep(t, s0, s3, wev + fev + oev)
  {
    assert s3 == AfterPlay(t, s0);
  }

  /** The recorder path (clients.c:426-433), from state s to state s':
      AfterRecord's state and RecordEvents' calls, reading only with a
      recorder and not in standby. */
  ghost predicate RecordStep(t: Tick, recording: bool, s: LoopState, s': LoopState, ev: seq<Event>)
  {
    ev == RecordEvents(t, recording && !s.onStandby) && s' == AfterRecord(t, recording, s)
  }

  /** What the dispatch stage does after the acceptor, from state s to
      state s': AfterServe's state and ServeEvents' calls. */
  ghost predicate ServeStep(t: Tick, polled: bool, s: LoopState, s': LoopState, ev: seq<Event>)
  {
    s' == AfterServe(t, polled, s) && ev == ServeEvents(t, polled, s.onStandby)
  }

  /** The playback path when polled, then the recorder path. */
  lemma ServeComposes(t: Tick, polled: bool, s1: LoopState, s2: LoopState, s3: LoopState,
                      pev: seq<Event>, rev: seq<Event>)
    requires if polled then PlayStep(t, s1, s2, pev) else s2 == s1 && pev == []
    requires RecordStep(t, if polled then t.afterPoll.recording else t.before.recording, s2, s3, rev)
    ensures ServeStep(t, polled, s1, s3, pev + rev)
  {
  }

  /** The dispatch stage (clients.c:369-433), from state s to state s':
      AfterDispatch's state and DispatchEvents' calls. */
  ghost predicate DispatchStep(t: Tick, ready: int, listenReady: bool, s: LoopState, s': LoopState, ev: seq<Event>)
  {
    s' == AfterDispatch(t, ready, listenReady, s) && ev == DispatchEvents(t, ready, listenReady, s)
  }

  /** The acceptor in front of the rest of the dispatch makes the dispatch stage. */
  lemma AcceptComposes(t: Tick, ready: int, listenReady: bool,
                       s0: LoopState, s1: LoopState, s3: LoopState, acc: seq<Event>, rest: seq<Event>)
    requires s1 == AfterAccept(t, listenReady, s0)
    requires acc == if listenReady then [Accept(Drain(t.accepts, s0.clients, s0.closed).result)] else []
    requires ServeStep(t, ready != 0 || t.before.playing, s1, s3, rest)
    ensures DispatchStep(t, ready, listenReady, s0, s3, acc + rest)
  {
  }

  /** The readiness set and the timeout of one iteration (clients.c:269-330),
      from state s to state s': select() is asked to wait on exactly the
      readiness set, with nfds one above the grown max_fd, for as long as
      the rule chain says; nothing but max_fd changes. */
  ghost predicate Prepared(cfg: Config, t: Tick, s: LoopState, s': LoopState, e: Event)
  {
    && s' == s.(maxFd := s'.maxFd) && s'.maxFd >= s.maxFd
    && e.Select? && e.nfds == s'.maxFd + 1
    && ReadinessSet(e.readable, cfg.listenSocket, s.clients)
    && (forall fd :: fd in e.readable ==> fd <= s'.maxFd)
    && cfg.rate > 0
    && e.timeout == WaitTimeout(t.before.recording, t.before.playing, s.isPausedHere, cfg.autostandbySecs,
                                s.onStandby, s.lastActivity, t.now, cfg.stereo, cfg.rate)
  }

  /** The wait found nothing ready (clients.c:349). */
  predicate Quiet(w: WaitResult)
  {
    w.Ready? && w.count == 0
  }

  /** The state after the wait, before any dispatch: AfterQuiet's when it
      found nothing ready. */
  function Waited(cfg: Config, t: Tick, s: LoopState): LoopState
  {
    if Quiet(t.wait) then AfterQuiet(cfg, t.now, t.before, t.standbyAfterStandby, s) else s
  }

  /** The calls after the wait, before any dispatch: QuietEvents' when it
      found nothing ready. */
  function WaitEvents(cfg: Config, t: Tick, s: LoopState): seq<Event>
  {
    if Quiet(t.wait) then QuietEvents(cfg, t.now, t.before, t.standbyAfterStandby, s) else []
  }

  /** The state a reaction with outcome o leaves (clients.c:340-433): a
      retry or an exit changes nothing; an idle reaction leaves Waited's
      state; a dispatch unpauses and leaves AfterDispatch's. */
  function ReactState(cfg: Config, t: Tick, s: LoopState, o: Outcome): LoopState
  {
    match o
    case Dispatched => AfterDispatch(t, Readiness(t.wait), ListenReady(t.wait), Waited(cfg, t, s).(isPausedHere := false))
    case Idled => Waited(cfg, t, s)
    case _ => s
  }

  /** The calls a reaction with outcome o makes (clients.c:340-433): none for
      a retry; the error report for an exit; WaitEvents' for an idle
      reaction, followed by DispatchEvents' for a dispatch. */
  function ReactEvents(cfg: Config, t: Tick, s: LoopState, o: Outcome): seq<Event>
  {
    match o
    case Dispatched =>
      WaitEvents(cfg, t, s) + DispatchEvents(t, Readiness(t.wait), ListenReady(t.wait), Waited(cfg, t, s).(isPausedHere := false))
    case Idled => WaitEvents(cfg, t, s)
    case Exited(_) => if t.wait.Failed? then [SelectFailed(t.wait.errno)] else []
    case Retried => []
  }

  /** What follows a wait with the given timeout (clients.c:340-433), from
      state s to state s', with outcome o and the calls ev. */
  ghost predicate Reacted(cfg: Config, t: Tick, timeout: Timeout, s: LoopState, s': LoopState, o: Outcome, ev: seq<Event>)
  {
    var polled := Readiness(t.wait) != 0 || t.before.playing;
    && s'.maxFd == s.maxFd && o != Exited(0)
    && (o.Exited? ==> o == Exited(1) && t.wait.Failed?)
    && (t.wait.Ready? ==> o == Dispatched || o == Idled)
    // an interrupted wait with no timeout counts as ready; EINTR or EAGAIN
    // otherwise retry; any other error is fatal; the last two change nothing
    && (t.wait.Failed? ==>
          o == (if t.wait.errno == EINTR && timeout.Forever? then Dispatched
                else if t.wait.errno == EINTR || t.wait.errno == EAGAIN then Retried
                else Exited(1)))
    // nothing ready: pause, and skip the dispatch while paused with no recorder
    && (o == Idled <==> Quiet(t.wait) && !t.before.recording && (s.isPausedHere || !t.before.playing))
    && s' == ReactState(cfg, t, s, o) && ev == ReactEvents(cfg, t, s, o)
    && (PollRequests in ev <==> o == Dispatched && polled)
    && Gated(t, o, s'.first, s'.onStandby, ev)
  }

  /** A failed wait that is not treated as ready is retried or fatal, and changes nothing. */
  lemma FailureReacts(cfg: Config, t: Tick, timeout: Timeout, s: LoopState, o: Outcome, ev: seq<Event>)
    requires t.wait.Failed? && !(t.wait.errno == EINTR && timeout.Forever?)
    requires if t.wait.errno == EINTR || t.wait.errno == EAGAIN then o == Retried && ev == []
             else o == Exited(1) && ev == [SelectFailed(t.wait.errno)]
    ensures Reacted(cfg, t, timeout, s, s, o, ev)
  {
  }

  /** A quiet wait that pauses and skips the dispatch is an Idled reaction. */
  lemma IdleReacts(cfg: Config, t: Tick, timeout: Timeout, s: LoopState, s': LoopState, ev: seq<Event>)
    requires t.wait.Ready? && t.wait.count == 0
    requires IdleStep(cfg, t.now, t.before, t.standbyAfterStandby, s, s', true, ev)
    ensures Reacted(cfg, t, timeout, s, s', Idled, ev)
  {
    QuietCalls(cfg, t.now, t.before, t.standbyAfterStandby, s);
    assert s' == Waited(cfg, t, s) && ev == WaitEvents(cfg, t, s);
    assert forall e :: e in ev ==> Plain(e);
    PlainGated(t, Idled, s'.first, s'.onStandby, ev);
    ReactsByIdle(cfg, t, timeout, s, s', ev);
  }

  /** The facts that make an idle reaction. */
  lemma ReactsByIdle(cfg: Config, t: Tick, timeout: Timeout, s: LoopState, s': LoopState, ev: seq<Event>)
    requires Quiet(t.wait) && !t.before.recording && (s.isPausedHere || !t.before.playing)
    requires s' == ReactState(cfg, t, s, Idled) && ev == ReactEvents(cfg, t, s, Idled)
    requires PollRequests !in ev && Gated(t, Idled, s'.first, s'.onStandby, ev)
    ensures Reacted(cfg, t, timeout, s, s', Idled, ev)
  {
  }

  /** A wait that leads to the dispatch (an interrupted wait with no timeout,
      a wait with something ready, or a quiet wait that does not skip),
      followed by the dispatch, is a Dispatched reaction. */
  lemma DispatchReacts(cfg: Config, t: Tick, timeout: Timeout, s0: LoopState, s1: LoopState, s2: LoopState,
                       pre: seq<Event>, dev: seq<Event>)
    requires || (t.wait.Failed? && t.wait.errno == EINTR && timeout.Forever? && s1 == s0 && pre == [])
             || (t.wait.Ready? && t.wait.count > 0 && s1 == s0 && pre == [])
             || (t.wait.Ready? && t.wait.count == 0 &&
                 IdleStep(cfg, t.now, t.before, t.standbyAfterStandby, s0, s1, false, pre))
    requires DispatchStep(t, Readiness(t.wait), ListenReady(t.wait), s1.(isPausedHere := false), s2, dev)
    ensures Reacted(cfg, t, timeout, s0, s2, Dispatched, pre + dev)
  {
    WaitsToDispatch(cfg, t, timeout, s0, s1, pre);
    DispatchGated(t, s1.(isPausedHere := false), s2, pre, dev);
    ReactsByDispatch(cfg, t, timeout, s0, s2, pre + dev);
  }

  /** A wait that leads to the dispatch leaves Waited's state and
      WaitEvents' calls, all of them plain, and is not an idle one. */
  lemma WaitsToDispatch(cfg: Config, t: Tick, timeout: Timeout, s0: LoopState, s1: LoopState, pre: seq<Event>)
    requires || (t.wait.Failed? && t.wait.errno == EINTR && timeout.Forever? && s1 == s0 && pre == [])
             || (t.wait.Ready? && t.wait.count > 0 && s1 == s0 && pre == [])
             || (t.wait.Ready? && t.wait.count == 0 &&
                 IdleStep(cfg, t.now, t.before, t.standbyAfterStandby, s0, s1, false, pre))
    ensures t.wait.Failed? ==> t.wait.errno == EINTR && timeout.Forever?
    ensures s1 == Waited(cfg, t, s0) && pre == WaitEvents(cfg, t, s0)
    ensures forall e :: e in pre ==> Plain(e)
    ensures !(Quiet(t.wait) && !t.before.recording && (s0.isPausedHere || !t.before.playing))
  {
    if Quiet(t.wait) {
      QuietCalls(cfg, t.now, t.before, t.standbyAfterStandby, s0);
    }
  }

  /** The facts that make a dispatching reaction. */
  lemma ReactsByDispatch(cfg: Config, t: Tick, timeout: Timeout, s: LoopState, s': LoopState, ev: seq<Event>)
    requires t.wait.Failed? ==> t.wait.errno == EINTR && timeout.Forever?
    requires !(Quiet(t.wait) && !t.before.recording && (s.isPausedHere || !t.before.playing))
    requires s' == ReactState(cfg, t, s, Dispatched) && ev == ReactEvents(cfg, t, s, Dispatched)
    requires PollRequests in ev <==> Readiness(t.wait) != 0 || t.before.playing
    requires Gated(t, Dispatched, s'.first, s'.onStandby, ev)
    ensures Reacted(cfg, t, timeout, s, s', Dispatched, ev)
  {
  }

  /** Plain calls in front of the dispatch stage's leave the calls gated,
      with the request poll among them exactly when the stage polls. */
  lemma DispatchGated(t: Tick, s: LoopState, s': LoopState, pre: seq<Event>, dev: seq<Event>)
    requires forall e :: e in pre ==> Plain(e)
    requires DispatchStep(t, Readiness(t.wait), ListenReady(t.wait), s, s', dev)
    ensures PollRequests in pre + dev <==> Readiness(t.wait) != 0 || t.before.playing
    ensures Gated(t, Dispatched, s'.first, s'.onStandby, pre + dev)
  {
    DispatchKinds(t, Readiness(t.wait), ListenReady(t.wait), s);
    DispatchPolls(t, Readiness(t.wait), ListenReady(t.wait), s);
    GatedPrefix(t, Dispatched, s'.first, s'.onStandby, pre, dev);
  }

  /** A reaction calls the acceptor, on the registry it was entered with,
      exactly when it dispatches with the listening socket ready. */
  lemma ReactAccepts(cfg: Config, t: Tick, s: LoopState, o: Outcome)
    ensures var r := ReactEvents(cfg, t, s, o);
            && (o == Dispatched && ListenReady(t.wait) ==> Accept(Drain(t.accepts, s.clients, s.closed).result) in r)
            && (forall e :: e in r && e.Accept? ==> o == Dispatched && ListenReady(t.wait))
  {
    QuietCalls(cfg, t.now, t.before, t.standbyAfterStandby, s);
    if o == Dispatched {
      DispatchedAccepts(cfg, t, s);
    }
  }

  /** ReactAccepts for a reaction that dispatches. */
  lemma DispatchedAccepts(cfg: Config, t: Tick, s: LoopState)
    ensures var r := ReactEvents(cfg, t, s, Dispatched);
            && (ListenReady(t.wait) ==> Accept(Drain(t.accepts, s.clients, s.closed).result) in r)
            && (forall e :: e in r && e.Accept? ==> ListenReady(t.wait))
  {
    var pre, w := WaitEvents(cfg, t, s), Waited(cfg, t, s).(isPausedHere := false);
    var dev := DispatchEvents(t, Readiness(t.wait), ListenReady(t.wait), w);
    QuietCalls(cfg, t.now, t.before, t.standbyAfterStandby, s);
    assert forall e :: e in pre ==> !e.Accept?;
    DispatchAccepts(t, Readiness(t.wait), ListenReady(t.wait), w);
    assert ReactEvents(cfg, t, s, Dispatched) == pre + dev;
    if ListenReady(t.wait) {
      assert w.clients == s.clients && w.closed == s.closed;
      assert dev[0] in pre + dev;
    }
  }

  /** A reaction that goes past the wait (an idle or a dispatching one)
      flushes the device, pauses it after the first iteration and calls
      esd_server_standby exactly as QuietCalls says when the wait found
      nothing ready, and makes none of these calls otherwise. */
  lemma ReactQuiets(cfg: Config, t: Tick, s: LoopState, o: Outcome)
    ensures var r, q := ReactEvents(cfg, t, s, o), AfterQuiet(cfg, t.now, t.before, t.standbyAfterStandby, s);
            var quiet := (o == Idled || o == Dispatched) && Quiet(t.wait);
            var pausing := quiet && !s.isPausedHere && !t.before.playing && !t.before.recording;
            && (AudioFlush in r <==> pausing)
            && (AudioPause in r <==> pausing && !s.first)
            && (ServerStandby in r <==>
                  quiet && q.isPausedHere && cfg.autostandbySecs >= 0 && t.now > q.lastActivity + cfg.autostandbySecs)
  {
    QuietCalls(cfg, t.now, t.before, t.standbyAfterStandby, s);
    if o == Dispatched {
      DispatchedQuiets(cfg, t, s);
    }
  }

  /** A reaction that dispatches makes the quiet wait's calls and no
      others of their kind. */
  lemma DispatchedQuiets(cfg: Config, t: Tick, s: LoopState)
    ensures var r, pre := ReactEvents(cfg, t, s, Dispatched), WaitEvents(cfg, t, s);
            && (AudioFlush in r <==> AudioFlush in pre)
            && (AudioPause in r <==> AudioPause in pre)
            && (ServerStandby in r <==> ServerStandby in pre)
  {
    var pre, w := WaitEvents(cfg, t, s), Waited(cfg, t, s).(isPausedHere := false);
    var dev := DispatchEvents(t, Readiness(t.wait), ListenReady(t.wait), w);
    DispatchQuietFree(t, Readiness(t.wait), ListenReady(t.wait), w);
    JoinKeeps(pre, dev, AudioFlush);
    JoinKeeps(pre, dev, AudioPause);
    JoinKeeps(pre, dev, ServerStandby);
    assert ReactEvents(cfg, t, s, Dispatched) == pre + dev;
  }

  /** A call the tail of a trace does not make is in the trace exactly when
      it is in the head. */
  lemma JoinKeeps(pre: seq<Event>, dev: seq<Event>, x: Event)
    requires x !in dev
    ensures x in pre + dev <==> x in pre
  {
  }

  /** A call the head of a trace does not make is in the trace exactly when
      it is in the tail. */
  lemma JoinFront(pre: seq<Event>, dev: seq<Event>, x: Event)
    requires x !in pre
    ensures x in pre + dev <==> x in dev
  {
  }

  /** A reaction reads the device, and forwards what it read, exactly when
      it dispatches with a recorder and does not end in standby. */
  lemma ReactReads(cfg: Config, t: Tick, s: LoopState, o: Outcome)
    ensures var r, s' := ReactEvents(cfg, t, s, o), ReactState(cfg, t, s, o);
            var rec := if Readiness(t.wait) != 0 || t.before.playing then t.afterPoll.recording else t.before.recording;
            && (AudioRead in r <==> o == Dispatched && rec && !s'.onStandby)
            && (RecorderWrite(t.readLength) in r <==> o == Dispatched && rec && !s'.onStandby && t.readLength != 0)
  {
    if o == Dispatched {
      DispatchedReads(cfg, t, s);
    } else if o == Idled && Quiet(t.wait) {
      QuietLacks(cfg, t.now, t.before, t.standbyAfterStandby, s, AudioRead);
      QuietLacks(cfg, t.now, t.before, t.standbyAfterStandby, s, RecorderWrite(t.readLength));
    }
  }

  /** ReactReads for a reaction that dispatches. */
  lemma DispatchedReads(cfg: Config, t: Tick, s: LoopState)
    ensures var r, s' := ReactEvents(cfg, t, s, Dispatched), ReactState(cfg, t, s, Dispatched);
            var rec := if Readiness(t.wait) != 0 || t.before.playing then t.afterPoll.recording else t.before.recording;
            && (AudioRead in r <==> rec && !s'.onStandby)
            && (RecorderWrite(t.readLength) in r <==> rec && !s'.onStandby && t.readLength != 0)
  {
    var pre, w := WaitEvents(cfg, t, s), Waited(cfg, t, s).(isPausedHere := false);
    var dev := DispatchEvents(t, Readiness(t.wait), ListenReady(t.wait), w);
    if Quiet(t.wait) {
      QuietLacks(cfg, t.now, t.before, t.standbyAfterStandby, s, AudioRead);
      QuietLacks(cfg, t.now, t.before, t.standbyAfterStandby, s, RecorderWrite(t.readLength));
    }
    JoinFront(pre, dev, AudioRead);
    JoinFront(pre, dev, RecorderWrite(t.readLength));
    DispatchReads(t, Readiness(t.wait), ListenReady(t.wait), w);
    assert ReactEvents(cfg, t, s, Dispatched) == pre + dev;
    assert ReactState(cfg, t, s, Dispatched) == AfterDispatch(t, Readiness(t.wait), ListenReady(t.wait), w);
  }

  /** A reaction resumes, runs the filters on the mix, writes the device and
      sends the monitors the final buffer exactly when it dispatches with a
      poll and the call's own guard holds, and, for all but the resume, when
      it does not end in standby. */
  lemma ReactPlays(cfg: Config, t: Tick, s: LoopState, o: Outcome)
    ensures var r, s', len := ReactEvents(cfg, t, s, o), ReactState(cfg, t, s, o), PlayLength(t);
            var played := o == Dispatched && (Readiness(t.wait) != 0 || t.before.playing);
            && (ServerResume(true) in r || ServerResume(false) in r <==> played && Resumes(t))
            && (FilterWrite(t.mixLength) in r <==> played && t.afterPoll.filtering && !s'.onStandby)
            && (AudioWrite(len) in r <==> played && len > 0 && !s'.onStandby)
            && (MonitorWrite(len) in r <==> played && len > 0 && t.afterPoll.monitoring && !s'.onStandby)
  {
    if o == Dispatched {
      DispatchedPlays(cfg, t, s);
    } else if o == Idled && Quiet(t.wait) {
      var len := PlayLength(t);
      QuietLacks(cfg, t.now, t.before, t.standbyAfterStandby, s, ServerResume(true));
      QuietLacks(cfg, t.now, t.before, t.standbyAfterStandby, s, ServerResume(false));
      QuietLacks(cfg, t.now, t.before, t.standbyAfterStandby, s, FilterWrite(t.mixLength));
      QuietLacks(cfg, t.now, t.before, t.standbyAfterStandby, s, AudioWrite(len));
      QuietLacks(cfg, t.now, t.before, t.standbyAfterStandby, s, MonitorWrite(len));
    }
  }

  /** ReactPlays for a reaction that dispatches. */
  lemma DispatchedPlays(cfg: Config, t: Tick, s: LoopState)
    ensures var r, s', len := ReactEvents(cfg, t, s, Dispatched), ReactState(cfg, t, s, Dispatched), PlayLength(t);
            var polled := Readiness(t.wait) != 0 || t.before.playing;
            && (ServerResume(true) in r || ServerResume(false) in r <==> polled && Resumes(t))
            && (FilterWrite(t.mixLength) in r <==> polled && t.afterPoll.filtering && !s'.onStandby)
            && (AudioWrite(len) in r <==> polled && len > 0 && !s'.onStandby)
            && (MonitorWrite(len) in r <==> polled && len > 0 && t.afterPoll.monitoring && !s'.onStandby)
  {
    var pre, w, len := WaitEvents(cfg, t, s), Waited(cfg, t, s).(isPausedHere := false), PlayLength(t);
    var dev := DispatchEvents(t, Readiness(t.wait), ListenReady(t.wait), w);
    if Quiet(t.wait) {
      QuietLacks(cfg, t.now, t.before, t.standbyAfterStandby, s, ServerResume(true));
      QuietLacks(cfg, t.now, t.before, t.standbyAfterStandby, s, ServerResume(false));
      QuietLacks(cfg, t.now, t.before, t.standbyAfterStandby, s, FilterWrite(t.mixLength));
      QuietLacks(cfg, t.now, t.before, t.standbyAfterStandby, s, AudioWrite(len));
      QuietLacks(cfg, t.now, t.before, t.standbyAfterStandby, s, MonitorWrite(len));
    }
    JoinFront(pre, dev, ServerResume(true));
    JoinFront(pre, dev, ServerResume(false));
    JoinFront(pre, dev, FilterWrite(t.mixLength));
    JoinFront(pre, dev, AudioWrite(len));
    JoinFront(pre, dev, MonitorWrite(len));
    DispatchPlays(t, Readiness(t.wait), ListenReady(t.wait), w);
    assert ReactEvents(cfg, t, s, Dispatched) == pre + dev;
    assert ReactState(cfg, t, s, Dispatched) == AfterDispatch(t, Readiness(t.wait), ListenReady(t.wait), w);
  }

  /** One turn past the terminate test (clients.c:286-433), from state s to
      state s', with outcome o and the calls ev: the wait prepared, then the
      reaction to it, and the dispatch gating over all the calls. */
  ghost predicate Turned(cfg: Config, t: Tick, s: LoopState, s': LoopState, o: Outcome, ev: seq<Event>)
  {
    var waiting := s.(maxFd := s'.maxFd);
    && |ev| > 0 && ev[0].Select?
    && Prepared(cfg, t, s, waiting, ev[0])
    && Reacted(cfg, t, ev[0].timeout, waiting, s', o, ev[1..])
    && Gated(t, o, s'.first, s'.onStandby, ev)
  }

  /** Preparing the wait and reacting to it make one turn. */
  lemma TurnComposes(cfg: Config, t: Tick, s0: LoopState, s1: LoopState, s2: LoopState,
                     sel: Event, o: Outcome, rest: seq<Event>)
    requires Prepared(cfg, t, s0, s1, sel)
    requires sel.Select? && Reacted(cfg, t, sel.timeout, s1, s2, o, rest)
    ensures Turned(cfg, t, s0, s2, o, [sel] + rest)
  {
    assert ([sel] + rest)[1..] == rest;
    GatedPrefix(t, o, s2.first, s2.onStandby, [sel], rest);
  }

  /** A turn that runs the request poll ends the first iteration; any other
      turn leaves first as it was. */
  lemma {:induction false} TurnEndsFirst(cfg: Config, t: Tick, s: LoopState, s': LoopState, o: Outcome, ev: seq<Event>)
    requires Turned(cfg, t, s, s', o, ev)
    ensures PollRequests in ev <==> o == Dispatched && (Readiness(t.wait) != 0 || t.before.playing)
    ensures s'.first == (s.first && PollRequests !in ev)
  {
    assert ev == [ev[0]] + ev[1..];
    assert PollRequests in ev <==> PollRequests in ev[1..];
  }

  /** An idle turn leaves the buffer length, first and the registry as they
      were, and the standby flag is the one esd_server_standby leaves when
      the server enters automatic standby. */
  lemma IdleTurnKeeps(cfg: Config, t: Tick, s: LoopState, s': LoopState, ev: seq<Event>)
    requires Turned(cfg, t, s, s', Idled, ev)
    ensures s'.length == s.length && s'.first == s.first && s'.clients == s.clients && s'.closed == s.closed
    ensures s'.isPausedHere && s'.maxFd >= s.maxFd
    ensures var bored := cfg.autostandbySecs >= 0 && t.now > s'.lastActivity + cfg.autostandbySecs;
            s'.onStandby == (if bored then t.standbyAfterStandby else s.onStandby)
  {
  }

  /** In terminate mode with autostandby off, a turn that polls the clients
      with none linked and the listening socket not ready makes the next
      terminate test fire. */
  lemma ExitsOnceEmpty(cfg: Config, t: Tick, s: LoopState, s': LoopState, o: Outcome, ev: seq<Event>)
    requires Turned(cfg, t, s, s', o, ev)
    requires cfg.terminate && cfg.autostandbySecs < 0 && s.clients == [] && !ListenReady(t.wait)
    requires PollRequests in ev
    ensures ShouldExit(s'.clients, s'.first, cfg.terminate, cfg.autostandbySecs, s'.onAutostandby)
  {
    TurnEndsFirst(cfg, t, s, s', o, ev);
  }

  /** The loop's own variables (is_paused_here, first, max_fd, length) and the
      globals it updates (esd_last_activity, esd_on_standby,
      esd_on_autostandby), with the registry it reads and the acceptor fills. */
  class Loop {
    const cfg: Config
    const registry: Registry
    var isPausedHere: bool
    var first: bool
    var maxFd: int
    var length: int
    var lastActivity: int
    var onStandby: bool
    var onAutostandby: bool

    ghost predicate Valid()
      reads this, registry
    {
      registry.Valid() && cfg.rate > 0 && maxFd >= cfg.listenSocket
    }

    /** The loop's variables and the registry, as one value. */
    ghost function State(): LoopState
      reads this, registry
    {
      LoopState(isPausedHere, first, maxFd, length, lastActivity, onStandby, onAutostandby,
                registry.clients, registry.closed)
    }

    /** The state esd_comm_loop starts from. */
    constructor (cfg: Config, registry: Registry, lastActivity: int, flags: Flags)
      requires cfg.rate > 0 && registry.Valid()
      ensures Valid() && this.cfg == cfg && this.registry == registry
      ensures !isPausedHere && first && maxFd == cfg.listenSocket && length == 0
      ensures this.lastActivity == lastActivity
      ensures onStandby == flags.onStandby && onAutostandby == flags.onAutostandby
    {
      this.cfg := cfg;
      this.registry := registry;
      isPausedHere := false;
      first := true;
      maxFd := cfg.listenSocket;
      length := 0;
      this.lastActivity := lastActivity;
      onStandby := flags.onStandby;
      onAutostandby := flags.onAutostandby;
    }

    /** A wait that found nothing ready (clients.c:349-366): pause when idle,
        enter automatic standby once idle longer than the threshold, and
        report whether the rest of the iteration is skipped. */
    method Idle(now: int, before: Presence, standbyAfterStandby: bool) returns (skip: bool, ev: seq<Event>)
      requires Valid()
      modifies this
      ensures Valid()
      ensures IdleStep(cfg, now, before, standbyAfterStandby, old(State()), State(), skip, ev)
    {
      ev := [];
      if !isPausedHere && !before.playing && !before.recording {
        ev := ev + [AudioFlush];
        if !first {
          ev := ev + [AudioPause];
        }
        lastActivity := now;
        isPausedHere := true;
      }
      if isPausedHere && cfg.autostandbySecs >= 0 && now > lastActivity + cfg.autostandbySecs {
        ev := ev + [ServerStandby];
        onStandby := standbyAfterStandby;
        onAutostandby := true;
      }
      skip := !before.recording && isPausedHere;
    }

    /** The request poll, the mix, and the wake-up from automatic standby
        (clients.c:373-388). A resume is attempted only from automatic
        standby, with sound to play, and when standby was not forced. */
    method Wake(t: Tick) returns (ev: seq<Event>)
      requires Valid()
      modifies this
      ensures Valid()
      ensures WakeStep(t, old(State()), State(), ev)
    {
      ev := [PollRequests];
      onStandby, onAutostandby := t.pollFlags.onStandby, t.pollFlags.onAutostandby;
      first := false;
      ev := ev + [RefreshMix, MixPlayers];
      length := t.mixLength;
      ghost var mixed := ev;
      assert Resumes(t) == (onAutostandby && length != 0 && !t.afterPoll.forcedStandby);
      if onAutostandby && length != 0 && !t.afterPoll.forcedStandby {
        ev := ev + [ServerResume(t.resumeOk)];
        onStandby, onAutostandby := t.resumeFlags.onStandby, t.resumeFlags.onAutostandby;
        if !t.resumeOk {
          ev := ev + [Sleep(100)];
        }
      }
      assert mixed == [PollRequests, RefreshMix, MixPlayers];
      assert ev == WakeEvents(t);
    }

    /** The filter chain (clients.c:390-395): run, even on an empty buffer,
        whenever filters exist and the server is not in standby. */
    method Filter(t: Tick) returns (ev: seq<Event>)
      requires Valid()
      modifies this
      ensures Valid()
      ensures FilterStep(t, old(State()), State(), ev)
    {
      ev := [];
      if t.afterPoll.filtering && !onStandby {
        ev := [FilterWrite(length)];
        length := t.filterLength;
      }
    }

    /** The device write and the monitor fan-out (clients.c:397-423), both
        inside the `length > 0 && !write_wait` block. */
    method Output(t: Tick) returns (ev: seq<Event>)
      requires Valid()
      modifies this
      ensures Valid()
      ensures OutputStep(t, old(State()), State(), ev)
    {
      ev := [];
      if length > 0 && !WriteWait {
        if !onStandby {
          ev := ev + [AudioWrite(length)];
          lastActivity := t.now;
        }
        if t.afterPoll.monitoring && !onStandby && length != 0 {
          ev := ev + [MonitorWrite(length)];
        }
      }
    }

    /** The playback path (clients.c:373-424): poll, mix, wake, filter, write, monitor. */
    method Play(t: Tick) returns (ev: seq<Event>)
      requires Valid()
      modifies this
      ensures Valid()
      ensures PlayStep(t, old(State()), State(), ev)
    {
      ghost var s0 := State();
      var wev := Wake(t);
      ghost var s1 := State();
      var fev := Filter(t);
      ghost var s2 := State();
      var oev := Output(t);
      PlayComposes(t, s0, s1, s2, State(), wev, fev, oev);
      ev := wev + fev + oev;
    }

    /** The recorder path (clients.c:426-433). */
    method Record(t: Tick, recording: bool) returns (ev: seq<Event>)
      requires Valid()
      modifies this
      ensures Valid()
      ensures RecordStep(t, recording, old(State()), State(), ev)
    {
      ev := [];
      if recording && !onStandby {
        ev := [AudioRead];
        length := t.readLength;
        if length != 0 {
          ev := ev + [RecorderWrite(length)];
          length := t.recordedLength;
          lastActivity := t.now;
        }
      }
    }

    /** The dispatch stage (clients.c:369-433): the acceptor when the
        listening socket is ready, the playback path when something was
        ready or samples are playing, then the recorder path. */
    method Dispatch(t: Tick, ready: int, listenReady: bool) returns (ev: seq<Event>)
      requires Valid()
      modifies this, registry
      ensures Valid()
      ensures DispatchStep(t, ready, listenReady, old(State()), State(), ev)
    {
      ev := [];
      if listenReady {
        var result := GetNewClients(registry, t.accepts);
        ev := [Accept(result)];
      }
      ghost var accepted := State();
      assert accepted == AfterAccept(t, listenReady, old(State()));
      var polled := ready != 0 || t.before.playing;
      var pev := [];
      if polled {
        pev := Play(t);
      }
      ghost var played := State();
      var rev := Record(t, if polled then t.afterPoll.recording else t.before.recording);
      ServeComposes(t, polled, accepted, played, State(), pev, rev);
      AcceptComposes(t, ready, listenReady, old(State()), accepted, State(), ev, pev + rev);
      ev := ev + (pev + rev);
    }

    /** The readiness set and the timeout of one iteration
        (clients.c:269-330): what select() is asked to wait for, and for
        how long. */
    method Prepare(t: Tick) returns (e: Event)
      requires Valid()
      modifies this
      ensures Valid()
      ensures Prepared(cfg, t, old(State()), State(), e)
    {
      var rd, m := BuildReadiness(cfg.listenSocket, registry.clients, maxFd);
      maxFd := m;
      var timeout := WaitTimeout(t.before.recording, t.before.playing, isPausedHere, cfg.autostandbySecs,
                                 onStandby, lastActivity, t.now, cfg.stereo, cfg.rate);
      e := Select(maxFd + 1, rd, timeout);
    }

    /** What follows the wait (clients.c:340-433): a failed wait is treated
        as ready, retried or fatal; a wait with nothing ready pauses and may
        skip the dispatch; otherwise the dispatch runs. */
    method React(t: Tick, timeout: Timeout) returns (o: Outcome, ev: seq<Event>)
      requires Valid()
      modifies this, registry
      ensures Valid()
      ensures Reacted(cfg, t, timeout, old(State()), State(), o, ev)
    {
      var ready: int;
      var listenReady: bool;
      ev := [];
      match t.wait {
        case Failed(e, flagged) =>
          if e == EINTR && timeout.Forever? && !WriteWait {
            ready, listenReady := 1, flagged;
          } else if e == EINTR || e == EAGAIN {
            o := Retried;
            FailureReacts(cfg, t, timeout, State(), o, ev);
            return;
          } else {
            o := Exited(1);
            ev := [SelectFailed(e)];
            FailureReacts(cfg, t, timeout, State(), o, ev);
            return;
          }
        case Ready(n, flagged) =>
          ready, listenReady := n, flagged && n > 0;
          if n == 0 {
            var skip, idleEv := Idle(t.now, t.before, t.standbyAfterStandby);
            ev := idleEv;
            if skip {
              o := Idled;
              IdleReacts(cfg, t, timeout, old(State()), State(), ev);
              return;
            }
          }
      }
      assert ready == Readiness(t.wait) && listenReady == ListenReady(t.wait);
      ghost var waited := State();
      isPausedHere := false;
      var dev := Dispatch(t, ready, listenReady);
      DispatchReacts(cfg, t, timeout, old(State()), waited, State(), ev, dev);
      ev := ev + dev;
      o := Dispatched;
    }

    /** A turn past the terminate test (clients.c:286-433): the readiness
        set, the timeout, the wait, and what follows it. */
    method Turn(t: Tick) returns (o: Outcome, ev: seq<Event>)
      requires Valid()
      modifies this, registry
      ensures Valid()
      ensures Turned(cfg, t, old(State()), State(), o, ev)
    {
      var sel := Prepare(t);
      ghost var waiting := State();
      var rest;
      o, rest := React(t, sel.timeout);
      ev := [sel] + rest;
      TurnComposes(cfg, t, old(State()), waiting, State(), sel, o, rest);
    }

    /** One turn of the while (1) loop of esd_comm_loop (clients.c:267-434). */
    method Iterate(t: Tick) returns (o: Outcome, ev: seq<Event>)
      requires Valid()
      modifies this, registry
      ensures Valid()
      ensures maxFd >= old(maxFd)
      ensures |ev| >= |ReconnectEvents(t)| && ev[..|ReconnectEvents(t)|] == ReconnectEvents(t)
      // the terminate test
      ensures (o == Exited(0)) == old(ShouldExit(registry.clients, first, cfg.terminate, cfg.autostandbySecs, onAutostandby))
      ensures o == Exited(0) ==> unchanged(this) && unchanged(registry) && ev == ReconnectEvents(t) + [CleanExit]
      ensures o.Exited? ==> o.status == 0 || o.status == 1
      // otherwise the wait and what follows it
      ensures o != Exited(0) ==> Turned(cfg, t, old(State()), State(), o, ev[|ReconnectEvents(t)|..])
    {
      ev := ReconnectEvents(t);
      if ShouldExit(registry.clients, first, cfg.terminate, cfg.autostandbySecs, onAutostandby) {
        o := Exited(0);
        ev := ev + [CleanExit];
        return;
      }
      var rest;
      o, rest := Turn(t);
      ev := ev + rest;
      assert ev[|ReconnectEvents(t)|..] == rest;
      assert ev[..|ReconnectEvents(t)|] == ReconnectEvents(t);
    }

    /** The while (1) loop itself, over a finite run of iterations: it stops
        only at exit(). */
    method Run(ticks: seq<Tick>) returns (exited: bool, status: int, trace: seq<Event>)
      requires Valid()
      modifies this, registry
      ensures Valid()
      ensures maxFd >= old(maxFd)
      ensures exited ==> status == 0 || status == 1
    {
      exited, status, trace := false, 0, [];
      var i := 0;
      while i < |ticks|
        invariant 0 <= i <= |ticks|
        invariant Valid()
        invariant maxFd >= old(maxFd)
      {
        var o, ev := Iterate(ticks[i]);
        trace := trace + ev;
        if o.Exited? {
          assert o == Exited(0) || o == Exited(1);
          exited, status := true, o.status;
          return;
        }
        i := i + 1;
      }
    }
  }

  /** No external activity: nothing playing, recording, filtering or monitoring. */
  const Nothing := Presence(false, false, false, false, false)

  /** An iteration in which the wait times out with nothing ready. */
  function QuietTick(now: int): Tick
  {
    Tick(now, false, true, Nothing, Ready(0, false), true, [], Nothing, Flags(false, false),
         0, true, Flags(false, false), 0, 0, 0)
  }

  /** An idle server with autostandby armed: the first wait that times out
      pauses it and stamps the activity time, and a wait that times out past
      the threshold puts it in automatic standby. */
  method IdleServerStandsBy(secs: nat, t0: int) returns (o1: Outcome, pausedAt: int, standby1: bool,
                                                        o2: Outcome, standby2: bool)
    ensures o1 == Idled && pausedAt == t0 && !standby1
    ensures o2 == Idled && standby2
  {
    var reg := new Registry();
    var loop := new Loop(Config(3, false, secs, true, 44100), reg, 0, Flags(false, false));
    var ev;
    o1, ev := loop.Iterate(QuietTick(t0));
    pausedAt, standby1 := loop.lastActivity, loop.onAutostandby;
    o2, ev := loop.Iterate(QuietTick(t0 + secs + 1));
    standby2 := loop.onAutostandby;
  }

  /** Three accepted connections, then an empty backlog: the drain links all
      three, the most recent first, and returns 0. */
  lemma ThreeAcceptsLinkAll(a: nat, b: nat, c: nat)
    requires 0 < a && 0 < b && 0 < c
    ensures var d := Drain([Pending(a, Inet(1), true, true, true), Pending(b, Inet(2), true, true, true),
                            Pending(c, Inet(3), true, true, true), Pending(-1, Inet(0), true, true, true)], [], []);
            d.result == 0 && Fds(d.clients) == [c, b, a]
  {
    var script := [Pending(a, Inet(1), true, true, true), Pending(b, Inet(2), true, true, true),
                   Pending(c, Inet(3), true, true, true), Pending(-1, Inet(0), true, true, true)];
    DrainAdmits(script, [], []);
    DrainResult(script, [], []);
    var s1 := script[1..];
    var s2 := s1[1..];
    var s3 := s2[1..];
    assert s3 == [script[3]] && s3[1..] == [];
    assert Taken(script) == script by {
      assert Taken(s3) == s3;
      assert Taken(s2) == [s2[0]] + Taken(s3) == s2;
      assert Taken(s1) == [s1[0]] + Taken(s2) == s1;
    }
    var admitted: seq<(int, PeerAddress)> := [(a, Inet(1)), (b, Inet(2)), (c, Inet(3))];
    assert Admissions(script) == admitted by {
      assert Admissions(s3) == [];
      assert Admissions(s2) == [(c, Inet(3))];
      assert Admissions(s1) == [(b, Inet(2)), (c, Inet(3))];
    }
    assert Reverse(admitted) == [(c, Inet(3)), (b, Inet(2)), (a, Inet(1))] by {
      assert |admitted[1..][1..][1..]| == 0;
      assert Reverse(admitted[1..][1..]) == [(c, Inet(3))];
      assert Reverse(admitted[1..]) == [(c, Inet(3)), (b, Inet(2))];
    }
    var d := Drain(script, [], []);
    var conns := Connections(d.clients);
    assert conns == [(c, Inet(3)), (b, Inet(2)), (a, Inet(1))];
    assert Fds(d.clients) == [conns[0].0, conns[1].0, conns[2].0];
  }

  /** A listening socket with three pending connections: one iteration links
      all three before the dispatch goes on, the most recent first. */
  method ThreePendingConnections(a: nat, b: nat, c: nat) returns (linked: seq<int>)
    requires 0 < a && 0 < b && 0 < c
    ensures linked == [c, b, a]
  {
    var reg := new Registry();
    var loop := new Loop(Config(3, false, -1, true, 44100), reg, 0, Flags(false, false));
    var script := [Pending(a, Inet(1), true, true, true), Pending(b, Inet(2), true, true, true),
                   Pending(c, Inet(3), true, true, true), Pending(-1, Inet(0), true, true, true)];
    var t := Tick(0, false, true, Nothing, Ready(1, true), true, script, Nothing, Flags(false, false),
                  0, true, Flags(false, false), 0, 0, 0);
    var o, ev := loop.Iterate(t);
    ThreeAcceptsLinkAll(a, b, c);
    linked := Fds(reg.clients);
  }
}
