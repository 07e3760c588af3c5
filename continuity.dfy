/**
 * Playback continuity around voice and gateway events: the bot's own
 * voice-state changes, the recovery on voice close codes 4006 and 4014,
 * the gateway `on_disconnect` and `on_resumed` handlers, and the shared
 * `auto_restart_audio_playback` decision.
 *
 * The handlers change three things the model keeps in a class: the audio
 * manager's bound voice client, its `is_playing` flag, and the trace of
 * effects on Discord, the audio manager and the state store. What Discord
 * and the state store answer during a handler (which clients are
 * connected, whether a connect succeeds, what the stored playback state
 * says) are parameters.
 */
module Continuity {
  import opened Common

  /** The pause before rejoining the channel the bot was dropped from. */
  const RejoinPause: nat := 5
  /** `timeout=60` of the rejoin in `on_voice_state_update`. */
  const RejoinTimeout: nat := 60
  /** `timeout=30` of `_attempt_voice_reconnection`. */
  const RecoveryTimeout: nat := 30

  /** Voice close codes that trigger a recovery. */
  const VoiceServerDown: int := 4006
  const VoiceDisconnected: int := 4014

  /** A voice client and a voice channel, by identity. */
  type ClientId = nat
  type ChannelId = nat

  /**
   * What the state store answers during one restart decision.
   * `readable`: `get_resume_info` and `load_playback_state` both return;
   * `savedIsPlaying`: the saved `is_playing` (absent reads as false);
   * `shouldResume`: the resume info's `should_resume` (absent reads as false);
   * `detailsPresent`: the resume info read for logging has `surah`, a
   * numeric `position` and `reciter`, so the log line does not raise.
   */
  datatype Store = Store(readable: bool, savedIsPlaying: bool, shouldResume: bool, detailsPresent: bool)

  /** How a `channel.connect(...)` ends: a joined client, or any exception. */
  datatype Join = Joined(client: ClientId) | JoinFailed

  /** What the handlers do to the outside world, in order. */
  datatype Effect =
    | Sleep(seconds: nat)
    | Connect(channel: ChannelId, timeout: nat)
    | Disconnect(client: ClientId)
    | StopPlayback
      /** `audio_manager.start_playback(resume_position=True)`. */
    | StartPlayback
    | Bind(client: ClientId)
    | MarkDisconnect
    | StopLogSync

  /** `should_auto_restart_audio`: a manager exists, the store reads, and it says playing or resume. */
  predicate ShouldAutoRestart(hasManager: bool, store: Store)
    // no manager, or a store whose reads raise, means no restart
    ensures !hasManager || !store.readable ==> !ShouldAutoRestart(hasManager, store)
    // otherwise it restarts when the saved state says playing or the resume info says to resume
    ensures hasManager && store.readable
            ==> (ShouldAutoRestart(hasManager, store) <==> store.savedIsPlaying || store.shouldResume)
  {
    hasManager && store.readable && (store.savedIsPlaying || store.shouldResume)
  }

  /** The client a restart uses: the one passed, else the bot's first. */
  function ChosenClient(passed: Option<ClientId>, botClients: seq<ClientId>): (c: Option<ClientId>)
    ensures passed.Some? ==> c == passed
    ensures passed.None? ==> (c.Some? <==> botClients != [])
    ensures passed.None? && c.Some? ==> c.value == botClients[0]
  {
    if passed.Some? then passed
    else if botClients != [] then Some(botClients[0])
    else None
  }

  /** The manager's client is missing or no longer connected. */
  predicate NeedsRebind(bound: Option<ClientId>, connected: set<ClientId>)
  {
    bound.None? || bound.value !in connected
  }

  /** A restart gets past its three refusals: manager, stored intent, connected client. */
  predicate Proceeds(hasManager: bool, store: Store, chosen: Option<ClientId>, connected: set<ClientId>)
  {
    hasManager && ShouldAutoRestart(hasManager, store) && chosen.Some? && chosen.value in connected
  }

  function Starts(effects: seq<Effect>): nat { multiset(effects)[StartPlayback] }

  function Marks(effects: seq<Effect>): nat { multiset(effects)[MarkDisconnect] }

  /** Effects a restart may add: rebinding the manager and starting playback, nothing else. */
  predicate OnlyBindsAndStarts(s: seq<Effect>)
  {
    forall k :: 0 <= k < |s| ==> s[k].Bind? || s[k] == StartPlayback
  }

  /**
   * The disconnects `on_disconnect` issues: one per listed client that is
   * connected, in list order.
   */
  function Disconnects(clients: seq<ClientId>, connected: set<ClientId>): (r: seq<Effect>)
    ensures |r| <= |clients|
    ensures forall k :: 0 <= k < |r| ==> r[k].Disconnect?
  {
    if clients == [] then []
    else (if clients[0] in connected then [Disconnect(clients[0])] else []) + Disconnects(clients[1..], connected)
  }

  /** What one restart decision yields: its answer, the manager's client after it, the effects it adds. */
  datatype Restarted = Restarted(ok: bool, bound: Option<ClientId>, added: seq<Effect>)

  /**
   * The decision `auto_restart_audio_playback` takes, from the manager's
   * bound client and `is_playing`, the client chosen for the restart and
   * the store's answers.
   */
  function Restart(hasManager: bool, bound: Option<ClientId>, playing: bool, chosen: Option<ClientId>,
                   connected: set<ClientId>, store: Store): (r: Restarted)
    // each refusal answers False and touches nothing
    ensures !Proceeds(hasManager, store, chosen, connected) ==> r == Restarted(false, bound, [])
    // past the refusals it answers True unless the resume details are unreadable
    ensures Proceeds(hasManager, store, chosen, connected) ==> (r.ok <==> playing || store.detailsPresent)
    // it only rebinds and starts
    ensures OnlyBindsAndStarts(r.added) && Marks(r.added) == 0
    // playback is started exactly when it succeeds from not playing
    ensures Starts(r.added) == (if r.ok && !playing then 1 else 0)
    // a successful restart leaves the manager on a connected client
    ensures r.ok ==> r.bound.Some? && r.bound.value in connected
    // the manager is rebound only away from a missing or dropped client, and then to the chosen one
    ensures r.bound != bound ==> NeedsRebind(bound, connected) && r.bound == chosen
  {
    if !Proceeds(hasManager, store, chosen, connected) then Restarted(false, bound, [])
    else
      var rebind := NeedsRebind(bound, connected);
      var bound' := if rebind then chosen else bound;
      var binds := if rebind then [Bind(chosen.value)] else [];
      if playing then Restarted(true, bound', binds)
      else if !store.detailsPresent then Restarted(false, bound', binds)
      else
        assert multiset(binds + [StartPlayback]) == multiset(binds) + multiset{StartPlayback};
        Restarted(true, bound', binds + [StartPlayback])
  }

  /** The drop branch's own effects before the restart: stop playback (with a manager), wait 5 s, connect once. */
  function RejoinSteps(hasManager: bool, channel: ChannelId): (s: seq<Effect>)
    ensures |s| >= 2 && s[|s| - 2] == Sleep(RejoinPause) && s[|s| - 1] == Connect(channel, RejoinTimeout)
    ensures hasManager <==> s[0] == StopPlayback
  {
    (if hasManager then [StopPlayback] else []) + [Sleep(RejoinPause), Connect(channel, RejoinTimeout)]
  }

  /**
   * The drop branch makes exactly one connect, to the channel it was
   * dropped from, after the 5 s pause; a restart after it never connects,
   * so nothing retries.
   */
  lemma RejoinConnectsOnce(hasManager: bool, channel: ChannelId, added: seq<Effect>)
    requires OnlyBindsAndStarts(added)
    ensures var s := RejoinSteps(hasManager, channel) + added;
            var c := |RejoinSteps(hasManager, channel)| - 1;
            s[c] == Connect(channel, RejoinTimeout) && s[c - 1] == Sleep(RejoinPause)
            && forall k :: 0 <= k < |s| && s[k].Connect? ==> k == c
    ensures Starts(RejoinSteps(hasManager, channel) + added) == Starts(added)
    ensures Marks(RejoinSteps(hasManager, channel) + added) == 0
  {
    var p := RejoinSteps(hasManager, channel);
    var s := p + added;
    forall k | |p| <= k < |s|
      ensures !s[k].Connect?
    {
      assert s[k] == added[k - |p|];
    }
    assert multiset(s) == multiset(p) + multiset(added);
  }

  /**
   * What `on_disconnect` does: disconnect every connected voice client,
   * then mark the disconnect in the state store, then stop the log sync.
   * When `mark_disconnect` raises, the outer handler skips the log sync.
   */
  function DisconnectSteps(clients: seq<ClientId>, connected: set<ClientId>, markCompletes: bool): seq<Effect>
  {
    Disconnects(clients, connected) + [MarkDisconnect] + (if markCompletes then [StopLogSync] else [])
  }

  /** In `on_disconnect` the mark comes after every voice disconnect, and the log sync stop after it. */
  lemma DisconnectStepsOrder(clients: seq<ClientId>, connected: set<ClientId>, markCompletes: bool)
    ensures var s := DisconnectSteps(clients, connected, markCompletes);
            var m := |Disconnects(clients, connected)|;
            m < |s| && s[m] == MarkDisconnect && s[..m] == Disconnects(clients, connected)
            && (forall k :: m < k < |s| ==> s[k] == StopLogSync)
            && (markCompletes <==> |s| == m + 2)
  {
    var d := Disconnects(clients, connected);
    var s := DisconnectSteps(clients, connected, markCompletes);
    assert s[..|d|] == d;
  }

  /** `on_disconnect` marks once, and never connects, rebinds or starts playback. */
  lemma DisconnectStepsOnly(clients: seq<ClientId>, connected: set<ClientId>, markCompletes: bool)
    ensures var s := DisconnectSteps(clients, connected, markCompletes);
            Marks(s) == 1 && Starts(s) == 0
            && forall k :: 0 <= k < |s| ==> !s[k].Connect? && !s[k].Bind?
  {
    var d := Disconnects(clients, connected);
    var tail := if markCompletes then [MarkDisconnect, StopLogSync] else [MarkDisconnect];
    var s := DisconnectSteps(clients, connected, markCompletes);
    assert s == d + tail;
    forall k | 0 <= k < |s|
      ensures !s[k].Connect? && !s[k].Bind?
    {
      if k < |d| {
        assert s[k] == d[k];
      } else {
        assert s[k] == tail[k - |d|];
      }
    }
    DisconnectsOnly(d);
    assert multiset(s) == multiset(d) + multiset(tail);
  }

  lemma {:induction false} DisconnectsOnly(d: seq<Effect>)
    requires forall k :: 0 <= k < |d| ==> d[k].Disconnect?
    ensures Starts(d) == 0 && Marks(d) == 0
  {
    if d != [] {
      DisconnectsOnly(d[1..]);
      assert d == [d[0]] + d[1..];
      assert multiset(d) == multiset{d[0]} + multiset(d[1..]);
    }
  }

  class Bot {
    /** Whether the `audio_manager` global is set; these handlers never reassign it. */
    const hasManager: bool
    /** `audio_manager.voice_client`. */
    var bound: Option<ClientId>
    /** `audio_manager.is_playing`. */
    var playing: bool
    var effects: seq<Effect>

    /** Without a manager there is neither a bound client nor playback. */
    predicate Valid()
      reads this
    {
      hasManager || (bound.None? && !playing)
    }

    constructor (hasManager: bool, bound: Option<ClientId>, playing: bool)
      requires hasManager || (bound.None? && !playing)
      ensures Valid()
      ensures this.hasManager == hasManager && this.bound == bound && this.playing == playing
      ensures effects == []
    {
      this.hasManager := hasManager;
      this.bound := bound;
      this.playing := playing;
      effects := [];
    }

    /**
     * `auto_restart_audio_playback`. `passed` is the client handed in,
     * `botClients` is `bot.voice_clients`, `connected` the clients whose
     * `is_connected()` holds.
     */
    method AutoRestart(passed: Option<ClientId>, botClients: seq<ClientId>, connected: set<ClientId>,
                       store: Store)
      returns (ok: bool)
      requires Valid()
      modifies this
      ensures Valid() && playing == old(playing)
      ensures var r := Restart(hasManager, old(bound), old(playing), ChosenClient(passed, botClients), connected, store);
              ok == r.ok && bound == r.bound && effects == old(effects) + r.added
    {
      if !hasManager {
        return false;
      }
      if !ShouldAutoRestart(hasManager, store) {
        return false;
      }
      var vc := ChosenClient(passed, botClients);
      if vc.None? || vc.value !in connected {
        return false;
      }
      var binds := [];
      if NeedsRebind(bound, connected) {
        binds := [Bind(vc.value)];
        bound := vc;
        effects := effects + binds;
      }
      if playing {
        return true;
      }
      if !store.detailsPresent {
        // the resume details in the log line raise, and the handler answers False
        return false;
      }
      effects := effects + [StartPlayback];
      assert effects == old(effects) + (binds + [StartPlayback]);
      ok := true;
    }

    /**
     * The bot's own branch of `on_voice_state_update`. `before` and
     * `after` are the channels before and after the change; a drop from
     * a channel rejoins it, a move between channels only rebinds the
     * manager to the guild's `voice_client` (`guildClient`).
     */
    method OnBotVoiceStateUpdate(before: Option<ChannelId>, after: Option<ChannelId>, stopCompletes: bool,
                                 join: Join, connected: set<ClientId>, store: Store,
                                 guildClient: Option<ClientId>)
      requires Valid()
      modifies this
      ensures Valid()
      // dropped from a channel: the rejoin
      ensures before.Some? && after.None? ==>
                playing == (old(playing) && !(hasManager && stopCompletes))
                && (join.JoinFailed? ==>
                      effects == old(effects) + RejoinSteps(hasManager, before.value) && bound == old(bound))
                && (join.Joined? ==>
                      var r := Restart(hasManager, old(bound), playing, Some(join.client), connected, store);
                      effects == old(effects) + RejoinSteps(hasManager, before.value) + r.added
                      && bound == r.bound)
      // moved between channels: only a rebind, and only with a manager and a guild client
      ensures before.Some? && after.Some? && before != after ==>
                var rebind := hasManager && guildClient.Some?;
                effects == old(effects) + (if rebind then [Bind(guildClient.value)] else [])
                && bound == (if rebind then guildClient else old(bound))
                && playing == old(playing)
      ensures !(before.Some? && after.None?) && !(before.Some? && after.Some? && before != after)
              ==> effects == old(effects) && bound == old(bound) && playing == old(playing)
    {
      if before.Some? && after.None? {
        RejoinAfterDrop(before.value, stopCompletes, join, connected, store);
      } else if before.Some? && after.Some? && before != after {
        if hasManager && guildClient.Some? {
          bound := guildClient;
          effects := effects + [Bind(guildClient.value)];
        }
      }
    }

    /**
     * The drop branch of `on_voice_state_update`: stop playback, wait
     * 5 s, make one connect to the channel left, and auto-restart on the
     * new client. Every failure is only logged; there is no retry.
     * `stopCompletes` says whether `stop_playback` reaches its reset of
     * `is_playing`; `join` is how the connect ends.
     */
    method RejoinAfterDrop(channel: ChannelId, stopCompletes: bool, join: Join, connected: set<ClientId>,
                           store: Store)
      requires Valid()
      modifies this
      ensures Valid()
      ensures playing == (old(playing) && !(hasManager && stopCompletes))
      ensures join.JoinFailed? ==> effects == old(effects) + RejoinSteps(hasManager, channel) && bound == old(bound)
      ensures join.Joined? ==>
                var r := Restart(hasManager, old(bound), playing, Some(join.client), connected, store);
                effects == old(effects) + RejoinSteps(hasManager, channel) + r.added && bound == r.bound
    {
      if hasManager {
        effects := effects + [StopPlayback];
        if stopCompletes {
          playing := false;
        }
      }
      effects := effects + [Sleep(RejoinPause), Connect(channel, RejoinTimeout)];
      assert effects == old(effects) + RejoinSteps(hasManager, channel);
      if join.Joined? {
        var _ := AutoRestart(Some(join.client), [], connected, store);
      }
    }

    /**
     * `_attempt_voice_reconnection`: find the guild and the target
     * channel, connect with a 30 s timeout, rebind the manager and start
     * playback, whether or not it was playing already.
     */
    method AttemptVoiceReconnection(target: ChannelId, guildFound: bool, channelFound: bool, join: Join)
      requires Valid()
      modifies this
      ensures Valid() && playing == old(playing)
      ensures !(guildFound && channelFound) ==> effects == old(effects) && bound == old(bound)
      ensures guildFound && channelFound && (join.JoinFailed? || !hasManager)
              ==> effects == old(effects) + [Connect(target, RecoveryTimeout)] && bound == old(bound)
      ensures guildFound && channelFound && join.Joined? && hasManager
              ==> effects == old(effects) + [Connect(target, RecoveryTimeout), Bind(join.client), StartPlayback]
                  && bound == Some(join.client)
      // no guard: a recovery starts playback even while it is playing
      ensures guildFound && channelFound && join.Joined? && hasManager
              ==> Starts(effects) == Starts(old(effects)) + 1
      ensures Marks(effects) == Marks(old(effects))
    {
      if guildFound && channelFound {
        effects := effects + [Connect(target, RecoveryTimeout)];
        if join.Joined? && hasManager {
          bound := Some(join.client);
          effects := effects + [Bind(join.client), StartPlayback];
        }
      }
    }

    /** `_handle_voice_connection_error`: codes 4006 and 4014 recover, any other code only logs. */
    method HandleVoiceConnectionError(code: Option<int>, target: ChannelId, guildFound: bool,
                                      channelFound: bool, join: Join)
      requires Valid()
      modifies this
      ensures Valid() && playing == old(playing)
      ensures code != Some(VoiceServerDown) && code != Some(VoiceDisconnected)
              ==> effects == old(effects) && bound == old(bound)
      ensures (code == Some(VoiceServerDown) || code == Some(VoiceDisconnected)) && guildFound && channelFound
              ==> |effects| > |old(effects)| && effects[|old(effects)|] == Connect(target, RecoveryTimeout)
      ensures Marks(effects) == Marks(old(effects))
    {
      if code == Some(VoiceServerDown) || code == Some(VoiceDisconnected) {
        AttemptVoiceReconnection(target, guildFound, channelFound, join);
      }
    }

    /**
     * `on_disconnect` on the bot's voice clients `clients`, of which
     * `connected` are connected; `markCompletes` says whether
     * `mark_disconnect` returns.
     */
    method OnDisconnect(clients: seq<ClientId>, connected: set<ClientId>, markCompletes: bool)
      requires Valid()
      modifies this
      ensures Valid() && bound == old(bound) && playing == old(playing)
      ensures effects == old(effects) + DisconnectSteps(clients, connected, markCompletes)
    {
      DisconnectClients(clients, connected);
      ghost var d := Disconnects(clients, connected);
      effects := effects + [MarkDisconnect];
      if markCompletes {
        effects := effects + [StopLogSync];
      }
      assert effects == old(effects) + (d + [MarkDisconnect] + (if markCompletes then [StopLogSync] else []));
    }

    /** The `for voice_client in bot.voice_clients` loop of `on_disconnect`. */
    method DisconnectClients(clients: seq<ClientId>, connected: set<ClientId>)
      modifies this
      ensures bound == old(bound) && playing == old(playing)
      ensures effects == old(effects) + Disconnects(clients, connected)
    {
      for i := 0 to |clients|
        invariant effects == old(effects) + Disconnects(clients[..i], connected)
        invariant bound == old(bound) && playing == old(playing)
      {
        assert clients[..i + 1] == clients[..i] + [clients[i]];
        DisconnectsAppend(clients[..i], [clients[i]], connected);
        if clients[i] in connected {
          effects := effects + [Disconnect(clients[i])];
        }
      }
      assert clients[..|clients|] == clients;
    }

    /** `on_resumed`: restart playback on the bot's first voice client, if it has one. */
    method OnResumed(clients: seq<ClientId>, connected: set<ClientId>, store: Store)
      requires Valid()
      modifies this
      ensures Valid() && playing == old(playing)
      ensures clients == [] ==> effects == old(effects) && bound == old(bound)
      ensures clients != [] ==>
                var r := Restart(hasManager, old(bound), old(playing), Some(clients[0]), connected, store);
                effects == old(effects) + r.added && bound == r.bound
    {
      if clients != [] {
        var _ := AutoRestart(Some(clients[0]), clients, connected, store);
      }
    }

    /**
     * Nothing stops two restarts in a row from both starting playback:
     * `start_playback` does not set `is_playing` itself.
     */
    method RestartTwice(vc: ClientId, connected: set<ClientId>, store: Store)
      requires Valid() && hasManager && !playing && vc in connected
      requires ShouldAutoRestart(hasManager, store) && store.detailsPresent
      modifies this
      ensures Starts(effects) == Starts(old(effects)) + 2
    {
      var first := AutoRestart(Some(vc), [], connected, store);
      ghost var mid := effects;
      var second := AutoRestart(Some(vc), [], connected, store);
      assert multiset(effects) == multiset(mid) + multiset(effects[|mid|..]);
    }
  }

  /** Exactly the listed clients that are connected get a disconnect. */
  lemma {:induction false} DisconnectsExactly(clients: seq<ClientId>, connected: set<ClientId>, c: ClientId)
    ensures Disconnect(c) in Disconnects(clients, connected) <==> c in clients && c in connected
  {
    if clients != [] {
      DisconnectsExactly(clients[1..], connected, c);
      assert c in clients <==> c == clients[0] || c in clients[1..];
    }
  }

  lemma {:induction false} DisconnectsAppend(a: seq<ClientId>, b: seq<ClientId>, connected: set<ClientId>)
    ensures Disconnects(a + b, connected) == Disconnects(a, connected) + Disconnects(b, connected)
  {
    if a == [] {
      assert a + b == b;
    } else {
      assert (a + b)[1..] == a[1..] + b;
      DisconnectsAppend(a[1..], b, connected);
    }
  }
}
