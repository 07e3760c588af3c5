/**
 * The web command processor: a directory of JSON command files written by
 * the dashboard, each carrying a `type`, a `data` object and a `status`.
 * Pending commands are marked "processing", routed to a handler, and then
 * marked "completed" or "failed" together with the handler's result. The
 * audio, bot and quiz handlers are decision tables over the bot's state.
 *
 * The queue directory, its listing, the clock and the bot (guild, voice
 * client, quiz manager) are inputs or fields; the handlers that only call
 * into other subsystems (quiz send and reset, cache, log sync, backup)
 * have their results supplied.
 */
module WebCommands {
  import opened Common

  /** A handler's result: `{"success": True, "message": …}` or `{"success": False, "error": …}`. */
  datatype CommandResult = Succeeded(message: string) | FailedWith(error: string)

  /** The voice client's two predicates, `is_playing()` and `is_paused()`. */
  datatype VoiceClient = VoiceClient(playing: bool, paused: bool)

  /** The results of the handlers that are not modelled. */
  datatype ExternalOutcomes = ExternalOutcomes(
    quizSend: CommandResult, quizReset: CommandResult,
    systemCache: CommandResult, systemLogs: CommandResult, systemBackup: CommandResult)

  /**
   * What the handlers see of the bot. `guildSetting` is `GUILD_ID` read
   * as an integer, `None` when it is not one; `voice` is the guild's voice
   * client; `quizInterval` is the quiz manager's interval in hours, `None`
   * when there is no quiz manager, and `quizAccepts` says whether it takes
   * a new interval.
   */
  datatype World = World(
    guildSetting: Option<int>, guildFound: bool, voice: Option<VoiceClient>,
    quizInterval: Option<real>, quizAccepts: bool, external: ExternalOutcomes)

  /**
   * A command as it is stored. `data` holds the text of each value of the
   * `data` object.
   */
  datatype Command = Command(
    id: Option<string>, kind: Option<string>, data: map<string, string>,
    status: Option<string>, startedAt: Option<string>,
    result: Option<CommandResult>, error: Option<string>, processedAt: Option<string>)

  /** A file of the queue directory: text that is not a command, or a command. */
  datatype QueueFile = Garbled | Stored(command: Command)

  /** `dict.get(key)`. */
  function Get(data: map<string, string>, key: string): (v: Option<string>)
    ensures v.Some? <==> key in data
    ensures v.Some? ==> v.value == data[key]
  {
    if key in data then Some(data[key]) else None
  }

  /** How Python prints a value that may be `None`. */
  function Shown(v: Option<string>): string
  {
    if v.Some? then v.value else "None"
  }

  datatype VoiceCall = NoCall | Resume | Pause | Stop

  /** The voice client after a call, as a voice client reports it. */
  function AfterCall(v: VoiceClient, call: VoiceCall): (w: VoiceClient)
    ensures call == Resume ==> w.playing && !w.paused
    ensures call == Pause ==> !w.playing && w.paused
    ensures call == Stop ==> !w.playing && !w.paused
    ensures call == NoCall ==> w == v
  {
    match call
    case NoCall => v
    case Resume => VoiceClient(true, false)
    case Pause => VoiceClient(false, true)
    case Stop => VoiceClient(false, false)
  }

  predicate IsPaused(voice: Option<VoiceClient>) { voice.Some? && voice.value.paused }

  predicate IsPlaying(voice: Option<VoiceClient>) { voice.Some? && voice.value.playing }

  /** The decision table of `_handle_audio_control`, with the voice call it makes. */
  function AudioDecision(action: Option<string>, data: map<string, string>, w: World)
    : (r: (CommandResult, VoiceCall))
    ensures r.0.Succeeded? ==> w.guildSetting.Some? && w.guildSetting.value != 0 && w.guildFound
    ensures r.1 != NoCall ==> r.0.Succeeded? && w.voice.Some?
  {
    if w.guildSetting.None? then (FailedWith("invalid literal for int()"), NoCall)
    else if w.guildSetting.value == 0 then (FailedWith("Guild ID not configured"), NoCall)
    else if !w.guildFound then (FailedWith("Guild not found"), NoCall)
    else if action == Some("play") then
      if IsPaused(w.voice) then (Succeeded("Audio playback resumed"), Resume)
      else (FailedWith("No paused audio to resume"), NoCall)
    else if action == Some("pause") then
      if IsPlaying(w.voice) then (Succeeded("Audio playback paused"), Pause)
      else (FailedWith("No audio currently playing"), NoCall)
    else if action == Some("stop") then
      if IsPlaying(w.voice) || IsPaused(w.voice) then (Succeeded("Audio playback stopped"), Stop)
      else (FailedWith("No audio to stop"), NoCall)
    else if action == Some("skip") then
      if IsPlaying(w.voice) || IsPaused(w.voice) then (Succeeded("Skipped to next verse"), Stop)
      else (FailedWith("No audio to skip"), NoCall)
    else if action == Some("volume") then
      var volume := if "value" in data then data["value"] else "50";
      (Succeeded("Volume set to " + volume + "% (simulated)"), NoCall)
    else if action == Some("jump") then
      (Succeeded("Jumped to Surah " + Shown(Get(data, "surah")) + " (simulated)"), NoCall)
    else if action == Some("reciter") then
      (Succeeded("Reciter changed to " + Shown(Get(data, "reciter")) + " (simulated)"), NoCall)
    else (FailedWith("Unknown audio action: " + Shown(action)), NoCall)
  }

  /** `_handle_audio_control`: the result and the bot afterwards. */
  function AudioControl(data: map<string, string>, w: World): (r: (CommandResult, World))
    ensures r.1.guildSetting == w.guildSetting && r.1.guildFound == w.guildFound
    ensures r.1.quizInterval == w.quizInterval
    ensures r.1.voice.Some? <==> w.voice.Some?
  {
    var (result, call) := AudioDecision(Get(data, "action"), data, w);
    var voice := if w.voice.Some? then Some(AfterCall(w.voice.value, call)) else None;
    (result, w.(voice := voice))
  }

  /** Once the guild is configured and found, which audio actions succeed. */
  lemma AudioTable(action: Option<string>, data: map<string, string>, w: World)
    requires w.guildSetting.Some? && w.guildSetting.value != 0 && w.guildFound
    ensures var ok := AudioDecision(action, data, w).0.Succeeded?;
            && (action == Some("play") ==> (ok <==> IsPaused(w.voice)))
            && (action == Some("pause") ==> (ok <==> IsPlaying(w.voice)))
            && (action == Some("stop") || action == Some("skip")
                ==> (ok <==> IsPlaying(w.voice) || IsPaused(w.voice)))
            && (action == Some("volume") || action == Some("jump") || action == Some("reciter") ==> ok)
            && (ok <==> action in KnownAudioActions(w.voice))
  {
  }

  /** The audio actions that have something to act on. */
  function KnownAudioActions(voice: Option<VoiceClient>): (s: set<Option<string>>)
    ensures Some("volume") in s && Some("jump") in s && Some("reciter") in s
    ensures None !in s
  {
    {Some("volume"), Some("jump"), Some("reciter")}
    + (if IsPaused(voice) then {Some("play")} else {})
    + (if IsPlaying(voice) then {Some("pause")} else {})
    + (if IsPlaying(voice) || IsPaused(voice) then {Some("stop"), Some("skip")} else {})
  }

  /** Without a configured, present guild every audio action fails. */
  lemma AudioNeedsGuild(action: Option<string>, data: map<string, string>, w: World)
    requires w.guildSetting.None? || w.guildSetting.value == 0 || !w.guildFound
    ensures AudioDecision(action, data, w).0.FailedWith?
    ensures AudioControl(data, w).1 == w
  {
    var call := AudioDecision(Get(data, "action"), data, w).1;
    assert call == NoCall;
    assert w.voice.Some? ==> AfterCall(w.voice.value, call) == w.voice.value;
  }

  /** Pausing playing audio and then playing it resumes it. */
  lemma PauseThenPlay(w: World, pause: map<string, string>, play: map<string, string>)
    requires w.guildSetting.Some? && w.guildSetting.value != 0 && w.guildFound
    requires IsPlaying(w.voice)
    requires Get(pause, "action") == Some("pause") && Get(play, "action") == Some("play")
    ensures var (r1, w1) := AudioControl(pause, w);
            var (r2, w2) := AudioControl(play, w1);
            r1.Succeeded? && r2.Succeeded? && IsPlaying(w2.voice) && !IsPaused(w2.voice)
  {
    var (r1, w1) := AudioControl(pause, w);
    assert IsPaused(w1.voice);
    AudioTable(Some("play"), play, w1);
  }

  /** A second pause in a row fails and leaves the voice client as it was. */
  lemma PauseTwiceFails(w: World, pause: map<string, string>)
    requires w.guildSetting.Some? && w.guildSetting.value != 0 && w.guildFound
    requires Get(pause, "action") == Some("pause")
    requires AudioControl(pause, w).0.Succeeded?
    ensures var w1 := AudioControl(pause, w).1;
            AudioControl(pause, w1).0.FailedWith? && AudioControl(pause, w1).1 == w1
  {
    var w1 := AudioControl(pause, w).1;
    assert !IsPlaying(w1.voice);
    var call := AudioDecision(Some("pause"), pause, w1).1;
    assert call == NoCall;
    assert w1.voice.Some? ==> AfterCall(w1.voice.value, call) == w1.voice.value;
  }

  /** `_handle_bot_control`: it only reports. */
  function BotControl(data: map<string, string>): (r: CommandResult)
    ensures var action := Get(data, "action");
            r.Succeeded? <==> action == Some("restart") || action == Some("stop") || action == Some("start")
  {
    var action := Get(data, "action");
    if action == Some("restart") then
      Succeeded("Bot restart logged (manual restart required for safety)")
    else if action == Some("stop") then
      Succeeded("Bot stop logged (manual stop required for safety)")
    else if action == Some("start") then Succeeded("Bot is already running")
    else FailedWith("Unknown bot action: " + Shown(action))
  }

  /** The interval the quiz toggle moves to: half an hour from above an hour, else three hours. */
  function ToggledInterval(current: real): (n: real)
    ensures n == 0.5 || n == 3.0
    ensures current > 1.0 ==> n < current
    ensures current <= 1.0 ==> n > current
  {
    if current > 1.0 then 0.5 else 3.0
  }

  /** Toggling twice always lands on the other of the two settings. */
  lemma ToggleAlternates(current: real)
    ensures ToggledInterval(ToggledInterval(current)) != ToggledInterval(current)
    ensures ToggledInterval(ToggledInterval(ToggledInterval(current))) == ToggledInterval(current)
  {
  }

  /** `_handle_quiz_toggle`: the result and the bot afterwards. */
  function QuizToggle(w: World): (r: (CommandResult, World))
    ensures w.quizInterval.None? ==> r.0 == FailedWith("Quiz manager not available") && r.1 == w
    ensures r.0.Succeeded? <==> w.quizInterval.Some? && w.quizAccepts
    ensures r.0.Succeeded? ==> r.1 == w.(quizInterval := Some(ToggledInterval(w.quizInterval.value)))
    ensures r.0.FailedWith? ==> r.1 == w
  {
    if w.quizInterval.None? then (FailedWith("Quiz manager not available"), w)
    else
      var next := ToggledInterval(w.quizInterval.value);
      if w.quizAccepts then
        (Succeeded("Quiz interval changed to " + (if next == 0.5 then "0.5" else "3.0") + " hours"),
         w.(quizInterval := Some(next)))
      else (FailedWith("Failed to update quiz interval"), w)
  }

  /** The command types `_process_command` routes. */
  const KnownTypes: set<string> :=
    {"quiz_send", "quiz_toggle", "quiz_reset", "audio_control", "bot_control",
     "system_cache", "system_logs", "system_backup"}

  /** The routing of `_process_command`: the handler's result and the bot afterwards. */
  function Dispatch(kind: Option<string>, data: map<string, string>, w: World)
    : (r: (CommandResult, World))
    ensures kind.None? || kind.value !in KnownTypes
            ==> r == (FailedWith("Unknown command type: " + Shown(kind)), w)
    ensures kind != Some("audio_control") && kind != Some("quiz_toggle") ==> r.1 == w
  {
    if kind == Some("quiz_send") then (w.external.quizSend, w)
    else if kind == Some("quiz_toggle") then QuizToggle(w)
    else if kind == Some("quiz_reset") then (w.external.quizReset, w)
    else if kind == Some("audio_control") then AudioControl(data, w)
    else if kind == Some("bot_control") then (BotControl(data), w)
    else if kind == Some("system_cache") then (w.external.systemCache, w)
    else if kind == Some("system_logs") then (w.external.systemLogs, w)
    else if kind == Some("system_backup") then (w.external.systemBackup, w)
    else (FailedWith("Unknown command type: " + Shown(kind)), w)
  }

  /** The status a handled command ends with. */
  function FinalStatus(result: CommandResult): (s: string)
    ensures s == "completed" <==> result.Succeeded?
    ensures s == "completed" || s == "failed"
  {
    if result.Succeeded? then "completed" else "failed"
  }

  /** A command that has been handled: its status agrees with its stored result. */
  predicate Handled(c: Command)
  {
    c.result.Some? && c.status == Some(FinalStatus(c.result.value)) && c.processedAt.Some?
  }

  /**
   * The processor. `queue` is the command directory (file name to file),
   * `writes` records every file write in order, and `world` is the bot as
   * the handlers see and change it.
   */
  class WebCommandProcessor {
    var isRunning: bool
    var hasTask: bool
    var tasksStarted: nat
    var cancelRequests: nat
    var queue: map<string, QueueFile>
    var writes: seq<(string, Command)>
    var world: World

    constructor(queue0: map<string, QueueFile>, world0: World)
      ensures !isRunning && !hasTask && tasksStarted == 0 && cancelRequests == 0
      ensures queue == queue0 && writes == [] && world == world0
    {
      isRunning := false;
      hasTask := false;
      tasksStarted := 0;
      cancelRequests := 0;
      queue := queue0;
      writes := [];
      world := world0;
    }

    /** `start_processing`: starts one processing loop unless one is running. */
    method StartProcessing()
      modifies this`isRunning, this`hasTask, this`tasksStarted
      ensures isRunning
      ensures old(isRunning) ==> hasTask == old(hasTask) && tasksStarted == old(tasksStarted)
      ensures !old(isRunning) ==> hasTask && tasksStarted == old(tasksStarted) + 1
    {
      if !isRunning {
        isRunning := true;
        hasTask := true;
        tasksStarted := tasksStarted + 1;
      }
    }

    /** `stop_processing`: clears the flag and cancels the task if there is one. */
    method StopProcessing()
      modifies this`isRunning, this`cancelRequests
      ensures !isRunning
      ensures cancelRequests == old(cancelRequests) + (if hasTask then 1 else 0)
    {
      isRunning := false;
      if hasTask {
        cancelRequests := cancelRequests + 1;
      }
    }

    /**
     * `_process_command` on the command read from file `name`, given
     * whether that file can be written. The "processing" mark is written
     * before the handler runs and the outcome after it; when the first
     * write fails the command fails, the write of that failure fails too,
     * and nothing changes.
     */
    method ProcessCommand(name: string, command: Command, now: string, writable: bool)
      modifies this`queue, this`writes, this`world
      ensures !writable ==> queue == old(queue) && writes == old(writes) && world == old(world)
      ensures writable ==>
                var marked := command.(status := Some("processing"), startedAt := Some(now));
                var (result, w) := Dispatch(command.kind, command.data, old(world));
                var final := marked.(status := Some(FinalStatus(result)), result := Some(result),
                                     processedAt := Some(now));
                && world == w
                && writes == old(writes) + [(name, marked), (name, final)]
                && queue == old(queue)[name := Stored(final)]
                && Handled(final)
    {
      var current := command;
      current := current.(status := Some("processing"));
      current := current.(startedAt := Some(now));
      if !writable {
        // the exception handler marks the command failed, and its write fails as well
        return;
      }
      writes := writes + [(name, current)];
      queue := queue[name := Stored(current)];
      var (result, w) := Dispatch(command.kind, command.data, world);
      world := w;
      current := current.(status := Some(FinalStatus(result)));
      current := current.(result := Some(result));
      current := current.(processedAt := Some(now));
      writes := writes + [(name, current)];
      queue := queue[name := Stored(current)];
    }

    /** The files `_process_pending_commands` picks up: stored commands whose status is "pending". */
    static predicate IsPending(f: QueueFile)
    {
      f.Stored? && f.command.status == Some("pending")
    }

    /** A file holding a command that has been handled. */
    static predicate IsHandled(f: QueueFile)
    {
      f.Stored? && Handled(f.command)
    }

    /** The files a pass over `names` handles: listed, pending to begin with, and writable. */
    static predicate Selected(n: string, names: seq<string>, q: map<string, QueueFile>, writable: set<string>)
      requires n in q
    {
      n in names && IsPending(q[n]) && n in writable
    }

    /** One file of the listing: read it and process it when it is pending. */
    method VisitFile(name: string, now: string, writable: bool)
      modifies this`queue, this`writes, this`world
      ensures queue.Keys == old(queue).Keys
      ensures forall n :: n in queue && n != name ==> queue[n] == old(queue)[n]
      ensures name in queue ==>
                if IsPending(old(queue)[name]) && writable then IsHandled(queue[name])
                else queue[name] == old(queue)[name]
    {
      if name in queue && IsPending(queue[name]) {
        ProcessCommand(name, queue[name].command, now, writable);
      }
    }

    /**
     * `_process_pending_commands` over the directory listing `listing`;
     * `writable` names the files that can be written. Nothing happens when
     * the directory does not exist.
     */
    method ProcessPendingCommands(queueExists: bool, listing: seq<string>, now: string,
                                  writable: set<string>)
      modifies this`queue, this`writes, this`world
      ensures queue.Keys == old(queue).Keys
      ensures !queueExists ==> queue == old(queue) && writes == old(writes) && world == old(world)
      // a file is touched only when it was listed, pending and writable
      ensures forall n :: n in old(queue) && !Selected(n, listing, old(queue), writable)
                ==> queue[n] == old(queue)[n]
      // and then it ends handled
      ensures queueExists ==>
                forall n :: n in old(queue) && Selected(n, listing, old(queue), writable)
                  ==> IsHandled(queue[n])
    {
      if !queueExists {
        return;
      }
      ghost var q0 := queue;
      var i := 0;
      while i < |listing|
        invariant 0 <= i <= |listing|
        invariant queue.Keys == q0.Keys
        invariant forall n :: n in q0 ==>
                    if Selected(n, listing[..i], q0, writable) then IsHandled(queue[n])
                    else queue[n] == q0[n]
      {
        var name := listing[i];
        VisitFile(name, now, name in writable);
        assert forall n :: n in q0 && n != name ==>
                 (Selected(n, listing[..i + 1], q0, writable) <==> Selected(n, listing[..i], q0, writable)) by {
          assert listing[..i + 1] == listing[..i] + [name];
        }
        i := i + 1;
      }
      assert listing[..i] == listing;
    }
  }
}
