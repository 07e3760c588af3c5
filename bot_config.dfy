/**
 * Start-up configuration checks of the bot: `validate_configuration`
 * sorts what it finds into errors, which stop the start, and warnings,
 * which are only reported.
 *
 * The settings read from the environment are a value; what the host
 * answers (the audio folder on disk, the `ffmpeg -version` probe, the
 * Rich Presence dependency check, and whether the final report itself
 * raises) is a parameter.
 */
module BotConfig {
  import opened Common

  /** A setting that should be text: unset (`None`), some text, or a value of another type. */
  datatype Setting = Unset | Text(text: string) | NotText

  /** A setting that should be a boolean. */
  datatype Flag = BoolFlag(value: bool) | NotBool

  datatype Config = Config(
    token: Setting,
    guildId: int,
    targetChannelId: int,
    panelChannelId: int,
    panelAccessRoleId: int,
    audioFolder: string,
    ffmpegPath: string,
    defaultReciter: Setting,
    defaultShuffle: Flag,
    defaultLoop: Flag)

  /** What the audio folder is on disk, and how scanning it for `*.mp3` goes. */
  datatype Folder = Missing | NotADirectory | Directory(mp3Files: nat) | ScanFails

  /** How `ffmpeg -version` ends: it answers, times out, exits non-zero, is not found, or fails otherwise. */
  datatype Probe = Answers(output: string) | Hangs | ExitStatus(code: int) | NotFound | ProbeFails

  /** What `validate_rich_presence_dependencies` returns: a flag, a report, or an exception. */
  datatype RichPresence = RpFlag(ok: bool) | RpReport(warnings: seq<string>, errors: seq<string>) | RpRaises

  datatype Host = Host(folder: Folder, ffmpeg: Probe, richPresence: RichPresence, reportRaises: bool)

  /** One finding; the ids carry the name of the setting. */
  datatype Issue =
    | TokenMissing | TokenNotString | TokenTooShort | TokenShortAfterPrefix
    | IdMissing(name: string) | IdNotPositive(name: string)
    | AudioFolderUnset | AudioFolderMissing | AudioFolderNotDirectory | NoMp3Files | AudioScanFailed
    | FfmpegUnset | FfmpegNotResponding | FfmpegExitStatus(code: int) | FfmpegNotFound | FfmpegUnchecked
    | ReciterUnset | ReciterNotString | ShuffleNotBool | LoopNotBool
    | RichPresenceFailed | RichPresenceNote(text: string) | RichPresenceUnchecked

  /** The length below which the token is called invalid. */
  const MinTokenLength: nat := 50
  /** The length below which the token without its prefix is called too short. */
  const MinBareTokenLength: nat := 59

  /** `not DISCORD_TOKEN` is false: the token is set and non-empty (or of another type). */
  predicate TokenGiven(t: Setting) { t.NotText? || (t.Text? && t.text != []) }

  /** The token with a leading `"Bot "` or `"Bearer "` removed. */
  function BareToken(s: string): (r: string)
    ensures StartsWith(s, "Bot ") ==> r == s[4..]
    ensures !StartsWith(s, "Bot ") && StartsWith(s, "Bearer ") ==> r == s[7..]
    ensures !StartsWith(s, "Bot ") && !StartsWith(s, "Bearer ") ==> r == s
  {
    if StartsWith(s, "Bot ") then s[4..]
    else if StartsWith(s, "Bearer ") then s[7..]
    else s
  }

  /**
   * The findings that are errors: the token's, the required ids' and the
   * unset audio folder and FFmpeg path.
   */
  predicate IsErrorKind(i: Issue)
  {
    i == TokenMissing || i == TokenNotString || i == AudioFolderUnset || i == FfmpegUnset
    || ((i.IdMissing? || i.IdNotPositive?) && (i.name == "GUILD_ID" || i.name == "TARGET_CHANNEL_ID"))
  }

  predicate NoErrorKind(s: seq<Issue>)
  {
    forall k :: 0 <= k < |s| ==> !IsErrorKind(s[k])
  }

  lemma NoErrorKindAppend(a: seq<Issue>, b: seq<Issue>)
    requires NoErrorKind(a) && NoErrorKind(b)
    ensures NoErrorKind(a + b)
  {
    forall k | 0 <= k < |a + b| ensures !IsErrorKind((a + b)[k]) {
      if k >= |a| { assert (a + b)[k] == b[k - |a|]; }
    }
  }

  function TokenErrors(t: Setting): (e: seq<Issue>)
    ensures |e| <= 1
    ensures e == [] <==> t.Text? && t.text != []
    ensures e != [] ==> IsErrorKind(e[0])
  {
    if !TokenGiven(t) then [TokenMissing]
    else if t.NotText? then [TokenNotString]
    else []
  }

  function TokenWarnings(t: Setting): (w: seq<Issue>)
    ensures |w| <= 1 && NoErrorKind(w)
    // only a token that is usable text is judged by its length
    ensures w != [] ==> t.Text? && t.text != []
    ensures w == [TokenTooShort] <==> t.Text? && 0 < |t.text| < MinTokenLength
  {
    if !TokenGiven(t) || t.NotText? then []
    else if |t.text| < MinTokenLength then [TokenTooShort]
    else if |BareToken(t.text)| < MinBareTokenLength then [TokenShortAfterPrefix]
    else []
  }

  /** A required id: `0` means missing, a negative value is not positive. */
  function RequiredId(name: string, id: int): (r: seq<Issue>)
    ensures r == [] <==> id > 0
    ensures |r| <= 1 && forall k :: 0 <= k < |r| ==> (r[k].IdMissing? || r[k].IdNotPositive?) && r[k].name == name
  {
    if id == 0 then [IdMissing(name)]
    else if id < 0 then [IdNotPositive(name)]
    else []
  }

  /** The same test on an optional id, whose findings are warnings. */
  function OptionalId(name: string, id: int): seq<Issue>
  {
    RequiredId(name, id)
  }

  function FolderWarnings(path: string, folder: Folder): (w: seq<Issue>)
    ensures |w| <= 1 && NoErrorKind(w)
    // an unset path is an error instead, and is not looked at
    ensures w == [] <==> path == [] || (folder.Directory? && folder.mp3Files > 0)
  {
    if path == [] then []
    else match folder
      case Missing => [AudioFolderMissing]
      case NotADirectory => [AudioFolderNotDirectory]
      case Directory(n) => if n == 0 then [NoMp3Files] else []
      case ScanFails => [AudioScanFailed]
  }

  function FfmpegWarnings(path: string, probe: Probe): (w: seq<Issue>)
    ensures |w| <= 1 && NoErrorKind(w)
    // any answer of the probe passes; every other end of it is one warning
    ensures w == [] <==> path == [] || probe.Answers?
  {
    if path == [] then []
    else match probe
      // an answer without "ffmpeg version" is only logged
      case Answers(_) => []
      case Hangs => [FfmpegNotResponding]
      case ExitStatus(code) => [FfmpegExitStatus(code)]
      case NotFound => [FfmpegNotFound]
      case ProbeFails => [FfmpegUnchecked]
  }

  function DefaultsWarnings(c: Config): (w: seq<Issue>)
    ensures |w| <= 3 && NoErrorKind(w)
    ensures w == [] <==> c.defaultReciter.Text? && c.defaultReciter.text != []
                         && c.defaultShuffle.BoolFlag? && c.defaultLoop.BoolFlag?
  {
    (if !TokenGiven(c.defaultReciter) then [ReciterUnset]
     else if c.defaultReciter.NotText? then [ReciterNotString] else [])
    + (if c.defaultShuffle.NotBool? then [ShuffleNotBool] else [])
    + (if c.defaultLoop.NotBool? then [LoopNotBool] else [])
  }

  function Notes(texts: seq<string>): (r: seq<Issue>)
    ensures |r| == |texts|
    ensures forall i :: 0 <= i < |texts| ==> r[i] == RichPresenceNote(texts[i])
  {
    if texts == [] then [] else [RichPresenceNote(texts[0])] + Notes(texts[1..])
  }

  /** The Rich Presence check only ever adds warnings, its own errors included. */
  function RichPresenceWarnings(rp: RichPresence): (w: seq<Issue>)
    ensures NoErrorKind(w)
    ensures rp.RpReport? ==> |w| == |rp.warnings| + |rp.errors|
    ensures w == [] <==> rp == RpFlag(true) || (rp.RpReport? && rp.warnings == [] && rp.errors == [])
  {
    match rp
    case RpFlag(ok) => if ok then [] else [RichPresenceFailed]
    case RpReport(ws, es) => Notes(ws) + Notes(es)
    case RpRaises => [RichPresenceUnchecked]
  }

  /** The error list: token, guild, target channel, audio folder and FFmpeg path. */
  function ConfigErrors(c: Config): (e: seq<Issue>)
    // it is empty exactly when every required setting is usable
    ensures e == [] <==>
              c.token.Text? && c.token.text != [] && c.guildId > 0 && c.targetChannelId > 0
              && c.audioFolder != [] && c.ffmpegPath != []
    // one error per failing setting, at most five
    ensures |e| <= 5
    // and each of them a finding that only ever counts as an error
    ensures forall k :: 0 <= k < |e| ==> IsErrorKind(e[k])
  {
    TokenErrors(c.token)
    + RequiredId("GUILD_ID", c.guildId)
    + RequiredId("TARGET_CHANNEL_ID", c.targetChannelId)
    + (if c.audioFolder == [] then [AudioFolderUnset] else [])
    + (if c.ffmpegPath == [] then [FfmpegUnset] else [])
  }

  /** The warning list, in the order the checks append to it. */
  function ConfigWarnings(c: Config, h: Host): (w: seq<Issue>)
    // no finding that is an error is ever only warned about
    ensures NoErrorKind(w)
  {
    var w1 := TokenWarnings(c.token);
    var w2 := OptionalId("PANEL_CHANNEL_ID", c.panelChannelId);
    var w3 := OptionalId("PANEL_ACCESS_ROLE_ID", c.panelAccessRoleId);
    var w4 := FolderWarnings(c.audioFolder, h.folder);
    var w5 := FfmpegWarnings(c.ffmpegPath, h.ffmpeg);
    var w6 := DefaultsWarnings(c);
    var w7 := RichPresenceWarnings(h.richPresence);
    NoErrorKindAppend(w1, w2);
    NoErrorKindAppend(w1 + w2, w3);
    NoErrorKindAppend(w1 + w2 + w3, w4);
    NoErrorKindAppend(w1 + w2 + w3 + w4, w5);
    NoErrorKindAppend(w1 + w2 + w3 + w4 + w5, w6);
    NoErrorKindAppend(w1 + w2 + w3 + w4 + w5 + w6, w7);
    w1 + w2 + w3 + w4 + w5 + w6 + w7
  }

  /**
   * `validate_configuration`. Returns the verdict with the two lists it
   * reports.
   */
  method ValidateConfiguration(c: Config, h: Host) returns (ok: bool, errors: seq<Issue>, warnings: seq<Issue>)
    ensures errors == ConfigErrors(c) && warnings == ConfigWarnings(c, h)
    // warnings never fail it: the verdict reads the errors and the report only
    ensures ok <==> errors == [] && !h.reportRaises
  {
    errors := [];
    warnings := [];

    if !TokenGiven(c.token) {
      errors := errors + [TokenMissing];
    } else if c.token.NotText? {
      errors := errors + [TokenNotString];
    } else if |c.token.text| < MinTokenLength {
      warnings := warnings + [TokenTooShort];
    } else {
      var bare := c.token.text;
      if StartsWith(bare, "Bot ") {
        bare := bare[4..];
      } else if StartsWith(bare, "Bearer ") {
        bare := bare[7..];
      }
      if |bare| < MinBareTokenLength {
        warnings := warnings + [TokenShortAfterPrefix];
      }
    }

    assert errors == TokenErrors(c.token) && warnings == TokenWarnings(c.token);

    errors := errors + RequiredId("GUILD_ID", c.guildId);
    errors := errors + RequiredId("TARGET_CHANNEL_ID", c.targetChannelId);
    warnings := warnings + OptionalId("PANEL_CHANNEL_ID", c.panelChannelId);
    warnings := warnings + OptionalId("PANEL_ACCESS_ROLE_ID", c.panelAccessRoleId);

    ghost var idErrors := errors;
    ghost var idWarnings := warnings;
    if c.audioFolder == [] {
      errors := errors + [AudioFolderUnset];
    } else {
      warnings := warnings + FolderWarnings(c.audioFolder, h.folder);
    }

    if c.ffmpegPath == [] {
      errors := errors + [FfmpegUnset];
    } else {
      warnings := warnings + FfmpegWarnings(c.ffmpegPath, h.ffmpeg);
    }

    assert errors == idErrors + (if c.audioFolder == [] then [AudioFolderUnset] else [])
                    + (if c.ffmpegPath == [] then [FfmpegUnset] else []);
    assert warnings == idWarnings + FolderWarnings(c.audioFolder, h.folder) + FfmpegWarnings(c.ffmpegPath, h.ffmpeg);
    warnings := warnings + DefaultsWarnings(c);
    warnings := warnings + RichPresenceWarnings(h.richPresence);

    if errors != [] {
      return false, errors, warnings;
    }
    ok := !h.reportRaises;
  }

  /** A token is an error or draws a warning, never both. */
  lemma TokenErrorOrWarning(t: Setting)
    ensures TokenErrors(t) == [] || TokenWarnings(t) == []
    ensures |TokenErrors(t)| + |TokenWarnings(t)| <= 1
  {
  }

  /**
   * A long enough token still warns when its prefix leaves fewer than 59
   * characters, and a long bare token draws no finding at all.
   */
  lemma {:induction false} TokenLengthRule(s: string)
    requires |s| >= MinTokenLength
    ensures TokenErrors(Text(s)) == []
    ensures TokenWarnings(Text(s)) == [] <==> |BareToken(s)| >= MinBareTokenLength
    ensures !StartsWith(s, "Bot ") && !StartsWith(s, "Bearer ") ==>
              (TokenWarnings(Text(s)) == [] <==> |s| >= MinBareTokenLength)
    ensures StartsWith(s, "Bot ") ==> (TokenWarnings(Text(s)) == [] <==> |s| >= MinBareTokenLength + 4)
  {
  }

  /** The errors the Rich Presence check reports land among the warnings. */
  lemma RichPresenceDemoted(c: Config, h: Host, ws: seq<string>, es: seq<string>)
    requires h.richPresence == RpReport(ws, es)
    ensures forall e :: e in es ==> RichPresenceNote(e) in ConfigWarnings(c, h)
  {
    var rp := RichPresenceWarnings(h.richPresence);
    forall i | 0 <= i < |es|
      ensures RichPresenceNote(es[i]) in rp
    {
      assert rp[|ws| + i] == Notes(es)[i];
    }
  }
}

/**
 * The routing `DiscordTreeHandler.emit` applies to discord.py's log
 * records: heartbeat chatter is dropped, the rest goes to the handler for
 * the first of voice state, gateway and client that the logger's name
 * contains, else to the generic one.
 */
module DiscordLogs {
  import opened Common

  const SkipPhrases: seq<string> :=
    ["keeping websocket alive", "sending heartbeat", "received heartbeat", "heartbeat acknowledged"]

  datatype Route = Skipped | VoiceStateLog | GatewayLog | ClientLog | GenericLog

  /** The lower-cased message contains one of the skip phrases. */
  predicate IsChatter(message: string)
  {
    exists i :: 0 <= i < |SkipPhrases| && Contains(Lower(message), SkipPhrases[i])
  }

  /** Where `emit` sends a record with formatted text `message` from logger `loggerName`. */
  function RouteOf(message: string, loggerName: string): (r: Route)
    ensures r == Skipped <==> IsChatter(message)
    ensures r == VoiceStateLog <==> !IsChatter(message) && Contains(loggerName, "voice_state")
    ensures r == GatewayLog <==>
              !IsChatter(message) && !Contains(loggerName, "voice_state") && Contains(loggerName, "gateway")
    ensures r == ClientLog <==>
              !IsChatter(message) && !Contains(loggerName, "voice_state") && !Contains(loggerName, "gateway")
              && Contains(loggerName, "client")
  {
    if IsChatter(message) then Skipped
    else if Contains(loggerName, "voice_state") then VoiceStateLog
    else if Contains(loggerName, "gateway") then GatewayLog
    else if Contains(loggerName, "client") then ClientLog
    else GenericLog
  }

  /** A message that is not chatter is routed by the logger's name alone. */
  lemma RouteByNameOnly(m1: string, m2: string, loggerName: string)
    requires !IsChatter(m1) && !IsChatter(m2)
    ensures RouteOf(m1, loggerName) == RouteOf(m2, loggerName)
  {
  }

  lemma {:induction false} LowerIdempotent(s: string)
    ensures Lower(Lower(s)) == Lower(s)
  {
    var l := Lower(s);
    assert forall i :: 0 <= i < |s| ==> Lower(l)[i] == LowerChar(LowerChar(s[i]));
  }

  /** Skipping ignores case: a message and its lower-cased form are routed alike. */
  lemma ChatterIgnoresCase(message: string, loggerName: string)
    ensures RouteOf(Lower(message), loggerName) == RouteOf(message, loggerName)
  {
    LowerIdempotent(message);
  }

  /**
   * A message whose lower-cased form holds a heartbeat phrase is dropped,
   * whatever its case, its surroundings and its logger.
   */
  lemma HeartbeatDropped(message: string, before: string, after: string, loggerName: string)
    requires Lower(message) == before + "sending heartbeat" + after
    ensures RouteOf(message, loggerName) == Skipped
  {
    var lm := Lower(message);
    assert lm[|before|..|before| + |SkipPhrases[1]|] == SkipPhrases[1];
    assert OccursAt(lm, SkipPhrases[1], |before|);
  }

  /** A gateway record that is not chatter goes to the gateway handler. */
  lemma GatewayRecord(message: string)
    requires !IsChatter(message)
    ensures RouteOf(message, "discord.gateway") == GatewayLog
  {
    var name := "discord.gateway";
    assert OccursAt(name, "gateway", 8);
    forall i | 0 <= i <= |name| - |"voice_state"|
      ensures !OccursAt(name, "voice_state", i)
    {
      assert name[i] != 'v';
      assert name[i..i + 11][0] == name[i];
    }
  }
}
