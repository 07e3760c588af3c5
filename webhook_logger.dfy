/**
 * The Discord webhook logger: a per-level, per-minute rate limiter with
 * purging of stale minute keys, the guards and payload shaping of the
 * embed sender, and the truncation of user-interaction details.
 */
module WebhookLogger {
  import opened Common

  /** `max_logs_per_minute`. */
  const MaxLogsPerMinute: nat := 10

  /** Keys older than this many seconds are purged. */
  const StaleAfterSeconds: real := 120.0

  /** Discord's limit on the number of fields of one embed. */
  const MaxFields: nat := 25

  /** Discord's limit on the length of one field value. */
  const MaxFieldValue: nat := 1024

  /**
   * A wall-clock reading, as minutes since an epoch plus the seconds into
   * that minute.
   */
  datatype Instant = Instant(minute: int, second: real)

  predicate ValidInstant(now: Instant) { 0.0 <= now.second < 60.0 }

  /**
   * A key of the rate-limit table: the `%Y-%m-%d-%H-%M` text of a minute,
   * or a text `strptime` cannot parse.
   */
  datatype MinuteKey = Minute(minute: int) | Malformed(text: string)

  /** The key of the minute `now` falls in. */
  function CurrentKey(now: Instant): MinuteKey { Minute(now.minute) }

  /** Seconds from the start of the key's minute to `now`. */
  function Age(m: int, now: Instant): real
  {
    (now.minute - m) as real * 60.0 + now.second
  }

  /** A key the purge removes: unparsable, or more than 120 s old. */
  predicate Stale(key: MinuteKey, now: Instant)
    // keys of the current and the previous minute always survive, and keys three minutes old never do
    ensures ValidInstant(now) && key.Minute? && now.minute - 1 <= key.minute <= now.minute ==> !Stale(key, now)
    ensures ValidInstant(now) && key.Minute? && key.minute <= now.minute - 3 ==> Stale(key, now)
  {
    key.Malformed? || Age(key.minute, now) > StaleAfterSeconds
  }

  /** The counters of one level after the purge. */
  function Purged(counts: map<MinuteKey, nat>, now: Instant): (r: map<MinuteKey, nat>)
    ensures forall k :: k in r ==> k in counts && r[k] == counts[k]
    ensures ValidInstant(now) && CurrentKey(now) in counts ==> CurrentKey(now) in r
  {
    map k | k in counts && !Stale(k, now) :: counts[k]
  }

  /** A key survives the purge exactly when it is neither unparsable nor too old. */
  lemma PurgedKeys(counts: map<MinuteKey, nat>, now: Instant, k: MinuteKey)
    ensures k in Purged(counts, now) <==> k in counts && (k.Minute? && Age(k.minute, now) <= StaleAfterSeconds)
  {
  }

  /** Purging twice at the same instant removes nothing more. */
  lemma PurgeIdempotent(counts: map<MinuteKey, nat>, now: Instant)
    ensures Purged(Purged(counts, now), now) == Purged(counts, now)
  {
  }

  /** Setting a surviving key before or after the purge gives the same counters. */
  lemma PurgedUpdate(counts: map<MinuteKey, nat>, now: Instant, key: MinuteKey, v: nat, w: nat)
    requires !Stale(key, now)
    ensures Purged(counts[key := v], now)[key := w] == Purged(counts, now)[key := w]
  {
  }

  /** The counters of a level, empty for a level never seen. */
  function LevelCounts(cache: map<string, map<MinuteKey, nat>>, level: string): map<MinuteKey, nat>
  {
    if level in cache then cache[level] else map[]
  }

  /** The calls counted so far for a level in the minute of `now`. */
  function CountNow(cache: map<string, map<MinuteKey, nat>>, level: string, now: Instant): nat
  {
    var counts := LevelCounts(cache, level);
    if CurrentKey(now) in counts then counts[CurrentKey(now)] else 0
  }

  /** No counter exceeds the per-minute limit. */
  predicate WithinLimit(cache: map<string, map<MinuteKey, nat>>)
    // then the count the rate check reads is never above the limit
    ensures WithinLimit(cache) ==> forall level, now :: CountNow(cache, level, now) <= MaxLogsPerMinute
  {
    forall level, key :: level in cache && key in cache[level] ==> cache[level][key] <= MaxLogsPerMinute
  }

  /** One field of an embed as the caller passed it: every entry may be missing. */
  datatype FieldInput = FieldInput(name: Option<string>, value: Option<string>, inline: Option<bool>)

  datatype Field = Field(name: string, value: string, inline: bool)

  /** A missing name, value or inline flag takes its default. */
  function ShapeField(f: FieldInput): (r: Field)
    ensures f.name.Some? ==> r.name == f.name.value
    ensures f.name.None? ==> r.name == "Field"
    ensures f.value.Some? ==> r.value == f.value.value
    ensures f.value.None? ==> r.value == "No value"
    ensures r.inline <==> f.inline == Some(true)
  {
    Field(match f.name { case Some(n) => n case None => "Field" },
          match f.value { case Some(v) => v case None => "No value" },
          match f.inline { case Some(b) => b case None => false })
  }

  /** An embed as `_send_webhook_embed` posts it. */
  datatype Embed = Embed(title: string, description: string, color: nat, timestamp: string,
                         footer: string, fields: Option<seq<Field>>, content: Option<string>)

  /** The levels with their own colour and emoji. */
  const KnownLevels: seq<string> := ["INFO", "WARNING", "ERROR", "CRITICAL", "SUCCESS", "SYSTEM", "USER"]

  /** `level_colors.get(level, 0x95a5a6)`. */
  function LevelColor(level: string): (c: nat)
    // a 24-bit RGB colour, the grey fallback for any level not listed
    ensures c <= 0xFFFFFF
    ensures level !in KnownLevels ==> c == 0x95a5a6
  {
    if level == "INFO" then 0x3498db
    else if level == "WARNING" then 0xf39c12
    else if level == "ERROR" then 0xe74c3c
    else if level == "CRITICAL" then 0x8b0000
    else if level == "SUCCESS" then 0x27ae60
    else if level == "SYSTEM" then 0x9b59b6
    else if level == "USER" then 0x1abc9c
    else 0x95a5a6
  }

  /** `level_emojis.get(level, "📝")`. */
  function LevelEmoji(level: string): string
  {
    if level == "INFO" then "\U{2139}\U{FE0F}"
    else if level == "WARNING" then "\U{26A0}\U{FE0F}"
    else if level == "ERROR" then "\U{274C}"
    else if level == "CRITICAL" then "\U{1F6A8}"
    else if level == "SUCCESS" then "\U{2705}"
    else if level == "SYSTEM" then "\U{1F527}"
    else if level == "USER" then "\U{1F464}"
    else "\U{1F4DD}"
  }

  /** Each known level has a colour of its own, and none of them is the fallback grey. */
  lemma LevelColorsDistinct()
    ensures forall i, j :: 0 <= i < j < |KnownLevels| ==> LevelColor(KnownLevels[i]) != LevelColor(KnownLevels[j])
    ensures forall i :: 0 <= i < |KnownLevels| ==> LevelColor(KnownLevels[i]) != 0x95a5a6
  {
  }

  /** A detail value longer than 1024 characters keeps its first 1021 and gains "...". */
  function TruncateDetail(value: string): (r: string)
    ensures |r| <= MaxFieldValue
    ensures |value| <= MaxFieldValue ==> r == value
    ensures |value| > MaxFieldValue ==> |r| == MaxFieldValue && r[..1021] == value[..1021] && r[1021..] == "..."
  {
    if |value| > 1024 then value[..1021] + "..." else value
  }

  /** A truncated value is left alone by a second truncation. */
  lemma TruncateIdempotent(value: string)
    ensures TruncateDetail(TruncateDetail(value)) == TruncateDetail(value)
  {
  }

  /** `str.replace("_", " ")`. */
  function Underscores(s: string): (r: string)
    ensures |r| == |s|
    ensures forall i :: 0 <= i < |s| ==> r[i] == (if s[i] == '_' then ' ' else s[i])
  {
    if s == [] then [] else [if s[0] == '_' then ' ' else s[0]] + Underscores(s[1..])
  }

  function UpperChar(c: char): char
  {
    if IsLowerLetter(c) then (c as int - 32) as char else c
  }

  /**
   * `str.title()` on ASCII text: a letter after a letter is lower-cased,
   * any other letter upper-cased; `afterLetter` says whether the text is
   * preceded by a letter.
   */
  function TitleFrom(s: string, afterLetter: bool): (r: string)
    ensures |r| == |s|
    ensures forall i :: 0 <= i < |s| ==> (IsLetter(r[i]) <==> IsLetter(s[i]))
  {
    if s == [] then []
    else
      var c := if !IsLetter(s[0]) then s[0] else if afterLetter then LowerChar(s[0]) else UpperChar(s[0]);
      [c] + TitleFrom(s[1..], IsLetter(s[0]))
  }

  /**
   * `str.title()`: a letter is upper-case exactly when it starts a word,
   * that is, when no letter comes right before it.
   */
  function Title(s: string): (r: string)
    ensures |r| == |s|
    ensures forall i :: 0 <= i < |s| && IsLetter(s[i]) ==> (IsUpper(r[i]) <==> i == 0 || !IsLetter(s[i - 1]))
  {
    TitleFromCase(s, false);
    TitleFrom(s, false)
  }

  /** Which letters `TitleFrom` upper-cases. */
  lemma {:induction false} TitleFromCase(s: string, afterLetter: bool)
    ensures forall i :: 0 <= i < |s| && IsLetter(s[i]) ==>
              (IsUpper(TitleFrom(s, afterLetter)[i]) <==> if i == 0 then !afterLetter else !IsLetter(s[i - 1]))
    decreases |s|
  {
    if s != [] {
      var t := TitleFrom(s, afterLetter);
      TitleFromCase(s[1..], IsLetter(s[0]));
      assert t[1..] == TitleFrom(s[1..], IsLetter(s[0]));
      forall i | 0 < i < |s| && IsLetter(s[i])
        ensures IsUpper(t[i]) <==> !IsLetter(s[i - 1])
      {
        assert t[i] == t[1..][i - 1] && s[i] == s[1..][i - 1];
        if i > 1 { assert s[i - 1] == s[1..][i - 2]; }
      }
    }
  }

  /** Title-casing a title-cased text changes nothing. */
  lemma {:induction false} TitleFromIdempotent(s: string, afterLetter: bool)
    ensures TitleFrom(TitleFrom(s, afterLetter), afterLetter) == TitleFrom(s, afterLetter)
    decreases |s|
  {
    if s != [] {
      var t := TitleFrom(s, afterLetter);
      assert t[1..] == TitleFrom(s[1..], IsLetter(s[0]));
      assert IsLetter(t[0]) <==> IsLetter(s[0]);
      TitleFromIdempotent(s[1..], IsLetter(s[0]));
    }
  }

  lemma TitleIdempotent(s: string)
    ensures Title(Title(s)) == Title(s)
  {
    TitleFromIdempotent(s, false);
  }

  class DiscordWebhookLogger {
    const webhookUrl: string
    var enabled: bool
    var hasSession: bool
    /** `rate_limit_cache`: level, then minute key, to the calls accepted. */
    var rateLimitCache: map<string, map<MinuteKey, nat>>
    /** Every embed posted to the webhook, in order. */
    var posted: seq<Embed>

    ghost predicate Valid()
      reads this
    {
      WithinLimit(rateLimitCache)
    }

    constructor (url: string)
      ensures webhookUrl == url && enabled && !hasSession && rateLimitCache == map[] && posted == []
      ensures Valid()
    {
      webhookUrl := url;
      enabled := true;
      hasSession := false;
      rateLimitCache := map[];
      posted := [];
    }

    /**
     * The removal part of `_check_rate_limit`: collect the stale keys,
     * then delete them.
     */
    static method PurgeStale(counts: map<MinuteKey, nat>, now: Instant) returns (kept: map<MinuteKey, nat>)
      ensures kept == Purged(counts, now)
    {
      var toRemove: set<MinuteKey> := {};
      var pending := counts.Keys;
      while pending != {}
        invariant pending <= counts.Keys
        invariant forall k :: k in toRemove <==> k in counts && k !in pending && Stale(k, now)
        decreases |pending|
      {
        var key :| key in pending;
        if Stale(key, now) {
          toRemove := toRemove + {key};
        }
        pending := pending - {key};
      }
      kept := counts - toRemove;
    }

    /**
     * `_check_rate_limit(level)`: make sure the level's current-minute
     * counter exists, purge the level's stale keys, then accept and count
     * the call unless the counter has reached the limit.
     */
    method CheckRateLimit(level: string, now: Instant) returns (allowed: bool)
      requires ValidInstant(now) && Valid()
      modifies this`rateLimitCache
      ensures Valid()
      ensures allowed <==> CountNow(old(rateLimitCache), level, now) < MaxLogsPerMinute
      ensures rateLimitCache == old(rateLimitCache)[level :=
                Purged(LevelCounts(old(rateLimitCache), level), now)[CurrentKey(now) :=
                  CountNow(old(rateLimitCache), level, now) + (if allowed then 1 else 0)]]
    {
      var key := CurrentKey(now);
      var counts: map<MinuteKey, nat> := LevelCounts(rateLimitCache, level);
      if key !in counts {
        counts := counts[key := 0];
      }
      ghost var before := LevelCounts(rateLimitCache, level);
      assert counts == before[key := CountNow(rateLimitCache, level, now)];
      counts := PurgeStale(counts, now);
      assert key in counts;
      var current: nat := counts[key];
      assert current == CountNow(rateLimitCache, level, now);
      if current >= MaxLogsPerMinute {
        allowed := false;
        PurgedUpdate(before, now, key, current, current);
        assert counts == counts[key := current];
      } else {
        PurgedUpdate(before, now, key, current, current + 1);
        counts := counts[key := current + 1];
        allowed := true;
      }
      rateLimitCache := rateLimitCache[level := counts];
    }

    /**
     * `_send_webhook_embed`: nothing without an enabled logger and a
     * session, nothing when the level is rate limited; otherwise the
     * embed is posted with at most 25 shaped fields and the default
     * footer when none is given. `isoNow` and `footerTime` stand for the
     * two clock texts the embed carries.
     */
    method SendWebhookEmbed(title: string, description: string, level: string,
                            fields: Option<seq<FieldInput>>, footer: Option<string>,
                            content: Option<string>, now: Instant, isoNow: string, footerTime: string)
      returns (sent: bool)
      requires ValidInstant(now) && Valid()
      modifies this`rateLimitCache, this`posted
      ensures Valid()
      ensures !(enabled && hasSession) ==> !sent && rateLimitCache == old(rateLimitCache) && posted == old(posted)
      ensures enabled && hasSession ==>
                (sent <==> CountNow(old(rateLimitCache), level, now) < MaxLogsPerMinute)
      ensures !sent ==> posted == old(posted)
      ensures sent ==> |posted| == |old(posted)| + 1 && posted[..|old(posted)|] == old(posted)
      ensures sent ==>
                var e := posted[|posted| - 1];
                e.title == LevelEmoji(level) + " " + title && e.description == description
                && e.color == LevelColor(level)
                && e.footer == (if footer.Some? && footer.value != "" then footer.value
                                else "QuranBot VPS Webhook \U{2022} " + footerTime)
                && (e.fields.Some? <==> fields.Some? && fields.value != [])
                && (e.fields.Some? ==>
                      |e.fields.value| == (if |fields.value| < MaxFields then |fields.value| else MaxFields)
                      && forall i :: 0 <= i < |e.fields.value| ==> e.fields.value[i] == ShapeField(fields.value[i]))
                && (e.content.Some? <==> content.Some? && content.value != "")
                && (e.content.Some? ==> e.content == content)
    {
      if !enabled || !hasSession {
        return false;
      }
      var allowed := CheckRateLimit(level, now);
      if !allowed {
        return false;
      }
      var shaped: Option<seq<Field>> := None;
      if fields.Some? && fields.value != [] {
        var fs := ShapeFields(fields.value);
        shaped := Some(fs);
      }
      var embed := Embed(LevelEmoji(level) + " " + title, description, LevelColor(level), isoNow,
                         if footer.Some? && footer.value != "" then footer.value
                         else "QuranBot VPS Webhook \U{2022} " + footerTime,
                         shaped,
                         if content.Some? && content.value != "" then content else None);
      posted := posted + [embed];
      sent := true;
    }

    /** The field loop of `_send_webhook_embed`: the first 25 fields, with their defaults. */
    static method ShapeFields(fields: seq<FieldInput>) returns (shaped: seq<Field>)
      ensures |shaped| == if |fields| < MaxFields then |fields| else MaxFields
      ensures forall i :: 0 <= i < |shaped| ==> shaped[i] == ShapeField(fields[i])
    {
      var capped := if |fields| < MaxFields then fields else fields[..MaxFields];
      shaped := [];
      var i := 0;
      while i < |capped|
        invariant 0 <= i <= |capped|
        invariant |shaped| == i
        invariant forall j :: 0 <= j < i ==> shaped[j] == ShapeField(capped[j])
      {
        shaped := shaped + [ShapeField(capped[i])];
        i := i + 1;
      }
    }

    /**
     * The detail loop of `log_user_interaction`: one inline field per
     * detail, its key title-cased with spaces for underscores and its
     * value truncated to 1024 characters.
     */
    static method DetailFields(details: seq<(string, string)>) returns (fields: seq<FieldInput>)
      ensures |fields| == |details|
      ensures forall i :: 0 <= i < |details| ==>
                fields[i] == FieldInput(Some(Title(Underscores(details[i].0))),
                                        Some(TruncateDetail(details[i].1)), Some(true))
      ensures forall i :: 0 <= i < |details| ==> |fields[i].value.value| <= MaxFieldValue
    {
      fields := [];
      var i := 0;
      while i < |details|
        invariant 0 <= i <= |details|
        invariant |fields| == i
        invariant forall j :: 0 <= j < i ==>
                    fields[j] == FieldInput(Some(Title(Underscores(details[j].0))),
                                            Some(TruncateDetail(details[j].1)), Some(true))
      {
        var fieldValue := details[i].1;
        if |fieldValue| > 1024 {
          fieldValue := fieldValue[..1021] + "...";
        }
        fields := fields + [FieldInput(Some(Title(Underscores(details[i].0))), Some(fieldValue), Some(true))];
        i := i + 1;
      }
    }

    /**
     * `initialize()`: an empty URL disables the logger; otherwise a
     * session is opened (`sessionOpened` says whether that succeeded) and
     * a SYSTEM heartbeat is sent through the rate limiter.
     */
    method Initialize(sessionOpened: bool, now: Instant, isoNow: string, footerTime: string, startedText: string)
      returns (ok: bool)
      requires ValidInstant(now) && Valid()
      modifies this`enabled, this`hasSession, this`rateLimitCache, this`posted
      ensures Valid()
      ensures ok <==> webhookUrl != "" && sessionOpened
      ensures !ok ==> !enabled && rateLimitCache == old(rateLimitCache) && posted == old(posted)
      ensures webhookUrl == "" ==> hasSession == old(hasSession)
      ensures ok ==> hasSession && enabled == old(enabled)
    {
      if webhookUrl == "" {
        enabled := false;
        return false;
      }
      if !sessionOpened {
        enabled := false;
        return false;
      }
      hasSession := true;
      var fields := [
        FieldInput(Some("Logging Method"), Some("Discord Webhook"), Some(true)),
        FieldInput(Some("Rate Limit"), Some("10 logs/minute"), Some(true)),
        FieldInput(Some("Reliability"), Some("\U{2705} Independent of bot status"), Some(true)),
        FieldInput(Some("Started"), Some(startedText), Some(true))
      ];
      var _ := SendWebhookEmbed("\U{1F680} QuranBot Webhook Logger Started",
                                "**Webhook-based Discord logging is now active**", "SYSTEM",
                                Some(fields), None, None, now, isoNow, footerTime);
      return true;
    }

    /** `close()`. */
    method Close()
      modifies this`hasSession
      ensures !hasSession
    {
      hasSession := false;
    }

    method Disable()
      modifies this`enabled
      ensures !enabled
    {
      enabled := false;
    }

    method Enable()
      modifies this`enabled
      ensures enabled
    {
      enabled := true;
    }
  }

  /**
   * Eleven calls at the same level within one minute: the first ten are
   * accepted and the eleventh is refused.
   */
  method RateLimitScenario() returns (accepted: seq<bool>)
    ensures accepted == [true, true, true, true, true, true, true, true, true, true, false]
  {
    var logger := new DiscordWebhookLogger("https://discord.example/webhook");
    var now := Instant(1000, 30.0);
    accepted := [];
    var i := 0;
    while i < 11
      invariant 0 <= i <= 11
      invariant logger.Valid()
      invariant accepted == seq(i, j => j < 10)
      invariant CountNow(logger.rateLimitCache, "INFO", now) == if i < 10 then i else 10
      modifies logger
    {
      var ok := logger.CheckRateLimit("INFO", now);
      accepted := accepted + [ok];
      i := i + 1;
    }
  }
}
