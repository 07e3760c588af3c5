# QuranBot core, modelled in Dafny

QuranBot is a Discord bot that streams Quran recitations into a voice channel without a break. This project models the parts of it that make decisions: how the bot keeps its voice connection and its playback going, how it sorts its start-up configuration checks, how it lays out its tree-style logs, how it rate-limits its webhook log, how it caches users, how it processes commands queued by its web dashboard, and how its release tool validates and rewrites version numbers. Each part is a module, and the properties the code promises are proved about it.

Modules:

- `Common` (`common.dfy`): Option, string helpers (split, join, strip, ASCII lower-casing), and decimal rendering and parsing with their round trips.
- `Version` (`version.dfy`): the version constants, `get_version_string`, `get_version_tuple`, `get_version_info` and the version aliases of `src/version.py`.
- `VersionTool` (`version_tool.dfy`): `tools/update_version.py`. This covers `validate_version`, the two-flag changelog scan of `extract_changelog_features`, the history building and selection of `update_readme_version_history`, and the `re.sub` rewrites of `update_version_file` and of the README's history section, with the escape processing `re.sub` applies to a replacement text. Regular expressions are modelled by the matchers these patterns need.
- `TreeLog` (`tree_log.dfy`): `src/utils/tree_log.py`. It covers the tree symbols and the prefix stack (`_tree_stack` and `_current_depth`, as a class), `get_tree_prefix`, and starting and ending a section. It also covers the line layout of `log_perfect_tree_section` and the level routing of `_write_to_log_files`, with the three log files as sequences of entries.
- `WebhookLogger` (`webhook_logger.dfy`): `src/utils/discord_webhook_logger.py`. It covers the per-level, per-minute rate-limit table with its purge, the guards and field shaping of `_send_webhook_embed`, the detail truncation of `log_user_interaction`, the `initialize` guard, and `enable`/`disable`.
- `Audio` (`audio_manager.dfy`): `src/utils/audio_manager.py`. The `AudioManager` class holds the state the methods change: `current_file_index`, `current_surah`, `current_position`, `is_playing`, `is_paused`, the jump flag and the loop and shuffle flags. The module covers skipping, jumping, switching reciter, pausing and resuming, the surah derived from a file name, the missing-surah report, `_format_time`, the index and resume logic of `_playback_loop`, and `get_playback_status`.
- `UserCache` (`user_cache.dfy`): `src/utils/user_cache.py`. Validation, the upsert into the `users` table and the recount, the lookup, and caching from an interaction.
- `WebCommands` (`web_commands.dfy`): `src/utils/web_command_processor.py`. The processor as a class over the command queue, covering the pending → processing → completed/failed lifecycle and the decision tables of the audio, bot and quiz-toggle handlers.
- `BotConfig` and `DiscordLogs` (`bot_config.dfy`): from `src/bot/main.py`, `validate_configuration` and the record routing of `DiscordTreeHandler.emit`.
- `Supervisor` (`supervisor.dfy`): from `src/bot/main.py`, the three-attempt voice connection loop of `on_ready`. Each attempt is given as a record of how its awaited calls end, and every call and sleep goes into a trace.
- `Continuity` (`continuity.dfy`): from `src/bot/main.py`. It covers the bot's own branch of `on_voice_state_update`, `_handle_voice_connection_error` and `_attempt_voice_reconnection` on close codes 4006 and 4014, `on_disconnect`, `on_resumed`, `should_auto_restart_audio` and `auto_restart_audio_playback`. These run over a class holding the bound voice client, the playing flag and a trace of effects.

Discord, FFmpeg, the file system, the state store, the clock and the random-number generator do not appear as calls. What they answer is a parameter of the operation that asks: the connected clients, whether a connect or a write succeeds, the folder listing, a track's duration, the current time and the random pick. What the code does to them is recorded in a trace or in the modelled file contents.

Where the code differs from what its comments or an obvious design would suggest, the model follows the code:

- The connection loop sleeps 10 s and then 20 s, and never a third time.
- A timeout neither sleeps nor doubles the delay. A timeout on the last attempt ends the loop without the "all connection attempts failed" return.
- An "already connected" error with a connected guild client ends the loop without starting playback.
- Voice close code 4006 drops the guild's client and settles for 3 s before the normal backoff. The 2 s cleanup pause and the 3 s settle are skipped when the disconnect before them raises.
- `_attempt_voice_reconnection` connects with a 30 s timeout, not 60 s. It starts playback with no check for playback already running, and nothing guards against overlapping reconnects.
- `mark_disconnect` is called in `on_disconnect`, after the voice clients are dropped, and not in the voice path.
- `auto_restart_audio_playback` rebinds the manager before it checks `is_playing`. Because `start_playback` does not set `is_playing`, two restarts in a row both start playback (`Continuity.Bot.RestartTwice`).
- A corrupt user-cache file raises a state error, although the comment beside it speaks of reinitialising.
- The user cache is opened for writing, and so truncated, before the dump. A dump that fails leaves a file that no longer decodes, and every later update then fails to load it (`UserCache.TruncatedCacheStaysBroken`).
- The README history is a `re.sub` replacement text, so `re.sub` processes its escapes: a feature holding `\d` makes the update raise, and `\n` or `\\` in a feature is rewritten (`VersionTool.BadEscapeRaises`).
- In `_playback_loop`, a successful Rich Presence update clears the resume request before the seek step. With Rich Presence set, a resumed track therefore starts from the beginning. The model keeps this order (`Audio.AudioManager.ResumeStep`).

## Model

| member | source | states |
|---|---|---|
| Version.FormatVersion | src/version.py:38-53 | the full version is the base text, then `-` and the pre-release tag when one is set, then `+` and the build tag when one is set; with neither tag it is the base itself |
| Version.GetVersionString | src/version.py:12-53 | with the shipped empty tags, `get_version_string()` is `__version__`, "3.5.3" |
| Version.GetVersionTuple | src/version.py:22-63 | the version tuple is (3, 5, 3) |
| Version.GetVersionInfo | src/version.py:66-85 | `version` and `version_string` agree with `__version__`, `tuple` is (major, minor, patch), author and bot name are the module's constants |
| Version.AliasesAgree | src/version.py:92-93 | `BOT_VERSION` and `VERSION` are `__version__` and equal the full version string |
| VersionTool.ValidateVersion | tools/update_version.py:16-26 | an accepted version has at least five characters, each a digit or a dot, so it holds neither a quote nor a line break |
| VersionTool.ValidateVersionAsWritten | tools/update_version.py:16-26 | the check as written accepts every version the intended check accepts, and beyond those only a valid version followed by one final newline |
| VersionTool.ValidateVersionSound | tools/update_version.py:16-26 | every string the validator accepts is three non-empty ASCII digit runs joined by two dots, and consists of digits and dots only |
| VersionTool.ValidateVersionComplete | tools/update_version.py:16-26 | every string made of three non-empty digit runs joined by dots is accepted, and splitting it at the dots gives back the three runs |
| VersionTool.AsWrittenAcceptsTrailingNewline | tools/update_version.py:18-24 | the validator as written (Python's `$` also matches before a final newline, `int` strips it) accepts every valid version followed by one newline, which the intended validator rejects |
| VersionTool.TrailingNewlineRejected | tools/update_version.py:18 | a valid version followed by a newline is not three digit runs |
| VersionTool.AsWrittenAcceptsOneTwoThreeNewline | tools/update_version.py:18-24 | the concrete input `"1.2.3\n"` is accepted as written and rejected by the intended check |
| VersionTool.VersionCore | tools/update_version.py:18-24 | a version the check as written accepts is three digit runs, alone or followed by one newline |
| VersionTool.ParseVersion | tools/update_version.py:149 | `version.split(".")` gives three parts and `int` reads each as its component, a final newline included |
| VersionTool.RenderVersion | src/version.py:13-25 | every component triple written as `major.minor.patch` is a version the validator accepts |
| VersionTool.RenderParseRoundTrip | tools/update_version.py:149 | rendering a version triple as `major.minor.patch` gives a valid version, and parsing its components with `int` gives the triple back |
| VersionTool.ShippedVersionConsistent | src/version.py:13-25 | the shipped `__version__` is a valid version whose parsed components are the `VERSION_MAJOR`/`MINOR`/`PATCH` tuple, and rendering that tuple gives the text back |
| VersionTool.Description | tools/update_version.py:56-59 | a description is found only after a colon, and is a non-empty text without a line break |
| VersionTool.ParseFeature | tools/update_version.py:54-60 | only a line opening with `- **` yields a feature, and then a text of at least five characters (title, ` - `, description) |
| VersionTool.DescriptionComplete | tools/update_version.py:56-59 | the `[^:]*: (.+)` tail yields the whole description after the first `: ` when the text before it has no colon |
| VersionTool.ParseFeatureComplete | tools/update_version.py:54-60 | every bullet line `- **title**…: desc` with a star-free title yields exactly `title - desc` |
| VersionTool.ExtractChangelogFeatures | tools/update_version.py:29-62 | the scan with its two flags returns the features of the two-flag line scan, which `FeatureScanIsSelection` identifies with the declarative selection |
| VersionTool.FirstHeader | tools/update_version.py:40-43 | the index found holds a `## [version]` header and no earlier line does; none is found only when no line is a header |
| VersionTool.NothingSelectedAfterEnd | tools/update_version.py:44-46 | once a later `## [` heading of another version follows the header, no line from it on contributes a feature |
| VersionTool.LineKinds | tools/update_version.py:41-54 | version headers, `## [` headings, `### ` headings and bullets are told apart by their first three characters |
| VersionTool.FeatureScanFrom | tools/update_version.py:40-60 | from any line whose flags describe the lines before it, the scan yields exactly the selected features from that line on |
| VersionTool.ScanHeaderStep | tools/update_version.py:41-43 | a header line contributes nothing and sets the section flag, keeping the Added flag |
| VersionTool.ScanInsideStep | tools/update_version.py:47-60 | inside the section, `### Added` opens the list, another `### ` heading closes it, and a line is selected exactly when it is a well-formed bullet under an open list |
| VersionTool.FeatureScanIsSelection | tools/update_version.py:40-62 | the features are exactly the well-formed bullets after the first header of the version, before the next `## [` heading, under an open `### Added` list, in file order |
| VersionTool.ChangelogFeatures | tools/update_version.py:29-62 | the features reported for a version are exactly the declarative selection of the changelog's lines: the well-formed bullets under an open `### Added` list of that version's first section, in file order |
| VersionTool.VersionRefAt | tools/update_version.py:87 | a `## [a.b.c]` match at the start of the text captures a version the validator accepts, and its length lies within the text |
| VersionTool.FindVersions | tools/update_version.py:87-88 | every version `re.findall` reports is a valid version |
| VersionTool.RemoveDoubleStars | tools/update_version.py:108 | removing `**` pairs never lengthens the text |
| VersionTool.FeatureLists | tools/update_version.py:97-98 | the feature list of each shown version is the extraction for that version |
| VersionTool.BuildVersionHistory | tools/update_version.py:95-115 | the building loop yields the version history of the first five versions, each a heading, at most nine bullets and a blank, with the last blank dropped |
| VersionTool.VersionBlock | tools/update_version.py:98-111 | one version contributes its heading, a bullet for each of its first nine features, and a blank line |
| VersionTool.DropLastBlank | tools/update_version.py:113-115 | the last line is dropped exactly when it is blank |
| VersionTool.AppendBullets | tools/update_version.py:106-109 | the inner loop appends one `- **feature**` line per feature, in order |
| VersionTool.BlockShape | tools/update_version.py:100-111 | one block holds one heading line, first, between one and ten further lines, and ends with a blank line |
| VersionTool.HistoryUpToShape | tools/update_version.py:97-111 | the blocks of the first `i` versions hold exactly `i` headings and start with the first version's `(Latest)` heading |
| VersionTool.VersionHistoryShape | tools/update_version.py:97-115 | the history has one heading per shown version, at most five, and begins with `### v<first version> (Latest)` |
| VersionTool.LazyEnd | tools/update_version.py:120 | the lazy `.*?` stops at the first position where the lookahead (`\n## ` not followed by the clipboard emoji, `\n### ` with the folder emoji, or the end) holds |
| VersionTool.MatchLen | tools/update_version.py:120-161 | a match of one of the tool's patterns is non-empty and lies within the text |
| VersionTool.SubAllUnmatched | tools/update_version.py:156-161 | `re.sub` leaves text without a match unchanged |
| VersionTool.SubAllKeepsPrefix | tools/update_version.py:156-161 | `re.sub` copies through a prefix in which no match starts |
| VersionTool.SubAllSingle | tools/update_version.py:156-161 | with exactly one match, `re.sub` replaces that match and keeps every other character in place |
| VersionTool.DigitsAssignMatches | tools/update_version.py:159-161 | `NAME = \d+` matches a whole `NAME = <digits>` assignment, the digit run being maximal |
| VersionTool.QuotedAssignMatches | tools/update_version.py:157 | `__version__ = "[^"]*"` matches a whole quoted assignment up to its closing quote |
| VersionTool.UpdateVersionFile | tools/update_version.py:139-168 | false and nothing written when the version file is missing; otherwise true and the text after the four substitutions in order, for every version the check as written accepts, a final newline included |
| VersionTool.RewriteVersionText | tools/update_version.py:155-161 | a text holding none of the four assignments is written back unchanged |
| VersionTool.TextAround | tools/update_version.py:155-161 | a version file is its unchanged pieces with the four assignment lines between them, however the pieces are grouped |
| VersionTool.VersionStage | tools/update_version.py:156-158 | the `__version__` substitution rewrites the one `__version__` line to the new version and keeps everything else |
| VersionTool.MajorStage | tools/update_version.py:159 | the `VERSION_MAJOR` substitution rewrites the one `VERSION_MAJOR` line and keeps everything else |
| VersionTool.MinorStage | tools/update_version.py:160 | the `VERSION_MINOR` substitution rewrites the one `VERSION_MINOR` line and keeps everything else |
| VersionTool.PatchStage | tools/update_version.py:161 | the `VERSION_PATCH` substitution rewrites the one `VERSION_PATCH` line and keeps everything else |
| VersionTool.VersionFileRewritten | tools/update_version.py:149-161 | for a version file holding each of the four assignments once, on lines of their own, the four substitutions give the same file with `__version__` set to the version and each `VERSION_*` set to the decimal form of its parsed component |
| VersionTool.NewlineVersionParse | tools/update_version.py:18-24 | a valid version followed by a newline passes the check as written, parses to the same components, and makes a `__version__` line with the newline inside its quotes |
| VersionTool.AsWrittenVersionLineBroken | tools/update_version.py:149-161 | for such a version the tool writes the right components but a `__version__` string literal broken across two lines |
| VersionTool.AsWrittenOneTwoThreeNewlineFile | tools/update_version.py:149-161 | the concrete version `"1.2.3\n"` gives `__version__ = "1.2.3` and a line holding only `"`, then `VERSION_MAJOR = 1`, `VERSION_MINOR = 2` and `VERSION_PATCH = 3` |
| VersionTool.RewriteOneAssignment | tools/update_version.py:159-161 | a `VERSION_*` assignment that occurs once is rewritten to the new component and the text around it is unchanged |
| VersionTool.RewriteQuotedAssignment | tools/update_version.py:156-158 | a `__version__` assignment that occurs once is rewritten to the new string and the text around it is unchanged |
| VersionTool.TemplateEscape | tools/update_version.py:121-125 | an escape that `re.sub` accepts in a replacement takes at least two characters and lies within the text |
| VersionTool.ExpandTemplate | tools/update_version.py:121-125 | a replacement without a backslash stands for itself, and only a backslash can make it an error |
| VersionTool.ExpandAfterLiteral | tools/update_version.py:121-125 | text without a backslash in front of a replacement is copied through, and an error stays an error |
| VersionTool.BadEscapeRaises | tools/update_version.py:121-125 | a backslash before an ASCII letter that is not an escape, such as `\d`, makes `re.sub` raise, wherever it stands |
| VersionTool.NewlineEscapeRewritten | tools/update_version.py:121-125 | a `\n` in the replacement becomes a line break |
| VersionTool.BackslashEscapeRewritten | tools/update_version.py:121-125 | a `\\` in the replacement becomes one backslash |
| VersionTool.EscapeBackslashes | tools/update_version.py:121-125 | doubling every backslash gives a replacement that stands for the text itself |
| VersionTool.RewriteReadme | tools/update_version.py:118-125 | the rewrite fails exactly when the replacement built from the history does not expand; with no backslash in the history it is the plain substitution of the history section |
| VersionTool.UpdateReadmeVersionHistory | tools/update_version.py:65-136 | false when the README or the changelog is missing or no version is listed; otherwise a non-empty history and then `re.error` when the replacement holds a bad escape, else true with the README written only when the substitution changed it |
| TreeLog.EndSymbol | src/utils/tree_log.py:53-56 | the symbol ending a prefix is two characters; `SymbolsDistinct` shows "last" and "branch" differ |
| TreeLog.Segment | src/utils/tree_log.py:202-210 | the segment of one nesting level is two characters: the pipe where the stack marks siblings, spaces otherwise, also past the stack's end |
| TreeLog.SymbolsDistinct | src/utils/tree_log.py:53-60 | "├─" and "└─" differ, and so do "│ " and "  ", already in their first character |
| TreeLog.InfoIsNotErrorLevel | src/utils/tree_log.py:885-890 | INFO is not one of the levels copied to errors.log |
| TreeLog.MainEntries | src/utils/tree_log.py:872-883 | writing a run of lines appends one logs.log entry per line |
| TreeLog.EntriesSnoc | src/utils/tree_log.py:872-904 | writing one more line extends logs.log by its entry and logs.json by its JSON entries, after those of the lines before it |
| TreeLog.NestedPrefix | src/utils/tree_log.py:331-343 | a nested item's prefix is four characters |
| TreeLog.MainLines | src/utils/tree_log.py:309-313 | line `i` of the main items is drawn for item `i`, one line per item |
| TreeLog.NestedLines | src/utils/tree_log.py:327-348 | line `j` of a group's items is drawn for item `j`, one line per item |
| TreeLog.MainItemLastMarker | src/utils/tree_log.py:303-313 | a main item starts with "└─" exactly when it is the final item and the section has no nested groups, and with "├─" otherwise |
| TreeLog.NestedItemMarkers | src/utils/tree_log.py:327-343 | a nested item starts with "  " exactly in the last group and "│ " otherwise, then "└─" exactly for the group's final item and "├─" otherwise |
| TreeLog.GroupHeaderMarker | src/utils/tree_log.py:316-325 | a group header starts with "└─" exactly for the last group |
| TreeLog.GroupLines | src/utils/tree_log.py:315-348 | the groups give at least one line each, the first group's header first, and only nested-group and nested-item lines |
| TreeLog.SectionLines | src/utils/tree_log.py:272-348 | a section is its header line, then each main item in order, then at least one line per group |
| TreeLog.TreeLogger.constructor | src/utils/tree_log.py:47-49 | a new logger is at depth 0 with an empty stack, before its first section, with empty log files |
| TreeLog.TreeLogger.ResetTreeStructure | src/utils/tree_log.py:187-191 | the stack is emptied and the depth is 0 |
| TreeLog.TreeLogger.ResetSectionTracking | src/utils/tree_log.py:720-723 | the next section is again treated as the first |
| TreeLog.TreeLogger.GetTreePrefix | src/utils/tree_log.py:193-215 | at depth 0 or below the prefix is the end symbol alone; at depth d > 0 it is d two-character segments, each the pipe or spaces as the stack says for that level, then the end symbol |
| TreeLog.TreeLogger.StartTreeSection | src/utils/tree_log.py:217-226 | the flag overwrites the current level's entry when there is one, else is appended; the depth grows by one and the stack still covers it |
| TreeLog.TreeLogger.EndTreeSection | src/utils/tree_log.py:228-232 | the depth drops by one but never below 0, and the stack is kept |
| TreeLog.TreeLogger.WriteToLogFiles | src/utils/tree_log.py:843-904 | without a log directory nothing is written; otherwise logs.log gets the entry (a blank line for a blank message), errors.log gets it only for ERROR, CRITICAL and WARNING, and logs.json gets the stripped message only when it is not blank |
| TreeLog.TreeLogger.LogTreeItem | src/utils/tree_log.py:234-241 | one INFO line, the prefix for the requested position followed by `key: value`, and nothing in errors.log |
| TreeLog.TreeLogger.WriteLines | src/utils/tree_log.py:272-348 | a run of INFO lines is written in order, with nothing in errors.log |
| TreeLog.TreeLogger.WriteInfo | src/utils/tree_log.py:843-904 | one INFO line reaches logs.log and, when not blank, logs.json, but never errors.log |
| TreeLog.TreeLogger.MainItemLines | src/utils/tree_log.py:303-313 | the main items are drawn at depth 0, line `i` for item `i` |
| TreeLog.TreeLogger.GroupBlockLines | src/utils/tree_log.py:316-348 | one group is its folder header followed by its items with the nested prefixes |
| TreeLog.TreeLogger.NestedGroupLines | src/utils/tree_log.py:315-348 | the groups are drawn in order, the last one as the last branch |
| TreeLog.TreeLogger.LogPerfectTreeSection | src/utils/tree_log.py:272-348 | a spacing line before every section but the first, then the header, the main items and the groups; afterwards the stack is reset, the first-section flag is cleared and errors.log is unchanged |
| TreeLog.TreeStructureScenario | tests/test_tree_log.py:76-101 | the prefixes at the root, one and two levels under levels with siblings, and back at the root after two ends, are "├─", "└─", "│ ├─", "│ └─", "│ │ ├─" and "├─" |
| WebhookLogger.Stale | src/utils/discord_webhook_logger.py:168-179 | keys of the current and the previous minute are never stale, and keys three or more minutes old always are |
| WebhookLogger.WithinLimit | src/utils/discord_webhook_logger.py:181-187 | a table whose counters are all at most ten never shows the rate check a count above ten |
| WebhookLogger.Purged | src/utils/discord_webhook_logger.py:168-179 | the purge only removes keys and keeps the counts of the rest, and the current minute's key always survives it |
| WebhookLogger.PurgedKeys | src/utils/discord_webhook_logger.py:168-179 | a key survives the purge exactly when it parses as a minute and is at most 120 seconds old |
| WebhookLogger.PurgeIdempotent | src/utils/discord_webhook_logger.py:168-179 | purging again at the same instant removes nothing more |
| WebhookLogger.PurgedUpdate | src/utils/discord_webhook_logger.py:165-186 | setting a surviving key's counter before or after the purge gives the same table |
| WebhookLogger.ShapeField | src/utils/discord_webhook_logger.py:240-244 | a missing name, value or inline flag becomes "Field", "No value" and false; given ones are kept |
| WebhookLogger.LevelColorsDistinct | src/utils/discord_webhook_logger.py:68-76 | each of the seven known levels has its own colour, and none of them is the fallback grey |
| WebhookLogger.LevelColor | src/utils/discord_webhook_logger.py:68-76 | every colour is a 24-bit RGB value, and a level not listed gets the grey fallback |
| WebhookLogger.TruncateDetail | src/utils/discord_webhook_logger.py:546-549 | a detail value of at most 1024 characters is kept; a longer one becomes its first 1021 characters and "...", exactly 1024 long |
| WebhookLogger.TruncateIdempotent | src/utils/discord_webhook_logger.py:546-549 | truncating a truncated value changes nothing |
| WebhookLogger.Underscores | src/utils/discord_webhook_logger.py:551 | every underscore becomes a space and every other character is kept |
| WebhookLogger.TitleFrom | src/utils/discord_webhook_logger.py:551 | title-casing keeps the length and which positions hold letters |
| WebhookLogger.Title | src/utils/discord_webhook_logger.py:551 | `title()` keeps the length, and a letter comes out upper-case exactly when it starts the text or follows a character that is not a letter |
| WebhookLogger.TitleFromCase | src/utils/discord_webhook_logger.py:551 | a letter comes out upper-case exactly when no letter comes right before it, counting the context for the first |
| WebhookLogger.TitleFromIdempotent | src/utils/discord_webhook_logger.py:551 | title-casing a title-cased text from the same context changes nothing |
| WebhookLogger.TitleIdempotent | src/utils/discord_webhook_logger.py:551 | `title()` is idempotent |
| WebhookLogger.DiscordWebhookLogger.constructor | src/utils/discord_webhook_logger.py:60-65 | a new logger is enabled, has no session and an empty rate-limit table |
| WebhookLogger.DiscordWebhookLogger.PurgeStale | src/utils/discord_webhook_logger.py:168-179 | collecting the stale keys and then deleting them leaves exactly the purged table |
| WebhookLogger.DiscordWebhookLogger.CheckRateLimit | src/utils/discord_webhook_logger.py:149-187 | a call is accepted exactly when fewer than ten were counted for its level in the current minute; the level's stale keys are purged, only the current minute's counter of that level changes, by one and only when accepted, every other level is untouched, and no counter ever exceeds ten |
| WebhookLogger.DiscordWebhookLogger.SendWebhookEmbed | src/utils/discord_webhook_logger.py:198-256 | nothing is sent or counted while disabled or without a session; otherwise the rate check decides, and a sent embed carries the level's emoji and colour, the footer given or the default one, the first 25 fields with their defaults when fields were given, and the content only when non-empty |
| WebhookLogger.DiscordWebhookLogger.ShapeFields | src/utils/discord_webhook_logger.py:237-244 | the first 25 fields are kept, in order, each with its defaults |
| WebhookLogger.DiscordWebhookLogger.DetailFields | src/utils/discord_webhook_logger.py:545-555 | one inline field per detail, named by the title-cased key with spaces for underscores, its value truncated to at most 1024 characters |
| WebhookLogger.DiscordWebhookLogger.Initialize | src/utils/discord_webhook_logger.py:89-122 | succeeds exactly when the URL is non-empty and the session opens; a failure disables the logger and sends nothing, and an empty URL does not touch the session |
| WebhookLogger.DiscordWebhookLogger.Close | src/utils/discord_webhook_logger.py:124-128 | afterwards there is no session |
| WebhookLogger.DiscordWebhookLogger.Disable | src/utils/discord_webhook_logger.py:728-730 | afterwards the logger is disabled |
| WebhookLogger.DiscordWebhookLogger.Enable | src/utils/discord_webhook_logger.py:740-742 | afterwards the logger is enabled |
| WebhookLogger.RateLimitScenario | src/utils/discord_webhook_logger.py:181-187 | of eleven calls at one level within one minute, the first ten are accepted and the eleventh is refused |
| Audio.FirstDigitAt | src/utils/audio_manager.py:1062-1063 | the position found holds a digit and nothing before it does; none is found only when the name has no digit |
| Audio.FirstDigitRun | src/utils/audio_manager.py:1062-1063 | `re.search(r"(\d+)")` yields the maximal run of digits that starts at the first digit, and nothing only when the name has no digit |
| Audio.SurahFromFilename | src/utils/audio_manager.py:1052-1075 | the surah is always in 1..114: the first number in the name when that is a surah number, else `index + 1` for a name without digits when that is one, else 1 |
| Audio.DigitRunConcat | src/utils/audio_manager.py:1062 | a run of digits followed by a non-digit is read as exactly that run |
| Audio.SurahFileNameRoundTrip | src/utils/audio_manager.py:1052-1075 | the file `NNN.mp3` of surah n is read back as surah n, whatever its position |
| Audio.FileSurahNumber | src/utils/audio_manager.py:551-557 | a number taken from a file name is only ever a surah number |
| Audio.FileSurahNumberOfSurahFile | src/utils/audio_manager.py:551-557 | `int("NNN.mp3".split(".")[0])` of a surah's file is that surah |
| Audio.AvailableIn | src/utils/audio_manager.py:547-557 | the available set holds surah numbers only |
| Audio.AvailableInIff | src/utils/audio_manager.py:547-557 | a number is available exactly when some file of the folder names it |
| Audio.MissingFrom | src/utils/audio_manager.py:559-561 | the missing list is strictly ascending, holds numbers up to 114, and none of them is available |
| Audio.MissingFromComplete | src/utils/audio_manager.py:559-561 | every surah number in range that is not available is in the missing list |
| Audio.Interval | src/utils/audio_manager.py:565-583 | the run `a..b` has `b - a + 1` numbers, none when `a > b` |
| Audio.Runs | src/utils/audio_manager.py:563-583 | there are runs exactly when there are missing numbers, the first run starts at the first of them and the last ends at the last |
| Audio.GroupLast | src/utils/audio_manager.py:565-583 | the last run closes at the last number of the list, or at the open run's end when nothing follows |
| Audio.Group | src/utils/audio_manager.py:565-583 | closing the open run always yields at least one run, the first starting where the open run starts |
| Audio.GroupCovers | src/utils/audio_manager.py:565-583 | the runs produced cover the open run followed by the rest of the list, in order |
| Audio.GroupMaximal | src/utils/audio_manager.py:565-583 | the runs produced are non-empty, ascending and separated by gaps, the first starting at the open run |
| Audio.RunsSound | src/utils/audio_manager.py:565-583 | for an ascending list the runs expand back to exactly that list, and no two of them touch |
| Audio.MissingIff | src/utils/audio_manager.py:544-561 | a number is reported missing exactly when it is a surah number that no file of the folder names |
| Audio.CompleteFolderHasNoGaps | src/utils/audio_manager.py:559-611 | a folder holding every `NNN.mp3` reports nothing missing |
| Audio.TruncateToInt | src/utils/audio_manager.py:1080 | `int(x)` truncates toward zero |
| Audio.ParseClockThree | src/utils/audio_manager.py:1085-1086 | three digit fields joined by colons read as hours, minutes and seconds |
| Audio.ParseClockTwo | src/utils/audio_manager.py:1087-1088 | two digit fields joined by a colon read as minutes and seconds |
| Audio.PaddedThreeFields | src/utils/audio_manager.py:1085-1086 | `H:MM:SS` reads back field by field |
| Audio.PaddedTwoFields | src/utils/audio_manager.py:1087-1088 | `MM:SS` reads back field by field |
| Audio.FormatSecondsWithHours | src/utils/audio_manager.py:1079-1086 | a time of at least an hour is shown as `H:MM:SS` that reads back as that time |
| Audio.FormatSecondsWithoutHours | src/utils/audio_manager.py:1079-1088 | a time below an hour is shown as `MM:SS` that reads back as that time modulo an hour |
| Audio.RunText | src/utils/audio_manager.py:574-583 | the text of a run of surah numbers is one number when it holds one, else two joined by a dash, and `int` reads them back as the run's ends |
| Audio.FormatSeconds | src/utils/audio_manager.py:1079-1088 | below an hour the display is five characters with a colon in the middle; from an hour on it has at least seven, with colons three and six places from the end |
| Audio.FormatTime | src/utils/audio_manager.py:1077-1091 | the display reads back as the truncated seconds when they reach an hour, and otherwise as those seconds modulo an hour (a negative time shows its floor-division remainder) |
| Audio.FormatTimeUnderAnHour | src/utils/audio_manager.py:1077-1088 | from 0 up to an hour the display is the two-digit minutes and the two-digit seconds |
| Audio.NextIndexWraps | src/utils/audio_manager.py:1537-1541 | one step on from an index in range is the next index, or 0 after the last |
| Audio.AdvanceAfterTrack | src/utils/audio_manager.py:1501-1541 | after a track: looping stays at the index and keeps the jump flag; a pending jump stays and clears the flag; shuffle takes the random pick; otherwise the next index, wrapping to 0 |
| Audio.AdvanceStaysInRange | src/utils/audio_manager.py:1501-1541 | an index inside the folder stays inside it after any track |
| Audio.Rotation | src/utils/audio_manager.py:1536-1541 | plain progression always lands inside the folder |
| Audio.RotationCounts | src/utils/audio_manager.py:1536-1541 | before the end of the folder, each track moves the index one on |
| Audio.RotationCompose | src/utils/audio_manager.py:1536-1541 | progressing a then b tracks is progressing a + b tracks |
| Audio.FullCycleReturns | src/utils/audio_manager.py:1536-1541 | after as many tracks as the folder holds, plain progression is back at its starting index |
| Audio.SeekStep | src/utils/audio_manager.py:1337-1369 | a seek happens exactly when a resume is requested for a positive position not at or past a known duration, and seeks to that position; at or past the duration the position becomes 0 |
| Audio.AudioManager.constructor | src/utils/audio_manager.py:93-192 | the manager starts stopped, with no files, index 0, the default reciter, loop and shuffle, and takes the saved surah and position when the state store provides them |
| Audio.AudioManager.LoadSavedState | src/utils/audio_manager.py:147-192 | a loaded state sets the surah and position and resets reciter, loop and shuffle to the defaults; a failed load changes nothing |
| Audio.AudioManager.SetVoiceClient | src/utils/audio_manager.py:464-477 | the manager plays through the given voice client |
| Audio.AudioManager.SetRichPresence | src/utils/audio_manager.py:396-409 | the manager has a rich-presence manager |
| Audio.AudioManager.FindTrack | src/utils/audio_manager.py:533-542 | the index found is the first one holding the target, and none is found only when the target is absent |
| Audio.AudioManager.UpdateFileIndexForSurah | src/utils/audio_manager.py:533-542 | the index moves to the first file named after the current surah, and stays when there is none |
| Audio.AudioManager.CheckMissingSurahs | src/utils/audio_manager.py:544-611 | the report counts the available surahs, lists the others in ascending order and writes them as their maximal runs `a` or `a-b` |
| Audio.AudioManager.CollectAvailable | src/utils/audio_manager.py:547-557 | the first loop collects exactly the available surah set |
| Audio.AudioManager.MissingRanges | src/utils/audio_manager.py:563-583 | the second loop writes one text per run of the missing list, `a` for a single number and `a-b` otherwise |
| Audio.AudioManager.LoadAudioFiles | src/utils/audio_manager.py:483-531 | succeeds exactly for an existing non-empty folder; the files become the listing, and the index moves to the current surah's file when there is one |
| Audio.AudioManager.StopPlayback | src/utils/audio_manager.py:660-727 | afterwards nothing plays or is paused and no playback task runs; a final not-playing state is saved only when it was playing with rich presence; a playing voice client is stopped |
| Audio.AudioManager.StartPlayback | src/utils/audio_manager.py:613-658 | starts exactly with a connected voice client and a non-empty folder, stopping what played and starting a task with the resume request; otherwise the playback state is unchanged |
| Audio.AudioManager.PausePlayback | src/utils/audio_manager.py:729-765 | only a playing voice client is paused; the pause time is recorded and the position becomes the time since the track started |
| Audio.AudioManager.ResumePlayback | src/utils/audio_manager.py:767-800 | only a paused voice client is resumed; with both times recorded the start time moves forward by the pause and the pause time is cleared |
| Audio.AudioManager.PauseThenResume | src/utils/audio_manager.py:729-800 | after a pause at t1 and a resume at t2 the position is the time played up to t1 and the start time has moved forward by t2 - t1 |
| Audio.AudioManager.UpdateCurrentSurah | src/utils/audio_manager.py:1052-1075 | with a current file the surah follows its name as `SurahFromFilename` says; otherwise it is unchanged |
| Audio.AudioManager.SkipToNext | src/utils/audio_manager.py:802-840 | nothing changes without files; otherwise the voice client is stopped, the index becomes the random pick when shuffling and `(i + 1) mod n` otherwise, stays in range, and the surah follows the new file |
| Audio.AudioManager.SkipToPrevious | src/utils/audio_manager.py:842-882 | nothing changes without files; otherwise the voice client is stopped, the index becomes the random pick when shuffling and `(i - 1) mod n` otherwise, stays in range, and the surah follows the new file |
| Audio.AudioManager.StopVoiceIfPlaying | src/utils/audio_manager.py:815-817 | a playing voice client is stopped, any other is left alone |
| Audio.AudioManager.JumpToSurah | src/utils/audio_manager.py:884-954 | nothing changes for an invalid surah or a folder without its `NNN.mp3`; otherwise the index is the first such file, the surah is set, the position is 0, the jump flag is raised and the voice client is stopped |
| Audio.AudioManager.SwitchReciter | src/utils/audio_manager.py:956-1013 | an unknown reciter changes nothing; otherwise playback stops, and the new reciter's files are loaded and played from the saved position, or when it has none the old reciter and its folder come back |
| Audio.AudioManager.ToggleLoop | src/utils/audio_manager.py:1015-1036 | the loop flag is flipped |
| Audio.AudioManager.ToggleShuffle | src/utils/audio_manager.py:1038-1050 | the shuffle flag is flipped |
| Audio.AudioManager.StartPlaybackLoop | src/utils/audio_manager.py:1148-1212 | only a positive position is resumed; with rich presence and a known duration, a track within 10 s of its end is skipped to the next index (wrapping) with a saved not-playing state at position 0, and otherwise the position is capped at the duration |
| Audio.AudioManager.PrepareTrack | src/utils/audio_manager.py:1230-1262 | the loop stops without a connected voice client, without files, or past the last file when not looping; looping starts over at 0; the surah follows the file |
| Audio.AudioManager.PlayTrack | src/utils/audio_manager.py:1296-1541 | the seek is the one `SeekStep` gives for the remaining resume request, the position and start time are reset after the track, and the index advances as `AdvanceAfterTrack` says and stays in range |
| Audio.AudioManager.AdvanceIndex | src/utils/audio_manager.py:1497-1541 | the index and the jump flag become those `AdvanceAfterTrack` gives, and the index stays in range |
| Audio.AudioManager.ResumeStep | src/utils/audio_manager.py:1296-1369 | a successful rich-presence update for a valid surah clears the resume request; a remaining request for a positive position is used up by the seek or by the reset of a position past the track's end |
| Audio.AudioManager.PlaybackIteration | src/utils/audio_manager.py:1230-1541 | an iteration stops exactly where the loop breaks and then changes nothing; otherwise it plays the file at the (possibly restarted) index, seeks as `SeekStep` says, resets the position and advances as `AdvanceAfterTrack` says |
| Audio.AudioManager.GetPlaybackStatus | src/utils/audio_manager.py:1624-1670 | the status reports track 0 exactly when there are no files, else the one-based track number within the track count, and the current position |
| WebCommands.AfterCall | src/utils/web_command_processor.py:298-317 | after `resume()` the client plays and is not paused, after `pause()` it is paused and not playing, after `stop()` it does neither, and no call leaves it as it was |
| WebCommands.AudioDecision | src/utils/web_command_processor.py:280-334 | an audio action can succeed only with a non-zero guild id whose guild is found, and a voice call is made only on success with a voice client present |
| WebCommands.AudioControl | src/utils/web_command_processor.py:280-337 | handling an audio command changes only the voice client, never the guild setting or the quiz interval, and never creates or removes the client |
| WebCommands.AudioTable | src/utils/web_command_processor.py:297-334 | with the guild in place: play succeeds exactly when paused, pause exactly when playing, stop and skip exactly when playing or paused, volume, jump and reciter always, and an action succeeds exactly when it is one of the known actions available in that voice state |
| WebCommands.KnownAudioActions | src/utils/web_command_processor.py:297-334 | the simulated actions volume, jump and reciter are always available, and a missing action never is |
| WebCommands.AudioNeedsGuild | src/utils/web_command_processor.py:286-292 | without a configured, non-zero guild id whose guild is found, every audio action fails and changes nothing |
| WebCommands.PauseThenPlay | src/utils/web_command_processor.py:297-308 | pausing playing audio and then playing it both succeed and leave the audio playing and not paused |
| WebCommands.PauseTwiceFails | src/utils/web_command_processor.py:303-308 | a second pause right after a successful one fails and changes nothing |
| WebCommands.BotControl | src/utils/web_command_processor.py:339-354 | a bot-control command succeeds exactly for the actions restart, stop and start |
| WebCommands.ToggledInterval | src/utils/web_command_processor.py:234-236 | the new quiz interval is 0.5 or 3 hours, below the current one when that is over an hour and above it otherwise |
| WebCommands.ToggleAlternates | src/utils/web_command_processor.py:234-236 | toggling twice never gives the same interval as toggling once, and a third toggle returns to the first toggle's value |
| WebCommands.QuizToggle | src/utils/web_command_processor.py:225-244 | fails with "Quiz manager not available" when there is no quiz manager; succeeds exactly when there is one that accepts the new interval, and then stores the toggled interval; a failure changes nothing |
| WebCommands.Dispatch | src/utils/web_command_processor.py:119-137 | a missing or unknown command type fails with "Unknown command type" and changes nothing; only audio-control and quiz-toggle commands change the bot |
| WebCommands.FinalStatus | src/utils/web_command_processor.py:140 | the status is "completed" exactly when the result succeeded, and "failed" otherwise |
| WebCommands.WebCommandProcessor.constructor | src/utils/web_command_processor.py:24-28 | a new processor is not running, has no task and has written nothing |
| WebCommands.WebCommandProcessor.StartProcessing | src/utils/web_command_processor.py:30-43 | afterwards the processor is running; a new task is started exactly when it was not running before |
| WebCommands.WebCommandProcessor.StopProcessing | src/utils/web_command_processor.py:45-57 | afterwards the processor is not running, and the task is cancelled exactly when there is one |
| WebCommands.WebCommandProcessor.ProcessCommand | src/utils/web_command_processor.py:105-182 | a writable file is written twice, first marked "processing" and then with the routed handler's result and the status that result gives, and the bot changes as the handler says; an unwritable file leaves everything as it was |
| WebCommands.WebCommandProcessor.VisitFile | src/utils/web_command_processor.py:80-87 | one listed file is handled when it holds a pending command and is writable, and no other file changes |
| WebCommands.WebCommandProcessor.ProcessPendingCommands | src/utils/web_command_processor.py:71-103 | nothing happens without the queue directory; otherwise every listed, pending, writable file ends handled and no other file changes |
| UserCache.UserKey | src/utils/user_cache.py:74-76 | a valid integer id's key is a non-empty string of decimal digits, and `True`, which passes the `int` check, has the key "True" |
| UserCache.UserKeyInjective | src/utils/user_cache.py:74-76 | two valid ids have the same key exactly when they are the same id |
| UserCache.FreshCache | src/utils/user_cache.py:59-71 | a new cache document has an empty user table and a count of zero |
| UserCache.BaseUsers | src/utils/user_cache.py:59-71 | an update starts from an empty table when there is no file, and from the stored table otherwise |
| UserCache.UpdateUserCache | src/utils/user_cache.py:18-109 | an invalid id or display name is a validation error that touches nothing; a failed directory creation, a non-object document or one without a user table is an "update" error and an undecodable file a "load" error, all touching nothing; a failed save is a "save" error that keeps the file when it could not be opened and leaves it undecodable when the dump failed; it succeeds exactly when the arguments are valid, the directory is made, the file is absent or has a user table and the save succeeds, and then the file holds the old table with exactly this record upserted, the recount and the new time, so the lookup sees the record and every other id reads as before |
| UserCache.CachedUserInfo | src/utils/user_cache.py:112-163 | an invalid id is a validation error; no file means no record; an undecodable or non-object file is a read error; otherwise a record is returned exactly when the table holds the id's key, and it is the stored record under that key |
| UserCache.LookupOthersUnchanged | src/utils/user_cache.py:74-79 | upserting one user leaves the lookup of every other valid id unchanged |
| UserCache.UpdateCountGrowth | src/utils/user_cache.py:74-83 | the recounted total grows by one exactly when the id was not cached yet, and stays the same otherwise |
| UserCache.CacheUserFromInteraction | src/utils/user_cache.py:167-220 | a missing interaction or user is a validation error that touches nothing; otherwise the outcome and the file are those the update promises for the user's id, name and avatar, its errors passed through unchanged |
| UserCache.InteractionCachedIff | src/utils/user_cache.py:167-220 | caching from an interaction with a user succeeds exactly when the user's id and name are valid, the directory is made, the file loads and the save succeeds, and then the lookup returns the user's record |
| UserCache.TruncatedCacheStaysBroken | src/utils/user_cache.py:59-91 | once a dump has failed halfway, an update with valid arguments and the directory in place is a "load" error that leaves the file undecodable, and a lookup is a read error |
| Supervisor.FirstFailure | src/bot/main.py:962-1168 | an attempt raises exactly when one of its calls does; a failed connect is what it raises, and otherwise a failed binding |
| Supervisor.Cleanup | src/bot/main.py:935-958 | a stale client is dropped first and only then; its 2 s pause comes exactly when the disconnect did not raise; the cleanup never connects, binds or starts playback |
| Supervisor.TryBlock | src/bot/main.py:935-1168 | the `try` block makes the cleanup, then the 60 s connect; it binds exactly when the connect returned, and starts playback exactly when the connect and the binding returned |
| Supervisor.SaysAlreadyConnected | src/bot/main.py:1500-1513 | only a client error says "already connected", and every one whose text contains the phrase in lower case does |
| Supervisor.SaysVoiceServerDown | src/bot/main.py:1513-1518 | a 4006 error is a client error that is not an "already connected" one and whose text holds "4006" |
| Supervisor.BreaksAsConnected | src/bot/main.py:1513-1517 | ending the loop as already connected takes a client error, never a timeout and never a 4006 error |
| Supervisor.Settle | src/bot/main.py:1518-1525 | only a 4006 error that backs off, with the guild's client present, settles; it disconnects first, and sleeps 3 s exactly when the disconnect did not raise |
| Supervisor.Attempt | src/bot/main.py:1498-1601 | a pass keeps the attempt's calls and adds only the backoff sleep, exactly on a failure that backs off before the last attempt; the loop goes on exactly after a timeout, with the same delay, or after such a failure, with twice the delay; it starts exactly when the attempt completes |
| Supervisor.RunDone | src/bot/main.py:932-1601 | the calls already made stay first in the trace, and the rest of the loop does not depend on them |
| Supervisor.KindOf | src/bot/main.py:1501-1574 | an attempt completes exactly when no call raises, times out exactly on a timeout, stops the loop exactly on an "already connected" error while the guild's client is connected, and takes the backoff path exactly in every other failure |
| Supervisor.Tried | src/bot/main.py:933-1526 | an attempt's kind is the one its failures give, and unless it backs off its calls are just those of the `try` block |
| Supervisor.TryBlockCounts | src/bot/main.py:935-1168 | the `try` block connects exactly once, with the 60 s timeout, sleeps no backoff, and ends with the playback start when the connect and the binding return |
| Supervisor.TriedWellFormed | src/bot/main.py:933-1526 | what an attempt does before the backoff decision always connects once with the 60 s timeout and never sleeps a backoff |
| Supervisor.AttemptCounts | src/bot/main.py:1527-1601 | a loop pass connects once, with the 60 s timeout, and sleeps the current delay exactly when it backs off and is not the last attempt |
| Supervisor.RunConnects | src/bot/main.py:932-1601 | the rest of the loop connects at most once per remaining attempt, each time with the 60 s timeout |
| Supervisor.RunBackoffs | src/bot/main.py:1527-1538 | the rest of the loop's backoff sleeps are the current delay doubling each time, at most one per remaining attempt but the last |
| Supervisor.RunEnds | src/bot/main.py:1539-1601 | the loop gives up, or runs out after a timeout, only on the last attempt and after every remaining attempt connected |
| Supervisor.RunStartsLast | src/bot/main.py:1168-1499 | when the loop ends by starting playback, its last call is the playback start |
| Supervisor.RunFacts | src/bot/main.py:928-1601 | over three attempts: at most three connects, each with the 60 s timeout; backoff sleeps none, 10 s, or 10 s then 20 s; giving up means three connects and a last attempt that backed off; running out means three connects and a last attempt that timed out; starting ends with the playback start |
| Supervisor.LoopFacts | src/bot/main.py:928-1601 | the same facts stated on the attempts' own records: giving up means the third attempt failed in a way that backs off, running out means it timed out |
| Supervisor.ConnectWithRetries | src/bot/main.py:928-1601 | the loop's calls and its end are those of the attempt-by-attempt definition, with at most three 60 s connects, backoffs of 10 s then 20 s and never a third, giving up or running out only after three connects, and playback start last when it starts |
| Supervisor.ThreeFailuresGiveUp | src/bot/main.py:1565-1601 | three failures that back off give sleeps of 10 s and 20 s, three connects and the give-up return |
| Supervisor.ThreeTimeoutsFallThrough | src/bot/main.py:1554-1563 | three timeouts give three connects, no sleep, and a loop that runs out without the give-up return |
| Supervisor.TimeoutKeepsDelay | src/bot/main.py:1554-1601 | a timeout leaves the delay alone, so two backoff failures after it sleep 10 s once and then give up |
| Supervisor.VoiceServerDownSettles | src/bot/main.py:1518-1538 | a 4006 client error with a guild client present disconnects it and sleeps 3 s, then sleeps the delay and doubles it |
| Supervisor.AttemptStartsWithCleanup | src/bot/main.py:935-962 | every attempt first drops a stale client, sleeping 2 s unless the disconnect raised, and then connects |
| Continuity.ShouldAutoRestart | src/bot/main.py:3101-3118 | no manager or a store whose reads raise means no restart; otherwise a restart exactly when the saved state says playing or the resume info says to resume |
| Continuity.ChosenClient | src/bot/main.py:3156-3158 | a client handed in is used; otherwise the bot's first voice client, and none when it has none |
| Continuity.Restart | src/bot/main.py:3121-3248 | with no manager, a store that does not say to restart, or no connected chosen client, it answers false and changes nothing; otherwise it answers true unless it was not playing and the resume details are unreadable; it only rebinds and starts playback, starting exactly once when it succeeds from not playing; success leaves the manager on a connected client; the manager is rebound only away from a missing or dropped client, and then to the chosen one |
| Continuity.RejoinSteps | src/bot/main.py:1810-1860 | a dropped bot stops playback exactly when it has a manager, then waits 5 s and then connects to the channel it left with the 60 s timeout |
| Continuity.RejoinConnectsOnce | src/bot/main.py:1845-1919 | the drop branch with the restart after it connects exactly once, right after the 5 s pause, starts playback only as the restart does, and never marks a disconnect, so nothing retries |
| Continuity.DisconnectStepsOrder | src/bot/main.py:2902-2922 | `on_disconnect` disconnects first, then marks the disconnect once, then stops the log sync exactly when the mark returned |
| Continuity.DisconnectStepsOnly | src/bot/main.py:2902-2922 | `on_disconnect` marks exactly once and never connects, rebinds or starts playback |
| Continuity.DisconnectsExactly | src/bot/main.py:2903-2911 | a client is disconnected exactly when it is one of the bot's voice clients and is connected |
| Continuity.Bot.constructor | src/bot/main.py:3131-3178 | a bot starts with the given manager, bound client and playing flag, and no effects |
| Continuity.Bot.AutoRestart | src/bot/main.py:3121-3248 | the answer, the bound client and the effects added are those of the restart decision on the chosen client, and the playing flag is unchanged |
| Continuity.Bot.OnBotVoiceStateUpdate | src/bot/main.py:1808-1939 | a drop from a channel clears the playing flag when a manager's stop completes, stops, waits and reconnects once, and on a join restarts on the new client; a move between channels only rebinds the manager to the guild's client when both exist; any other change does nothing |
| Continuity.Bot.RejoinAfterDrop | src/bot/main.py:1810-1919 | the rejoin's effects, then, on a joined client, the restart decision's effects and rebinding; a failed join adds nothing more and keeps the binding |
| Continuity.Bot.AttemptVoiceReconnection | src/bot/main.py:2815-2850 | without the guild and the channel nothing happens; otherwise one 30 s connect, and with a joined client and a manager a rebind and a playback start with no playing check, so playback is started once more |
| Continuity.Bot.HandleVoiceConnectionError | src/bot/main.py:2644-2682 | close codes 4006 and 4014 start a recovery whose first effect is the 30 s connect once the guild and channel are found; any other code changes nothing |
| Continuity.Bot.OnDisconnect | src/bot/main.py:2854-2951 | the effects added are the disconnects of the connected clients, the mark and the log-sync stop as the handler's steps say, and the binding and the playing flag are unchanged |
| Continuity.Bot.DisconnectClients | src/bot/main.py:2903-2911 | the loop adds one disconnect per connected voice client, in order, and changes nothing else |
| Continuity.Bot.OnResumed | src/bot/main.py:2954-3006 | with no voice clients nothing happens; otherwise the restart decision runs on the first client |
| Continuity.Bot.RestartTwice | src/bot/main.py:3177-3223 | two restarts in a row from not playing both start playback, since starting playback does not set the playing flag the check reads |
| BotConfig.BareToken | src/bot/main.py:563-567 | a leading "Bot " is removed, else a leading "Bearer ", else the token is kept whole |
| BotConfig.TokenErrors | src/bot/main.py:554-557 | a token is an error exactly when it is not non-empty text, and then exactly one error |
| BotConfig.TokenWarnings | src/bot/main.py:558-573 | at most one warning, never an error, only for usable text, and the "too short" warning exactly below 50 characters |
| BotConfig.RequiredId | src/bot/main.py:578-588 | a required id draws nothing exactly when it is positive, and otherwise one missing or not-positive finding that names it |
| BotConfig.FolderWarnings | src/bot/main.py:607-630 | a set audio folder draws at most one warning, exactly when it is not a directory holding MP3 files |
| BotConfig.FfmpegWarnings | src/bot/main.py:635-682 | a set FFmpeg path draws at most one warning, exactly when the probe does not answer |
| BotConfig.DefaultsWarnings | src/bot/main.py:687-696 | at most three warnings, none exactly when the default reciter is non-empty text and the shuffle and loop defaults are booleans |
| BotConfig.RichPresenceWarnings | src/bot/main.py:701-715 | the Rich Presence check adds only warnings, one per reported warning and error, and none exactly on a true answer or a clean report |
| BotConfig.ConfigErrors | src/bot/main.py:554-630 | there is no error exactly when the token is non-empty text, the guild and target channel ids are positive and the audio folder and FFmpeg path are set; there are at most five errors, each of a kind only ever reported as an error |
| BotConfig.ConfigWarnings | src/bot/main.py:558-715 | no finding of an error kind is ever listed among the warnings |
| BotConfig.ValidateConfiguration | src/bot/main.py:524-760 | the errors and warnings it collects are the error and warning lists of the settings and the host's answers, and it passes exactly when there is no error and the report does not raise, whatever the warnings |
| BotConfig.TokenErrorOrWarning | src/bot/main.py:554-572 | a token draws an error or a warning, never both, and at most one finding |
| BotConfig.TokenLengthRule | src/bot/main.py:558-572 | a token of 50 or more characters is never an error and draws a warning exactly when it has fewer than 59 characters once its prefix is removed, which for a bare token means fewer than 59 and for a "Bot " token fewer than 63 |
| BotConfig.RichPresenceDemoted | src/bot/main.py:701-715 | every error the Rich Presence check reports is listed among the warnings, so it never fails the validation |
| DiscordLogs.RouteOf | src/bot/main.py:197-236 | a record is dropped exactly when its lower-cased text holds a heartbeat phrase; otherwise it goes to the voice-state handler exactly when the logger's name holds "voice_state", to the gateway one exactly when it holds "gateway" but not "voice_state", to the client one exactly when it holds "client" but neither of those, else to the generic one |
| DiscordLogs.RouteByNameOnly | src/bot/main.py:213-236 | two records that are not chatter from the same logger go to the same handler |
| DiscordLogs.ChatterIgnoresCase | src/bot/main.py:202-211 | a message and its lower-cased form are routed alike |
| DiscordLogs.HeartbeatDropped | src/bot/main.py:202-211 | a message holding "sending heartbeat" in any case, with any text around it and from any logger, is dropped |
| DiscordLogs.GatewayRecord | src/bot/main.py:221-224 | a record from the "discord.gateway" logger that is not chatter goes to the gateway handler |

## Left out

- Discord and aiohttp calls are not modelled as code: connecting, disconnecting, playing, the webhook POST, guild and channel lookups. How each call ends is a parameter, and the calls made are recorded in traces.
- asyncio scheduling is not modelled: tasks, cancellation and the periodic loops `_processing_loop`, `_position_save_loop` and `_position_tracking_loop`. The processor records that it started or cancelled its task, and sleeps appear in traces as their lengths.
- The state store (`utils.state_manager`) is not part of this model. What `load_playback_state`, `get_resume_info` and `mark_disconnect` answer is a parameter, and a save is recorded as the state handed to it.
- FFmpeg, mutagen, subprocess calls and directory scanning are not modelled. Folder listings, track durations and the `ffmpeg -version` outcome are inputs.
- The clock, time zones and `random` are inputs. Timestamps are opaque strings, and a shuffle takes the pick it is given.
- Floating-point seconds, positions and quiz intervals are exact reals, not IEEE doubles. Rounding and overflow are not modelled.
- `Audio.FormatTime`: the exception path for an infinite or NaN number of seconds is not modelled, since reals have neither.
- Python's `\d`, `int()`, `str.strip()`, `str.lower()` and `str.title()` are modelled on ASCII. `Common.ParseInt` and `Common.Strip` remove the ASCII whitespace that `int()` and `strip()` remove, but not the Unicode whitespace they also remove (`\x85`, `\xa0`, `\u2000` to `\u200a`, `\u3000` and the rest). This affects the parsing of numbers, the stripped message that `TreeLog.TreeLogger.WriteToLogFiles` puts in logs.json, and the stripping of feature text in the version history. Unicode digits, Unicode case mappings and the underscores that `int()` accepts are left out too.
- Log and console text is modelled only where a property rests on it: the tree prefixes and line layout, the log-file routing, and the error strings of the command results. Messages to Discord, Rich Presence updates, the control panel and the `_handle_*_log` formatters of `DiscordTreeHandler` are left out, and so is the exception fallback of `emit`.
- The rest of `on_ready` is not modelled: the Rich Presence and control-panel setup, the user-cache warm-up and the start-up report. Role assignment and removal (`_assign_panel_access_role`, `_remove_panel_access_role`) are left out because their behaviour depends on Discord's exception hierarchy.
- The web command handlers `quiz_send`, `quiz_reset`, `system_cache`, `system_logs` and `system_backup` are not modelled. Their results are inputs of `WebCommands.Dispatch`, since they act on files and managers outside this model.
- `WebCommands.WebCommandProcessor.ProcessCommand`: exceptions raised by a handler are not modelled, because every modelled handler returns a result. When the first status write fails, the failure write that follows fails too, so nothing changes.
- `TreeLog.TreeLogger.WriteToLogFiles`: the fallback that prints `LOG_ERROR` to the console when a log file cannot be written (`src/utils/tree_log.py:920-922`) is left out, because the file system is given and writes always succeed.
- `WebCommands.AudioDecision`: when `int()` rejects `GUILD_ID` the failure text is `invalid literal for int()`. Python's message goes on with ` with base 10: '<value>'`, and the raw setting text is not part of the modelled bot.
- `VersionTool.RewriteReadme`: a `\g<...>` group reference in the replacement is always an error in the model. In Python `\g<0>` inserts the whole match, and the other group references are errors because the pattern has no groups.
- `UserCache.UpdateUserCache`: a failed save is either a file that could not be opened, which is kept, or a dump that failed after the truncation, which leaves a file that no longer decodes. A partial dump that still decodes is not modelled.
- The web dashboard, the commands under `src/commands/`, the unified Discord logger and the test scripts are not part of this model.

## Findings

| source | as written | input that shows it | evidently intended | confidence | as-written member | corrected member |
|---|---|---|---|---|---|---|
| tools/update_version.py:18-24 | pattern `^\d+\.\d+\.\d+$` with `re.match`, then `int` of the parts; Python's `$` also matches just before a final newline, and `int` ignores the newline | `"1.2.3\n"` is accepted as a version | accept exactly three dot-separated digit runs | not executed | VersionTool.AsWrittenAcceptsOneTwoThreeNewline | VersionTool.ValidateVersionSound |
| tools/update_version.py:149-158 | the accepted string goes into the `__version__` literal as it is | `"1.2.3\n"` writes `__version__ = "1.2.3`, then a line holding only `"`, which leaves the string literal in src/version.py unterminated | write a `__version__` line holding only digits and dots | not executed | VersionTool.AsWrittenOneTwoThreeNewlineFile | VersionTool.ValidateVersion |
