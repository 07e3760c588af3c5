/**
 * The user cache: a JSON file holding a `users` table keyed by the
 * decimal text of a Discord user id, plus two metadata fields. An update
 * validates its arguments, loads the file, upserts one record, recounts
 * the table and writes the whole document back; a lookup reads the file
 * and returns the record stored under the id, if any.
 *
 * The file on disk is a value handed in and handed back; the clock
 * readings and the outcome of the directory creation and of the write are
 * parameters.
 */
module UserCache {
  import opened Common

  /** One cached user: `display_name`, `avatar_url` and `last_seen`. */
  datatype UserRecord = UserRecord(displayName: string, avatarUrl: Option<string>, lastSeen: string)

  /**
   * A decoded cache document. `users` is `None` when the object has no
   * `users` key.
   */
  datatype CacheData = CacheData(
    users: Option<map<string, UserRecord>>,
    lastUpdated: string,
    totalCachedUsers: int)

  /**
   * What the cache file holds: nothing, bytes that do not decode as JSON
   * text, a JSON value that is not an object, or a decoded object.
   */
  datatype CacheFile = Absent | Undecodable | NotAnObject | Stored(data: CacheData)

  /** The two error kinds the functions raise, with the field or operation they name. */
  datatype CacheError = ValidationError(field: string) | StateError(operation: string)

  datatype Outcome = Done | Failed(error: CacheError)

  datatype LookupResult = Found(info: Option<UserRecord>) | LookupFailed(error: CacheError)

  /**
   * A `user_id` argument: a Python `int`, a `bool` (which Python counts as
   * an `int`, with `True > 0`), or anything else.
   */
  datatype IdArg = IntId(value: int) | BoolId(flag: bool) | NotAnInt

  /** A `display_name` argument: a Python `str`, or anything else. */
  datatype NameArg = StrName(text: string) | NotAString

  /** `isinstance(user_id, int) and user_id > 0`. */
  predicate ValidUserId(userId: IdArg)
  {
    (userId.IntId? && userId.value > 0) || (userId.BoolId? && userId.flag)
  }

  /** `display_name` is a non-empty `str`. */
  predicate ValidDisplayName(name: NameArg)
  {
    name.StrName? && name.text != []
  }

  /** `str(user_id)` for a valid id: its decimal digits, or "True". */
  function UserKey(userId: IdArg): (k: string)
    requires ValidUserId(userId)
    ensures userId.IntId? ==> AllDigits(k) && k != []
    ensures userId.BoolId? ==> k == "True"
  {
    if userId.BoolId? then "True" else NatToString(userId.value)
  }

  /** Distinct valid ids have distinct keys. */
  lemma UserKeyInjective(a: IdArg, b: IdArg)
    requires ValidUserId(a) && ValidUserId(b)
    ensures UserKey(a) == UserKey(b) <==> a == b
  {
    if a.IntId? && b.IntId? {
      NatToStringInjective(a.value, b.value);
    } else if a.IntId? && b.BoolId? {
      assert !IsDigit(UserKey(b)[0]);
    } else if a.BoolId? && b.IntId? {
      assert !IsDigit(UserKey(a)[0]);
    }
  }

  /** The document written when no cache file exists yet. */
  function FreshCache(now: string): (d: CacheData)
    ensures d.users == Some(map[]) && d.totalCachedUsers == 0
  {
    CacheData(Some(map[]), now, 0)
  }

  /**
   * How writing the file ends: `open(path, "w")` either fails, leaving the
   * file alone, or truncates it, after which `json.dump` either completes
   * or fails part-way and leaves an empty or cut-off document behind.
   */
  datatype SaveOutcome = Saved | OpenFails | WriteFails

  /** A file an update can start from: none yet, or an object with a `users` table. */
  predicate Loadable(file: CacheFile)
  {
    file.Absent? || (file.Stored? && file.data.users.Some?)
  }

  /**
   * What `update_user_cache` promises about the file before and after and
   * the outcome, given its arguments, the clock readings, and how the
   * directory creation and the save go.
   */
  ghost predicate UpdatePromise(file: CacheFile, userId: IdArg, displayName: NameArg,
                                avatarUrl: Option<string>, seenAt: string, updatedAt: string,
                                dirOk: bool, save: SaveOutcome, written: CacheFile, r: Outcome)
  {
    // validation comes first and touches nothing
    (!ValidUserId(userId) ==> r == Failed(ValidationError("user_id")) && written == file)
    && (ValidUserId(userId) && !ValidDisplayName(displayName)
        ==> r == Failed(ValidationError("display_name")) && written == file)
    // a failed `mkdir`, a non-object document or a missing `users` key is wrapped as "update"
    && (ValidUserId(userId) && ValidDisplayName(displayName)
        ==> (r == Failed(StateError("update"))
             <==> !dirOk || file.NotAnObject? || (file.Stored? && file.data.users.None?)))
    // a corrupt file is an error, not a reset
    && (ValidUserId(userId) && ValidDisplayName(displayName) && dirOk && file.Undecodable?
        ==> r == Failed(StateError("load")))
    // a failed save: the file is kept if it could not be opened, and no longer decodes otherwise
    && (ValidUserId(userId) && ValidDisplayName(displayName) && dirOk && Loadable(file) && !save.Saved?
        ==> r == Failed(StateError("save")) && written == (if save.OpenFails? then file else Undecodable))
    // every failure before the save leaves the file as it was
    && (r.Failed? && r.error != StateError("save") ==> written == file)
    && (r.Done? <==>
          ValidUserId(userId) && ValidDisplayName(displayName) && dirOk && Loadable(file) && save.Saved?)
    // a successful update upserts exactly one record and recounts
    && (r.Done? ==>
          ValidUserId(userId) && ValidDisplayName(displayName)
          && written.Stored? && written.data.users.Some?
          && written.data.users.value
             == BaseUsers(file)[UserKey(userId) := UserRecord(displayName.text, avatarUrl, seenAt)]
          && written.data.totalCachedUsers == |written.data.users.value|
          && written.data.lastUpdated == updatedAt)
    // and a later lookup sees it, while every other id reads as before
    && (r.Done? ==>
          CachedUserInfo(written, userId) == Found(Some(UserRecord(displayName.text, avatarUrl, seenAt))))
    && (r.Done? ==>
          forall other :: ValidUserId(other) && other != userId
            ==> CachedUserInfo(written, other) == CachedUserInfo(file, other))
  }

  /**
   * `update_user_cache`. `seenAt` and `updatedAt` are the two clock
   * readings taken for `last_seen` and `last_updated`, `freshAt` the one
   * for a new document; `dirOk` says whether creating the data directory
   * succeeds and `save` how writing the file goes. Returns the file as it
   * is afterwards.
   */
  method UpdateUserCache(file: CacheFile, userId: IdArg, displayName: NameArg,
                         avatarUrl: Option<string>, freshAt: string, seenAt: string,
                         updatedAt: string, dirOk: bool, save: SaveOutcome)
    returns (written: CacheFile, r: Outcome)
    ensures UpdatePromise(file, userId, displayName, avatarUrl, seenAt, updatedAt, dirOk, save, written, r)
  {
    if !ValidUserId(userId) {
      return file, Failed(ValidationError("user_id"));
    }
    if !ValidDisplayName(displayName) {
      return file, Failed(ValidationError("display_name"));
    }
    if !dirOk {
      return file, Failed(StateError("update"));
    }
    var cacheData := FreshCache(freshAt);
    match file {
      case Absent =>
      case Undecodable =>
        return file, Failed(StateError("load"));
      case NotAnObject =>
        // `cache_data["users"]` on a non-object
        return file, Failed(StateError("update"));
      case Stored(data) =>
        cacheData := data;
    }
    if cacheData.users.None? {
      // `KeyError` on the missing `users` key
      return file, Failed(StateError("update"));
    }
    var key := UserKey(userId);
    var users := cacheData.users.value;
    users := users[key := UserRecord(displayName.text, avatarUrl, seenAt)];
    cacheData := cacheData.(users := Some(users));
    cacheData := cacheData.(lastUpdated := updatedAt);
    cacheData := cacheData.(totalCachedUsers := |users|);
    match save {
      case OpenFails =>
        return file, Failed(StateError("save"));
      case WriteFails =>
        return Undecodable, Failed(StateError("save"));
      case Saved =>
    }
    written, r := Stored(cacheData), Done;
    forall other | ValidUserId(other) && other != userId
      ensures CachedUserInfo(written, other) == CachedUserInfo(file, other)
    {
      LookupOthersUnchanged(file, written, userId, UserRecord(displayName.text, avatarUrl, seenAt), other);
    }
  }

  /** After a save that fails part-way, every later update and lookup fails too. */
  lemma TruncatedCacheStaysBroken(userId: IdArg, displayName: NameArg, avatarUrl: Option<string>,
                                  seenAt: string, updatedAt: string, save: SaveOutcome,
                                  written: CacheFile, r: Outcome)
    requires ValidUserId(userId) && ValidDisplayName(displayName)
    requires UpdatePromise(Undecodable, userId, displayName, avatarUrl, seenAt, updatedAt, true, save, written, r)
    ensures r == Failed(StateError("load")) && written == Undecodable
    ensures CachedUserInfo(written, userId) == LookupFailed(StateError("read"))
  {
  }

  /** The table an update starts from: the stored one, or empty for a new file. */
  function BaseUsers(file: CacheFile): (u: map<string, UserRecord>)
    ensures file.Absent? ==> u == map[]
    ensures file.Stored? && file.data.users.Some? ==> u == file.data.users.value
  {
    if file.Stored? && file.data.users.Some? then file.data.users.value else map[]
  }

  /** `get_cached_user_info`. */
  function CachedUserInfo(file: CacheFile, userId: IdArg): (r: LookupResult)
    ensures !ValidUserId(userId) ==> r == LookupFailed(ValidationError("user_id"))
    ensures ValidUserId(userId) && file.Absent? ==> r == Found(None)
    ensures ValidUserId(userId) && (file.Undecodable? || file.NotAnObject?)
            ==> r == LookupFailed(StateError("read"))
    ensures ValidUserId(userId) && file.Stored? ==>
              r.Found? && (r.info.Some? <==> file.data.users.Some? && UserKey(userId) in file.data.users.value)
    ensures ValidUserId(userId) && file.Stored? && file.data.users.Some? && UserKey(userId) in file.data.users.value
            ==> r == Found(Some(file.data.users.value[UserKey(userId)]))
  {
    if !ValidUserId(userId) then LookupFailed(ValidationError("user_id"))
    else match file
      case Absent => Found(None)
      case Undecodable => LookupFailed(StateError("read"))
      // `.get` on a value that is not an object
      case NotAnObject => LookupFailed(StateError("read"))
      case Stored(data) =>
        var users := if data.users.Some? then data.users.value else map[];
        var key := UserKey(userId);
        Found(if key in users then Some(users[key]) else None)
  }

  /** An update leaves the lookup of every other id as it was. */
  lemma LookupOthersUnchanged(before: CacheFile, after: CacheFile, userId: IdArg,
                              rec: UserRecord, other: IdArg)
    requires ValidUserId(userId) && ValidUserId(other) && other != userId
    requires before.Absent? || (before.Stored? && before.data.users.Some?)
    requires after.Stored? && after.data.users.Some?
    requires after.data.users.value == BaseUsers(before)[UserKey(userId) := rec]
    ensures CachedUserInfo(after, other) == CachedUserInfo(before, other)
  {
    UserKeyInjective(userId, other);
  }

  /** An update adds one to the count exactly when the id was not cached. */
  lemma UpdateCountGrowth(users: map<string, UserRecord>, key: string, rec: UserRecord)
    ensures |users[key := rec]| == if key in users then |users| else |users| + 1
  {
    if key in users {
      assert users[key := rec].Keys == users.Keys;
    } else {
      assert users[key := rec].Keys == users.Keys + {key};
    }
  }

  /** A Discord user as an interaction carries it: id, display name and avatar URL if any. */
  datatype DiscordUser = DiscordUser(id: IdArg, displayName: NameArg, avatarUrl: Option<string>)

  /**
   * An `interaction` argument: `None` stands for a falsy value or an
   * object without a `user` attribute; otherwise its `user`, which may be
   * missing.
   */
  datatype Interaction = Interaction(user: Option<DiscordUser>)

  /** `cache_user_from_interaction`: the interaction's user, passed to `update_user_cache`. */
  method CacheUserFromInteraction(file: CacheFile, interaction: Option<Interaction>,
                                  freshAt: string, seenAt: string, updatedAt: string,
                                  dirOk: bool, save: SaveOutcome)
    returns (written: CacheFile, r: Outcome)
    ensures interaction.None? ==> r == Failed(ValidationError("interaction")) && written == file
    ensures interaction.Some? && interaction.value.user.None?
            ==> r == Failed(ValidationError("interaction.user")) && written == file
    ensures interaction.Some? && interaction.value.user.Some?
            ==> var u := interaction.value.user.value;
                UpdatePromise(file, u.id, u.displayName, u.avatarUrl, seenAt, updatedAt, dirOk, save, written, r)
  {
    if interaction.None? {
      return file, Failed(ValidationError("interaction"));
    }
    if interaction.value.user.None? {
      return file, Failed(ValidationError("interaction.user"));
    }
    var user := interaction.value.user.value;
    written, r := UpdateUserCache(file, user.id, user.displayName, user.avatarUrl,
                                  freshAt, seenAt, updatedAt, dirOk, save);
  }

  /** An interaction's user is cached exactly when the update would succeed for it. */
  lemma InteractionCachedIff(file: CacheFile, interaction: Option<Interaction>, seenAt: string,
                             updatedAt: string, dirOk: bool, save: SaveOutcome,
                             written: CacheFile, r: Outcome)
    requires interaction.Some? && interaction.value.user.Some?
    requires var u := interaction.value.user.value;
             UpdatePromise(file, u.id, u.displayName, u.avatarUrl, seenAt, updatedAt, dirOk, save, written, r)
    ensures var u := interaction.value.user.value;
            r.Done? <==> ValidUserId(u.id) && ValidDisplayName(u.displayName) && dirOk
                         && Loadable(file) && save.Saved?
    ensures var u := interaction.value.user.value;
            r.Done? ==> CachedUserInfo(written, u.id)
                        == Found(Some(UserRecord(u.displayName.text, u.avatarUrl, seenAt)))
  {
  }
}
