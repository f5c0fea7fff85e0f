/**
 * internal/storage/database.go: the five SQLite tables as in-memory state.
 *
 * `online` stands for a reachable database: while it is false every query
 * fails and changes nothing. SHA-256 and bcrypt are foreign code, taken as
 * the functions `keyDigest` and `passwordHash` the database is built with.
 */
module Storage {
  import opened Results
  import opened Strings
  import opened Hex
  import opened Models
  import opened Tables

  /** The settings InitializeDefaultSettings seeds. */
  const DefaultSettings: map<string, string> := map[
    "require_api_key_for_images" := "true",
    "default_image_count" := "20",
    "max_image_count" := "100",
    "cors_enabled" := "true",
    "cors_origins" := "*"]

  /** What GetSetting reads for a key: its value, or "" when the row is absent. */
  function SettingValue(settings: map<string, string>, key: string): string {
    if key in settings then settings[key] else ""
  }

  /** The table after defaults are written for the keys in `done` that read "". */
  function Seeded(settings: map<string, string>, done: set<string>): map<string, string>
    requires done <= DefaultSettings.Keys
  {
    settings + Fill(settings, done)
  }

  lemma SeededNone(settings: map<string, string>)
    ensures Seeded(settings, {}) == settings
  {
  }

  lemma SeededAll(settings: map<string, string>, done: set<string>)
    requires done <= DefaultSettings.Keys && DefaultSettings.Keys - done == {}
    ensures done != {} && Seeded(settings, done) == SeedDefaults(settings)
  {
    Exhausted(done, DefaultSettings.Keys);
    assert "cors_origins" in DefaultSettings.Keys;
  }

  lemma Exhausted<T>(a: set<T>, b: set<T>)
    requires a <= b && b - a == {}
    ensures a == b
  {
    forall x | x in b
      ensures x in a
    {
      assert x !in b - a;
    }
  }

  /** The defaults written for the keys in `done` that read "". */
  function Fill(settings: map<string, string>, done: set<string>): map<string, string>
    requires done <= DefaultSettings.Keys
  {
    map k | k in done && SettingValue(settings, k) == "" :: DefaultSettings[k]
  }

  /** Seeding one more key writes its default exactly when it read "". */
  lemma SeededStep(settings: map<string, string>, done: set<string>, key: string)
    requires done <= DefaultSettings.Keys && key in DefaultSettings && key !in done
    ensures SettingValue(Seeded(settings, done), key) == SettingValue(settings, key)
    ensures Seeded(settings, done + {key})
            == if SettingValue(settings, key) == "" then Seeded(settings, done)[key := DefaultSettings[key]]
               else Seeded(settings, done)
  {
    assert Seeded(settings, done) == settings + Fill(settings, done);
    assert Seeded(settings, done + {key}) == settings + Fill(settings, done + {key});
    if SettingValue(settings, key) == "" {
      FillGrows(settings, done, key);
    } else {
      FillKeeps(settings, done, key);
    }
  }

  lemma FillGrows(settings: map<string, string>, done: set<string>, key: string)
    requires done <= DefaultSettings.Keys && key in DefaultSettings && SettingValue(settings, key) == ""
    ensures Fill(settings, done + {key}) == Fill(settings, done)[key := DefaultSettings[key]]
    ensures (settings + Fill(settings, done))[key := DefaultSettings[key]]
            == settings + Fill(settings, done)[key := DefaultSettings[key]]
  {
    var a := Fill(settings, done + {key});
    var b := Fill(settings, done)[key := DefaultSettings[key]];
    assert a.Keys == b.Keys;
  }

  lemma FillKeeps(settings: map<string, string>, done: set<string>, key: string)
    requires done <= DefaultSettings.Keys && key in DefaultSettings && SettingValue(settings, key) != ""
    ensures Fill(settings, done + {key}) == Fill(settings, done)
  {
    assert Fill(settings, done + {key}).Keys == Fill(settings, done).Keys;
  }

  /** The table after InitializeDefaultSettings. */
  function SeedDefaults(settings: map<string, string>): map<string, string> {
    Seeded(settings, DefaultSettings.Keys)
  }

  /**
   * Seeding fills every default key that read "" with its default, keeps
   * every value that was not "", and touches no other key.
   */
  lemma SeedDefaultsEffect(settings: map<string, string>, key: string)
    ensures key in DefaultSettings && SettingValue(settings, key) == "" ==>
              SettingValue(SeedDefaults(settings), key) == DefaultSettings[key]
    ensures !(key in DefaultSettings && SettingValue(settings, key) == "") ==>
              SettingValue(SeedDefaults(settings), key) == SettingValue(settings, key)
    ensures SettingValue(SeedDefaults(settings), key) != "" <==>
              key in DefaultSettings || SettingValue(settings, key) != ""
  {
  }

  /** Running the seeding twice leaves the same table as running it once. */
  lemma SeedDefaultsIdempotent(settings: map<string, string>)
    ensures SeedDefaults(SeedDefaults(settings)) == SeedDefaults(settings)
  {
    var once := SeedDefaults(settings);
    var fill := map k | k in DefaultSettings.Keys && SettingValue(once, k) == "" :: DefaultSettings[k];
    forall k | k in DefaultSettings.Keys ensures SettingValue(once, k) != "" {
      SeedDefaultsEffect(settings, k);
    }
    assert fill == map[];
    assert once + fill == once;
  }

  /** The number of logged requests made with key `keyId`. */
  function UsageCount(requests: seq<ApiRequest>, keyId: int): (n: nat)
    ensures n <= |requests|
  {
    if requests == [] then 0
    else (if requests[0].apiKeyId == keyId then 1 else 0) + UsageCount(requests[1..], keyId)
  }

  /** Logging a request adds one to the usage of its key and to no other key. */
  lemma {:induction false} UsageCountAppend(requests: seq<ApiRequest>, entry: ApiRequest, keyId: int)
    ensures UsageCount(requests + [entry], keyId)
            == UsageCount(requests, keyId) + (if entry.apiKeyId == keyId then 1 else 0)
  {
    if requests != [] {
      UsageCountAppend(requests[1..], entry, keyId);
      assert (requests + [entry])[1..] == requests[1..] + [entry];
    }
  }

  /** The ids of the enabled images. */
  function EnabledIds(images: map<int, ImageFile>): set<int> {
    set id | id in images && images[id].enabled
  }

  /** The enabled count never exceeds the total count. */
  lemma EnabledAtMostTotal(images: map<int, ImageFile>)
    ensures |EnabledIds(images)| <= |images|
  {
    SubsetSize(EnabledIds(images), images.Keys);
  }

  /** A member of a non-empty set. */
  lemma Pick<T>(s: set<T>) returns (x: T)
    requires s != {}
    ensures x in s
  {
    x :| x in s;
  }

  lemma {:induction false} SubsetSize(a: set<int>, b: set<int>)
    requires a <= b
    ensures |a| <= |b|
    decreases |b|
  {
    if a != {} {
      var x := Pick(a);
      SubsetSize(a - {x}, b - {x});
    }
  }

  /** Whether some admin already has this username. */
  predicate UsernameTaken(admins: seq<AdminUser>, username: string) {
    exists i :: 0 <= i < |admins| && admins[i].username == username
  }

  /** Whether some stored key has this hash. */
  predicate HashTaken(keys: map<int, ApiKey>, keyHash: string) {
    exists id :: id in keys && keys[id].keyHash == keyHash
  }

  /** Whether some stored key has this hash and is enabled. */
  predicate EnabledKeyWithHash(keys: map<int, ApiKey>, keyHash: string) {
    exists id :: id in keys && keys[id].keyHash == keyHash && keys[id].enabled
  }

  /** Whether some image row has this file name. */
  predicate FilenameTaken(images: map<int, ImageFile>, filename: string) {
    exists id :: id in images && images[id].filename == filename
  }

  /** api_keys after `UPDATE ... SET enabled = ? WHERE id = ?`. */
  function SetKeyEnabled(keys: map<int, ApiKey>, keyId: int, enabled: bool): (r: map<int, ApiKey>)
    ensures r.Keys == keys.Keys
    ensures forall id :: id in keys && id != keyId ==> r[id] == keys[id]
    ensures keyId in keys ==> r[keyId] == keys[keyId].(enabled := enabled)
  {
    if keyId in keys then keys[keyId := keys[keyId].(enabled := enabled)] else keys
  }

  /** api_keys after `UPDATE ... SET last_used = ? WHERE id = ?`. */
  function TouchKey(keys: map<int, ApiKey>, keyId: int, now: int): (r: map<int, ApiKey>)
    ensures r.Keys == keys.Keys
    ensures forall id :: id in keys && id != keyId ==> r[id] == keys[id]
    ensures keyId in keys ==> r[keyId] == keys[keyId].(lastUsed := Some(now))
  {
    if keyId in keys then keys[keyId := keys[keyId].(lastUsed := Some(now))] else keys
  }

  /** image_files after `UPDATE ... SET enabled = ? WHERE filename = ?`. */
  function SetImageEnabled(images: map<int, ImageFile>, filename: string, enabled: bool): (r: map<int, ImageFile>)
    ensures r.Keys == images.Keys
    ensures forall id :: id in images ==>
              r[id] == if images[id].filename == filename then images[id].(enabled := enabled) else images[id]
  {
    map id | id in images :: if images[id].filename == filename then images[id].(enabled := enabled) else images[id]
  }

  /** image_files after `UPDATE ... SET filename = ? WHERE filename = ?`. */
  function RenameImage(images: map<int, ImageFile>, oldName: string, newName: string): (r: map<int, ImageFile>)
    ensures r.Keys == images.Keys
    ensures forall id :: id in images ==>
              r[id] == if images[id].filename == oldName then images[id].(filename := newName) else images[id]
  {
    map id | id in images :: if images[id].filename == oldName then images[id].(filename := newName) else images[id]
  }

  /** image_files after `DELETE ... WHERE filename = ?`. */
  function DeleteImagesNamed(images: map<int, ImageFile>, filename: string): (r: map<int, ImageFile>)
    ensures forall id :: id in r <==> id in images && images[id].filename != filename
    ensures forall id :: id in r ==> r[id] == images[id]
  {
    map id | id in images && images[id].filename != filename :: images[id]
  }

  /** A key listing runs newest first: ids strictly decrease, all within the range. */
  lemma {:induction false} KeyListingDescending(keys: map<int, ApiKey>, lo: int, hi: int)
    requires forall id :: id in keys ==> keys[id].id == id
    ensures forall i :: 0 <= i < |Listing(keys, lo, hi)| ==> lo <= Listing(keys, lo, hi)[i].id < hi
    ensures forall i, j :: 0 <= i < j < |Listing(keys, lo, hi)| ==>
              Listing(keys, lo, hi)[i].id > Listing(keys, lo, hi)[j].id
    decreases hi - lo
  {
    if lo < hi {
      KeyListingDescending(keys, lo + 1, hi);
      var rest := Listing(keys, lo + 1, hi);
      var tail: seq<ApiKey> := if lo in keys then [keys[lo]] else [];
      var rows := Listing(keys, lo, hi);
      assert rows == rest + tail;
      forall i | 0 <= i < |rows|
        ensures lo <= rows[i].id < hi
      {
        if i >= |rest| {
          assert rows[i] == keys[lo];
        } else {
          assert rows[i] == rest[i];
        }
      }
      forall i, j | 0 <= i < j < |rows|
        ensures rows[i].id > rows[j].id
      {
        if j >= |rest| {
          assert rows[j] == keys[lo] && rows[i] == rest[i];
        } else {
          assert rows[j] == rest[j] && rows[i] == rest[i];
        }
      }
    }
  }

  ghost predicate AdminsValid(admins: seq<AdminUser>, next: int) {
    && (forall i :: 0 <= i < |admins| ==> 1 <= admins[i].id < next)
    && (forall i, j :: 0 <= i < j < |admins| ==>
          admins[i].id != admins[j].id && admins[i].username != admins[j].username)
  }

  ghost predicate KeysValid(keys: map<int, ApiKey>, next: int) {
    && (forall id :: id in keys ==> keys[id].id == id && 1 <= id < next)
    && (forall a, b :: a in keys && b in keys && a != b ==> keys[a].keyHash != keys[b].keyHash)
  }

  /** A key id appears in the key listing exactly when the table holds it, and there as that row. */
  lemma ListedKeys(keys: map<int, ApiKey>, next: int, listed: seq<ApiKey>, keyId: int)
    requires KeysValid(keys, next) && listed == Listing(keys, 1, next)
    ensures keyId in keys <==> exists i :: 0 <= i < |listed| && listed[i].id == keyId
    ensures forall i :: 0 <= i < |listed| && listed[i].id == keyId ==> keyId in keys && keys[keyId] == listed[i]
  {
    if keyId in keys {
      ListingMembers(keys, 1, next, keys[keyId]);
    }
    forall i | 0 <= i < |listed| && listed[i].id == keyId
      ensures keyId in keys && keys[keyId] == listed[i]
    {
      ListingMembers(keys, 1, next, listed[i]);
    }
  }

  ghost predicate RequestsValid(requests: seq<ApiRequest>, next: int) {
    && (forall i :: 0 <= i < |requests| ==> 1 <= requests[i].id < next)
    && (forall i, j :: 0 <= i < j < |requests| ==> requests[i].id < requests[j].id)
  }

  ghost predicate ImagesValid(images: map<int, ImageFile>, next: int) {
    && (forall id :: id in images ==> images[id].id == id && 1 <= id < next)
    && (forall a, b :: a in images && b in images && a != b ==> images[a].filename != images[b].filename)
  }

  /** The rows that GetRandomImageFiles may return for `count`: distinct enabled rows, as many as LIMIT allows. */
  ghost predicate RandomPick(images: map<int, ImageFile>, count: int, rows: seq<ImageFile>) {
    && |rows| == (if 0 <= count < |EnabledIds(images)| then count else |EnabledIds(images)|)
    && (forall i :: 0 <= i < |rows| ==> rows[i].id in images && images[rows[i].id] == rows[i] && rows[i].enabled)
    && (forall i, j :: 0 <= i < j < |rows| ==> rows[i].id != rows[j].id)
  }

  class DB {
    /** hex(SHA-256(raw key)), the stored form of an API key. */
    const keyDigest: string -> string
    /** bcrypt of a password; a password matches a stored hash when it hashes to it. */
    const passwordHash: string -> string
    /** The passwords bcrypt.GenerateFromPassword refuses to hash (ErrPasswordTooLong beyond 72 bytes). */
    const hashRefuses: string -> bool

    var online: bool
    var admins: seq<AdminUser>
    var apiKeys: map<int, ApiKey>
    var requests: seq<ApiRequest>
    var images: map<int, ImageFile>
    var settings: map<string, string>
    var nextAdminId: int
    var nextKeyId: int
    var nextRequestId: int
    var nextImageId: int

    /** Ids are AUTOINCREMENT keys; usernames, key hashes and file names are UNIQUE. */
    ghost predicate Valid()
      reads this
    {
      && nextAdminId >= 1 && nextKeyId >= 1 && nextRequestId >= 1 && nextImageId >= 1
      && AdminsValid(admins, nextAdminId)
      && KeysValid(apiKeys, nextKeyId)
      && RequestsValid(requests, nextRequestId)
      && ImagesValid(images, nextImageId)
    }

    /** NewDB: fresh tables, then InitializeDefaultSettings. */
    constructor (keyDigest: string -> string, passwordHash: string -> string, hashRefuses: string -> bool)
      ensures Valid() && online
      ensures this.keyDigest == keyDigest && this.passwordHash == passwordHash && this.hashRefuses == hashRefuses
      ensures admins == [] && apiKeys == map[] && requests == [] && images == map[]
      ensures settings == SeedDefaults(map[])
    {
      this.keyDigest := keyDigest;
      this.passwordHash := passwordHash;
      this.hashRefuses := hashRefuses;
      online := true;
      admins, apiKeys, requests, images, settings := [], map[], [], map[], map[];
      nextAdminId, nextKeyId, nextRequestId, nextImageId := 1, 1, 1, 1;
      new;
      var _ := InitializeDefaultSettings();
    }

    // ---- admin users ----

    method CreateAdminUser(username: string, password: string) returns (r: Result<AdminUser>)
      requires Valid()
      modifies this`admins, this`nextAdminId
      ensures Valid()
      ensures !hashRefuses(password) && online && !UsernameTaken(old(admins), username) ==>
                && r == Ok(AdminUser(old(nextAdminId), username, passwordHash(password)))
                && admins == old(admins) + [r.value] && nextAdminId == old(nextAdminId) + 1
      ensures !(!hashRefuses(password) && online && !UsernameTaken(old(admins), username)) ==>
                r.Err? && admins == old(admins) && nextAdminId == old(nextAdminId)
    {
      if hashRefuses(password) {
        return Err("failed to hash password");
      }
      if !online || UsernameTaken(admins, username) {
        return Err("failed to create admin user");
      }
      var user := AdminUser(nextAdminId, username, passwordHash(password));
      admins := admins + [user];
      nextAdminId := nextAdminId + 1;
      r := Ok(user);
    }

    /** The admin with this username, `None` when there is none. */
    method GetAdminUserByUsername(username: string) returns (r: Result<Option<AdminUser>>)
      requires Valid()
      ensures !online <==> r.Err?
      ensures r.Ok? ==> (r.value.Some? <==> UsernameTaken(admins, username))
      ensures r.Ok? && r.value.Some? ==> r.value.value in admins && r.value.value.username == username
    {
      if !online {
        return Err("failed to get admin user");
      }
      if i :| 0 <= i < |admins| && admins[i].username == username {
        r := Ok(Some(admins[i]));
      } else {
        r := Ok(None);
      }
    }

    method HasAdminUsers() returns (r: Result<bool>)
      ensures r == if online then Ok(|admins| > 0) else Err("failed to count admin users")
    {
      if !online {
        return Err("failed to count admin users");
      }
      r := Ok(|admins| > 0);
    }

    // ---- API keys ----

    /**
     * Creates an enabled key named `name` from 32 random bytes and returns the
     * row and the raw key, the bytes in hex. Only the digest of the raw key is stored.
     */
    method CreateAPIKey(name: string, random: seq<byte>) returns (r: Result<(ApiKey, string)>)
      requires Valid() && |random| == 32
      modifies this`apiKeys, this`nextKeyId
      ensures Valid()
      ensures var raw := HexEncode(random);
              if online && !HashTaken(old(apiKeys), keyDigest(raw)) then
                && r == Ok((ApiKey(old(nextKeyId), keyDigest(raw), name, true, None), raw))
                && apiKeys == old(apiKeys)[old(nextKeyId) := r.value.0]
                && nextKeyId == old(nextKeyId) + 1
              else
                r.Err? && apiKeys == old(apiKeys) && nextKeyId == old(nextKeyId)
    {
      var raw := HexEncode(random);
      var keyHash := keyDigest(raw);
      if !online || HashTaken(apiKeys, keyHash) {
        return Err("failed to create API key");
      }
      var key := ApiKey(nextKeyId, keyHash, name, true, None);
      apiKeys := apiKeys[nextKeyId := key];
      nextKeyId := nextKeyId + 1;
      r := Ok((key, raw));
    }

    /** The enabled key whose stored hash is the digest of `raw`. */
    method GetAPIKeyByKey(raw: string) returns (r: Result<Option<ApiKey>>)
      requires Valid()
      ensures !online <==> r.Err?
      ensures r.Ok? ==> (r.value.Some? <==> EnabledKeyWithHash(apiKeys, keyDigest(raw)))
      ensures r.Ok? && r.value.Some? ==>
                var k := r.value.value;
                k.id in apiKeys && apiKeys[k.id] == k && k.keyHash == keyDigest(raw) && k.enabled
    {
      if !online {
        return Err("failed to get API key");
      }
      var keyHash := keyDigest(raw);
      if id :| id in apiKeys && apiKeys[id].keyHash == keyHash && apiKeys[id].enabled {
        r := Ok(Some(apiKeys[id]));
      } else {
        r := Ok(None);
      }
    }

    /** Every key, newest first. */
    method GetAllAPIKeys() returns (r: Result<seq<ApiKey>>)
      requires Valid()
      ensures r == if online then Ok(Listing(apiKeys, 1, nextKeyId)) else Err("failed to get API keys")
    {
      if !online {
        return Err("failed to get API keys");
      }
      var keys: seq<ApiKey> := [];
      var i := nextKeyId;
      while i > 1
        invariant 1 <= i <= nextKeyId
        invariant keys == Listing(apiKeys, i, nextKeyId)
      {
        i := i - 1;
        if i in apiKeys {
          keys := keys + [apiKeys[i]];
        }
      }
      r := Ok(keys);
    }

    method UpdateAPIKeyLastUsed(keyId: int, now: int) returns (r: Status)
      requires Valid()
      modifies this`apiKeys
      ensures Valid()
      ensures r.Ok? <==> online
      ensures apiKeys == if online then TouchKey(old(apiKeys), keyId, now) else old(apiKeys)
    {
      if !online {
        return Err("failed to update API key last used");
      }
      apiKeys := TouchKey(apiKeys, keyId, now);
      r := Done;
    }

    method UpdateAPIKeyEnabled(keyId: int, enabled: bool) returns (r: Status)
      requires Valid()
      modifies this`apiKeys
      ensures Valid()
      ensures r.Ok? <==> online
      ensures apiKeys == if online then SetKeyEnabled(old(apiKeys), keyId, enabled) else old(apiKeys)
    {
      if !online {
        return Err("failed to update API key enabled status");
      }
      apiKeys := SetKeyEnabled(apiKeys, keyId, enabled);
      r := Done;
    }

    method DeleteAPIKey(keyId: int) returns (r: Status)
      requires Valid()
      modifies this`apiKeys
      ensures Valid()
      ensures r.Ok? <==> online
      ensures apiKeys == if online then old(apiKeys) - {keyId} else old(apiKeys)
    {
      if !online {
        return Err("failed to delete API key");
      }
      apiKeys := apiKeys - {keyId};
      r := Done;
    }

    // ---- API requests ----

    method LogAPIRequest(keyId: int, imageCount: int) returns (r: Status)
      requires Valid()
      modifies this`requests, this`nextRequestId
      ensures Valid()
      ensures r.Ok? <==> online
      ensures online ==> requests == old(requests) + [ApiRequest(old(nextRequestId), keyId, imageCount)]
                         && nextRequestId == old(nextRequestId) + 1
      ensures !online ==> requests == old(requests) && nextRequestId == old(nextRequestId)
    {
      if !online {
        return Err("failed to log API request");
      }
      requests := requests + [ApiRequest(nextRequestId, keyId, imageCount)];
      nextRequestId := nextRequestId + 1;
      r := Done;
    }

    method GetAPIKeyUsageCount(keyId: int) returns (r: Result<int>)
      ensures r == if online then Ok(UsageCount(requests, keyId)) else Err("failed to get API key usage count")
    {
      if !online {
        return Err("failed to get API key usage count");
      }
      r := Ok(UsageCount(requests, keyId));
    }

    // ---- image files ----

    method CreateImageFile(filename: string, size: int, mimeType: string) returns (r: Result<ImageFile>)
      requires Valid()
      modifies this`images, this`nextImageId
      ensures Valid()
      ensures online && !FilenameTaken(old(images), filename) ==>
                && r == Ok(ImageFile(old(nextImageId), filename, size, mimeType, true))
                && images == old(images)[old(nextImageId) := r.value]
                && nextImageId == old(nextImageId) + 1
      ensures !(online && !FilenameTaken(old(images), filename)) ==>
                r.Err? && images == old(images) && nextImageId == old(nextImageId)
    {
      if !online || FilenameTaken(images, filename) {
        return Err("failed to create image file record");
      }
      var image := ImageFile(nextImageId, filename, size, mimeType, true);
      images := images[nextImageId := image];
      nextImageId := nextImageId + 1;
      r := Ok(image);
    }

    /** Every image, newest first. */
    method GetAllImageFiles() returns (r: Result<seq<ImageFile>>)
      requires Valid()
      ensures r == if online then Ok(Listing(images, 1, nextImageId)) else Err("failed to get image files")
    {
      if !online {
        return Err("failed to get image files");
      }
      var rows: seq<ImageFile> := [];
      var i := nextImageId;
      while i > 1
        invariant 1 <= i <= nextImageId
        invariant rows == Listing(images, i, nextImageId)
      {
        i := i - 1;
        if i in images {
          rows := rows + [images[i]];
        }
      }
      r := Ok(rows);
    }

    /**
     * `WHERE enabled = 1 ORDER BY RANDOM() LIMIT count`: any `count` distinct
     * enabled rows, or all of them when there are fewer or `count` is negative
     * (SQLite reads a negative LIMIT as no limit).
     */
    method GetRandomImageFiles(count: int) returns (r: Result<seq<ImageFile>>)
      requires Valid()
      ensures !online <==> r.Err?
      ensures r.Ok? ==> RandomPick(images, count, r.value)
    {
      if !online {
        return Err("failed to get random image files");
      }
      var pool := EnabledIds(images);
      var limit := if count < 0 then |pool| else count;
      var rows: seq<ImageFile> := [];
      while |rows| < limit && pool != {}
        invariant pool <= EnabledIds(images)
        invariant |rows| + |pool| == |EnabledIds(images)|
        invariant |rows| <= limit
        invariant forall i :: 0 <= i < |rows| ==>
                    rows[i].id in images && images[rows[i].id] == rows[i] && rows[i].enabled && rows[i].id !in pool
        invariant forall i, j :: 0 <= i < j < |rows| ==> rows[i].id != rows[j].id
        decreases |pool|
      {
        ghost var some := Pick(pool);
        var id :| id in pool;
        rows := rows + [images[id]];
        pool := pool - {id};
      }
      r := Ok(rows);
    }

    method GetImageFileCount() returns (r: Result<int>)
      ensures r == if online then Ok(|EnabledIds(images)|) else Err("failed to get image file count")
    {
      if !online {
        return Err("failed to get image file count");
      }
      r := Ok(|EnabledIds(images)|);
    }

    method DeleteImageFile(filename: string) returns (r: Status)
      requires Valid()
      modifies this`images
      ensures Valid()
      ensures r.Ok? <==> online
      ensures images == if online then DeleteImagesNamed(old(images), filename) else old(images)
    {
      if !online {
        return Err("failed to delete image file record");
      }
      images := DeleteImagesNamed(images, filename);
      r := Done;
    }

    /**
     * Renames the row called `oldName`. The UNIQUE constraint refuses the
     * update when another row is already called `newName`.
     */
    method UpdateImageFilename(oldName: string, newName: string) returns (r: Status)
      requires Valid()
      modifies this`images
      ensures Valid()
      ensures var conflict := oldName != newName && FilenameTaken(old(images), oldName)
                              && FilenameTaken(old(images), newName);
              (r.Ok? <==> online && !conflict)
              && images == if r.Ok? then RenameImage(old(images), oldName, newName) else old(images)
    {
      if !online || (oldName != newName && FilenameTaken(images, oldName) && FilenameTaken(images, newName)) {
        return Err("failed to update image filename");
      }
      images := RenameImage(images, oldName, newName);
      r := Done;
    }

    method UpdateImageEnabled(filename: string, enabled: bool) returns (r: Status)
      requires Valid()
      modifies this`images
      ensures Valid()
      ensures r.Ok? <==> online
      ensures images == if online then SetImageEnabled(old(images), filename, enabled) else old(images)
    {
      if !online {
        return Err("failed to update image enabled status");
      }
      images := SetImageEnabled(images, filename, enabled);
      r := Done;
    }

    method GetTotalImageFileCount() returns (r: Result<int>)
      ensures r == if online then Ok(|images|) else Err("failed to get total image file count")
    {
      if !online {
        return Err("failed to get total image file count");
      }
      r := Ok(|images|);
    }

    // ---- settings ----

    /** What GetSetting returns for `key`. */
    function ReadSetting(key: string): (r: Result<string>)
      reads this`online, this`settings
      ensures r.Ok? <==> online
      ensures r.Ok? && key !in settings ==> r.value == ""
    {
      if online then Ok(SettingValue(settings, key)) else Err("failed to get setting")
    }

    /**
     * The SELECT itself. ReadSetting is the same read written as a function,
     * so that other members' contracts can name what a setting reads as.
     */
    method GetSetting(key: string) returns (r: Result<string>)
      ensures r == ReadSetting(key)
    {
      if !online {
        return Err("failed to get setting");
      }
      if key in settings {
        r := Ok(settings[key]);
      } else {
        r := Ok("");
      }
    }

    /** INSERT OR REPLACE: afterwards `key` reads `value` and no other key changes. */
    method SetSetting(key: string, value: string) returns (r: Status)
      modifies this`settings
      ensures r.Ok? <==> online
      ensures settings == if online then old(settings)[key := value] else old(settings)
    {
      if !online {
        return Err("failed to set setting");
      }
      settings := settings[key := value];
      r := Done;
    }

    /** Writes each default whose key reads "", visiting the keys in any order. */
    method InitializeDefaultSettings() returns (r: Status)
      modifies this`settings
      ensures r.Ok? <==> online
      ensures settings == if online then SeedDefaults(old(settings)) else old(settings)
    {
      ghost var initial := settings;
      ghost var done: set<string> := {};
      SeededNone(initial);
      var pending := DefaultSettings.Keys;
      while pending != {}
        invariant done <= DefaultSettings.Keys && pending == DefaultSettings.Keys - done
        invariant settings == Seeded(initial, done)
        invariant !online ==> settings == initial && done == {}
        decreases |pending|
      {
        ghost var some := Pick(pending);
        var key :| key in pending;
        SeededStep(initial, done, key);
        var existing := GetSetting(key);
        if existing.Err? {
          return Err(existing.message);
        }
        if existing.value == "" {
          var _ := SetSetting(key, DefaultSettings[key]);
        }
        done := done + {key};
        pending := pending - {key};
      }
      SeededAll(initial, done);
      r := Done;
    }
  }
}
