/**
 * internal/api/handlers.go: the public endpoints — random images, serving
 * one image, health and the CORS preflight.
 */
module Api {
  import opened Results
  import opened Strings
  import opened Strconv
  import opened FilePath
  import opened Models
  import opened Tables
  import opened Http
  import opened Storage
  import opened Uploads
  import opened Auth

  const RequireKeySetting := "require_api_key_for_images"
  const ImagesPrefix := "/api/images/"

  /** A setting read with a fallback for an error or "". */
  function Fallback(read: Result<string>, default: string): (v: string)
    ensures read.Ok? && read.value != "" ==> v == read.value
    ensures read.Err? || read.value == "" ==> v == default
  {
    if read.Err? || read.value == "" then default else read.value
  }

  /** A true-valued setting; failing to read it counts as true. */
  predicate ReadsTrue(read: Result<string>) {
    read.Err? || read.value == "true"
  }

  /** An absent require_api_key_for_images reads "" and so does not demand a key. */
  lemma AbsentSettingRequiresNoKey(db: DB)
    requires db.online && RequireKeySetting !in db.settings
    ensures !ReadsTrue(db.ReadSetting(RequireKeySetting))
  {
  }

  // ---- CORS ----

  /**
   * setCORSHeaders (preflight false) and HandleOptions (preflight true): the
   * headers are set only while cors_enabled reads true, and the origin falls
   * back to "*".
   */
  function CorsHeaders(enabledRead: Result<string>, originsRead: Result<string>, preflight: bool): (h: map<string, string>)
    ensures ReadsTrue(enabledRead) ==>
              && "Access-Control-Allow-Origin" in h
              && h["Access-Control-Allow-Origin"] == Fallback(originsRead, "*")
              && h["Access-Control-Allow-Origin"] != ""
    ensures !ReadsTrue(enabledRead) ==> h == map[]
    ensures ReadsTrue(enabledRead) ==> (preflight <==> "Access-Control-Max-Age" in h)
  {
    if !ReadsTrue(enabledRead) then map[]
    else if preflight then
      map["Access-Control-Allow-Origin" := Fallback(originsRead, "*"),
          "Access-Control-Allow-Methods" := "GET, POST, PUT, DELETE, OPTIONS",
          "Access-Control-Allow-Headers" := "X-API-Key, Authorization, Content-Type",
          "Access-Control-Max-Age" := "86400"]
    else
      map["Access-Control-Allow-Origin" := Fallback(originsRead, "*"),
          "Access-Control-Allow-Methods" := "GET",
          "Access-Control-Allow-Headers" := "X-API-Key, Authorization"]
  }

  // ---- count resolution ----

  datatype CountDecision = UseCount(count: int) | InvalidCount | OverMax(count: int, max: int)

  /**
   * How many images a request asks for (lines 83-113): the `count` parameter,
   * or the default setting when it is absent, checked against the maximum.
   * `defaultStr` and `maxStr` are the settings after their fallbacks; a
   * setting that does not parse counts as Atoi's value on error.
   */
  function ResolveCount(countParam: string, defaultStr: string, maxStr: string): (d: CountDecision)
    ensures d.InvalidCount? <==> countParam != "" && (Atoi(countParam).None? || Atoi(countParam).value <= 0)
    ensures d.UseCount? ==> d.count <= AtoiValue(maxStr)
    ensures d.OverMax? ==> d.max == AtoiValue(maxStr) && d.count > d.max
    ensures !d.InvalidCount? ==>
              d.count == if countParam == "" then AtoiValue(defaultStr) else Atoi(countParam).value
    ensures countParam != "" && !d.InvalidCount? ==> d.count >= 1
  {
    var maxCount := AtoiValue(maxStr);
    var count :=
      if countParam == "" then Some(AtoiValue(defaultStr))
      else if Atoi(countParam).None? || Atoi(countParam).value <= 0 then None
      else Atoi(countParam);
    if count.None? then InvalidCount
    else if count.value > maxCount then OverMax(count.value, maxCount)
    else UseCount(count.value)
  }

  /** With the seeded settings and no parameter, a request gets 20 images. */
  lemma DefaultCount()
    ensures ResolveCount("", "20", "100") == UseCount(20)
  {
    assert Itoa(20) == "20";
    AtoiItoa(20);
    assert Itoa(100) == "100";
    AtoiItoa(100);
  }

  /** The 400 answer for a count that failed a check. */
  function CountError(d: CountDecision): (r: Response)
    requires !d.UseCount?
    ensures r.status == StatusBadRequest
  {
    if d.InvalidCount? then Error(StatusBadRequest, "Invalid count parameter")
    else Error(StatusBadRequest, "Requested count (" + Itoa(d.count) + ") exceeds maximum allowed (" + Itoa(d.max) + ")")
  }

  /** The entry the response lists for an image. */
  function Entry(image: ImageFile): (e: ImageEntry)
    ensures e.filename == image.filename && e.url == ImagesPrefix + image.filename
  {
    ImageEntry(ImagesPrefix + image.filename, image.filename)
  }

  /** The response entries for the rows, in order. */
  function Entries(rows: seq<ImageFile>): (entries: seq<ImageEntry>)
    ensures |entries| == |rows|
    ensures forall i :: 0 <= i < |rows| ==> entries[i] == Entry(rows[i])
  {
    seq(|rows|, i requires 0 <= i < |rows| => Entry(rows[i]))
  }

  /**
   * The entries for a random pick name distinct enabled images: distinct rows
   * carry distinct names because file names are unique.
   */
  lemma PickedEntries(images: map<int, ImageFile>, next: int, count: int, rows: seq<ImageFile>)
    requires ImagesValid(images, next) && RandomPick(images, count, rows)
    ensures forall i :: 0 <= i < |rows| ==>
              Entries(rows)[i].url == ImagesPrefix + Entries(rows)[i].filename
              && EnabledImageNamed(images, Entries(rows)[i].filename)
    ensures forall i, j :: 0 <= i < j < |rows| ==> Entries(rows)[i].filename != Entries(rows)[j].filename
  {
    forall i | 0 <= i < |rows|
      ensures EnabledImageNamed(images, Entries(rows)[i].filename)
    {
      assert images[rows[i].id] == rows[i];
    }
  }

  // ---- serving one image ----

  /**
   * The key HandleServeImage reads: X-API-Key, else Authorization with a
   * "Bearer " prefix removed, else Authorization as it stands.
   */
  function ServeKey(header: map<string, string>): (key: string)
    ensures Lookup(header, "X-API-Key") != "" ==> key == Lookup(header, "X-API-Key")
  {
    var apiKey := Lookup(header, "X-API-Key");
    if apiKey != "" then apiKey
    else TrimPrefix(Lookup(header, "Authorization"), "Bearer ")
  }

  /**
   * The two extractions agree except when X-API-Key is empty and Authorization
   * is set without the "Bearer " prefix: the guard then finds no key, the
   * serve handler takes the whole header as the key.
   */
  lemma ServeKeyAgainstGuardKey(header: map<string, string>)
    ensures var auth := Lookup(header, "Authorization");
            if Lookup(header, "X-API-Key") == "" && !HasPrefix(auth, "Bearer ") then
              GuardKey(header) == "" && ServeKey(header) == auth
            else
              ServeKey(header) == GuardKey(header)
  {
  }

  /** The file name a request path asks for: after "/api/images/", non-empty, its last element. */
  function RequestedName(path: string): (name: Option<string>)
    ensures name.Some? <==> HasPrefix(path, ImagesPrefix) && |path| > |ImagesPrefix|
    ensures name.Some? ==> name.value != "" && (name.value == "/" || '/' !in name.value)
  {
    if !HasPrefix(path, ImagesPrefix) then None
    else
      var rest := TrimPrefix(path, ImagesPrefix);
      if rest == "" then None else Some(Base(rest))
  }

  /** A plain file name under the prefix names itself. */
  lemma RequestedPlainName(name: string)
    requires name != "" && '/' !in name
    ensures RequestedName(ImagesPrefix + name) == Some(name)
  {
    assert HasPrefix(ImagesPrefix + name, ImagesPrefix);
    assert TrimPrefix(ImagesPrefix + name, ImagesPrefix) == name;
    BaseOfPlainName(name);
  }

  /** Whether some row is called `filename` and is enabled. */
  predicate EnabledImageNamed(images: map<int, ImageFile>, filename: string) {
    exists id :: id in images && images[id].filename == filename && images[id].enabled
  }

  /**
   * The serve handler's answer to the key in `header` against the key table
   * `keys`: none while no key is required or when an enabled key has its
   * hash, else 401.
   */
  ghost function ServeKeyRejection(db: DB, keys: map<int, ApiKey>, header: map<string, string>): Option<Response>
    reads db`online, db`settings
  {
    var key := ServeKey(header);
    if !ReadsTrue(db.ReadSetting(RequireKeySetting)) then None
    else if key == "" then Some(MissingKey)
    else if !(db.online && EnabledKeyWithHash(keys, db.keyDigest(key))) then Some(InvalidKey)
    else None
  }

  /**
   * The key table after an accepted request: while a key is required, the
   * enabled key with the digest of the presented key has its last use
   * stamped with `now`; otherwise the table is unchanged.
   */
  ghost predicate KeyStamped(db: DB, before: map<int, ApiKey>, header: map<string, string>, now: int)
    reads db`online, db`settings, db`apiKeys
  {
    if ReadsTrue(db.ReadSetting(RequireKeySetting)) then
      exists id :: id in before && before[id].enabled && before[id].keyHash == db.keyDigest(ServeKey(header))
                   && db.apiKeys == TouchKey(before, id, now)
    else
      db.apiKeys == before
  }

  /**
   * The answer for `path` once the key is accepted: 404 unless the name after
   * the prefix, reduced to its last element, names an enabled image whose file
   * is among `files`; 500 when the rows cannot be read; otherwise 200 with the
   * file and the image's MIME type.
   */
  ghost predicate ServedFile(db: DB, files: set<string>, path: string, resp: Response)
    reads db`online, db`images
  {
    var name := RequestedName(path);
    && (name.None? ==> resp == Error(StatusNotFound, "Not found"))
    && (name.Some? && !db.online ==> resp == InternalError)
    && (name.Some? && db.online && !EnabledImageNamed(db.images, name.value) ==>
          resp == Error(StatusNotFound, "Image not found"))
    && (name.Some? && db.online && EnabledImageNamed(db.images, name.value) && name.value !in files ==>
          resp == Error(StatusNotFound, "Image file not found"))
    && (resp.status == StatusOK <==>
          name.Some? && db.online && EnabledImageNamed(db.images, name.value) && name.value in files)
    && (resp.status == StatusOK ==>
          && resp.body == File(name.value)
          && "Content-Type" in resp.header
          && exists id :: id in db.images && db.images[id].filename == name.value
                          && db.images[id].mimeType == resp.header["Content-Type"])
  }

  /** The count decision for a random-images query under the stored settings. */
  ghost function RequestedCount(db: DB, query: map<string, string>): CountDecision
    reads db`online, db`settings
  {
    ResolveCount(Lookup(query, "count"), Fallback(db.ReadSetting("default_image_count"), "20"),
                 Fallback(db.ReadSetting("max_image_count"), "100"))
  }

  /**
   * The body of a successful random-images answer for `count`: distinct
   * enabled images, as many as asked (all of them for a negative count),
   * each listed under its URL, with the CORS headers.
   */
  ghost predicate ListsPick(db: DB, count: int, resp: Response)
    reads db`online, db`settings, db`images
  {
    && resp.body.RandomImages?
    && resp.body.count == |resp.body.images| == (if count < 0 then |EnabledIds(db.images)| else count)
    && (forall i :: 0 <= i < |resp.body.images| ==>
          resp.body.images[i].url == ImagesPrefix + resp.body.images[i].filename
          && EnabledImageNamed(db.images, resp.body.images[i].filename))
    && (forall i, j :: 0 <= i < j < |resp.body.images| ==>
          resp.body.images[i].filename != resp.body.images[j].filename)
    && resp.header == CorsHeaders(db.ReadSetting("cors_enabled"), db.ReadSetting("cors_origins"), false)
                        ["Content-Type" := "application/json"]
  }

  /** The 400 message for a count above the number of enabled images. */
  function TooFewImages(count: int, total: int): string {
    "Requested count (" + Itoa(count) + ") exceeds total images (" + Itoa(total) + ")"
  }

  /**
   * The answer of a random-images request the catalogue cannot serve: 500
   * when the images cannot be counted, 400 naming both numbers when fewer
   * images are enabled than asked for.
   */
  ghost predicate CatalogueRefusal(db: DB, count: int, resp: Response)
    reads db`online, db`images
  {
    && (!db.online ==> resp == InternalError)
    && (db.online && count > |EnabledIds(db.images)| ==>
          resp == Error(StatusBadRequest, TooFewImages(count, |EnabledIds(db.images)|)))
  }

  class Server {
    const db: DB
    const uploads: Directory

    constructor (db: DB, uploads: Directory)
      ensures this.db == db && this.uploads == uploads
    {
      this.db := db;
      this.uploads := uploads;
    }

    /**
     * GET only. Without a key in context while one is required: 401. Then the
     * count checks in order — parameter, maximum, catalogue size — each a 400.
     * On success the body lists distinct enabled images, as many as asked,
     * and one request is logged against the key the guard attached.
     */
    method HandleRandomImages(request: Request, ctx: Context) returns (resp: Response)
      requires db.Valid()
      modifies db`requests, db`nextRequestId
      ensures db.Valid()
      ensures request.verb != "GET" ==> resp == Error(StatusMethodNotAllowed, "Method not allowed")
      ensures var required := ReadsTrue(db.ReadSetting(RequireKeySetting));
              var keyMissing := required && GetAPIKeyFromContext(ctx).None?;
              var d := RequestedCount(db, request.query);
              && (request.verb == "GET" && keyMissing ==> resp == Error(StatusUnauthorized, "Unauthorized"))
              && (request.verb == "GET" && !keyMissing && !d.UseCount? ==> resp == CountError(d))
              && (request.verb == "GET" && !keyMissing && d.UseCount? ==> CatalogueRefusal(db, d.count, resp))
              && (resp.status == StatusOK <==>
                    request.verb == "GET" && !keyMissing && d.UseCount? && db.online
                    && d.count <= |EnabledIds(db.images)|)
              && (resp.status == StatusOK ==> ListsPick(db, d.count, resp))
              && (db.requests == if resp.status == StatusOK && required then
                                   old(db.requests) + [ApiRequest(old(db.nextRequestId), GetAPIKeyFromContext(ctx).value.id,
                                                                  resp.body.count)]
                                 else old(db.requests))
    {
      if request.verb != "GET" {
        resp := Error(StatusMethodNotAllowed, "Method not allowed");
      } else {
        var requireAPIKey := db.GetSetting(RequireKeySetting);
        var apiKey: Option<ApiKey> := if ReadsTrue(requireAPIKey) then GetAPIKeyFromContext(ctx) else None;
        if ReadsTrue(requireAPIKey) && apiKey.None? {
          resp := Error(StatusUnauthorized, "Unauthorized");
        } else {
          resp := AnswerQuery(request.query, apiKey);
        }
      }
    }

    /** The part of a random-images request after the key check: the count, then the catalogue. */
    method AnswerQuery(query: map<string, string>, apiKey: Option<ApiKey>) returns (resp: Response)
      requires db.Valid()
      modifies db`requests, db`nextRequestId
      ensures db.Valid()
      ensures var d := RequestedCount(db, query);
              && (!d.UseCount? ==> resp == CountError(d))
              && (d.UseCount? ==> CatalogueRefusal(db, d.count, resp))
              && (resp.status == StatusOK <==> d.UseCount? && db.online && d.count <= |EnabledIds(db.images)|)
              && (resp.status == StatusOK ==> ListsPick(db, d.count, resp))
              && (db.requests == if resp.status == StatusOK && apiKey.Some? then
                                   old(db.requests) + [ApiRequest(old(db.nextRequestId), apiKey.value.id, resp.body.count)]
                                 else old(db.requests))
    {
      var decision := ReadCount(query);
      if !decision.UseCount? {
        resp := CountError(decision);
      } else {
        resp := RespondWithImages(decision.count, apiKey);
      }
    }

    /** The count a random-images query asks for, checked against the stored default and maximum. */
    method ReadCount(query: map<string, string>) returns (decision: CountDecision)
      ensures decision == RequestedCount(db, query)
    {
      var defaultRead := db.GetSetting("default_image_count");
      var maxRead := db.GetSetting("max_image_count");
      decision := ResolveCount(Lookup(query, "count"), Fallback(defaultRead, "20"), Fallback(maxRead, "100"));
    }

    /** The catalogue check, the pick, the entries and the log entry of a random-images request. */
    method RespondWithImages(count: int, apiKey: Option<ApiKey>) returns (resp: Response)
      requires db.Valid()
      modifies db`requests, db`nextRequestId
      ensures db.Valid()
      ensures resp.status == StatusOK <==> db.online && count <= |EnabledIds(db.images)|
      ensures resp.status == StatusOK ==> ListsPick(db, count, resp)
      ensures CatalogueRefusal(db, count, resp)
      ensures db.requests == if resp.status == StatusOK && apiKey.Some? then
                               old(db.requests) + [ApiRequest(old(db.nextRequestId), apiKey.value.id, resp.body.count)]
                             else old(db.requests)
    {
      var totalImages := db.GetImageFileCount();
      if totalImages.Err? {
        return InternalError;
      }
      if count > totalImages.value {
        return Error(StatusBadRequest, TooFewImages(count, totalImages.value));
      }
      var picked := db.GetRandomImageFiles(count);
      var rows := picked.value;
      var entries: seq<ImageEntry> := [];
      var i := 0;
      while i < |rows|
        invariant 0 <= i <= |rows|
        invariant entries == Entries(rows[..i])
      {
        entries := entries + [Entry(rows[i])];
        i := i + 1;
      }
      assert rows[..|rows|] == rows;
      PickedEntries(db.images, db.nextImageId, count, rows);
      if apiKey.Some? {
        var _ := db.LogAPIRequest(apiKey.value.id, |rows|);
      }
      var cors := CorsHeaders(db.ReadSetting("cors_enabled"), db.ReadSetting("cors_origins"), false);
      resp := Response(StatusOK, cors["Content-Type" := "application/json"], RandomImages(entries, |rows|));
    }

    /**
     * The scan of the listed rows for `filename`, stopping at the first match:
     * it finds the row exactly when one has that name, and reports that row's
     * type and enabled flag.
     */
    method FindImage(filename: string) returns (found: bool, mimeType: string, isEnabled: bool)
      requires db.Valid() && db.online
      ensures found <==> FilenameTaken(db.images, filename)
      ensures found && isEnabled <==> EnabledImageNamed(db.images, filename)
      ensures found ==> exists id :: id in db.images && db.images[id].filename == filename
                                     && db.images[id].mimeType == mimeType && db.images[id].enabled == isEnabled
    {
      var listed := db.GetAllImageFiles();
      var rows := listed.value;
      found, mimeType, isEnabled := false, "", false;
      var i := 0;
      while i < |rows| && !found
        invariant 0 <= i <= |rows|
        invariant !found ==> forall j :: 0 <= j < i ==> rows[j].filename != filename
        invariant found ==> exists j :: 0 <= j < |rows| && rows[j].filename == filename
                                        && rows[j].mimeType == mimeType && rows[j].enabled == isEnabled
      {
        if rows[i].filename == filename {
          found, mimeType, isEnabled := true, rows[i].mimeType, rows[i].enabled;
        }
        i := i + 1;
      }
      if found {
        var j :| 0 <= j < |rows| && rows[j].filename == filename
                 && rows[j].mimeType == mimeType && rows[j].enabled == isEnabled;
        ListingMembers(db.images, 1, db.nextImageId, rows[j]);
        var id :| 1 <= id < db.nextImageId && id in db.images && db.images[id] == rows[j];
        if EnabledImageNamed(db.images, filename) {
          var other :| other in db.images && db.images[other].filename == filename && db.images[other].enabled;
          assert other == id;
        }
      } else {
        forall id | id in db.images
          ensures db.images[id].filename != filename
        {
          ListingMembers(db.images, 1, db.nextImageId, db.images[id]);
        }
      }
    }

    /**
     * GET only. While a key is required: 401 without one and 401 when it does
     * not match an enabled key (a failed lookup included); a match stamps the
     * key's last use. Then 404 unless the path names, after the prefix, an
     * enabled row whose file is in the upload directory; 500 when the rows
     * cannot be listed.
     */
    method HandleServeImage(request: Request, now: int) returns (resp: Response)
      requires db.Valid()
      modifies db`apiKeys
      ensures db.Valid()
      ensures request.verb != "GET" ==> resp == Error(StatusMethodNotAllowed, "Method not allowed") && db.apiKeys == old(db.apiKeys)
      ensures request.verb == "GET" ==>
                var rejection := ServeKeyRejection(db, old(db.apiKeys), request.header);
                && (rejection.Some? ==> resp == rejection.value && db.apiKeys == old(db.apiKeys))
                && (rejection.None? ==> KeyStamped(db, old(db.apiKeys), request.header, now)
                                        && ServedFile(db, uploads.names, request.path, resp))
    {
      if request.verb != "GET" {
        return Error(StatusMethodNotAllowed, "Method not allowed");
      }
      var rejection := CheckServeKey(request.header, now);
      if rejection.Some? {
        return rejection.value;
      }
      resp := ServeFile(request.path);
    }

    /**
     * The key check of HandleServeImage: the key comes from X-API-Key or from
     * Authorization with any "Bearer " prefix removed; a missing or unmatched
     * key is rejected, a matched one has its last use stamped.
     */
    method CheckServeKey(header: map<string, string>, now: int) returns (rejection: Option<Response>)
      requires db.Valid()
      modifies db`apiKeys
      ensures db.Valid()
      ensures rejection == ServeKeyRejection(db, old(db.apiKeys), header)
      ensures rejection.Some? ==> db.apiKeys == old(db.apiKeys)
      ensures rejection.None? ==> KeyStamped(db, old(db.apiKeys), header, now)
    {
      var requireAPIKey := db.GetSetting(RequireKeySetting);
      if !ReadsTrue(requireAPIKey) {
        return None;
      }
      var apiKeyHeader := Lookup(header, "X-API-Key");
      if apiKeyHeader == "" {
        apiKeyHeader := Lookup(header, "Authorization");
        if HasPrefix(apiKeyHeader, "Bearer ") {
          apiKeyHeader := TrimPrefix(apiKeyHeader, "Bearer ");
        }
      }
      if apiKeyHeader == "" {
        return Some(MissingKey);
      }
      var found := db.GetAPIKeyByKey(apiKeyHeader);
      if found.Err? || found.value.None? {
        return Some(InvalidKey);
      }
      var _ := db.UpdateAPIKeyLastUsed(found.value.value.id, now);
      rejection := None;
    }

    /**
     * The part of HandleServeImage after the key check: the name after the
     * prefix, reduced to its last element, must name an enabled image whose
     * file exists.
     */
    method ServeFile(path: string) returns (resp: Response)
      requires db.Valid()
      ensures ServedFile(db, uploads.names, path, resp)
    {
      if !HasPrefix(path, ImagesPrefix) {
        return Error(StatusNotFound, "Not found");
      }
      var filename := TrimPrefix(path, ImagesPrefix);
      if filename == "" {
        return Error(StatusNotFound, "Not found");
      }
      filename := Base(filename);
      if !db.online {
        return InternalError;
      }
      var foundImage, mimeType, isEnabled := FindImage(filename);
      if !foundImage || !isEnabled {
        return Error(StatusNotFound, "Image not found");
      }
      if filename !in uploads.names {
        return Error(StatusNotFound, "Image file not found");
      }
      var cors := CorsHeaders(db.ReadSetting("cors_enabled"), db.ReadSetting("cors_origins"), false);
      resp := Response(StatusOK, cors["Content-Type" := mimeType]["Cache-Control" := "public, max-age=86400"],
                       File(filename));
    }

    /** GET only: 503 when the store cannot count, else "healthy" with the enabled count. */
    method HandleHealth(request: Request) returns (resp: Response)
      ensures request.verb != "GET" ==> resp == Error(StatusMethodNotAllowed, "Method not allowed")
      ensures request.verb == "GET" && !db.online ==> resp == Error(StatusServiceUnavailable, "Database unavailable")
      ensures request.verb == "GET" && db.online ==>
                resp.status == StatusOK && resp.body == Health("healthy", |EnabledIds(db.images)|)
    {
      if request.verb != "GET" {
        return Error(StatusMethodNotAllowed, "Method not allowed");
      }
      var imageCount := db.GetImageFileCount();
      if imageCount.Err? {
        return Error(StatusServiceUnavailable, "Database unavailable");
      }
      resp := Response(StatusOK, map["Content-Type" := "application/json"], Health("healthy", imageCount.value));
    }

    /** The preflight answer: 200, with the CORS headers while CORS is enabled. */
    method HandleOptions() returns (resp: Response)
      ensures resp.status == StatusOK && resp.body == NoBody
      ensures resp.header == CorsHeaders(db.ReadSetting("cors_enabled"), db.ReadSetting("cors_origins"), true)
    {
      var corsEnabled := db.GetSetting("cors_enabled");
      var corsOrigins := db.GetSetting("cors_origins");
      resp := Response(StatusOK, CorsHeaders(corsEnabled, corsOrigins, true), NoBody);
    }
  }
}
