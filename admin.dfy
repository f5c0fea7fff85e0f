/**
 * internal/admin/handlers.go: setup, login and logout, the dashboard, image
 * and API-key management and the settings form. Pages are Render results;
 * redirects carry their message in the location, as the handlers write them.
 */
module Admin {
  import opened Results
  import opened Strings
  import opened Strconv
  import opened Hex
  import opened Models
  import opened Tables
  import opened Http
  import opened Storage
  import opened Uploads
  import opened Auth
  import opened AdminForms

  // Redirect locations; each carries the message the admin pages show.
  const SetupDone := "/admin/login?success=Admin account created successfully"
  const ImageNameMissing := "/admin/images?error=Invalid filename"
  const ImageNameInvalid := "/admin/images?error=Invalid filename format"
  const ImageOriginalMissing := "/admin/images?error=Original file not found"
  const ImageNameExists := "/admin/images?error=File with new name already exists"
  const ImageRenameFailed := "/admin/images?error=Failed to update database"
  const ImageRenamed := "/admin/images?success=Image renamed successfully"
  const ImageDeleteFailed := "/admin/images?error=Failed to delete from database"
  const ImageDeleted := "/admin/images?success=Image deleted successfully"
  const ImageEnabled := "/admin/images?success=Image enabled successfully"
  const ImageDisabled := "/admin/images?success=Image disabled successfully"
  const ImageToggleFailed := "/admin/images?error=Failed to update image status"
  const KeyIdInvalid := "/admin/api-keys?error=Invalid key ID"
  const KeyToggleFailed := "/admin/api-keys?error=Failed to update API key"
  const KeyEnabled := "/admin/api-keys?success=API key enabled successfully"
  const KeyDisabled := "/admin/api-keys?success=API key disabled successfully"
  const KeyNotFound := "/admin/api-keys?error=API key not found"
  const KeyDeleteFailed := "/admin/api-keys?error=Failed to delete API key"
  const KeyDeleted := "/admin/api-keys?success=API key deleted successfully"
  const SettingsSaved := "/admin/settings?success=Settings saved successfully"
  const KeyRegenerated := "/admin/api-keys?success=API key regenerated successfully"
  const KeyRegenerateFailed := "/admin/api-keys?error=Failed to regenerate API key"

  /** Some admin has this username and the password hashes to its stored hash. */
  ghost predicate CredentialsMatch(db: DB, username: string, password: string)
    reads db`admins
  {
    exists i :: 0 <= i < |db.admins| && db.admins[i].username == username
                && db.admins[i].passwordHash == db.passwordHash(password)
  }

  /** What a dashboard shows when every query succeeds. */
  ghost function DashboardOf(db: DB, username: string): Body
    reads db
  {
    var keys := Listing(db.apiKeys, 1, db.nextKeyId);
    DashboardPage(username, |EnabledIds(db.images)|, |db.images|, |keys|,
                  ActiveCount(keys), TotalUsage(keys, db.requests))
  }

  class Server {
    const db: DB
    const auth: AuthService
    const uploads: Directory

    constructor (db: DB, auth: AuthService, uploads: Directory)
      ensures this.db == db && this.auth == auth && this.uploads == uploads
    {
      this.db := db;
      this.auth := auth;
      this.uploads := uploads;
    }

    // ---- setup, login, logout ----

    /**
     * Only while no admin exists: a POST whose fields pass the checks creates
     * the first admin and redirects to the login page; otherwise the form is
     * shown again with the first complaint.
     */
    method HandleSetup(request: Request) returns (resp: Response)
      requires db.Valid()
      modifies db`admins, db`nextAdminId
      ensures db.Valid()
      ensures !db.online ==> resp == InternalError
      ensures db.online && old(db.admins) != [] ==> resp == Redirect("/admin/login")
      ensures var username := Lookup(request.form, "username");
              var password := Lookup(request.form, "password");
              var e := SetupFormError(username, password, Lookup(request.form, "confirm_password"));
              var creates := db.online && old(db.admins) == [] && request.verb == "POST" && e.None?
                             && !db.hashRefuses(password);
              && (creates ==> db.admins == [AdminUser(old(db.nextAdminId), username, db.passwordHash(password))]
                              && resp == Redirect(SetupDone))
              && (!creates ==> db.admins == old(db.admins))
              && (db.online && old(db.admins) == [] && request.verb == "POST" && e.Some? ==>
                    resp == Render("setup.html", e.value))
              && (db.online && old(db.admins) == [] && request.verb != "POST" ==> resp == Render("setup.html", ""))
              && (db.online && old(db.admins) == [] && request.verb == "POST" && e.None? && db.hashRefuses(password) ==>
                    resp == Render("setup.html", "Failed to create admin user"))
    {
      var hasAdmins := db.HasAdminUsers();
      if hasAdmins.Err? {
        return InternalError;
      }
      if hasAdmins.value {
        return Redirect("/admin/login");
      }
      if request.verb != "POST" {
        return Render("setup.html", "");
      }
      var username := Lookup(request.form, "username");
      var password := Lookup(request.form, "password");
      var problem := SetupFormError(username, password, Lookup(request.form, "confirm_password"));
      if problem.Some? {
        return Render("setup.html", problem.value);
      }
      var created := db.CreateAdminUser(username, password);
      if created.Err? {
        return Render("setup.html", "Failed to create admin user");
      }
      resp := Redirect(SetupDone);
    }

    /**
     * A POST with both fields, matching credentials and a readable session
     * stores the identity in the session and redirects to /admin; every other
     * request shows the login page, with the first complaint for a POST.
     */
    method HandleLogin(request: Request, session: Session) returns (resp: Response)
      requires db.Valid() && auth.db == db
      modifies session`values
      ensures var username := Lookup(request.form, "username");
              var password := Lookup(request.form, "password");
              var ok := request.verb == "POST" && username != "" && password != "" && db.online
                        && CredentialsMatch(db, username, password) && !session.loadFailed;
              && (ok ==> resp == Redirect("/admin")
                         && exists i :: 0 <= i < |db.admins| && db.admins[i].username == username
                                        && db.admins[i].passwordHash == db.passwordHash(password)
                                        && GetAdminFromSession(session) == Ok(Some(AdminUser(db.admins[i].id, username, ""))))
              && (!ok ==> session.values == old(session.values))
              && (request.verb != "POST" ==> resp == Render("login.html", ""))
              && (request.verb == "POST" && (username == "" || password == "") ==>
                    resp == Render("login.html", "Username and password are required"))
              && (request.verb == "POST" && username != "" && password != "" && db.online
                  && !CredentialsMatch(db, username, password) ==>
                    resp == Render("login.html", "Invalid username or password"))
              && (request.verb == "POST" && username != "" && password != "" && !ok
                  && (!db.online || CredentialsMatch(db, username, password)) ==>
                    resp == Render("login.html", "Login failed"))
    {
      if request.verb != "POST" {
        return Render("login.html", "");
      }
      var username := Lookup(request.form, "username");
      var password := Lookup(request.form, "password");
      if username == "" || password == "" {
        return Render("login.html", "Username and password are required");
      }
      var user := auth.LoginAdmin(username, password);
      if user.Err? {
        return Render("login.html", "Login failed");
      }
      if user.value.None? {
        return Render("login.html", "Invalid username or password");
      }
      var saved := SetAdminSession(session, user.value.value);
      if saved.Err? {
        return Render("login.html", "Login failed");
      }
      resp := Redirect("/admin");
    }

    /** Clears the session (ignoring a failure to) and redirects to the login page. */
    method HandleLogout(session: Session) returns (resp: Response)
      modifies session`values, session`maxAge
      ensures resp == Redirect("/admin/login")
      ensures !session.loadFailed ==> GetAdminFromSession(session) == Ok(None) && session.maxAge == -1
    {
      var _ := ClearAdminSession(session);
      resp := Redirect("/admin/login");
    }

    // ---- dashboard ----

    /**
     * The dashboard counters. Each query that fails counts as zero keys,
     * images or requests; the active keys and the request total are summed
     * over the key listing in loops.
     */
    method HandleDashboard(ctx: Context) returns (resp: Response)
      requires db.Valid() && GetAdminFromContext(ctx).Some?
      ensures resp.status == StatusOK
      ensures db.online ==> resp.body == DashboardOf(db, GetAdminFromContext(ctx).value.username)
      ensures !db.online ==> resp.body == DashboardPage(GetAdminFromContext(ctx).value.username, 0, 0, 0, 0, 0)
      ensures resp.body.activeApiKeys <= resp.body.apiKeys == (if db.online then |db.apiKeys| else 0)
      ensures resp.body.requests <= |db.requests| && resp.body.enabledImages <= resp.body.totalImages
    {
      var user := GetAdminFromContext(ctx).value;
      var enabledRead := db.GetImageFileCount();
      var enabledImageCount := if enabledRead.Ok? then enabledRead.value else 0;
      var totalRead := db.GetTotalImageFileCount();
      var totalImageCount := if totalRead.Ok? then totalRead.value else 0;
      var keysRead := db.GetAllAPIKeys();
      var apiKeys := if keysRead.Ok? then keysRead.value else [];
      KeyListingDescending(db.apiKeys, 1, db.nextKeyId);
      ListingSize(db.apiKeys, 1, db.nextKeyId);
      EnabledAtMostTotal(db.images);

      var activeAPIKeyCount := CountActive(apiKeys);
      var requestCount := SumUsage(apiKeys);
      TotalUsageBound(apiKeys, db.requests);

      resp := Response(StatusOK, HtmlHeader,
                       DashboardPage(user.username, enabledImageCount, totalImageCount, |apiKeys|,
                                     activeAPIKeyCount, requestCount));
    }

    /** The dashboard's count of enabled keys in a listing. */
    static method CountActive(apiKeys: seq<ApiKey>) returns (activeAPIKeyCount: int)
      ensures activeAPIKeyCount == ActiveCount(apiKeys)
    {
      activeAPIKeyCount := 0;
      var i := 0;
      while i < |apiKeys|
        invariant 0 <= i <= |apiKeys|
        invariant activeAPIKeyCount == ActiveCount(apiKeys[..i])
      {
        assert apiKeys[..i + 1][..i] == apiKeys[..i];
        if apiKeys[i].enabled {
          activeAPIKeyCount := activeAPIKeyCount + 1;
        }
        i := i + 1;
      }
      assert apiKeys[..|apiKeys|] == apiKeys;
    }

    /** The dashboard's request total: each key's usage count, a failed count adding nothing. */
    method SumUsage(apiKeys: seq<ApiKey>) returns (requestCount: int)
      requires db.Valid()
      ensures requestCount == if db.online then TotalUsage(apiKeys, db.requests) else 0
    {
      requestCount := 0;
      var i := 0;
      while i < |apiKeys|
        invariant 0 <= i <= |apiKeys|
        invariant requestCount == if db.online then TotalUsage(apiKeys[..i], db.requests) else 0
      {
        assert apiKeys[..i + 1][..i] == apiKeys[..i];
        var count := db.GetAPIKeyUsageCount(apiKeys[i].id);
        if count.Ok? {
          requestCount := requestCount + count.value;
        }
        i := i + 1;
      }
      assert apiKeys[..|apiKeys|] == apiKeys;
    }

    // ---- images ----

    /**
     * The name an upload is stored under: the original when no file has it,
     * otherwise the first of name_1.ext, name_2.ext, ... that is free.
     */
    method UniqueUploadName(original: string) returns (filename: string)
      ensures FirstFreeName(uploads.names, original, filename)
    {
      filename := original;
      var counter := 1;
      ghost var tried: set<string> := {};
      while filename in uploads.names
        invariant counter >= 1 && filename == TriedAt(original, counter)
        invariant tried == TriedBefore(original, counter)
        invariant tried <= uploads.names && filename !in tried
        decreases |uploads.names - tried|
      {
        TriedStep(original, counter);
        tried := tried + {filename};
        filename := Candidate(original, counter);
        counter := counter + 1;
      }
      if original in uploads.names {
        forall k | 1 <= k < counter - 1
          ensures Candidate(original, k) in uploads.names
        {
          assert Candidate(original, k) in tried;
        }
      }
    }

    /**
     * uploadFile for one part: rejects a type that is not an image; stores the
     * file under a free name, then records it; when the record fails the file
     * is removed again. Returns the name the image was stored under.
     */
    method UploadFile(contentType: string, original: string, size: int) returns (r: Result<string>, ghost stored: string)
      requires db.Valid()
      modifies db`images, db`nextImageId, uploads`names
      ensures db.Valid()
      ensures contentType !in ValidImageTypes ==> r == Err("invalid file type")
      ensures contentType in ValidImageTypes ==>
                && FirstFreeName(old(uploads.names), original, stored)
                && (r.Ok? <==> db.online && !FilenameTaken(old(db.images), stored))
                && (r.Ok? ==> r.value == stored)
      ensures r.Ok? ==>
                && contentType in ValidImageTypes
                && r.value !in old(uploads.names) && uploads.names == old(uploads.names) + {r.value}
                && (original !in old(uploads.names) ==> r.value == original)
                && db.images == old(db.images)[old(db.nextImageId) := ImageFile(old(db.nextImageId), r.value, size, contentType, true)]
      ensures r.Err? ==> uploads.names == old(uploads.names) && db.images == old(db.images)
      ensures (contentType in ValidImageTypes && db.online && !FilenameTaken(old(db.images), original)
               && original !in old(uploads.names)) ==> r == Ok(original)
    {
      var valid := IsValidImageType(contentType);
      if !valid {
        return Err("invalid file type"), original;
      }
      var filename := UniqueUploadName(original);
      stored := filename;
      uploads.names := uploads.names + {filename};
      var created := db.CreateImageFile(filename, size, contentType);
      if created.Err? {
        uploads.names := uploads.names - {filename};
        r := Err(created.message);
        return;
      }
      r := Ok(filename);
    }

    /**
     * Renames an image file and its record. Refused, with nothing changed,
     * when a name is empty, the new name is invalid, the old file is missing
     * or the new one exists; when the record cannot be renamed the file is
     * renamed back.
     */
    method HandleImageRename(request: Request) returns (resp: Response)
      requires db.Valid()
      modifies db`images, uploads`names
      ensures db.Valid()
      ensures var oldName := Lookup(request.form, "old_filename");
              var newName := Lookup(request.form, "new_filename");
              var accepted := request.verb == "POST" && oldName != "" && newName != "" && ValidFilename(newName)
                              && oldName in old(uploads.names) && newName !in old(uploads.names);
              var renamed := accepted && db.online
                             && !(oldName != newName && FilenameTaken(old(db.images), oldName)
                                  && FilenameTaken(old(db.images), newName));
              && (request.verb != "POST" ==> resp == Error(StatusMethodNotAllowed, "Method not allowed"))
              && (request.verb == "POST" && (oldName == "" || newName == "") ==>
                    resp == Redirect(ImageNameMissing))
              && (renamed ==> resp == Redirect(ImageRenamed)
                              && uploads.names == old(uploads.names) - {oldName} + {newName}
                              && db.images == RenameImage(old(db.images), oldName, newName))
              && (!renamed ==> uploads.names == old(uploads.names) && db.images == old(db.images))
      ensures var oldName := Lookup(request.form, "old_filename");
              var newName := Lookup(request.form, "new_filename");
              request.verb == "POST" && oldName != "" && newName != "" ==>
                && (!ValidFilename(newName) ==> resp == Redirect(ImageNameInvalid))
                && (ValidFilename(newName) && oldName !in old(uploads.names) ==> resp == Redirect(ImageOriginalMissing))
                && (ValidFilename(newName) && oldName in old(uploads.names) && newName in old(uploads.names) ==>
                      resp == Redirect(ImageNameExists))
                && (ValidFilename(newName) && oldName in old(uploads.names) && newName !in old(uploads.names)
                    && !(db.online && !(oldName != newName && FilenameTaken(old(db.images), oldName)
                                        && FilenameTaken(old(db.images), newName))) ==>
                      resp == Redirect(ImageRenameFailed))
    {
      if request.verb != "POST" {
        return Error(StatusMethodNotAllowed, "Method not allowed");
      }
      var oldName := Lookup(request.form, "old_filename");
      var newName := Lookup(request.form, "new_filename");
      if oldName == "" || newName == "" {
        return Redirect(ImageNameMissing);
      }
      var valid := IsValidFilename(newName);
      if !valid {
        return Redirect(ImageNameInvalid);
      }
      if oldName !in uploads.names {
        return Redirect(ImageOriginalMissing);
      }
      if newName in uploads.names {
        return Redirect(ImageNameExists);
      }
      uploads.names := uploads.names - {oldName} + {newName};
      var updated := db.UpdateImageFilename(oldName, newName);
      if updated.Err? {
        uploads.names := uploads.names - {newName} + {oldName};
        return Redirect(ImageRenameFailed);
      }
      resp := Redirect(ImageRenamed);
    }

    /** Deletes the record, then the file (a failure to remove the file is ignored). */
    method HandleImageDelete(request: Request) returns (resp: Response)
      requires db.Valid()
      modifies db`images, uploads`names
      ensures db.Valid()
      ensures var filename := Lookup(request.form, "filename");
              var deletes := request.verb == "POST" && filename != "" && db.online;
              && (deletes ==> resp == Redirect(ImageDeleted)
                              && db.images == DeleteImagesNamed(old(db.images), filename)
                              && uploads.names == old(uploads.names) - {filename})
              && (!deletes ==> db.images == old(db.images) && uploads.names == old(uploads.names))
              && (request.verb == "POST" && filename == "" ==> resp == Redirect(ImageNameMissing))
      ensures request.verb != "POST" ==> resp == Error(StatusMethodNotAllowed, "Method not allowed")
      ensures request.verb == "POST" && Lookup(request.form, "filename") != "" && !db.online ==>
                resp == Redirect(ImageDeleteFailed)
    {
      if request.verb != "POST" {
        return Error(StatusMethodNotAllowed, "Method not allowed");
      }
      var filename := Lookup(request.form, "filename");
      if filename == "" {
        return Redirect(ImageNameMissing);
      }
      var deleted := db.DeleteImageFile(filename);
      if deleted.Err? {
        return Redirect(ImageDeleteFailed);
      }
      uploads.names := uploads.names - {filename};
      resp := Redirect(ImageDeleted);
    }

    /** Enables the named image exactly when the form says "true", and disables it otherwise. */
    method HandleToggleImage(request: Request) returns (resp: Response)
      requires db.Valid()
      modifies db`images
      ensures db.Valid()
      ensures var filename := Lookup(request.form, "filename");
              var enabled := Lookup(request.form, "enabled") == "true";
              var toggles := request.verb == "POST" && filename != "" && db.online;
              && (toggles ==> db.images == SetImageEnabled(old(db.images), filename, enabled)
                              && resp == Redirect(if enabled then ImageEnabled
                                                  else ImageDisabled))
              && (!toggles ==> db.images == old(db.images))
      ensures request.verb != "POST" ==> resp == Error(StatusMethodNotAllowed, "Method not allowed")
      ensures request.verb == "POST" && Lookup(request.form, "filename") == "" ==> resp == Redirect(ImageNameMissing)
      ensures request.verb == "POST" && Lookup(request.form, "filename") != "" && !db.online ==>
                resp == Redirect(ImageToggleFailed)
    {
      if request.verb != "POST" {
        return Error(StatusMethodNotAllowed, "Method not allowed");
      }
      var filename := Lookup(request.form, "filename");
      if filename == "" {
        return Redirect(ImageNameMissing);
      }
      var enabled := Lookup(request.form, "enabled") == "true";
      var updated := db.UpdateImageEnabled(filename, enabled);
      if updated.Err? {
        return Redirect(ImageToggleFailed);
      }
      resp := Redirect(if enabled then ImageEnabled
                       else ImageDisabled);
    }

    // ---- API keys ----

    /**
     * A POST with a trimmed name of 1 to 100 bytes creates a key from the
     * random bytes and shows its raw form once; otherwise the form is shown
     * with the first complaint.
     */
    method HandleNewAPIKey(request: Request, random: seq<byte>) returns (resp: Response)
      requires db.Valid() && |random| == 32
      modifies db`apiKeys, db`nextKeyId
      ensures db.Valid()
      ensures var name := TrimSpace(Lookup(request.form, "name"));
              var raw := HexEncode(random);
              if request.verb == "POST" && KeyNameError(name).None? && db.online
                 && !HashTaken(old(db.apiKeys), db.keyDigest(raw)) then
                && db.apiKeys == old(db.apiKeys)[old(db.nextKeyId) :=
                     ApiKey(old(db.nextKeyId), db.keyDigest(raw), name, true, None)]
                && resp.body == NewKeyPage("", raw, "")
              else
                db.apiKeys == old(db.apiKeys)
      ensures var name := TrimSpace(Lookup(request.form, "name"));
              request.verb == "POST" ==>
                match KeyNameError(name)
                case Some(complaint) => resp.body == NewKeyPage(name, "", complaint)
                case None =>
                  if db.online && !HashTaken(old(db.apiKeys), db.keyDigest(HexEncode(random))) then
                    resp.body == NewKeyPage("", HexEncode(random), "")
                  else
                    resp.body == NewKeyPage(name, "", "Failed to create API key")
      ensures request.verb != "POST" ==> resp.body == NewKeyPage("", "", "")
    {
      if request.verb != "POST" {
        return Response(StatusOK, HtmlHeader, NewKeyPage("", "", ""));
      }
      var name := TrimSpace(Lookup(request.form, "name"));
      var problem := KeyNameError(name);
      if problem.Some? {
        return Response(StatusOK, HtmlHeader, NewKeyPage(name, "", problem.value));
      }
      resp := CreateKeyPage(name, random);
    }

    /** The creating half of HandleNewAPIKey, for an accepted name. */
    method CreateKeyPage(name: string, random: seq<byte>) returns (resp: Response)
      requires db.Valid() && |random| == 32
      modifies db`apiKeys, db`nextKeyId
      ensures db.Valid()
      ensures var raw := HexEncode(random);
              if db.online && !HashTaken(old(db.apiKeys), db.keyDigest(raw)) then
                && db.apiKeys == old(db.apiKeys)[old(db.nextKeyId) := ApiKey(old(db.nextKeyId), db.keyDigest(raw), name, true, None)]
                && resp.body == NewKeyPage("", raw, "")
              else
                db.apiKeys == old(db.apiKeys) && resp.body == NewKeyPage(name, "", "Failed to create API key")
    {
      var created := db.CreateAPIKey(name, random);
      if created.Err? {
        return Response(StatusOK, HtmlHeader,
                        NewKeyPage(name, "", "Failed to create API key"));
      }
      resp := Response(StatusOK, HtmlHeader, NewKeyPage("", created.value.1, ""));
    }

    /** Enables the key exactly when the form says "true"; a key id that does not parse changes nothing. */
    method HandleToggleAPIKey(request: Request) returns (resp: Response)
      requires db.Valid()
      modifies db`apiKeys
      ensures db.Valid()
      ensures var id := Atoi(Lookup(request.form, "key_id"));
              var enabled := Lookup(request.form, "enabled") == "true";
              var toggles := request.verb == "POST" && id.Some? && db.online;
              && (toggles ==> db.apiKeys == SetKeyEnabled(old(db.apiKeys), id.value, enabled)
                              && resp == Redirect(if enabled then KeyEnabled
                                                  else KeyDisabled))
              && (!toggles ==> db.apiKeys == old(db.apiKeys))
              && (request.verb == "POST" && id.None? ==> resp == Redirect(KeyIdInvalid))
      ensures request.verb != "POST" ==> resp == Error(StatusMethodNotAllowed, "Method not allowed")
      ensures request.verb == "POST" && Atoi(Lookup(request.form, "key_id")).Some? && !db.online ==>
                resp == Redirect(KeyToggleFailed)
    {
      if request.verb != "POST" {
        return Error(StatusMethodNotAllowed, "Method not allowed");
      }
      var keyId := Atoi(Lookup(request.form, "key_id"));
      if keyId.None? {
        return Redirect(KeyIdInvalid);
      }
      var enabled := Lookup(request.form, "enabled") == "true";
      var updated := db.UpdateAPIKeyEnabled(keyId.value, enabled);
      if updated.Err? {
        return Redirect(KeyToggleFailed);
      }
      resp := Redirect(if enabled then KeyEnabled
                       else KeyDisabled);
    }

    /** The scan of a key listing for an id, stopping at the first match. */
    static method FindKey(keys: seq<ApiKey>, keyId: int) returns (found: Option<ApiKey>)
      ensures found.Some? <==> exists i :: 0 <= i < |keys| && keys[i].id == keyId
      ensures found.Some? ==> exists i :: 0 <= i < |keys| && keys[i] == found.value && keys[i].id == keyId
    {
      var i := 0;
      while i < |keys|
        invariant 0 <= i <= |keys|
        invariant forall j :: 0 <= j < i ==> keys[j].id != keyId
      {
        if keys[i].id == keyId {
          return Some(keys[i]);
        }
        i := i + 1;
      }
      return None;
    }

    /**
     * Regeneration replaces a key: the old row is deleted and a fresh enabled
     * key with the same name is created. An unknown id deletes nothing. Once
     * the old row is gone its raw key no longer validates, unless the fresh
     * key happens to hash the same.
     */
    method HandleRegenerateAPIKey(request: Request, random: seq<byte>) returns (resp: Response)
      requires db.Valid() && |random| == 32
      modifies db`apiKeys, db`nextKeyId
      ensures db.Valid()
      ensures var id := Atoi(Lookup(request.form, "key_id"));
              if request.verb == "POST" && id.Some? && db.online && id.value in old(db.apiKeys) then
                Regenerated(old(db.apiKeys), old(db.nextKeyId), id.value, db.keyDigest(HexEncode(random)), db.apiKeys, resp)
              else
                db.apiKeys == old(db.apiKeys)
      ensures var id := Atoi(Lookup(request.form, "key_id"));
              request.verb == "POST" && id.Some? && db.online && id.value !in old(db.apiKeys) ==>
                resp == Redirect(KeyNotFound)
      ensures request.verb != "POST" ==> resp == Error(StatusMethodNotAllowed, "Method not allowed")
      ensures var id := Atoi(Lookup(request.form, "key_id"));
              && (request.verb == "POST" && id.None? ==> resp == Redirect(KeyIdInvalid))
              && (request.verb == "POST" && id.Some? && !db.online ==> resp == Redirect(KeyRegenerateFailed))
    {
      if request.verb != "POST" {
        resp := Error(StatusMethodNotAllowed, "Method not allowed");
      } else {
        var keyId := Atoi(Lookup(request.form, "key_id"));
        if keyId.None? {
          resp := Redirect(KeyIdInvalid);
        } else {
          var existing := FindListedKey(keyId.value);
          if existing.Err? {
            resp := Redirect(KeyRegenerateFailed);
          } else if existing.value.None? {
            resp := Redirect(KeyNotFound);
          } else {
            resp := ReplaceKey(keyId.value, existing.value.value.name, random);
          }
        }
      }
    }

    /** The lookup half of regeneration: list the keys and scan the listing for the id. */
    method FindListedKey(keyId: int) returns (r: Result<Option<ApiKey>>)
      requires db.Valid()
      ensures r.Err? <==> !db.online
      ensures r.Ok? ==> (r.value.Some? <==> keyId in db.apiKeys)
      ensures r.Ok? && r.value.Some? ==> r.value.value == db.apiKeys[keyId]
    {
      var listed := db.GetAllAPIKeys();
      if listed.Err? {
        return Err(listed.message);
      }
      var existing := FindKey(listed.value, keyId);
      ListedKeys(db.apiKeys, db.nextKeyId, listed.value, keyId);
      r := Ok(existing);
    }

    /**
     * The second half of regeneration: delete the old row, then create a key
     * under the old name. A failure after the delete leaves the key deleted.
     */
    method ReplaceKey(keyId: int, name: string, random: seq<byte>) returns (resp: Response)
      requires db.Valid() && db.online && keyId in db.apiKeys && db.apiKeys[keyId].name == name && |random| == 32
      modifies db`apiKeys, db`nextKeyId
      ensures db.Valid()
      ensures Regenerated(old(db.apiKeys), old(db.nextKeyId), keyId, db.keyDigest(HexEncode(random)), db.apiKeys, resp)
    {
      resp := Redirect(KeyRegenerateFailed);
      var deleted := db.DeleteAPIKey(keyId);
      if deleted.Ok? {
        var created := db.CreateAPIKey(name, random);
        if created.Ok? {
          resp := Redirect(KeyRegenerated);
        }
      }
    }

    /** Deletes the key with the posted id; an id that does not parse changes nothing. */
    method HandleDeleteAPIKey(request: Request) returns (resp: Response)
      requires db.Valid()
      modifies db`apiKeys
      ensures db.Valid()
      ensures var id := Atoi(Lookup(request.form, "key_id"));
              var deletes := request.verb == "POST" && id.Some? && db.online;
              && (deletes ==> db.apiKeys == old(db.apiKeys) - {id.value}
                              && resp == Redirect(KeyDeleted))
              && (!deletes ==> db.apiKeys == old(db.apiKeys))
      ensures request.verb != "POST" ==> resp == Error(StatusMethodNotAllowed, "Method not allowed")
      ensures var id := Atoi(Lookup(request.form, "key_id"));
              && (request.verb == "POST" && id.None? ==> resp == Redirect(KeyIdInvalid))
              && (request.verb == "POST" && id.Some? && !db.online ==> resp == Redirect(KeyDeleteFailed))
    {
      if request.verb != "POST" {
        return Error(StatusMethodNotAllowed, "Method not allowed");
      }
      var keyId := Atoi(Lookup(request.form, "key_id"));
      if keyId.None? {
        return Redirect(KeyIdInvalid);
      }
      var deleted := db.DeleteAPIKey(keyId.value);
      if deleted.Err? {
        return Redirect(KeyDeleteFailed);
      }
      resp := Redirect(KeyDeleted);
    }

    // ---- settings ----

    /**
     * A POSTed settings form that passes the checks writes all five settings,
     * one SetSetting per key in any order, and redirects; a form that fails
     * them writes nothing and is shown again with the first complaint.
     */
    method HandleSettings(request: Request) returns (resp: Response)
      modifies db`settings
      ensures var f := ReadSettingsForm(request.form);
              var e := SettingsFormError(f.defaultCount, f.maxCount);
              var saves := request.verb == "POST" && e.None? && db.online;
              && (saves ==> db.settings == old(db.settings) + SettingsToSave(f)
                            && resp == Redirect(SettingsSaved))
              && (!saves ==> db.settings == old(db.settings))
              && (request.verb == "POST" && e.Some? ==> resp == Render("settings.html", e.value))
              && (request.verb == "POST" && e.None? && !db.online ==>
                    resp == Render("settings.html", "Failed to save some settings"))
    {
      if request.verb != "POST" {
        return Render("settings.html", "");
      }
      var f := ReadSettingsForm(request.form);
      var problem := SettingsFormError(f.defaultCount, f.maxCount);
      if problem.Some? {
        return Render("settings.html", problem.value);
      }
      var toSave := SettingsToSave(f);
      assert "cors_origins" in toSave;
      var saveError := SaveSettings(toSave);
      if saveError {
        return Render("settings.html", "Failed to save some settings");
      }
      resp := Redirect(SettingsSaved);
    }

    /** The save loop: SetSetting for each key in any order, noting whether any write failed. */
    method SaveSettings(toSave: map<string, string>) returns (saveError: bool)
      requires toSave != map[]
      modifies db`settings
      ensures saveError <==> !db.online
      ensures db.settings == if db.online then old(db.settings) + toSave else old(db.settings)
    {
      saveError := false;
      ghost var initial := db.settings;
      var pending := toSave.Keys;
      ghost var done: set<string> := {};
      while pending != {}
        invariant done <= toSave.Keys && pending == toSave.Keys - done
        invariant db.online ==> db.settings == initial + Restrict(toSave, done) && !saveError
        invariant !db.online ==> db.settings == initial && (saveError <==> done != {})
        decreases |pending|
      {
        ghost var picked := Pick(pending);
        var key :| key in pending;
        var saved := db.SetSetting(key, toSave[key]);
        if saved.Err? {
          saveError := true;
        }
        MergeStep(initial, toSave, done, key);
        PendingStep(toSave.Keys, done, key);
        done := done + {key};
        pending := pending - {key};
      }
      RestrictAll(toSave, done);
    }
  }

  /**
   * Regeneration of key `keyId` in a table that holds it: the row is gone and,
   * unless the fresh hash collides with another row, a fresh enabled key under
   * the old name takes the next id.
   */
  /**
   * `filename` is the name an upload of `original` is stored under in a
   * directory holding `names`: a free name, the original itself when that is
   * free, and otherwise the first free name_N.ext.
   */
  ghost predicate FirstFreeName(names: set<string>, original: string, filename: string) {
    && filename !in names
    && (original !in names ==> filename == original)
    && (original in names ==>
          exists n :: n >= 1 && filename == Candidate(original, n)
                      && forall k :: 1 <= k < n ==> Candidate(original, k) in names)
  }

  /** The directory's contents decide the stored name: there is only one first free name. */
  lemma FirstFreeNameUnique(names: set<string>, original: string, a: string, b: string)
    requires FirstFreeName(names, original, a) && FirstFreeName(names, original, b)
    ensures a == b
  {
    if original in names {
      var m :| m >= 1 && a == Candidate(original, m) && forall k :: 1 <= k < m ==> Candidate(original, k) in names;
      var n :| n >= 1 && b == Candidate(original, n) && forall k :: 1 <= k < n ==> Candidate(original, k) in names;
      assert m == n;
    }
  }

  ghost predicate Regenerated(before: map<int, ApiKey>, next: int, keyId: int, newHash: string,
                              after: map<int, ApiKey>, resp: Response)
    requires keyId in before
  {
    var rest := before - {keyId};
    if !HashTaken(rest, newHash) then
      && resp == Redirect(KeyRegenerated)
      && after == rest[next := ApiKey(next, newHash, before[keyId].name, true, None)]
    else
      resp == Redirect(KeyRegenerateFailed) && after == rest
  }

  /** Once regenerated, the old raw key no longer finds an enabled row, unless the fresh key hashes the same. */
  lemma RegeneratedRevokesOldKey(before: map<int, ApiKey>, next: int, keyId: int, newHash: string,
                                 after: map<int, ApiKey>, resp: Response)
    requires keyId in before && KeysValid(before, next)
    requires Regenerated(before, next, keyId, newHash, after, resp)
    requires newHash != before[keyId].keyHash
    ensures !EnabledKeyWithHash(after, before[keyId].keyHash)
  {
  }

  /** The entries of `m` whose keys are in `keys`. */
  function Restrict(m: map<string, string>, keys: set<string>): (r: map<string, string>)
    requires keys <= m.Keys
    ensures r.Keys == keys && forall k :: k in keys ==> r[k] == m[k]
  {
    map k | k in keys :: m[k]
  }

  /** Once no key is left, the restriction is the whole map, and a non-empty map left something done. */
  lemma RestrictAll(m: map<string, string>, keys: set<string>)
    requires keys <= m.Keys && m.Keys - keys == {}
    ensures Restrict(m, keys) == m
    ensures m != map[] ==> keys != {}
  {
    Exhausted(keys, m.Keys);
    if m != map[] {
      var some := Pick(m.Keys);
    }
  }

  /** Moving one pending key to the done ones keeps `pending` the rest of `all`. */
  lemma PendingStep<T>(all: set<T>, done: set<T>, key: T)
    ensures (all - done) - {key} == all - (done + {key})
  {
  }

  /** Writing one more entry of `m` over `base` extends the restriction already written. */
  lemma MergeStep(base: map<string, string>, m: map<string, string>, keys: set<string>, key: string)
    requires keys <= m.Keys && key in m
    ensures (base + Restrict(m, keys))[key := m[key]] == base + Restrict(m, keys + {key})
  {
    var lhs := (base + Restrict(m, keys))[key := m[key]];
    var rhs := base + Restrict(m, keys + {key});
    assert lhs.Keys == rhs.Keys;
    forall k | k in lhs.Keys
      ensures lhs[k] == rhs[k]
    {
    }
  }
}
