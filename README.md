# shufflr in Dafny

shufflr is a small Go web service. It keeps a library of uploaded images and
answers `GET /api/images` with a random selection of the enabled ones.
`GET /api/images/<name>` serves a single file. Both can be put behind API
keys. An admin area with session login manages the images, the keys and the
settings. Everything lives in one SQLite database, with tables for admin
users, API keys, the API request log, image files and settings.

This project models the core of that service:

- `storage.dfy` (module `Storage`): the database. `DB` is a class whose
  fields are the tables, plus a next-id counter per table. The API-key
  and image tables are maps keyed by their auto-increment ids. The admin
  users and the request log are sequences in insertion order. Every query is a
  method that either changes those fields or reports on them. One
  `online` flag stands for "the database answers". The SQL constraints
  (UNIQUE usernames, key hashes and filenames, increasing ids) are the
  class invariant `Valid()`.
- `auth.dfy` (module `Auth`):
  - the session-key derivation;
  - the cookie session as a class holding the values it stores;
  - the admin and API-key middlewares, as functions and methods that return
    either a rejection response or the request context they extend.
- `api.dfy` (module `Api`): the public handlers.
  - Random images: the count resolution against the stored default and
    maximum, the random pick, the request log.
  - Serving one image: key check, path reduction, lookup.
  - Health and CORS preflight.
- `admin.dfy` (module `Admin`) and `admin_forms.dfy` (module `AdminForms`):
  - the admin handlers: setup, login, logout, dashboard, upload naming,
    rename, delete, toggles, key creation, regeneration and deletion,
    settings;
  - the pure form checks those handlers rely on.
- `routes.dfy` (module `Routes`): `cmd/server/main.go`.
  - Configuration loading from the environment, including the port check
    and the session-secret fallback.
  - The request multiplexer as a pattern table with longest-match choice.
  - The inline handlers for `/api/images`, `/api/images/`, `/` and `/admin`.
- Support modules for the Go library behaviour the core relies on:
  - `Strings`, `Strconv`, `Hex` and `FilePath`: `strings`, `strconv`,
    `encoding/hex` and `path/filepath`;
  - `Tables`: row listings, newest first, as descending id;
  - `Http`: responses as status, headers and a structured body;
  - `Models`: the records of `internal/models/models.go`;
  - `Uploads`: the upload directory as a set of file names;
  - `Results`: Option and Result.

Things outside the program become parameters:

- the current time (`now`);
- the 32 random bytes used for keys and secrets (`random`);
- the process environment (`env`);
- the one-way hashes, as the functions `keyDigest` and `passwordHash` fixed
  when the database is opened;
- the random order of `ORDER BY RANDOM()`, which the model leaves free:
  `RandomPick` states only which rows may be returned.

## Model

| member | source | states |
|---|---|---|
| Storage.DB.constructor | internal/storage/database.go:20-37 | a new database is valid and online with empty tables and exactly the default settings |
| Storage.DB.CreateAdminUser | internal/storage/database.go:136-159 | bcrypt accepts the password, the database is online and the username is free: appends one admin with the next id and the password's hash; otherwise an error and no change |
| Storage.DB.GetAdminUserByUsername | internal/storage/database.go:161-175 | error iff offline; finds a user iff one has that username, and returns that user |
| Storage.DB.HasAdminUsers | internal/storage/database.go:177-185 | Ok(at least one admin) when online, the count error otherwise |
| Storage.DB.CreateAPIKey | internal/storage/database.go:188-218 | the raw key is the hex of the random bytes; the stored row holds its digest, the name, enabled and never used, under the next id; a taken hash or an offline database adds nothing |
| Storage.DB.GetAPIKeyByKey | internal/storage/database.go:220-242 | error iff offline; finds a key iff an enabled row has the digest of the raw key, and that row is returned |
| Storage.DB.GetAllAPIKeys | internal/storage/database.go:244-269 | all key rows, newest first (modelled as descending id), or the listing error |
| Storage.DB.UpdateAPIKeyLastUsed | internal/storage/database.go:271-278 | online: only that key's last use becomes `now`; offline: nothing changes |
| Storage.DB.UpdateAPIKeyEnabled | internal/storage/database.go:280-287 | online: only that key's enabled flag changes |
| Storage.DB.DeleteAPIKey | internal/storage/database.go:289-296 | online: the key table loses exactly that id |
| Storage.DB.LogAPIRequest | internal/storage/database.go:299-306 | online: exactly one entry (next id, key, count) is appended to the log |
| Storage.DB.GetAPIKeyUsageCount | internal/storage/database.go:308-316 | the number of logged requests for the key, or the count error |
| Storage.DB.CreateImageFile | internal/storage/database.go:319-339 | online and the filename is free: one enabled row with the next id; otherwise an error and no change |
| Storage.DB.GetAllImageFiles | internal/storage/database.go:341-360 | all image rows, newest first (modelled as descending id), or the listing error |
| Storage.DB.GetRandomImageFiles | internal/storage/database.go:362-381 | error iff offline; the rows are distinct enabled images, `count` of them, or all of them when there are fewer or the count is negative |
| Storage.DB.GetImageFileCount | internal/storage/database.go:383-391 | the number of enabled images, or the count error |
| Storage.DB.DeleteImageFile | internal/storage/database.go:393-400 | online: exactly the rows with that filename are removed |
| Storage.DB.UpdateImageFilename | internal/storage/database.go:402-409 | online and no UNIQUE clash: every row with the old name gets the new one; a clash or offline changes nothing and reports an error |
| Storage.DB.UpdateImageEnabled | internal/storage/database.go:411-418 | online: only the rows with that filename change their enabled flag |
| Storage.DB.GetTotalImageFileCount | internal/storage/database.go:420-428 | the number of image rows, or the count error |
| Storage.DB.ReadSetting | internal/storage/database.go:431-442 | Ok iff online; an absent key reads as "" |
| Storage.DB.GetSetting | internal/storage/database.go:431-442 | returns the stored value, "" when absent, or an error when offline |
| Storage.DB.SetSetting | internal/storage/database.go:444-451 | online: that one key is inserted or replaced |
| Storage.DB.InitializeDefaultSettings | internal/storage/database.go:474-496 | online: the settings become the defaults seeded over the old settings, and nothing else changes |
| Storage.SeededNone | internal/storage/database.go:474-496 | the seeding loop before its first key leaves the settings as they were |
| Storage.SeededAll | internal/storage/database.go:474-496 | the seeding loop over all five defaults ends in SeedDefaults |
| Storage.SeededStep | internal/storage/database.go:482-494 | one loop step either writes the default for a key with no value or keeps the existing value |
| Storage.SeedDefaultsEffect | internal/storage/database.go:475-496 | a default key with no value gets its default; every other key keeps its value; a key has a value after seeding iff it had one or it has a default |
| Storage.SeedDefaultsIdempotent | internal/storage/database.go:474-496 | seeding twice equals seeding once |
| Storage.UsageCount | internal/storage/database.go:308-316 | the count of log entries for a key never exceeds the log length |
| Storage.UsageCountAppend | internal/storage/database.go:299-316 | logging one request raises the key's count by one iff the entry is for that key |
| Storage.EnabledAtMostTotal | internal/storage/database.go:383-428 | the enabled count never exceeds the total count |
| Storage.SetKeyEnabled | internal/storage/database.go:280-287 | same ids; only the named key's flag differs |
| Storage.TouchKey | internal/storage/database.go:271-278 | same ids; only the named key's last use differs |
| Storage.SetImageEnabled | internal/storage/database.go:411-418 | same ids; exactly the rows with the filename change their flag |
| Storage.RenameImage | internal/storage/database.go:402-409 | same ids; exactly the rows with the old filename get the new one |
| Storage.DeleteImagesNamed | internal/storage/database.go:393-400 | keeps exactly the rows whose filename differs, unchanged |
| Storage.KeyListingDescending | internal/storage/database.go:244-269 | a key listing's ids lie in range and strictly decrease, the model's order for newest first |
| Storage.ListedKeys | internal/storage/database.go:244-269 | in a valid table, an id is in the table iff a listed row has it, and that row is the table's row |
| Tables.Listing | internal/storage/database.go:244-269 | a listing has at most one row per id in its range |
| Tables.ListingMembers | internal/storage/database.go:341-360 | a row is listed iff some id in the range maps to it |
| Tables.ListingSize | internal/storage/database.go:341-360 | with all ids in range, the listing has one row per table entry |
| Tables.ListingCount | internal/storage/database.go:244-269 | the listing length is the number of ids in the range |
| Tables.ListingAgrees | internal/storage/database.go:244-269 | tables that agree on a range list it identically |
| Auth.KeyMaterial | internal/auth/auth.go:36-46 | a secret of even byte length of at least 32 that decodes as hex gives the decoded bytes; anything else gives its UTF-8 bytes |
| Auth.FitKey | internal/auth/auth.go:48-56 | the key is exactly 32 bytes: the material cut, or padded with zero bytes |
| Auth.DeriveSessionKey | internal/auth/auth.go:34-56 | the loop-built key equals FitKey of the key material |
| Auth.GeneratedSecretKey | internal/auth/auth.go:36-56 | a secret generated as hex of 32 random bytes yields exactly those bytes as the session key |
| Auth.PlainSecretKey | internal/auth/auth.go:36-56 | a non-hex secret yields its UTF-8 bytes, zero-padded to 32 |
| Auth.Session.constructor | internal/auth/auth.go:58-65 | a session starts with the given values and the 24-hour max age |
| Auth.SessionAdmin | internal/auth/auth.go:115-135 | an identity is found iff both user_id (an int) and username (a string) are stored, and it is built from them |
| Auth.GetAdminFromSession | internal/auth/auth.go:115-135 | error iff the session cannot be loaded, otherwise the stored identity or none |
| Auth.SetThenGet | internal/auth/auth.go:91-135 | storing a user and reading back gives that user's id and name |
| Auth.SetKeepsOthers | internal/auth/auth.go:91-101 | storing a user leaves every other session value as it was |
| Auth.SetAdminSession | internal/auth/auth.go:91-101 | error iff the load fails; on success the session afterwards reads back the user |
| Auth.ClearAdminSession | internal/auth/auth.go:103-113 | on success the values are emptied, the max age becomes -1, and no identity is read back; on failure nothing changes |
| Auth.GetAdminFromContext | internal/auth/auth.go:203-209 | returns a user iff the context holds an admin entry, and that user |
| Auth.GetAPIKeyFromContext | internal/auth/auth.go:211-217 | returns a key iff the context holds a key entry, and that key |
| Auth.ContextRoundTrip | internal/auth/auth.go:154-217 | what a middleware attaches is read back, the other entry is unaffected, and an empty context holds neither |
| Auth.GuardKey | internal/auth/auth.go:164-173 | X-API-Key when set; else the Authorization value after "Bearer "; else no key |
| Auth.AuthService.constructor | internal/auth/auth.go:31-71 | the service keeps the database and a 32-byte key derived from the secret |
| Auth.AuthService.LoginAdmin | internal/auth/auth.go:74-89 | error iff offline; a user is returned iff one has that name and the password's hash, and it is the stored row, password hash included |
| Auth.AuthService.RequireAdminAuth | internal/auth/auth.go:143-160 | rejects with a redirect to /admin/login unless the session yields an identity, which is then attached to the context |
| Auth.AuthService.RequireAPIKey | internal/auth/auth.go:162-200 | 401 without a key; 500 when offline; 401 when no enabled key has the digest; otherwise stamps that key's last use and attaches it; a rejection changes nothing |
| Api.Fallback | internal/api/handlers.go:83-97 | a setting that reads non-empty is used, else the default |
| Api.AbsentSettingRequiresNoKey | internal/api/handlers.go:66-81 | with require_api_key_for_images absent, no key is required |
| Api.CorsHeaders | internal/api/handlers.go:41-58 | no headers when cors_enabled reads as something other than "true" (a failed read counts as true); otherwise the origin setting, "*" when empty or unreadable, plus max-age exactly for preflight |
| Api.ResolveCount | internal/api/handlers.go:83-113 | a given count that is not a positive integer is invalid; otherwise the given or default count is used, and rejected iff it exceeds the maximum |
| Api.CountError | internal/api/handlers.go:103-113 | each rejected count gives 400 with the source's message |
| Api.Entry | internal/api/handlers.go:139-147 | an entry carries the filename and its /api/images/ URL |
| Api.Entries | internal/api/handlers.go:139-147 | one entry per row, in order |
| Api.PickedEntries | internal/api/handlers.go:128-158 | entries for a random pick name distinct enabled images |
| Api.ServeKey | internal/api/handlers.go:173-190 | X-API-Key when set, else Authorization without "Bearer " |
| Api.ServeKeyAgainstGuardKey | internal/api/handlers.go:173-190 | agrees with the middleware's key except for a raw Authorization value, which the serve handler accepts as a key |
| Api.RequestedName | internal/api/handlers.go:208-222 | a name exists iff the path extends /api/images/, and it is non-empty and slash-free (or "/") |
| Api.RequestedPlainName | internal/api/handlers.go:208-222 | a plain name after the prefix is returned as it is |
| Api.Server.constructor | internal/api/handlers.go:23-29 | the server keeps the database and the upload directory |
| Api.Server.HandleRandomImages | internal/api/handlers.go:60-165 | 405 for non-GET; 401 when a key is required but none is attached; 400 for a rejected count; 500 offline; 400 naming both numbers when fewer images are enabled than asked; otherwise 200 listing distinct enabled images, and exactly one request logged when a key is required |
| Api.Server.AnswerQuery | internal/api/handlers.go:83-158 | a rejected count gives its 400; an accepted one gets the catalogue's 500, 400 or 200 with the pick, and a log entry exactly on 200 with a key |
| Api.Server.ReadCount | internal/api/handlers.go:83-113 | the count decision under the stored default and maximum |
| Api.Server.RespondWithImages | internal/api/handlers.go:115-158 | 500 offline; 400 naming both numbers when the count exceeds the enabled images; otherwise 200 listing a random pick, and one log entry when a key is attached |
| Api.Server.FindImage | internal/api/handlers.go:224-247 | found iff a row has the filename; enabled iff an enabled row has it; the MIME type comes from that row |
| Api.Server.HandleServeImage | internal/api/handlers.go:167-265 | 405 for non-GET; a key rejection is returned and changes nothing; otherwise, while a key is required, the matching enabled key's last use is stamped, and the answer is 404 without a name, 500 offline, 404 "Image not found" for an absent or disabled image, 404 "Image file not found" for a missing file, else 200 with the file |
| Api.Server.CheckServeKey | internal/api/handlers.go:173-206 | rejects exactly as ServeKeyRejection (401 without a key, 401 for no enabled match or a failed lookup) and then changes nothing; an acceptance under a required setting stamps the enabled key with the key's digest; with no key required nothing changes |
| Api.Server.ServeFile | internal/api/handlers.go:208-264 | 404 without a name; 500 offline; 404 "Image not found" unless the name is an enabled image; 404 "Image file not found" when its file is missing; otherwise 200 with the file and the image's MIME type |
| Api.Server.HandleHealth | internal/api/handlers.go:267-288 | 405 for non-GET; 503 offline; otherwise healthy with the enabled count |
| Api.Server.HandleOptions | internal/api/handlers.go:290-310 | 200 with no body and the preflight CORS headers |
| AdminForms.IsValidImageType | internal/admin/handlers.go:498-513 | accepts exactly the five image MIME types |
| AdminForms.IsValidFilename | internal/admin/handlers.go:515-530 | accepts exactly names of 1 to 255 bytes containing none of / \ : * ? " < > \| |
| AdminForms.ValidFilenameIsPlain | internal/admin/handlers.go:515-530 | an accepted name is its own last path element |
| AdminForms.SetupFormError | internal/admin/handlers.go:70-78 | no complaint iff both fields are set, the username has at least 3 bytes, the password at least 6, and the confirmation matches; the complaints come in the source's order: missing fields, short username, short password |
| AdminForms.MismatchReportedLast | internal/admin/handlers.go:70-78 | for differing passwords, the mismatch complaint is given iff every earlier check passes |
| AdminForms.KeyNameError | internal/admin/handlers.go:607-613 | no complaint iff the name is non-empty and at most 100 bytes |
| AdminForms.AcceptedKeyNameIsTrimmed | internal/admin/handlers.go:607-613 | an accepted key name neither starts nor ends with white space |
| AdminForms.SettingsFormError | internal/admin/handlers.go:778-784 | no complaint iff both counts parse as integers of at least 1 and the default is at most the maximum |
| AdminForms.OrDefault | internal/admin/handlers.go:768-776 | an empty field takes the default; a filled-in field is kept |
| AdminForms.ReadSettingsForm | internal/admin/handlers.go:761-776 | checkboxes are on iff the field is "on"; empty counts and origins become "20", "100" and "*", filled-in ones are kept |
| AdminForms.SettingsToSave | internal/admin/handlers.go:787-795 | exactly the five setting keys are written |
| AdminForms.SavedSettingsAgree | internal/admin/handlers.go:761-808 | after saving, each setting holds the form's value with booleans as "true"/"false" |
| AdminForms.EmptyFieldsSaveDefaults | internal/admin/handlers.go:761-795 | a text field left empty saves the seeded default value, and an unticked box saves "false" |
| AdminForms.CandidateLonger | internal/admin/handlers.go:311-325 | every renamed candidate is longer than the original |
| AdminForms.CandidateInjective | internal/admin/handlers.go:311-325 | distinct counters give distinct candidate names |
| AdminForms.TriedStep | internal/admin/handlers.go:311-325 | each loop step adds one name not tried before |
| AdminForms.CandidateFresh | internal/admin/handlers.go:311-325 | candidate n differs from the original and from every earlier candidate |
| AdminForms.CandidatesBelowStep | internal/admin/handlers.go:311-325 | the tried set grows by exactly the next candidate |
| AdminForms.ActiveCount | internal/admin/handlers.go:159-164 | the active count never exceeds the number of keys |
| AdminForms.IdOccurrences | internal/admin/handlers.go:166-173 | occurrences of an id never exceed the listing length |
| AdminForms.DistinctIdsOccurOnce | internal/admin/handlers.go:166-173 | a listing with distinct ids holds each id at most once |
| AdminForms.NoOccurrence | internal/admin/handlers.go:166-173 | an id no key has occurs zero times |
| AdminForms.TotalUsageAppend | internal/admin/handlers.go:166-173 | one new log entry raises the usage total by the number of listed keys with its id |
| AdminForms.TotalUsageBound | internal/admin/handlers.go:166-173 | with distinct key ids, total usage never exceeds the log length |
| AdminForms.FormatFileSize | internal/admin/handlers.go:839-849 | sizes below 1024 print as "<n> B" |
| AdminForms.FormatFileSizeReadsBack | internal/admin/handlers.go:839-843 | the printed byte count parses back to the size |
| Admin.Server.constructor | internal/admin/handlers.go:27-45 | the server keeps the database, the auth service and the upload directory |
| Admin.Server.HandleSetup | internal/admin/handlers.go:47-92 | 500 offline; once an admin exists, redirect to login; exactly one admin is created iff a valid form is POSTed to an empty table and bcrypt accepts the password; otherwise the form comes back with the first complaint, or with "Failed to create admin user" when bcrypt refuses |
| Admin.Server.HandleLogin | internal/admin/handlers.go:94-128 | the session gets the id and name of the stored admin whose name and password hash match, and the reply redirects to /admin, iff a POST with both fields matches an admin and the session loads; otherwise the session is unchanged and the matching message is shown |
| Admin.Server.HandleLogout | internal/admin/handlers.go:130-135 | always redirects to login; a loadable session no longer yields an identity |
| Admin.Server.HandleDashboard | internal/admin/handlers.go:138-199 | 200 with the counts of enabled and total images, keys, active keys and logged requests (zeros offline); active keys are at most keys, requests at most the log length |
| Admin.Server.CountActive | internal/admin/handlers.go:159-164 | the loop counts the enabled keys |
| Admin.Server.SumUsage | internal/admin/handlers.go:166-173 | the loop sums each listed key's usage, or 0 offline |
| Admin.Server.UniqueUploadName | internal/admin/handlers.go:311-325 | the name is not yet used; the original when free, else the first free name_N.ext |
| Admin.FirstFreeNameUnique | internal/admin/handlers.go:311-325 | the directory's contents determine the stored name: two first free names are equal |
| Admin.Server.UploadFile | internal/admin/handlers.go:298-354 | rejects other types; for an image type the stored name is the first free one (FirstFreeName), and the upload succeeds iff the database is online and that name is not yet in the table; on success exactly one new file and one enabled row under that name; on failure neither |
| Admin.Server.HandleImageRename | internal/admin/handlers.go:356-408 | renames file and rows iff a POST names an existing file and a valid, unused new name and the update succeeds; otherwise nothing changes; each refusal (405, missing name, invalid name, missing original, existing new name, failed update) gets its own answer |
| Admin.Server.HandleImageDelete | internal/admin/handlers.go:410-439 | a POST naming a file while online removes its rows and its file; otherwise nothing changes, with 405, the missing-name redirect or the delete-failed redirect |
| Admin.Server.HandleToggleImage | internal/admin/handlers.go:441-469 | a POST naming a file while online sets its rows' flag to the form's value; otherwise nothing changes, with 405, the missing-name redirect or the toggle-failed redirect |
| Admin.Server.HandleNewAPIKey | internal/admin/handlers.go:589-629 | a valid trimmed name adds one enabled key and shows the raw key once; a rejected name shows the complaint; a failed create shows the failure message; both change nothing |
| Admin.Server.CreateKeyPage | internal/admin/handlers.go:614-628 | one key under the next id with the raw key shown, or the failure message and no change |
| Admin.Server.HandleToggleAPIKey | internal/admin/handlers.go:631-660 | a POST with an integer id while online sets that key's flag; otherwise nothing changes, with 405, the invalid-id redirect or the toggle-failed redirect |
| Admin.Server.FindKey | internal/admin/handlers.go:683-694 | the scan finds a key iff the listing holds its id, and returns that listed key |
| Admin.Server.HandleRegenerateAPIKey | internal/admin/handlers.go:662-712 | for an existing id: the old row goes and a fresh enabled key with the same name takes the next id, and the reply is only a redirect, so the new raw key is shown to no one; an unknown id redirects as not found; otherwise nothing changes, with 405, the invalid-id redirect or the failed redirect offline |
| Admin.Server.FindListedKey | internal/admin/handlers.go:677-694 | error iff offline; the key is found iff its id is in the table |
| Admin.Server.ReplaceKey | internal/admin/handlers.go:696-708 | delete then create: the Regenerated relation between old and new table |
| Admin.Server.HandleDeleteAPIKey | internal/admin/handlers.go:714-735 | a POST with an integer id while online removes exactly that key; otherwise nothing changes, with 405, the invalid-id redirect or the delete-failed redirect |
| Admin.Server.HandleSettings | internal/admin/handlers.go:738-837 | a valid POST while online writes all five settings and redirects; an invalid one writes nothing and shows the first complaint |
| Admin.Server.SaveSettings | internal/admin/handlers.go:787-808 | the loop writes every pending setting, or reports failure with nothing written offline |
| Admin.RegeneratedRevokesOldKey | internal/admin/handlers.go:696-708 | after regeneration the old raw key matches no enabled row |
| Routes.GetEnv | cmd/server/main.go:188-193 | the variable when set and non-empty, else the default |
| Routes.GetEnvFallsBack | cmd/server/main.go:188-193 | with a non-empty default the result is never empty |
| Routes.ValidPortItoa | cmd/server/main.go:180-183 | a printed integer passes the port check iff it lies in 1..65535 |
| Routes.LoadConfig | cmd/server/main.go:141-186 | fails iff the port is not an integer in 1..65535; otherwise each field is its variable or default, and a generated secret yields the random bytes as the session key |
| Routes.SubtreeOf | cmd/server/main.go:55-126 | every path under "/" has a matching subtree pattern |
| Routes.Chosen | cmd/server/main.go:55-126 | the chosen pattern is registered and matches the path |
| Routes.SubtreePatterns | cmd/server/main.go:55-126 | the subtree patterns are exactly /static/, /api/images/, /admin/images/serve/ and / |
| Routes.ChosenIsLongestMatch | cmd/server/main.go:55-126 | no other matching pattern is as long as the chosen one |
| Routes.UnregisteredPathNotFound | cmd/server/main.go:85-91 | an unregistered path outside the subtrees reaches the root handler and gets 404 |
| Routes.AdminPagesGuarded | cmd/server/main.go:108-126 | every /admin/ page except setup, login and logout goes through the admin guard or gets the root's 404 |
| Routes.RootRoute | cmd/server/main.go:85-91 | "/" redirects to /admin; any other path gets 404 |
| Routes.App.constructor | cmd/server/main.go:41-49 | the servers share one database and upload directory, and the session key comes from the secret |
| Routes.App.ServeRandomImages | cmd/server/main.go:61-73 | OPTIONS is the preflight; with a key required, missing/invalid keys are rejected and a 200 logs one request against an enabled key; otherwise no key state changes |
| Routes.App.ListBehindKey | cmd/server/main.go:67-69 | the key-guarded listing obeys KeyGuarded |
| Routes.App.ListForKey | cmd/server/main.go:67-69 | with a key attached, a 200 logs exactly one request for it; anything else logs nothing |
| Routes.App.ServeImageRoute | cmd/server/main.go:75-82 | OPTIONS is the preflight and changes nothing; other methods get the serve handler's answers, including its 404s and the stamp of the matching key while a key is required |
| Routes.App.AdminHomeRoute | cmd/server/main.go:94-106 | 500 offline; redirect to setup without admins; redirect to login without an identity; the dashboard iff all three hold |
| FilePath.TrimTrailingSlashes | internal/api/handlers.go:222 | removes exactly the trailing slashes |
| FilePath.AfterLastSlash | internal/api/handlers.go:222 | the slash-free suffix after the last slash |
| FilePath.Base | internal/api/handlers.go:222 | the result is non-empty and is "/" or contains no slash |
| FilePath.BaseOfPlainName | internal/api/handlers.go:222 | a plain name is its own base |
| FilePath.AfterLastSlashOfPlain | internal/api/handlers.go:222 | a slash-free path is its own suffix |
| FilePath.Ext | internal/admin/handlers.go:320 | empty, or a suffix that starts with "." and has no slash |
| Strings.TrimPrefix | internal/auth/auth.go:171 | removes the prefix exactly when present |
| Strings.TrimSuffix | internal/admin/handlers.go:321 | removes the suffix exactly when present |
| Strings.ContainsChar | internal/admin/handlers.go:515-530 | a one-character substring occurs iff the character does |
| Strings.TrimLeftSpace | internal/admin/handlers.go:607 | a suffix whose dropped characters are all white space |
| Strings.TrimRightSpace | internal/admin/handlers.go:607 | a prefix whose dropped characters are all white space |
| Strings.TrimSpace | internal/admin/handlers.go:607 | the result neither starts nor ends with white space |
| Strings.TrimSpaceIsInfix | internal/admin/handlers.go:607 | the result is a contiguous part of the input |
| Strings.EncodeRune | internal/admin/handlers.go:611 | 1 to 4 bytes, one byte exactly for ASCII |
| Strings.AsciiBytes | internal/admin/handlers.go:611 | ASCII text has one byte per character |
| Strings.ByteLenAtLeastLength | internal/admin/handlers.go:611 | the byte length is at least the character count, equal iff ASCII |
| Strconv.Digits | internal/admin/handlers.go:842 | non-empty decimal digits |
| Strconv.DigitsRoundTrip | internal/admin/handlers.go:842 | the digits read back as the number |
| Strconv.DigitsInjective | internal/admin/handlers.go:842 | distinct numbers print differently |
| Strconv.Itoa | internal/admin/handlers.go:322 | never empty |
| Strconv.Atoi | internal/admin/handlers.go:640 | succeeds iff the text is a signed decimal within 64 bits, with that value |
| Strconv.AtoiValue | internal/api/handlers.go:88-95 | Atoi's value when it succeeds, 0 for malformed text |
| Strconv.AtoiItoa | cmd/server/main.go:181 | Atoi reads back what Itoa prints |
| Hex.HexEncode | internal/storage/database.go:194 | two characters per byte |
| Hex.HexDecode | internal/auth/auth.go:38 | a successful decode has half as many bytes as characters |
| Hex.DecodeEncode | internal/auth/auth.go:36-42 | decoding an encoding gives back the bytes |
| Hex.EncodeIsAscii | cmd/server/main.go:157 | encoded text is ASCII, two bytes per input byte |
| Http.Error | internal/api/handlers.go:63 | the status and plain-text message given |
| Http.Redirect | internal/admin/handlers.go:56 | 303 with the Location header set |
| Uploads.Directory.constructor | cmd/server/main.go:28-31 | the directory holds the given file names |

## Left out

- Time, randomness and hashing are inputs. `now`, the 32 random bytes for
  keys and secrets, and the SHA-256 and bcrypt hashes are parameters.
  bcrypt's salt is not modelled, and neither is a failure of the random
  source. Which passwords bcrypt refuses to hash (ErrPasswordTooLong for
  more than 72 bytes in current versions) is the parameter `hashRefuses`.
- Cookie encryption, cookie options and errors when saving a session are
  left out. The session is its map of values, a load-failure flag and a
  max age.
- JSON encoding and HTML templates become structured bodies (`Body`).
  Template execution errors are not modelled.
- The following are not modelled:
  - multipart parsing;
  - the per-file loop of HandleImageUpload;
  - the HandleImages and HandleAPIKeys listing pages;
  - the admin image-serving handler;
  - `renderTemplate`.

  UploadFile covers the logic of one upload.
- The file system is the set of file names in the upload directory. File
  contents and write errors are not modelled. `filepath.Join` cleaning is
  not modelled, so a rename or delete whose form name contains ".." or "/"
  is not followed outside the directory.
- Database faults are one `online` flag per call. Statement-level faults
  that hit only some queries are not distinguished. `migrate`,
  `addEnabledColumnIfNotExists`, `Close` and `GetAllSettings` (which no
  handler calls) are not part of this model.
- `ValidateAPIKey` (internal/auth/auth.go:138-141) is only a call to
  GetAPIKeyByKey. RequireAPIKey uses that method directly.
- Header names are not canonicalised, and text is Unicode scalar values.
  Invalid UTF-8 and Go's byte-level string indexing are not modelled.
- AdminForms.FormatFileSize: sizes of 1024 bytes and more are printed in
  floating point ("%.1f KB"). That branch returns None here.
- Logging, `loggingMiddleware`, concurrent requests and `ListenAndServe` are
  left out.
- ServeMux path cleaning, its trailing-slash redirects and the
  `/static/` file server are not modelled. Routing starts from a clean path.
- Routes.LoadConfig: `filepath.Abs` of the database and upload paths is not
  modelled, so the paths are kept as given. `MkdirAll` and `NewDB` failures
  at start-up are left out.
- Storage.DB.constructor models NewDB on a fresh database file, with empty
  tables. Reopening an existing file keeps its rows and seeds the defaults
  over its settings. That case is covered only in that every method is
  proved for any `Valid()` state, and InitializeDefaultSettings for any
  settings map.
- Admin.Server.UploadFile returns the stored file name on success, and
  gives it as a ghost out-parameter in every outcome. The Go function
  returns only an error.
- Storage.DB.GetAllAPIKeys: the source lists keys by `created_at DESC`, a
  timestamp with one-second resolution. The model lists them by descending
  id. The two orders agree except among keys created in the same second,
  whose relative order SQLite leaves open. No modelled handler depends on
  that order.
- Storage.DB.GetAllImageFiles: the same holds for `uploaded_at DESC`.
  Images uploaded in the same second are listed by descending id here.
- Api.Server.ServeFile: the model's 200 with the file stands for whatever
  `http.ServeFile` answers once the checks pass. Go's `http.ServeFile` can
  itself answer 304 to a conditional request, 206 or 416 to a Range
  request, and a redirect for a name ending in "index.html". The same
  holds for Api.Server.HandleServeImage and Routes.App.ServeImageRoute.
- Api.Server.HandleRandomImages: a negative stored default count passes
  the "exceeds maximum" check and lists every enabled image, because
  `LIMIT` with a negative count has no limit. The model keeps this
  behaviour as written.
