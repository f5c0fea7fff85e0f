/**
 * The form rules of internal/admin/handlers.go: file name and type checks,
 * the setup, settings and key-name validation chains, upload renaming,
 * dashboard sums and the integer branch of formatFileSize.
 */
module AdminForms {
  import opened Results
  import opened Strings
  import opened Strconv
  import opened FilePath
  import opened Models
  import opened Storage
  import opened Http

  // ---- validators ----

  const ValidImageTypes: seq<string> := ["image/jpeg", "image/jpg", "image/png", "image/gif", "image/webp"]

  /** The characters a file name may not contain. */
  const InvalidFilenameChars: seq<char> := ['/', '\\', ':', '*', '?', '"', '<', '>', '|']

  /** isValidImageType: the content type is one of the five image types. */
  method IsValidImageType(contentType: string) returns (valid: bool)
    ensures valid <==> contentType in ValidImageTypes
  {
    var i := 0;
    while i < |ValidImageTypes|
      invariant 0 <= i <= |ValidImageTypes|
      invariant forall j :: 0 <= j < i ==> ValidImageTypes[j] != contentType
    {
      if contentType == ValidImageTypes[i] {
        return true;
      }
      i := i + 1;
    }
    return false;
  }

  /** A file name of 1 to 255 bytes without any character a path or a shell would read specially. */
  predicate ValidFilename(filename: string) {
    && 1 <= ByteLen(filename) <= 255
    && forall i :: 0 <= i < |InvalidFilenameChars| ==> InvalidFilenameChars[i] !in filename
  }

  /** isValidFilename: checks the length, then each forbidden character with strings.Contains. */
  method IsValidFilename(filename: string) returns (valid: bool)
    ensures valid <==> ValidFilename(filename)
  {
    if ByteLen(filename) == 0 || ByteLen(filename) > 255 {
      return false;
    }
    var i := 0;
    while i < |InvalidFilenameChars|
      invariant 0 <= i <= |InvalidFilenameChars|
      invariant forall j :: 0 <= j < i ==> InvalidFilenameChars[j] !in filename
    {
      ContainsChar(filename, InvalidFilenameChars[i]);
      if Contains(filename, [InvalidFilenameChars[i]]) {
        return false;
      }
      i := i + 1;
    }
    return true;
  }

  /** A valid name is a single path element: Base leaves it as it is. */
  lemma ValidFilenameIsPlain(filename: string)
    requires ValidFilename(filename)
    ensures filename != "" && '/' !in filename && Base(filename) == filename
  {
    assert InvalidFilenameChars[0] == '/';
    BaseOfPlainName(filename);
  }

  // ---- setup ----

  /** The first complaint about a setup form, in the order the handler checks. */
  function SetupFormError(username: string, password: string, confirmPassword: string): (e: Option<string>)
    ensures e.None? <==>
              username != "" && password != "" && ByteLen(username) >= 3 && ByteLen(password) >= 6
              && password == confirmPassword
    ensures (username == "" || password == "") ==> e == Some("Username and password are required")
    ensures username != "" && password != "" && ByteLen(username) < 3 ==>
              e == Some("Username must be at least 3 characters")
    ensures username != "" && password != "" && ByteLen(username) >= 3 && ByteLen(password) < 6 ==>
              e == Some("Password must be at least 6 characters")
  {
    if username == "" || password == "" then Some("Username and password are required")
    else if ByteLen(username) < 3 then Some("Username must be at least 3 characters")
    else if ByteLen(password) < 6 then Some("Password must be at least 6 characters")
    else if password != confirmPassword then Some("Passwords do not match")
    else None
  }

  /** A mismatched confirmation is reported only once the lengths are acceptable. */
  lemma MismatchReportedLast(username: string, password: string, confirmPassword: string)
    requires password != confirmPassword
    ensures SetupFormError(username, password, confirmPassword) == Some("Passwords do not match") <==>
              username != "" && password != "" && ByteLen(username) >= 3 && ByteLen(password) >= 6
  {
  }

  // ---- API key name ----

  /** The first complaint about a (trimmed) key name. */
  function KeyNameError(name: string): (e: Option<string>)
    ensures e.None? <==> name != "" && ByteLen(name) <= 100
  {
    if name == "" then Some("API key name is required")
    else if ByteLen(name) > 100 then Some("API key name must be 100 characters or less")
    else None
  }

  /** Surrounding white space never makes an accepted name: the accepted name has none. */
  lemma AcceptedKeyNameIsTrimmed(form: string)
    requires KeyNameError(TrimSpace(form)).None?
    ensures !IsSpace(TrimSpace(form)[0]) && !IsSpace(TrimSpace(form)[|TrimSpace(form)| - 1])
  {
  }

  // ---- settings ----

  /** fmt's %t. */
  function FormatBool(b: bool): string {
    if b then "true" else "false"
  }

  /** A count field read as Atoi does, valid when it is an integer of at least 1. */
  predicate PositiveCount(s: string) {
    Atoi(s).Some? && Atoi(s).value >= 1
  }

  /** The first complaint about the settings counts, after their fallbacks. */
  function SettingsFormError(defaultCount: string, maxCount: string): (e: Option<string>)
    ensures e.None? <==> PositiveCount(defaultCount) && PositiveCount(maxCount)
                         && Atoi(defaultCount).value <= Atoi(maxCount).value
  {
    if !PositiveCount(defaultCount) then Some("Default image count must be a positive number")
    else if !PositiveCount(maxCount) then Some("Maximum image count must be a positive number")
    else if Atoi(defaultCount).value > Atoi(maxCount).value then
      Some("Default image count cannot be greater than maximum image count")
    else None
  }

  /** The submitted settings form, with the fields' fallbacks applied. */
  datatype SettingsForm = SettingsForm(requireKey: bool, defaultCount: string, maxCount: string,
                                       corsEnabled: bool, corsOrigins: string)

  /** A form field with its fallback: the field when filled in, the default when left empty. */
  function OrDefault(value: string, default: string): (r: string)
    ensures value == "" ==> r == default
    ensures value != "" ==> r == value
    ensures r != "" || default == ""
  {
    if value == "" then default else value
  }

  /** Reads the posted fields: checkboxes are on when "on", empty fields take their defaults. */
  function ReadSettingsForm(form: map<string, string>): (f: SettingsForm)
    ensures f.defaultCount != "" && f.maxCount != "" && f.corsOrigins != ""
    ensures f.requireKey <==> Lookup(form, "require_api_key_for_images") == "on"
    ensures f.corsEnabled <==> Lookup(form, "cors_enabled") == "on"
    ensures f.defaultCount == if Lookup(form, "default_image_count") == "" then "20"
                              else Lookup(form, "default_image_count")
    ensures f.maxCount == if Lookup(form, "max_image_count") == "" then "100"
                          else Lookup(form, "max_image_count")
    ensures f.corsOrigins == if Lookup(form, "cors_origins") == "" then "*"
                             else Lookup(form, "cors_origins")
  {
    SettingsForm(
      Lookup(form, "require_api_key_for_images") == "on",
      OrDefault(Lookup(form, "default_image_count"), "20"),
      OrDefault(Lookup(form, "max_image_count"), "100"),
      Lookup(form, "cors_enabled") == "on",
      OrDefault(Lookup(form, "cors_origins"), "*"))
  }

  /** The five rows a valid form writes. */
  function SettingsToSave(f: SettingsForm): (m: map<string, string>)
    ensures m.Keys == DefaultSettings.Keys
  {
    map["require_api_key_for_images" := FormatBool(f.requireKey),
        "default_image_count" := f.defaultCount,
        "max_image_count" := f.maxCount,
        "cors_enabled" := FormatBool(f.corsEnabled),
        "cors_origins" := f.corsOrigins]
  }

  /**
   * After an accepted form is saved, the random-images settings read back as
   * written: the default count is a positive integer no larger than the
   * maximum, and the key requirement is on exactly when the box was ticked.
   */
  lemma SavedSettingsAgree(settings: map<string, string>, form: map<string, string>)
    requires var f := ReadSettingsForm(form); SettingsFormError(f.defaultCount, f.maxCount).None?
    ensures var f := ReadSettingsForm(form);
            var saved := settings + SettingsToSave(f);
            && SettingValue(saved, "default_image_count") == f.defaultCount
            && SettingValue(saved, "max_image_count") == f.maxCount
            && 1 <= Atoi(SettingValue(saved, "default_image_count")).value
                 <= Atoi(SettingValue(saved, "max_image_count")).value
            && (SettingValue(saved, "require_api_key_for_images") == "true" <==> f.requireKey)
            && SettingValue(saved, "cors_origins") != ""
  {
  }

  /**
   * A settings form posted with a text field left empty saves that field's
   * seeded default, and unticked boxes save "false".
   */
  lemma EmptyFieldsSaveDefaults(form: map<string, string>)
    ensures var saved := SettingsToSave(ReadSettingsForm(form));
            && (Lookup(form, "default_image_count") == "" ==>
                  saved["default_image_count"] == DefaultSettings["default_image_count"])
            && (Lookup(form, "max_image_count") == "" ==>
                  saved["max_image_count"] == DefaultSettings["max_image_count"])
            && (Lookup(form, "cors_origins") == "" ==>
                  saved["cors_origins"] == DefaultSettings["cors_origins"])
            && (Lookup(form, "require_api_key_for_images") != "on" ==>
                  saved["require_api_key_for_images"] == "false")
            && (Lookup(form, "cors_enabled") != "on" ==> saved["cors_enabled"] == "false")
  {
  }

  // ---- upload names ----

  /** The n-th alternative name: the original's stem, "_n", then its extension. */
  function Candidate(original: string, n: int): string {
    TrimSuffix(original, Ext(original)) + "_" + Itoa(n) + Ext(original)
  }

  /** Every alternative is longer than the original, so none equals it. */
  lemma CandidateLonger(original: string, n: int)
    ensures |Candidate(original, n)| > |original|
  {
    var ext := Ext(original);
    assert HasSuffix(original, ext);
    assert |TrimSuffix(original, ext)| + |ext| == |original|;
  }

  /** Distinct counters give distinct alternatives. */
  lemma CandidateInjective(original: string, m: nat, n: nat)
    requires Candidate(original, m) == Candidate(original, n)
    ensures m == n
  {
    var stem := TrimSuffix(original, Ext(original)) + "_";
    var ext := Ext(original);
    var a := Candidate(original, m);
    assert a == stem + Itoa(m) + ext;
    assert Candidate(original, n) == stem + Itoa(n) + ext;
    assert |Itoa(m)| == |Itoa(n)|;
    assert Itoa(m) == a[|stem|..|stem| + |Itoa(m)|];
    assert Itoa(n) == a[|stem|..|stem| + |Itoa(n)|];
    DigitsInjective(m, n);
  }

  /** The alternatives tried before counter n. */
  function CandidatesBelow(original: string, n: int): set<string> {
    set k | 1 <= k < n :: Candidate(original, k)
  }

  /** The name tried at step n of the search: the original, then the alternatives in order. */
  function TriedAt(original: string, n: int): string
    requires n >= 1
  {
    if n == 1 then original else Candidate(original, n - 1)
  }

  /** The names tried before step n. */
  function TriedBefore(original: string, n: int): set<string>
    requires n >= 1
  {
    if n == 1 then {} else {original} + CandidatesBelow(original, n - 1)
  }

  /** Each step tries a new name and adds it to those tried. */
  lemma TriedStep(original: string, n: int)
    requires n >= 1
    ensures TriedBefore(original, n) + {TriedAt(original, n)} == TriedBefore(original, n + 1)
    ensures TriedAt(original, n + 1) !in TriedBefore(original, n + 1)
  {
    if n == 1 {
      assert CandidatesBelow(original, 1) == {};
    } else {
      CandidatesBelowStep(original, n - 1);
    }
    CandidateFresh(original, n);
  }

  /** The n-th alternative is neither the original nor any earlier alternative. */
  lemma CandidateFresh(original: string, n: int)
    requires n >= 1
    ensures Candidate(original, n) !in {original} + CandidatesBelow(original, n)
  {
    CandidateLonger(original, n);
    if Candidate(original, n) in CandidatesBelow(original, n) {
      var k :| 1 <= k < n && Candidate(original, k) == Candidate(original, n);
      CandidateInjective(original, k, n);
    }
  }

  /** The alternatives below n + 1 are those below n and the n-th. */
  lemma CandidatesBelowStep(original: string, n: int)
    requires n >= 1
    ensures CandidatesBelow(original, n + 1) == CandidatesBelow(original, n) + {Candidate(original, n)}
  {
    forall c | c in CandidatesBelow(original, n + 1)
      ensures c in CandidatesBelow(original, n) + {Candidate(original, n)}
    {
      var k :| 1 <= k < n + 1 && c == Candidate(original, k);
      if k < n {
        assert c in CandidatesBelow(original, n);
      }
    }
  }

  // ---- dashboard ----

  /** The number of enabled keys in a listing. */
  function ActiveCount(keys: seq<ApiKey>): (n: nat)
    ensures n <= |keys|
  {
    if keys == [] then 0 else ActiveCount(keys[..|keys| - 1]) + (if keys[|keys| - 1].enabled then 1 else 0)
  }

  /** The requests logged against the keys of a listing, summed. */
  function TotalUsage(keys: seq<ApiKey>, requests: seq<ApiRequest>): nat {
    if keys == [] then 0
    else TotalUsage(keys[..|keys| - 1], requests) + UsageCount(requests, keys[|keys| - 1].id)
  }

  /** How many keys in a listing carry this id. */
  function IdOccurrences(keys: seq<ApiKey>, id: int): (n: nat)
    ensures n <= |keys|
  {
    if keys == [] then 0
    else IdOccurrences(keys[..|keys| - 1], id) + (if keys[|keys| - 1].id == id then 1 else 0)
  }

  lemma {:induction false} DistinctIdsOccurOnce(keys: seq<ApiKey>, id: int)
    requires forall i, j :: 0 <= i < j < |keys| ==> keys[i].id != keys[j].id
    ensures IdOccurrences(keys, id) <= 1
  {
    if keys != [] {
      var init := keys[..|keys| - 1];
      if keys[|keys| - 1].id == id {
        NoOccurrence(init, id);
      } else {
        DistinctIdsOccurOnce(init, id);
      }
    }
  }

  lemma {:induction false} NoOccurrence(keys: seq<ApiKey>, id: int)
    requires forall i :: 0 <= i < |keys| ==> keys[i].id != id
    ensures IdOccurrences(keys, id) == 0
  {
    if keys != [] {
      NoOccurrence(keys[..|keys| - 1], id);
    }
  }

  /** Logging one more request adds one to the sum for each key carrying its id. */
  lemma {:induction false} TotalUsageAppend(keys: seq<ApiKey>, requests: seq<ApiRequest>, entry: ApiRequest)
    ensures TotalUsage(keys, requests + [entry]) == TotalUsage(keys, requests) + IdOccurrences(keys, entry.apiKeyId)
  {
    if keys != [] {
      TotalUsageAppend(keys[..|keys| - 1], requests, entry);
      UsageCountAppend(requests, entry, keys[|keys| - 1].id);
    }
  }

  /**
   * With distinct key ids — as in any listing of the table — the dashboard's
   * request total never exceeds the number of logged requests.
   */
  lemma {:induction false} TotalUsageBound(keys: seq<ApiKey>, requests: seq<ApiRequest>)
    requires forall i, j :: 0 <= i < j < |keys| ==> keys[i].id != keys[j].id
    ensures TotalUsage(keys, requests) <= |requests|
    decreases |requests|
  {
    if requests == [] {
      TotalUsageEmpty(keys);
    } else {
      var init := requests[..|requests| - 1];
      var last := requests[|requests| - 1];
      assert requests == init + [last];
      TotalUsageBound(keys, init);
      TotalUsageAppend(keys, init, last);
      DistinctIdsOccurOnce(keys, last.apiKeyId);
    }
  }

  lemma {:induction false} TotalUsageEmpty(keys: seq<ApiKey>)
    ensures TotalUsage(keys, []) == 0
  {
    if keys != [] {
      TotalUsageEmpty(keys[..|keys| - 1]);
    }
  }

  // ---- file sizes ----

  /** formatFileSize below one KiB: the byte count and " B". Larger sizes are not modelled (None). */
  function FormatFileSize(bytes: int): (r: Option<string>)
    ensures r.Some? <==> bytes < 1024
    ensures r.Some? ==> HasSuffix(r.value, " B")
  {
    if bytes < 1024 then Some(Itoa(bytes) + " B") else None
  }

  /** The text before " B" reads back as the size. */
  lemma FormatFileSizeReadsBack(bytes: int)
    requires MinInt <= bytes < 1024
    ensures Atoi(TrimSuffix(FormatFileSize(bytes).value, " B")) == Some(bytes)
  {
    var text := FormatFileSize(bytes).value;
    assert HasSuffix(text, " B");
    assert TrimSuffix(text, " B") + " B" == Itoa(bytes) + " B";
    assert TrimSuffix(text, " B") == Itoa(bytes);
    AtoiItoa(bytes);
  }
}
