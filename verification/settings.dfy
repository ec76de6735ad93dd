/** SettingsActivity.kt: saving the endpoint and key typed by the user, the
    reset to the test endpoint, and the connection test. */
module Settings {
  import opened Wrappers
  import opened Text
  import opened Files
  import opened PhotoUploadManager

  datatype SaveOutcome = EmptyEndpoint | InvalidUrl | Saved

  /** A trimmed text is blank exactly when the text was. */
  lemma TrimBlank(s: string)
    ensures IsBlank(Trim(s)) <==> IsBlank(s)
  {
    var r := Trim(s);
    if r != [] {
      assert !IsWhitespace(r[0]);
    }
  }

  /** Every entry other than the endpoint and the key is as it was. */
  ghost predicate OthersUnchanged(before: map<string, string>, after: map<string, string>) {
    forall k :: k != KEY_API_ENDPOINT && k != KEY_API_KEY ==>
      (k in after <==> k in before) && (k in after ==> after[k] == before[k])
  }

  /** Which way `saveSettings` goes for the text in the endpoint field: the
      trimmed text must be non-blank, then a valid http(s) URL. */
  function SaveOutcomeOf(endpointText: string): (o: SaveOutcome)
    ensures o == EmptyEndpoint <==> IsBlank(endpointText)
    ensures o == InvalidUrl <==> !IsBlank(endpointText) && !ValidateEndpoint(Trim(endpointText))
    ensures o == Saved <==> !IsBlank(endpointText) && ValidateEndpoint(Trim(endpointText))
  {
    TrimBlank(endpointText);
    var endpoint := Trim(endpointText);
    if IsBlank(endpoint) then EmptyEndpoint
    else if !ValidateEndpoint(endpoint) then InvalidUrl
    else Saved
  }

  /** `saveSettings`: the trimmed endpoint must be non-blank and a valid
      http(s) URL; only then are the endpoint and the key written, a blank
      key as a removal. */
  method SaveSettings(prefs: SharedPreferences, endpointText: string, apiKeyText: string)
    returns (outcome: SaveOutcome)
    modifies prefs
    ensures outcome == SaveOutcomeOf(endpointText)
    ensures outcome != Saved ==> prefs.entries == old(prefs.entries)
    ensures outcome == Saved ==>
      && GetApiEndpoint(prefs) == Trim(endpointText)
      && GetApiKey(prefs) == (if IsBlank(apiKeyText) then None else Some(Trim(apiKeyText)))
    ensures OthersUnchanged(old(prefs.entries), prefs.entries)
  {
    outcome := SaveOutcomeOf(endpointText);
    if outcome != Saved {
      return;
    }
    var endpoint := Trim(endpointText);
    var apiKey := Trim(apiKeyText);
    TrimBlank(apiKeyText);
    ghost var before := prefs.entries;
    SetApiEndpoint(prefs, endpoint);
    ghost var middle := prefs.entries;
    SetApiKey(prefs, if IsBlank(apiKey) then None else Some(apiKey));
    assert OthersUnchanged(before, middle);
    assert OthersUnchanged(middle, prefs.entries);
  }

  const RESET_ENDPOINT: string := "https" + "://" + "httpbin.org/post"

  /** `resetToDefaults`, once confirmed: the test endpoint is stored and the
      key removed, so auto-upload counts as not configured again, although
      the stored endpoint is a valid URL. */
  method ResetToDefaults(prefs: SharedPreferences)
    modifies prefs
    ensures prefs.entries == old(prefs.entries)[KEY_API_ENDPOINT := DEFAULT_ENDPOINT] - {KEY_API_KEY}
    ensures KEY_API_ENDPOINT in prefs.entries && KEY_API_KEY !in prefs.entries
    ensures OthersUnchanged(old(prefs.entries), prefs.entries)
    ensures GetApiEndpoint(prefs) == DEFAULT_ENDPOINT && ValidateEndpoint(GetApiEndpoint(prefs))
    ensures GetApiKey(prefs) == None
    ensures !IsEndpointConfigured(prefs)
  {
    ghost var before := prefs.entries;
    SetApiEndpoint(prefs, RESET_ENDPOINT);
    SetApiKey(prefs, None);
    assert |KEY_API_ENDPOINT| != |KEY_API_KEY|;
    assert prefs.entries == before[KEY_API_ENDPOINT := DEFAULT_ENDPOINT] - {KEY_API_KEY};
    assert OthersUnchanged(before, prefs.entries);
    DefaultEndpointValid();
  }

  /** What pressing "Test" leads to. */
  datatype TestOutcome =
    | InvalidTypedUrl
    | WriteFailed(error: Exception)
    | Attempted(submission: Submission)

  /** `testConnection` as written: it validates the endpoint in the text
      field, writes the test JPEG, then calls `uploadPhoto`, which reads the
      endpoint from the store. */
  function TestConnectionAsWritten(prefs: SharedPreferences, endpointText: string, testFile: FileEntry,
                                   writeFailure: Option<Exception>, now: int,
                                   buildFailure: Option<Exception>): (t: TestOutcome)
    reads prefs
  {
    if !ValidateEndpoint(Trim(endpointText)) then InvalidTypedUrl
    else if writeFailure.Some? then WriteFailed(writeFailure.value)
    else Attempted(UploadPhoto(prefs, testFile, now, buildFailure))
  }

  /** Whenever the typed endpoint is valid but not the stored one, the test
      request goes to the stored endpoint, not to the one it validated. */
  lemma TestConnectionIgnoresTypedEndpoint(prefs: SharedPreferences, endpointText: string, testFile: FileEntry, now: int)
    requires ValidateEndpoint(Trim(endpointText)) && Trim(endpointText) != GetApiEndpoint(prefs)
    requires testFile.present && testFile.canRead
    ensures var t := TestConnectionAsWritten(prefs, endpointText, testFile, None, now, None);
      && t.Attempted? && t.submission.Enqueued?
      && t.submission.request.url == GetApiEndpoint(prefs)
      && t.submission.request.url != Trim(endpointText)
  {
    var s := UploadPhoto(prefs, testFile, now, None);
    assert TestConnectionAsWritten(prefs, endpointText, testFile, None, now, None) == Attempted(s);
  }

  /** `testConnection` as intended: the test request goes to the endpoint
      that was typed and validated; the key still comes from the store. */
  function TestConnection(prefs: SharedPreferences, endpointText: string, testFile: FileEntry,
                          writeFailure: Option<Exception>, now: int,
                          buildFailure: Option<Exception>): (t: TestOutcome)
    reads prefs
    ensures t == InvalidTypedUrl <==> !ValidateEndpoint(Trim(endpointText))
    ensures t.WriteFailed? <==> ValidateEndpoint(Trim(endpointText)) && writeFailure.Some?
    ensures t.Attempted? && t.submission.Enqueued? ==>
      && t.submission.request.url == Trim(endpointText)
      && ValidateEndpoint(t.submission.request.url)
      && t.submission.request.headers == AuthHeaders(GetApiKey(prefs))
    ensures t.Attempted? ==>
      (t.submission.Enqueued? <==> testFile.present && testFile.canRead && buildFailure.None?)
  {
    var endpoint := Trim(endpointText);
    if !ValidateEndpoint(endpoint) then InvalidTypedUrl
    else if writeFailure.Some? then WriteFailed(writeFailure.value)
    else Attempted(Submit(endpoint, GetApiKey(prefs), testFile, now, buildFailure))
  }

  /** The two agree exactly when the typed endpoint is the stored one. */
  lemma TestConnectionAgreesWhenSaved(prefs: SharedPreferences, endpointText: string, testFile: FileEntry,
                                      writeFailure: Option<Exception>, now: int, buildFailure: Option<Exception>)
    requires Trim(endpointText) == GetApiEndpoint(prefs)
    ensures TestConnection(prefs, endpointText, testFile, writeFailure, now, buildFailure)
         == TestConnectionAsWritten(prefs, endpointText, testFile, writeFailure, now, buildFailure)
  {
  }
}
