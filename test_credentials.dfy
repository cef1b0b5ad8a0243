/** Docs-sheet-mcp/test-credentials.py: the set-up checks run before the
    agent. The file system, `json.load`, `__import__` and `subprocess.run`
    are parameters: `fileExists`, `readJson`, `importable` and the outcome
    of the npx probe. Printing is left out; each check is modelled by the
    verdict it reaches, from which its boolean result follows. */
module TestCredentials {
  import opened PyText

  // ---------------------------------------------------------------------
  // test_google_credentials
  // ---------------------------------------------------------------------

  /** A JSON value; only string values are distinguished. */
  datatype JsonValue = JsonString(text: string) | JsonOther

  /** The parsed file: an object, or any other top-level JSON value (on which
      the script's dictionary accesses raise, so the check fails). */
  datatype JsonDocument = JsonObject(fields: map<string, JsonValue>) | JsonNotObject

  /** Opening and parsing the credentials file. */
  datatype FileRead = Parsed(document: JsonDocument) | DecodeError(message: string) | ReadError(message: string)

  const RequiredFields: seq<string> := ["type", "project_id", "private_key_id", "private_key", "client_email", "client_id"]

  /** `[field for field in required_fields if field not in data]`. */
  function MissingFields(fields: map<string, JsonValue>): seq<string>
  {
    Filter(RequiredFields, f => f !in fields)
  }

  /** The missing fields are exactly the absent required ones, in declared order. */
  lemma MissingFieldsMeaning(fields: map<string, JsonValue>)
    ensures IsSubsequence(MissingFields(fields), RequiredFields)
    ensures forall f :: f in MissingFields(fields) <==> f in RequiredFields && f !in fields
    ensures MissingFields(fields) == [] <==> forall f :: f in RequiredFields ==> f in fields
  {
    FilterMeaning(RequiredFields, f => f !in fields);
  }

  /** Where `test_google_credentials` stops. Only `Passed` returns True. */
  datatype CredentialVerdict =
    | Passed
    | VariableNotSet
    | FileNotFound(path: string)
    | InvalidJson(message: string)
    | ReadFailed(message: string)
    | NotAnObject
    | FieldsMissing(fields: seq<string>)
    | WrongAccountType(accountType: JsonValue)

  const ServiceAccount := JsonString("service_account")

  /** `test_google_credentials` after the environment is loaded. The file
      permission mode is only reported, never a reason to fail, so it is
      not an input. */
  function CheckGoogleCredentials(env: Environment, fileExists: string -> bool,
                                  readJson: string -> FileRead): (v: CredentialVerdict)
    // the stages fail in order: variable, file, JSON, fields, account type
    ensures !Truthy(Getenv(env, "GOOGLE_APPLICATION_CREDENTIALS")) ==> v == VariableNotSet
    ensures var path := Getenv(env, "GOOGLE_APPLICATION_CREDENTIALS");
            Truthy(path) && !fileExists(path.value) ==> v == FileNotFound(path.value)
    ensures var path := Getenv(env, "GOOGLE_APPLICATION_CREDENTIALS");
            Truthy(path) && fileExists(path.value) && readJson(path.value).DecodeError? ==>
              v == InvalidJson(readJson(path.value).message)
    ensures v.FieldsMissing? ==> v.fields != []
    ensures v.Passed? <==>
              var path := Getenv(env, "GOOGLE_APPLICATION_CREDENTIALS");
              Truthy(path) && fileExists(path.value) &&
              readJson(path.value).Parsed? && readJson(path.value).document.JsonObject? &&
              var fields := readJson(path.value).document.fields;
              (forall f :: f in RequiredFields ==> f in fields) && fields["type"] == ServiceAccount
  {
    var path := Getenv(env, "GOOGLE_APPLICATION_CREDENTIALS");
    if !Truthy(path) then VariableNotSet
    else if !fileExists(path.value) then FileNotFound(path.value)
    else
      match readJson(path.value)
      case DecodeError(e) => InvalidJson(e)
      case ReadError(e) => ReadFailed(e)
      case Parsed(JsonNotObject) => NotAnObject
      case Parsed(JsonObject(fields)) =>
        MissingFieldsMeaning(fields);
        var missing := MissingFields(fields);
        if missing != [] then FieldsMissing(missing)
        else if fields["type"] != ServiceAccount then WrongAccountType(fields["type"])
        else Passed
  }

  // ---------------------------------------------------------------------
  // test_groq_api_key
  // ---------------------------------------------------------------------

  /** `KeyAccepted` records whether the key has the usual "gsk_" prefix,
      which is only reported. */
  datatype KeyVerdict = KeyNotSet | KeyTooShort(length: nat) | KeyAccepted(usualPrefix: bool)

  function CheckGroqApiKey(env: Environment): (v: KeyVerdict)
    ensures v.KeyAccepted? <==> Truthy(Getenv(env, "GROQ_API_KEY")) && |env["GROQ_API_KEY"]| >= 20
    ensures v.KeyNotSet? <==> !Truthy(Getenv(env, "GROQ_API_KEY"))
    ensures v.KeyAccepted? ==> (v.usualPrefix <==> |env["GROQ_API_KEY"]| >= 4 && env["GROQ_API_KEY"][..4] == "gsk_")
  {
    var key := Getenv(env, "GROQ_API_KEY");
    if !Truthy(key) then KeyNotSet
    else if |key.value| < 20 then KeyTooShort(|key.value|)
    else KeyAccepted(|key.value| >= 4 && key.value[..4] == "gsk_")
  }

  // ---------------------------------------------------------------------
  // test_python_packages
  // ---------------------------------------------------------------------

  /** (module to import, package to install), in dictionary order. */
  const RequiredPackages: seq<(string, string)> := [("dotenv", "python-dotenv"), ("agno", "agno-sdk"), ("mcp", "mcp")]

  predicate AllImportable(packages: seq<(string, string)>, importable: string -> bool)
  {
    forall k :: 0 <= k < |packages| ==> importable(packages[k].0)
  }

  /** `test_python_packages`: tries every package, also after a failure.
      `report` lists (package, installed) per package, as the script prints it. */
  method TestPythonPackages(importable: string -> bool) returns (allInstalled: bool, report: seq<(string, bool)>)
    ensures allInstalled <==> AllImportable(RequiredPackages, importable)
    ensures |report| == |RequiredPackages|
    ensures forall k :: 0 <= k < |report| ==>
              report[k] == (RequiredPackages[k].1, importable(RequiredPackages[k].0))
  {
    allInstalled := true;
    report := [];
    var k := 0;
    while k < |RequiredPackages|
      invariant 0 <= k <= |RequiredPackages|
      invariant |report| == k
      invariant forall m :: 0 <= m < k ==> report[m] == (RequiredPackages[m].1, importable(RequiredPackages[m].0))
      invariant allInstalled <==> AllImportable(RequiredPackages[..k], importable)
    {
      var (moduleName, packageName) := RequiredPackages[k];
      if importable(moduleName) {
        report := report + [(packageName, true)];
      } else {
        report := report + [(packageName, false)];
        allInstalled := false;
      }
      k := k + 1;
    }
    assert RequiredPackages[..k] == RequiredPackages;
  }

  // ---------------------------------------------------------------------
  // test_node_mcp_server
  // ---------------------------------------------------------------------

  /** How `subprocess.run(['npx', ...], timeout=10)` ended. A non-zero exit
      status still counts as completed. */
  datatype NpxOutcome = Completed | NpxNotFound | TimedOut | OtherFailure(message: string)

  function TestNodeMcpServer(outcome: NpxOutcome): (ok: bool)
    ensures !ok <==> outcome == NpxNotFound
  {
    match outcome
    case Completed => true
    case NpxNotFound => false
    case TimedOut => true
    case OtherFailure(_) => true
  }

  // ---------------------------------------------------------------------
  // print_summary and main
  // ---------------------------------------------------------------------

  /** `sum(results.values())`. */
  function CountPassed(results: seq<(string, bool)>): (n: nat)
    ensures n <= |results|
  {
    if results == [] then 0 else (if results[0].1 then 1 else 0) + CountPassed(results[1..])
  }

  /** The passed count reaches the total exactly when every check passed. */
  lemma {:induction false} CountPassedIsTotal(results: seq<(string, bool)>)
    ensures CountPassed(results) == |results| <==> forall k :: 0 <= k < |results| ==> results[k].1
  {
    if results != [] {
      CountPassedIsTotal(results[1..]);
      assert forall k :: 1 <= k < |results| ==> results[k] == results[1..][k - 1];
    }
  }

  /** `print_summary`: True iff passed == total; an empty map gives True. */
  function PrintSummary(results: seq<(string, bool)>): (success: bool)
    ensures success <==> forall k :: 0 <= k < |results| ==> results[k].1
  {
    CountPassedIsTotal(results);
    CountPassed(results) == |results|
  }

  /** `main`: fills `results` check by check, then exits 0 iff all passed.
      `envFileExists` is whether `.env` exists; `env` is the environment the
      later checks see. */
  method RunAllChecks(envFileExists: bool, env: Environment, fileExists: string -> bool,
               readJson: string -> FileRead, importable: string -> bool, npx: NpxOutcome)
    returns (results: seq<(string, bool)>, exitCode: int)
    ensures |results| == 5
    ensures results[0] == (".env file", envFileExists)
    ensures results[1] == ("Google credentials", CheckGoogleCredentials(env, fileExists, readJson).Passed?)
    ensures results[2] == ("Groq API key", CheckGroqApiKey(env).KeyAccepted?)
    ensures results[3] == ("Python packages", AllImportable(RequiredPackages, importable))
    ensures results[4] == ("MCP server", TestNodeMcpServer(npx))
    ensures exitCode == (if forall k :: 0 <= k < 5 ==> results[k].1 then 0 else 1)
  {
    results := [];
    results := results + [(".env file", envFileExists)];
    results := results + [("Google credentials", CheckGoogleCredentials(env, fileExists, readJson).Passed?)];
    results := results + [("Groq API key", CheckGroqApiKey(env).KeyAccepted?)];
    var packagesOk, _ := TestPythonPackages(importable);
    results := results + [("Python packages", packagesOk)];
    results := results + [("MCP server", TestNodeMcpServer(npx))];
    var success := PrintSummary(results);
    exitCode := if success then 0 else 1;
  }
}
