/**
 * The top-level component (App.tsx): the error classifier and the phase state machine
 * over the four state cells `appState`, `inputs`, `results` and `error`.
 */
module App {

  import opened Wrappers
  import opened Types
  import opened Text
  import GeminiService

  datatype ErrorKind = Auth | Quota | General

  /** The `error` state cell: the banner text, the raw message and its kind. */
  datatype ErrorInfo = ErrorInfo(message: string, details: string, kind: ErrorKind)

  const AuthMessage: string := "Intelligence engine configuration error."
  const QuotaMessage: string := "The AI engine is currently experiencing high demand."
  const GeneralMessage: string := "We encountered an issue analyzing this specific URL."

  predicate IsAuthError(m: string) {
    Includes(m, "API_KEY") || Includes(m, "AUTH_ERROR") || Includes(m, "403") || Includes(m, "401")
  }

  predicate IsQuotaError(m: string) {
    Includes(m, "429") || Includes(m, "QUOTA") || Includes(m, "RESOURCE_EXHAUSTED")
  }

  /** The classification block of the `catch`; the authentication test comes first. */
  function Classify(errorMessage: string): (e: ErrorInfo)
    ensures e.details == errorMessage
    ensures e.kind == Auth <==> IsAuthError(errorMessage)
    ensures e.kind == Quota <==> !IsAuthError(errorMessage) && IsQuotaError(errorMessage)
    ensures e.kind == General <==> !IsAuthError(errorMessage) && !IsQuotaError(errorMessage)
    ensures e.message == match e.kind case Auth => AuthMessage case Quota => QuotaMessage case General => GeneralMessage
  {
    if IsAuthError(errorMessage) then ErrorInfo(AuthMessage, errorMessage, Auth)
    else if IsQuotaError(errorMessage) then ErrorInfo(QuotaMessage, errorMessage, Quota)
    else ErrorInfo(GeneralMessage, errorMessage, General)
  }

  /** The service's missing-key message names `API_KEY`, so the banner reports a configuration error. */
  lemma MissingKeyIsAuth()
    ensures Classify(GeminiService.MissingKeyMessage).kind == Auth
    ensures Classify(GeminiService.MissingKeyMessage).message == AuthMessage
  {
    var m := GeminiService.MissingKeyMessage;
    assert m[23..30] == "API_KEY";
    OccursAtIncludes(m, "API_KEY", 23);
  }

  /** A message lacking `_`, `4` and `Q` can match none of the seven substrings. */
  lemma PlainMessageIsGeneral(m: string)
    requires '_' !in m && '4' !in m && 'Q' !in m
    ensures Classify(m).kind == General
  {
    MissingCharExcludes(m, "API_KEY", '_');
    MissingCharExcludes(m, "AUTH_ERROR", '_');
    MissingCharExcludes(m, "403", '4');
    MissingCharExcludes(m, "401", '4');
    MissingCharExcludes(m, "429", '4');
    MissingCharExcludes(m, "QUOTA", 'Q');
    MissingCharExcludes(m, "RESOURCE_EXHAUSTED", '_');
  }

  /** A missing message (`err.message || ""`) shows as a general failure. */
  lemma EmptyMessageIsGeneral()
    ensures Classify("").kind == General && Classify("").message == GeneralMessage
  {
    PlainMessageIsGeneral("");
  }

  class AppComponent {
    var appState: AppState
    var inputs: Option<UserInputs>
    var results: Option<GeminiService.ParsedResult>
    var error: Option<ErrorInfo>

    /**
     * What the sequential flow keeps: processing has an input, a shown result has both
     * an input and a result, and no error banner outlives a submission.
     */
    ghost predicate Valid()
      reads this
    {
      && (appState == Processing ==> inputs.Some? && error.None?)
      && (appState == Results ==> inputs.Some? && results.Some? && error.None?)
    }

    /** The render guard for the dashboard (App.tsx:112). */
    predicate ShowsDashboard()
      reads this
    {
      appState == Results && results.Some? && inputs.Some?
    }

    constructor ()
      ensures appState == Input && inputs == None && results == None && error == None
      ensures Valid()
    {
      appState := Input;
      inputs := None;
      results := None;
      error := None;
    }

    /** The synchronous start of `handleStartAnalysis`. */
    method Start(userInput: UserInputs)
      modifies this
      ensures inputs == Some(userInput) && appState == Processing && error == None
      ensures results == old(results)
      ensures Valid()
    {
      inputs := Some(userInput);
      appState := Processing;
      error := None;
    }

    /** The `try` branch once the service resolved. */
    method Succeed(result: GeminiService.ParsedResult)
      modifies this
      ensures results == Some(result) && appState == Results
      ensures inputs == old(inputs) && error == old(error)
      ensures old(Valid()) && old(appState) == Processing ==> Valid() && ShowsDashboard()
    {
      results := Some(result);
      appState := Results;
    }

    /** The `catch` branch: classify `err.message || ""` and go back to the input form. */
    method Fail(errorMessage: string)
      modifies this
      ensures error == Some(Classify(errorMessage)) && appState == Input
      ensures inputs == old(inputs) && results == old(results)
      ensures Valid() && !ShowsDashboard()
    {
      error := Some(Classify(errorMessage));
      appState := Input;
    }

    /** `handleReset` */
    method Reset()
      modifies this
      ensures appState == Input && results == None && inputs == None && error == None
      ensures Valid() && !ShowsDashboard()
    {
      appState := Input;
      results := None;
      inputs := None;
      error := None;
    }

    /** `handleStartAnalysis` run to completion, with no other event in between. */
    method HandleStartAnalysis(userInput: UserInputs, apiKey: Option<string>, call: GeminiService.CallOutcome)
      modifies this
      ensures inputs == Some(userInput)
      ensures Valid()
      ensures GeminiService.AnalyzeOutcome(apiKey, call).Success? ==>
                appState == Results && results == Some(GeminiService.AnalyzeOutcome(apiKey, call).value) &&
                error == None && ShowsDashboard()
      ensures GeminiService.AnalyzeOutcome(apiKey, call).Failure? ==>
                appState == Input && error == Some(Classify(GeminiService.AnalyzeOutcome(apiKey, call).message)) &&
                results == old(results) && error.value.details != ""
      ensures !Truthy(apiKey) ==> appState == Input && error.Some? && error.value.kind == Auth
    {
      Start(userInput);
      var r := GeminiService.AnalyzeWebsite(userInput, apiKey, call);
      match r
      case Success(result) =>
        Succeed(result);
      case Failure(message) =>
        if !Truthy(apiKey) {
          MissingKeyIsAuth();
        }
        Fail(message);
    }
  }
}
