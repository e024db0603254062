/** The data provider: a one-shot load of the research database into three
    state cells, `data`, `loading` and `error`, that falls back to the
    hand-written document when anything goes wrong. The request itself is an
    input: the outcome of `fetch` and of `response.json()`. */
module DataContext {
  import opened Js
  import opened PageReads
  import opened FallbackDocument
  import Schema

  /** A value thrown inside the `try`: an `Error` with its message, or any
      other thrown value. */
  datatype Throwable = ErrorObject(message: string) | NonError(thrown: Value)

  /** What `response.json()` does with the body. */
  datatype Body = Parsed(doc: Value) | Malformed(parseError: string)

  /** The network request either rejects, or yields a response. */
  datatype FetchOutcome =
    | Rejected(reason: Throwable)
    | Responded(status: nat, body: Body)

  /** The context value. `data` is `Null` until set; `error` holds the message
      of the stored `Error`. */
  datatype LoadState = LoadState(data: Value, loading: bool, error: Option<string>)

  /** The context's default value, which is also the provider's initial state. */
  const DefaultContext := LoadState(Null, true, None)

  const HttpErrorPrefix := "HTTP error! Status: "
  const UnknownErrorMessage := "An unknown error occurred"

  /** `response.ok`: a status in the 200 range. */
  predicate IsOk(status: nat) { 200 <= status <= 299 }

  function HttpErrorMessage(status: nat): (m: string)
    ensures |m| > |HttpErrorPrefix| && m[..|HttpErrorPrefix|] == HttpErrorPrefix
  {
    HttpErrorPrefix + Decimal(status)
  }

  /** The load succeeds only when the status is ok and the body parses. */
  predicate Succeeds(o: FetchOutcome) {
    o.Responded? && IsOk(o.status) && o.body.Parsed?
  }

  /** The value the `try` block throws on a failing outcome: the rejection
      reason, the HTTP error (checked before the body is read) or the parse
      error. */
  function Thrown(o: FetchOutcome): (t: Throwable)
    requires !Succeeds(o)
    ensures o.Rejected? ==> t == o.reason
    ensures o.Responded? ==> t.ErrorObject?
    ensures o.Responded? && !IsOk(o.status) ==> t.message == HttpErrorMessage(o.status)
    ensures o.Responded? && IsOk(o.status) ==> o.body.Malformed? && t.message == o.body.parseError
  {
    match o
    case Rejected(reason) => reason
    case Responded(status, body) =>
      if !IsOk(status) then ErrorObject(HttpErrorMessage(status))
      else ErrorObject(body.parseError)
  }

  /** `err instanceof Error ? err : new Error('An unknown error occurred')`. */
  function StoredMessage(t: Throwable): (m: string)
    ensures t.ErrorObject? ==> m == t.message
    ensures t.NonError? ==> m == UnknownErrorMessage
  {
    match t
    case ErrorObject(message) => message
    case NonError(_) => UnknownErrorMessage
  }

  /** The state after `fetchData` has run from `prior`. */
  function Settle(prior: LoadState, o: FetchOutcome): (s: LoadState)
    ensures !s.loading
    ensures Succeeds(o) ==> s.data == o.body.doc && s.error == prior.error
    ensures !Succeeds(o) ==> s.data == Fallback() && s.error == Some(StoredMessage(Thrown(o)))
  {
    if Succeeds(o) then LoadState(o.body.doc, false, prior.error)
    else LoadState(Fallback(), false, Some(StoredMessage(Thrown(o))))
  }

  /** A page shows its loader while `loading || !data`. */
  predicate ShowsLoader(s: LoadState): (b: bool)
    ensures s.loading || s.data.Null? || s.data.Undefined? ==> b
    ensures !s.loading && (s.data.Obj? || s.data.Arr?) ==> !b
  {
    s.loading || !Truthy(s.data)
  }

  class DataProvider {
    var data: Value
    var loading: bool
    var error: Option<string>
    /** Whether React has run the provider's mount effect (deps `[]`). */
    var effectRan: bool

    function State(): LoadState
      reads this
    {
      LoadState(data, loading, error)
    }

    constructor ()
      ensures State() == DefaultContext && !effectRan
    {
      data := Null;
      loading := true;
      error := None;
      effectRan := false;
    }

    /** `fetchData`: the `try`, `catch` and `finally` blocks in order. */
    method FetchData(o: FetchOutcome)
      modifies this
      ensures State() == Settle(old(State()), o)
      ensures effectRan == old(effectRan)
    {
      var thrown: Option<Throwable> := None;
      match o {
        case Rejected(reason) =>
          thrown := Some(reason);
        case Responded(status, body) =>
          if !IsOk(status) {
            thrown := Some(ErrorObject(HttpErrorMessage(status)));
          } else {
            match body {
              case Parsed(doc) => data := doc;
              case Malformed(message) => thrown := Some(ErrorObject(message));
            }
          }
      }
      if thrown.Some? {
        data := Fallback();
        error := Some(StoredMessage(thrown.value));
      }
      loading := false;
    }

    /** The effect with an empty dependency list: it fetches on the first
        run after mounting and does nothing on every later render. */
    method RunEffects(o: FetchOutcome)
      modifies this
      ensures effectRan
      ensures old(effectRan) ==> State() == old(State())
      ensures !old(effectRan) ==> State() == Settle(old(State()), o)
    {
      if !effectRan {
        FetchData(o);
        effectRan := true;
      }
    }
  }

  /** Settling always ends the loading phase, and from the initial state the
      error is set exactly when the load fails. */
  lemma SettleFromDefault(o: FetchOutcome)
    ensures !Settle(DefaultContext, o).loading
    ensures Settle(DefaultContext, o).error.None? <==> Succeeds(o)
  {
  }

  /** On success the exposed data is exactly the parsed document and the
      error is left as it was. */
  lemma SuccessExposesDocument(prior: LoadState, status: nat, doc: Value)
    requires IsOk(status)
    ensures Settle(prior, Responded(status, Parsed(doc))) == LoadState(doc, false, prior.error)
  {
  }

  /** A non-ok status fails even when the body would parse, and the stored
      message names the status, which can be read back from it. */
  lemma HttpErrorNamesStatus(prior: LoadState, status: nat, body: Body)
    requires !IsOk(status)
    ensures var s := Settle(prior, Responded(status, body));
            s.data == Fallback() && s.error.Some? &&
            s.error.value[..|HttpErrorPrefix|] == HttpErrorPrefix &&
            ParseDecimal(s.error.value[|HttpErrorPrefix|..]) == status
  {
    var m := HttpErrorMessage(status);
    assert m[|HttpErrorPrefix|..] == Decimal(status);
    DecimalRoundTrip(status);
  }

  /** Distinct statuses give distinct messages. */
  lemma HttpErrorMessageInjective(s1: nat, s2: nat)
    requires HttpErrorMessage(s1) == HttpErrorMessage(s2)
    ensures s1 == s2
  {
    assert HttpErrorMessage(s1)[|HttpErrorPrefix|..] == Decimal(s1);
    assert HttpErrorMessage(s2)[|HttpErrorPrefix|..] == Decimal(s2);
    DecimalInjective(s1, s2);
  }

  /** Every failure stores the fallback and a message; a thrown value that is
      not an `Error` is wrapped in the unknown-error message. */
  lemma FailureUsesFallback(prior: LoadState, o: FetchOutcome)
    requires !Succeeds(o)
    ensures Settle(prior, o).data == Fallback()
    ensures Settle(prior, o).error.Some?
    ensures o.Rejected? && o.reason.NonError? ==> Settle(prior, o).error == Some(UnknownErrorMessage)
    ensures o.Rejected? && o.reason.ErrorObject? ==> Settle(prior, o).error == Some(o.reason.message)
  {
  }

  /** After settling, no page shows the loader unless the parsed document is
      itself falsy; after a failure the pages always render. */
  lemma SettledPagesRender(prior: LoadState, o: FetchOutcome)
    ensures ShowsLoader(Settle(prior, o)) <==> Succeeds(o) && !Truthy(o.body.doc)
    ensures !Succeeds(o) ==> Settle(prior, o).data != Null
    ensures ShowsLoader(DefaultContext)
  {
  }

  /** After a failure every page's list reads succeed on the exposed data
      except the Internships page's, which throws on its first render. */
  lemma FailedLoadBreaksOnlyInternships(prior: LoadState, o: FetchOutcome)
    requires !Succeeds(o)
    ensures var d := Settle(prior, o).data;
            ReadsOk(d, CapabilitiesReads()) && ReadsOk(d, IndiaResearchReads()) &&
            ReadsOk(d, LearningPathsReads()) && ReadsOk(d, ResourcesReads()) &&
            !ReadsOk(d, InternshipsFirstRenderReads())
  {
    FallbackCapabilitiesReads();
    FallbackIndiaResearchReads();
    FallbackLearningPathsReads();
    FallbackResourcesReads();
    FallbackInternshipsReads();
  }

  /** After a successful load of a document of the declared shape every page
      renders without a TypeError. */
  lemma ConformingLoadRenders(prior: LoadState, status: nat, doc: Value)
    requires IsOk(status) && Schema.DecodeDatabase(doc).Some?
    ensures var d := Settle(prior, Responded(status, Parsed(doc))).data;
            ReadsOk(d, CapabilitiesReads()) && ReadsOk(d, IndiaResearchReads()) &&
            ReadsOk(d, InternshipsReads()) && ReadsOk(d, LearningPathsReads()) &&
            ReadsOk(d, ResourcesReads())
  {
    ConformingDocumentIsSafe(doc);
  }
}
