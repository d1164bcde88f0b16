/** `GetEventsUseCaseImpl.getEvents`: a decision tree over the answers of
    four collaborators (event-provider configuration, access tokens,
    providers that hold events for the tokens, remote events per provider)
    that yields `Success`, `HasNoEvents` or `Error`, and records which
    collaborator calls it makes, in order. */
module GetEvents {
  import Outcomes
  type Option<T> = Outcomes.Option<T>

  /** An `ErrorResult`: the step it failed at and the exception. */
  datatype ErrorResult = ErrorResult(step: nat, exception: string)

  /** The shape every collaborator's sealed result type shares: a success
      carrying a value, or an error carrying an `ErrorResult`. For the token
      call the failed `NetworkRequestResult` is itself the `ErrorResult`. */
  datatype Fetched<+T> = Fetched(value: T) | FetchFailed(errorResult: ErrorResult)

  datatype OriginType = OriginType(name: string)
  datatype EventProvider = EventProvider(providerIdentifier: string)
  datatype Token = Token(providerIdentifier: string, unomi: string, event: string)
  datatype ProviderWithToken = ProviderWithToken(eventProvider: EventProvider, token: Token)

  datatype RemoteEvent = RemoteEvent(kind: string)

  /** `RemoteProtocol3`: its `events` list may be null. */
  datatype RemoteProtocol = RemoteProtocol(events: Option<seq<RemoteEvent>>)

  /** `SignedResponseWithModel<RemoteProtocol3>` */
  datatype SignedModel = SignedModel(signedResponse: seq<bv8>, model: RemoteProtocol)

  datatype EventsResult =
    | Success(signedModels: seq<SignedModel>, missingEvents: bool)
    | HasNoEvents(missingEvents: bool)
    | Error(errorResults: seq<ErrorResult>)

  /** The secondary `Error(errorResult)` constructor. */
  function SingleError(e: ErrorResult): (r: EventsResult)
    ensures r.Error? && |r.errorResults| == 1 && r.errorResults[0] == e
  {
    Error([e])
  }

  /** The collaborators, as their answers:
      eventProviders        `configProvidersUseCase.eventProviders()`
      accessTokens          `coronaCheckRepository.accessTokens(jwt)`
      providersWithTokens   `getEventProvidersWithTokensUseCase.get(...)`
      remoteEvents          `getRemoteEventsUseCase.getRemoteEvents(...)` */
  datatype Collaborators = Collaborators(
    eventProviders: Fetched<seq<EventProvider>>,
    accessTokens: string -> Fetched<seq<Token>>,
    providersWithTokens: (seq<EventProvider>, seq<Token>, OriginType, Option<seq<string>>) -> seq<Fetched<ProviderWithToken>>,
    remoteEvents: (EventProvider, Token, OriginType) -> Fetched<SignedModel>)

  /** A collaborator call, with its arguments. */
  datatype Call =
    | EventProvidersCall
    | AccessTokensCall(jwt: string)
    | ProvidersWithTokensCall(providers: seq<EventProvider>, tokens: seq<Token>, originType: OriginType, targetProviderIds: Option<seq<string>>)
    | RemoteEventsCall(eventProvider: EventProvider, token: Token, originType: OriginType)

  datatype Run = Run(result: EventsResult, calls: seq<Call>)

  /** `filterIsInstance<...Success>()`, then the payloads. */
  function Successes<T>(rs: seq<Fetched<T>>): (vs: seq<T>)
    ensures |vs| <= |rs|
    ensures |rs| > 0 && rs[0].Fetched? ==> |vs| > 0 && vs[0] == rs[0].value
    decreases |rs|
  {
    if |rs| == 0 then []
    else (if rs[0].Fetched? then [rs[0].value] else []) + Successes(rs[1..])
  }

  /** `filterIsInstance<...Error>().map { it.errorResult }` */
  function Failures<T>(rs: seq<Fetched<T>>): (es: seq<ErrorResult>)
    ensures |es| <= |rs|
    ensures |rs| > 0 && rs[0].FetchFailed? ==> |es| > 0 && es[0] == rs[0].errorResult
    decreases |rs|
  {
    if |rs| == 0 then []
    else (if rs[0].FetchFailed? then [rs[0].errorResult] else []) + Failures(rs[1..])
  }

  /** The remote-event requests, one per provider with a token, in order. */
  function FetchRemoteEvents(ok: seq<ProviderWithToken>, originType: OriginType, remoteEvents: (EventProvider, Token, OriginType) -> Fetched<SignedModel>): (rs: seq<Fetched<SignedModel>>)
    ensures |rs| == |ok|
    ensures forall i :: 0 <= i < |ok| ==> rs[i] == remoteEvents(ok[i].eventProvider, ok[i].token, originType)
    decreases |ok|
  {
    if |ok| == 0 then []
    else [remoteEvents(ok[0].eventProvider, ok[0].token, originType)] + FetchRemoteEvents(ok[1..], originType, remoteEvents)
  }

  function RemoteCalls(ok: seq<ProviderWithToken>, originType: OriginType): (calls: seq<Call>)
    ensures |calls| == |ok|
    ensures forall i :: 0 <= i < |ok| ==> calls[i] == RemoteEventsCall(ok[i].eventProvider, ok[i].token, originType)
    decreases |ok|
  {
    if |ok| == 0 then []
    else [RemoteEventsCall(ok[0].eventProvider, ok[0].token, originType)] + RemoteCalls(ok[1..], originType)
  }

  /** `events?.isNotEmpty() ?: false` */
  predicate ModelHasEvents(m: SignedModel) {
    m.model.events.Some? && |m.model.events.value| > 0
  }

  /** `signedModels.map { it.model }.any { ... }` */
  function AnyHasEvents(models: seq<SignedModel>): (found: bool)
    ensures found <==> exists i :: 0 <= i < |models| && ModelHasEvents(models[i])
    decreases |models|
  {
    if |models| == 0 then false
    else ModelHasEvents(models[0]) || AnyHasEvents(models[1..])
  }

  /** The decision once the configuration and the tokens are in hand. A
      `Success` always carries a model with events. */
  function Aggregate(withTokens: seq<Fetched<ProviderWithToken>>, originType: OriginType,
                     remoteEvents: (EventProvider, Token, OriginType) -> Fetched<SignedModel>): (r: EventsResult)
    ensures r.Success? ==> AnyHasEvents(r.signedModels)
  {
    var ok := Successes(withTokens);
    var providerErrors := Failures(withTokens);
    if |ok| > 0 then
      var remote := FetchRemoteEvents(ok, originType, remoteEvents);
      var models := Successes(remote);
      var remoteErrors := Failures(remote);
      if |models| > 0 then
        var missing := |providerErrors| > 0 || |remoteErrors| > 0;
        if !AnyHasEvents(models) then HasNoEvents(missing) else Success(models, missing)
      else
        Error(remoteErrors)
    else if |providerErrors| == 0 then HasNoEvents(false)
    else Error(providerErrors)
  }

  function GetEvents(jwt: string, originType: OriginType, targetProviderIds: Option<seq<string>>, co: Collaborators): (run: Run)
    ensures co.eventProviders.FetchFailed? ==> run == Run(SingleError(co.eventProviders.errorResult), [EventProvidersCall])
    ensures co.eventProviders.Fetched? && co.accessTokens(jwt).FetchFailed? ==>
      run == Run(SingleError(co.accessTokens(jwt).errorResult), [EventProvidersCall, AccessTokensCall(jwt)])
    ensures co.eventProviders.Fetched? && co.accessTokens(jwt).Fetched? ==>
      run.result == Aggregate(co.providersWithTokens(co.eventProviders.value, co.accessTokens(jwt).value, originType, targetProviderIds), originType, co.remoteEvents)
  {
    match co.eventProviders
    case FetchFailed(e) => Run(SingleError(e), [EventProvidersCall])
    case Fetched(providers) =>
      match co.accessTokens(jwt)
      case FetchFailed(e) => Run(SingleError(e), [EventProvidersCall, AccessTokensCall(jwt)])
      case Fetched(tokens) =>
        var withTokens := co.providersWithTokens(providers, tokens, originType, targetProviderIds);
        var prefix := [EventProvidersCall, AccessTokensCall(jwt), ProvidersWithTokensCall(providers, tokens, originType, targetProviderIds)];
        var ok := Successes(withTokens);
        Run(Aggregate(withTokens, originType, co.remoteEvents), prefix + RemoteCalls(ok, originType))
  }

  // Filter properties

  ghost predicate SomeFetched<T>(rs: seq<Fetched<T>>) {
    exists i :: 0 <= i < |rs| && rs[i].Fetched?
  }

  ghost predicate SomeFailed<T>(rs: seq<Fetched<T>>) {
    exists i :: 0 <= i < |rs| && rs[i].FetchFailed?
  }

  lemma {:induction false} SuccessesNonEmpty<T>(rs: seq<Fetched<T>>)
    ensures |Successes(rs)| > 0 <==> SomeFetched(rs)
    decreases |rs|
  {
    if |rs| > 0 {
      SuccessesNonEmpty(rs[1..]);
      if SomeFetched(rs[1..]) {
        var i :| 0 <= i < |rs[1..]| && rs[1..][i].Fetched?;
        assert rs[i + 1].Fetched?;
      }
      if SomeFetched(rs) && !rs[0].Fetched? {
        var i :| 0 <= i < |rs| && rs[i].Fetched?;
        assert rs[1..][i - 1].Fetched?;
      }
    }
  }

  lemma {:induction false} FailuresNonEmpty<T>(rs: seq<Fetched<T>>)
    ensures |Failures(rs)| > 0 <==> SomeFailed(rs)
    decreases |rs|
  {
    if |rs| > 0 {
      FailuresNonEmpty(rs[1..]);
      if SomeFailed(rs[1..]) {
        var i :| 0 <= i < |rs[1..]| && rs[1..][i].FetchFailed?;
        assert rs[i + 1].FetchFailed?;
      }
      if SomeFailed(rs) && !rs[0].FetchFailed? {
        var i :| 0 <= i < |rs| && rs[i].FetchFailed?;
        assert rs[1..][i - 1].FetchFailed?;
      }
    }
  }

  /** Every result is either a success or an error, so the two filters
      partition the input. */
  lemma {:induction false} FiltersPartition<T>(rs: seq<Fetched<T>>)
    ensures |Successes(rs)| + |Failures(rs)| == |rs|
    decreases |rs|
  {
    if |rs| > 0 {
      FiltersPartition(rs[1..]);
    }
  }

  /** Filtering keeps input order: it distributes over concatenation. */
  lemma {:induction false} SuccessesConcat<T>(a: seq<Fetched<T>>, b: seq<Fetched<T>>)
    ensures Successes(a + b) == Successes(a) + Successes(b)
    decreases |a|
  {
    if |a| == 0 {
      assert a + b == b;
    } else {
      var head := if a[0].Fetched? then [a[0].value] else [];
      assert (a + b)[0] == a[0];
      assert (a + b)[1..] == a[1..] + b;
      SuccessesConcat(a[1..], b);
      calc {
        Successes(a + b);
        head + Successes(a[1..] + b);
        head + (Successes(a[1..]) + Successes(b));
        (head + Successes(a[1..])) + Successes(b);
      }
    }
  }

  lemma {:induction false} FailuresConcat<T>(a: seq<Fetched<T>>, b: seq<Fetched<T>>)
    ensures Failures(a + b) == Failures(a) + Failures(b)
    decreases |a|
  {
    if |a| == 0 {
      assert a + b == b;
    } else {
      var head := if a[0].FetchFailed? then [a[0].errorResult] else [];
      assert (a + b)[0] == a[0];
      assert (a + b)[1..] == a[1..] + b;
      FailuresConcat(a[1..], b);
      calc {
        Failures(a + b);
        head + Failures(a[1..] + b);
        head + (Failures(a[1..]) + Failures(b));
        (head + Failures(a[1..])) + Failures(b);
      }
    }
  }

  /** With every result an error, the error filter is every error, in order. */
  lemma {:induction false} AllFailedFailures<T>(rs: seq<Fetched<T>>)
    requires forall i :: 0 <= i < |rs| ==> rs[i].FetchFailed?
    ensures |Failures(rs)| == |rs|
    ensures forall i :: 0 <= i < |rs| ==> Failures(rs)[i] == rs[i].errorResult
    decreases |rs|
  {
    if |rs| > 0 {
      AllFailedFailures(rs[1..]);
    }
  }

  // Properties of getEvents

  /** A failed provider configuration: one error, and neither tokens nor
      events are requested. */
  lemma ConfigFailureStopsEarly(jwt: string, originType: OriginType, targetProviderIds: Option<seq<string>>, co: Collaborators)
    requires co.eventProviders.FetchFailed?
    ensures GetEvents(jwt, originType, targetProviderIds, co).result == Error([co.eventProviders.errorResult])
    ensures GetEvents(jwt, originType, targetProviderIds, co).calls == [EventProvidersCall]
  {
  }

  /** The calls made once tokens are in hand: configuration, tokens, the
      provider lookup, then exactly one remote-events request per provider
      with a token, in the lookup's order. */
  lemma RemoteEventsRequestedOncePerProvider(jwt: string, originType: OriginType, targetProviderIds: Option<seq<string>>, co: Collaborators)
    requires co.eventProviders.Fetched? && co.accessTokens(jwt).Fetched?
    ensures var providers, tokens := co.eventProviders.value, co.accessTokens(jwt).value;
      var ok := Successes(co.providersWithTokens(providers, tokens, originType, targetProviderIds));
      var calls := GetEvents(jwt, originType, targetProviderIds, co).calls;
      && |calls| == 3 + |ok|
      && calls[..3] == [EventProvidersCall, AccessTokensCall(jwt), ProvidersWithTokensCall(providers, tokens, originType, targetProviderIds)]
      && forall i :: 0 <= i < |ok| ==> calls[3 + i] == RemoteEventsCall(ok[i].eventProvider, ok[i].token, originType)
  {
  }

  /** The remote-events collaborator agrees on every request in the log. */
  ghost predicate AgreeOnLoggedRequests(calls: seq<Call>, remoteEvents: (EventProvider, Token, OriginType) -> Fetched<SignedModel>,
                                        otherRemoteEvents: (EventProvider, Token, OriginType) -> Fetched<SignedModel>)
  {
    forall i :: 0 <= i < |calls| && calls[i].RemoteEventsCall? ==>
      remoteEvents(calls[i].eventProvider, calls[i].token, calls[i].originType)
        == otherRemoteEvents(calls[i].eventProvider, calls[i].token, calls[i].originType)
  }

  /** The log is complete: `getEvents` consults the remote-events
      collaborator only at the requests it logs, so any collaborator that
      answers those requests alike gives the same run. */
  lemma {:induction false} OnlyLoggedRequestsMatter(jwt: string, originType: OriginType, targetProviderIds: Option<seq<string>>,
                                                    co: Collaborators, otherRemoteEvents: (EventProvider, Token, OriginType) -> Fetched<SignedModel>)
    requires AgreeOnLoggedRequests(GetEvents(jwt, originType, targetProviderIds, co).calls, co.remoteEvents, otherRemoteEvents)
    ensures GetEvents(jwt, originType, targetProviderIds, co.(remoteEvents := otherRemoteEvents)) == GetEvents(jwt, originType, targetProviderIds, co)
  {
    if co.eventProviders.Fetched? && co.accessTokens(jwt).Fetched? {
      var providers, tokens := co.eventProviders.value, co.accessTokens(jwt).value;
      var ok := Successes(co.providersWithTokens(providers, tokens, originType, targetProviderIds));
      var calls := GetEvents(jwt, originType, targetProviderIds, co).calls;
      RemoteEventsRequestedOncePerProvider(jwt, originType, targetProviderIds, co);
      var mine := FetchRemoteEvents(ok, originType, co.remoteEvents);
      var theirs := FetchRemoteEvents(ok, originType, otherRemoteEvents);
      forall i | 0 <= i < |ok| ensures mine[i] == theirs[i] {
        assert calls[3 + i] == RemoteEventsCall(ok[i].eventProvider, ok[i].token, originType);
      }
      assert mine == theirs;
    }
  }

  /** No provider with a token: `HasNoEvents(false)` without provider
      errors, otherwise those errors in their original order. */
  lemma NoProviderWithToken(withTokens: seq<Fetched<ProviderWithToken>>, originType: OriginType,
                            remoteEvents: (EventProvider, Token, OriginType) -> Fetched<SignedModel>)
    requires forall i :: 0 <= i < |withTokens| ==> withTokens[i].FetchFailed?
    ensures |withTokens| == 0 ==> Aggregate(withTokens, originType, remoteEvents) == HasNoEvents(false)
    ensures |withTokens| > 0 ==> Aggregate(withTokens, originType, remoteEvents).Error?
    ensures |withTokens| > 0 ==> Aggregate(withTokens, originType, remoteEvents).errorResults == Failures(withTokens)
    ensures |Failures(withTokens)| == |withTokens|
    ensures forall i :: 0 <= i < |withTokens| ==> Failures(withTokens)[i] == withTokens[i].errorResult
  {
    SuccessesNonEmpty(withTokens);
    FailuresNonEmpty(withTokens);
    AllFailedFailures(withTokens);
    if |withTokens| > 0 {
      assert withTokens[0].FetchFailed?;
    }
  }

  /** Every remote request failed: `Error` with exactly those errors, in
      request order. */
  lemma AllRemoteFetchesFailed(withTokens: seq<Fetched<ProviderWithToken>>, originType: OriginType,
                               remoteEvents: (EventProvider, Token, OriginType) -> Fetched<SignedModel>)
    requires |Successes(withTokens)| > 0
    requires var ok := Successes(withTokens);
      forall i :: 0 <= i < |ok| ==> remoteEvents(ok[i].eventProvider, ok[i].token, originType).FetchFailed?
    ensures var ok := Successes(withTokens);
      var r := Aggregate(withTokens, originType, remoteEvents);
      && r.Error?
      && |r.errorResults| == |ok|
      && forall i :: 0 <= i < |ok| ==> r.errorResults[i] == remoteEvents(ok[i].eventProvider, ok[i].token, originType).errorResult
  {
    var ok := Successes(withTokens);
    var remote := FetchRemoteEvents(ok, originType, remoteEvents);
    SuccessesNonEmpty(remote);
    AllFailedFailures(remote);
  }

  /** The remote answer for one provider with a token. */
  function RemoteAnswer(pt: ProviderWithToken, originType: OriginType,
                        remoteEvents: (EventProvider, Token, OriginType) -> Fetched<SignedModel>): Fetched<SignedModel>
  {
    remoteEvents(pt.eventProvider, pt.token, originType)
  }

  /** The lookup result at index `i` is a provider with a token whose
      remote answer satisfies `q`. */
  ghost predicate AnsweredAt(withTokens: seq<Fetched<ProviderWithToken>>, originType: OriginType,
                             remoteEvents: (EventProvider, Token, OriginType) -> Fetched<SignedModel>,
                             q: Fetched<SignedModel> -> bool, i: int)
  {
    0 <= i < |withTokens| && withTokens[i].Fetched? && q(RemoteAnswer(withTokens[i].value, originType, remoteEvents))
  }

  predicate IsFetched(f: Fetched<SignedModel>) { f.Fetched? }
  predicate IsFailed(f: Fetched<SignedModel>) { f.FetchFailed? }
  predicate FetchedWithEvents(f: Fetched<SignedModel>) { f.Fetched? && ModelHasEvents(f.value) }
  predicate FetchedWithoutEvents(f: Fetched<SignedModel>) { f.Fetched? && !ModelHasEvents(f.value) }

  /** Every element of the success filter is the payload of some success. */
  lemma {:induction false} SuccessComesFrom<T>(rs: seq<Fetched<T>>, i: int)
    requires 0 <= i < |Successes(rs)|
    ensures exists j :: 0 <= j < |rs| && rs[j] == Fetched(Successes(rs)[i])
    decreases |rs|
  {
    if rs[0].Fetched? && i == 0 {
      assert rs[0] == Fetched(Successes(rs)[0]);
    } else {
      var k := if rs[0].Fetched? then i - 1 else i;
      assert Successes(rs)[i] == Successes(rs[1..])[k];
      SuccessComesFrom(rs[1..], k);
      var j :| 0 <= j < |rs[1..]| && rs[1..][j] == Fetched(Successes(rs[1..])[k]);
      assert rs[j + 1] == rs[1..][j];
    }
  }

  /** Every success's payload is in the success filter. */
  lemma {:induction false} SuccessGoesTo<T>(rs: seq<Fetched<T>>, j: int)
    requires 0 <= j < |rs| && rs[j].Fetched?
    ensures exists i :: 0 <= i < |Successes(rs)| && Successes(rs)[i] == rs[j].value
    decreases |rs|
  {
    if j == 0 {
      assert Successes(rs)[0] == rs[0].value;
    } else {
      assert rs[1..][j - 1] == rs[j];
      SuccessGoesTo(rs[1..], j - 1);
      var i :| 0 <= i < |Successes(rs[1..])| && Successes(rs[1..])[i] == rs[j].value;
      var head := if rs[0].Fetched? then [rs[0].value] else [];
      assert Successes(rs) == head + Successes(rs[1..]);
      assert Successes(rs)[|head| + i] == rs[j].value;
    }
  }

  /** The remote answers `getEvents` collects, one per provider with a token. */
  function RemoteAnswers(withTokens: seq<Fetched<ProviderWithToken>>, originType: OriginType,
                         remoteEvents: (EventProvider, Token, OriginType) -> Fetched<SignedModel>): seq<Fetched<SignedModel>>
  {
    FetchRemoteEvents(Successes(withTokens), originType, remoteEvents)
  }

  /** Each remote answer came from some provider with a token. */
  lemma RemoteAnswerFromLookup(withTokens: seq<Fetched<ProviderWithToken>>, originType: OriginType,
                               remoteEvents: (EventProvider, Token, OriginType) -> Fetched<SignedModel>, i: int)
    requires 0 <= i < |RemoteAnswers(withTokens, originType, remoteEvents)|
    ensures exists j :: 0 <= j < |withTokens| && withTokens[j].Fetched?
                  && RemoteAnswer(withTokens[j].value, originType, remoteEvents) == RemoteAnswers(withTokens, originType, remoteEvents)[i]
  {
    var ok := Successes(withTokens);
    SuccessComesFrom(withTokens, i);
    var j :| 0 <= j < |withTokens| && withTokens[j] == Fetched(ok[i]);
    assert RemoteAnswer(withTokens[j].value, originType, remoteEvents) == RemoteAnswers(withTokens, originType, remoteEvents)[i];
  }

  /** Each provider with a token has its remote answer collected. */
  lemma LookupHasRemoteAnswer(withTokens: seq<Fetched<ProviderWithToken>>, originType: OriginType,
                              remoteEvents: (EventProvider, Token, OriginType) -> Fetched<SignedModel>, j: int)
    requires 0 <= j < |withTokens| && withTokens[j].Fetched?
    ensures exists i :: 0 <= i < |RemoteAnswers(withTokens, originType, remoteEvents)|
                  && RemoteAnswers(withTokens, originType, remoteEvents)[i] == RemoteAnswer(withTokens[j].value, originType, remoteEvents)
  {
    var ok := Successes(withTokens);
    SuccessGoesTo(withTokens, j);
    var i :| 0 <= i < |ok| && ok[i] == withTokens[j].value;
    assert RemoteAnswers(withTokens, originType, remoteEvents)[i] == RemoteAnswer(withTokens[j].value, originType, remoteEvents);
  }

  /** Some collected remote answer satisfies `q` iff some provider with a
      token has an answer satisfying `q`. */
  lemma RemoteResultsByLookup(withTokens: seq<Fetched<ProviderWithToken>>, originType: OriginType,
                              remoteEvents: (EventProvider, Token, OriginType) -> Fetched<SignedModel>,
                              q: Fetched<SignedModel> -> bool)
    ensures (exists i :: 0 <= i < |RemoteAnswers(withTokens, originType, remoteEvents)| && q(RemoteAnswers(withTokens, originType, remoteEvents)[i]))
      <==> (exists j :: AnsweredAt(withTokens, originType, remoteEvents, q, j))
  {
    var remote := RemoteAnswers(withTokens, originType, remoteEvents);
    if exists i :: 0 <= i < |remote| && q(remote[i]) {
      var i :| 0 <= i < |remote| && q(remote[i]);
      RemoteAnswerFromLookup(withTokens, originType, remoteEvents, i);
      var j :| 0 <= j < |withTokens| && withTokens[j].Fetched? && RemoteAnswer(withTokens[j].value, originType, remoteEvents) == remote[i];
      assert AnsweredAt(withTokens, originType, remoteEvents, q, j);
    }
    if exists j :: AnsweredAt(withTokens, originType, remoteEvents, q, j) {
      var j :| AnsweredAt(withTokens, originType, remoteEvents, q, j);
      LookupHasRemoteAnswer(withTokens, originType, remoteEvents, j);
      var i :| 0 <= i < |remote| && remote[i] == RemoteAnswer(withTokens[j].value, originType, remoteEvents);
      assert q(remote[i]);
    }
  }

  /** A model with events is among the returned models iff some remote
      answer is one. */
  lemma ModelsWithEvents(remote: seq<Fetched<SignedModel>>)
    ensures AnyHasEvents(Successes(remote)) <==> exists i :: 0 <= i < |remote| && FetchedWithEvents(remote[i])
  {
    var models := Successes(remote);
    if AnyHasEvents(models) {
      var i :| 0 <= i < |models| && ModelHasEvents(models[i]);
      SuccessComesFrom(remote, i);
      var j :| 0 <= j < |remote| && remote[j] == Fetched(models[i]);
      assert FetchedWithEvents(remote[j]);
    }
    if exists j :: 0 <= j < |remote| && FetchedWithEvents(remote[j]) {
      var j :| 0 <= j < |remote| && FetchedWithEvents(remote[j]);
      SuccessGoesTo(remote, j);
      var i :| 0 <= i < |models| && models[i] == remote[j].value;
      assert ModelHasEvents(models[i]);
    }
  }

  /** Remote-filter facts in terms of the lookup results. */
  lemma RemoteFilters(withTokens: seq<Fetched<ProviderWithToken>>, originType: OriginType,
                      remoteEvents: (EventProvider, Token, OriginType) -> Fetched<SignedModel>)
    ensures |Successes(RemoteAnswers(withTokens, originType, remoteEvents))| > 0
      <==> exists j :: AnsweredAt(withTokens, originType, remoteEvents, IsFetched, j)
    ensures |Failures(RemoteAnswers(withTokens, originType, remoteEvents))| > 0
      <==> exists j :: AnsweredAt(withTokens, originType, remoteEvents, IsFailed, j)
    ensures AnyHasEvents(Successes(RemoteAnswers(withTokens, originType, remoteEvents)))
      <==> exists j :: AnsweredAt(withTokens, originType, remoteEvents, FetchedWithEvents, j)
  {
    var remote := RemoteAnswers(withTokens, originType, remoteEvents);
    SuccessesNonEmpty(remote);
    FailuresNonEmpty(remote);
    RemoteResultsByLookup(withTokens, originType, remoteEvents, IsFetched);
    RemoteResultsByLookup(withTokens, originType, remoteEvents, IsFailed);
    RemoteResultsByLookup(withTokens, originType, remoteEvents, FetchedWithEvents);
    ModelsWithEvents(remote);
    assert forall i :: 0 <= i < |remote| ==> (IsFetched(remote[i]) <==> remote[i].Fetched?) && (IsFailed(remote[i]) <==> remote[i].FetchFailed?);
  }

  /** Some result was lost on the way: a lookup error or a failed remote
      request. */
  ghost predicate MissingEvents(withTokens: seq<Fetched<ProviderWithToken>>, originType: OriginType,
                                remoteEvents: (EventProvider, Token, OriginType) -> Fetched<SignedModel>)
  {
    SomeFailed(withTokens) || exists j :: AnsweredAt(withTokens, originType, remoteEvents, IsFailed, j)
  }

  /** `Success` iff some provider's remote request returned a model with a
      non-empty event list; it then carries every returned model, in
      request order. */
  lemma AggregateSuccessCase(withTokens: seq<Fetched<ProviderWithToken>>, originType: OriginType,
                             remoteEvents: (EventProvider, Token, OriginType) -> Fetched<SignedModel>)
    ensures var r := Aggregate(withTokens, originType, remoteEvents);
      && (r.Success? <==> exists j :: AnsweredAt(withTokens, originType, remoteEvents, FetchedWithEvents, j))
      && (r.Success? ==> r.signedModels == Successes(FetchRemoteEvents(Successes(withTokens), originType, remoteEvents)))
  {
    RemoteFilters(withTokens, originType, remoteEvents);
    SuccessesNonEmpty(withTokens);
    if exists j :: AnsweredAt(withTokens, originType, remoteEvents, FetchedWithEvents, j) {
      var j :| AnsweredAt(withTokens, originType, remoteEvents, FetchedWithEvents, j);
      assert AnsweredAt(withTokens, originType, remoteEvents, IsFetched, j);
      assert withTokens[j].Fetched?;
    }
  }

  /** `HasNoEvents` iff no provider answered at all, or some remote request
      succeeded and no returned model has events. */
  lemma AggregateHasNoEventsCase(withTokens: seq<Fetched<ProviderWithToken>>, originType: OriginType,
                                 remoteEvents: (EventProvider, Token, OriginType) -> Fetched<SignedModel>)
    ensures Aggregate(withTokens, originType, remoteEvents).HasNoEvents? <==>
      || |withTokens| == 0
      || ((exists j :: AnsweredAt(withTokens, originType, remoteEvents, IsFetched, j))
          && !exists j :: AnsweredAt(withTokens, originType, remoteEvents, FetchedWithEvents, j))
  {
    RemoteFilters(withTokens, originType, remoteEvents);
    SuccessesNonEmpty(withTokens);
    FailuresNonEmpty(withTokens);
    FiltersPartition(withTokens);
    if exists j :: AnsweredAt(withTokens, originType, remoteEvents, IsFetched, j) {
      var j :| AnsweredAt(withTokens, originType, remoteEvents, IsFetched, j);
      assert withTokens[j].Fetched?;
    }
  }

  /** An `Error` is never empty: it carries the lookup's errors when no
      provider has a token, otherwise the errors of the remote requests,
      all of which failed. */
  lemma AggregateErrorCase(withTokens: seq<Fetched<ProviderWithToken>>, originType: OriginType,
                           remoteEvents: (EventProvider, Token, OriginType) -> Fetched<SignedModel>)
    requires Aggregate(withTokens, originType, remoteEvents).Error?
    ensures |Aggregate(withTokens, originType, remoteEvents).errorResults| > 0
    ensures |Successes(withTokens)| == 0 ==> Aggregate(withTokens, originType, remoteEvents).errorResults == Failures(withTokens)
    ensures |Successes(withTokens)| > 0 ==>
      && Aggregate(withTokens, originType, remoteEvents).errorResults == Failures(RemoteAnswers(withTokens, originType, remoteEvents))
      && |Aggregate(withTokens, originType, remoteEvents).errorResults| == |Successes(withTokens)|
  {
    if |Successes(withTokens)| > 0 {
      FiltersPartition(RemoteAnswers(withTokens, originType, remoteEvents));
    }
  }

  /** `missingEvents` is set iff a lookup or a remote request failed. */
  lemma AggregateMissingEvents(withTokens: seq<Fetched<ProviderWithToken>>, originType: OriginType,
                               remoteEvents: (EventProvider, Token, OriginType) -> Fetched<SignedModel>)
    requires Aggregate(withTokens, originType, remoteEvents).Success? || Aggregate(withTokens, originType, remoteEvents).HasNoEvents?
    ensures Aggregate(withTokens, originType, remoteEvents).missingEvents <==> MissingEvents(withTokens, originType, remoteEvents)
  {
    RemoteFilters(withTokens, originType, remoteEvents);
    SuccessesNonEmpty(withTokens);
    FailuresNonEmpty(withTokens);
    FiltersPartition(withTokens);
    if exists j :: AnsweredAt(withTokens, originType, remoteEvents, IsFailed, j) {
      var j :| AnsweredAt(withTokens, originType, remoteEvents, IsFailed, j);
      assert withTokens[j].Fetched?;
    }
  }
}
