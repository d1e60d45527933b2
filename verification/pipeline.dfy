/** The orchestrator: one run of the acquisition pipeline, from a fresh device identity to the
    two final codes, each stage starting only once the previous one has succeeded. */
module Pipeline {
  import opened Errors
  import opened Api
  import opened RetryPolicy
  import opened Identity
  import opened Extraction
  import opened Activation

  /** Everything a run depends on that the core does not compute itself. */
  datatype Environment = Environment(
    uuid: string,                               // the random version-4 UUID drawn for this run
    md5: string -> string,                      // the foreign digest
    captcha: Result<string>,                    // the challenge resolver's token, or its failure
    server: Server                              // the remote API's answers, attempt by attempt
  )

  /** A finished run: the retried remote calls in the order they were made, and the outcome. */
  datatype Run = Run(calls: seq<Call>, result: Result<GeneratedCodes>)

  function DeviceId(env: Environment): string {
    ToUpperCase(env.uuid)
  }

  function DeviceHeaders(env: Environment): Headers {
    CreateDeviceHeaders(DeviceId(env))
  }

  /** The signed body, once the challenge token is known. */
  function Body(env: Environment): ApiData
    requires env.captcha.Ok?
  {
    ApiData(DeviceId(env), GenerateHash(env.md5, DeviceId(env)), env.captcha.value)
  }

  /** The retried initialize call of a run: the headers alone are sent, at least once and at most
      `MAX_RETRIES` times, and what comes back is the server's last answer, never a 500 or 503,
      or the max-retries error. */
  function InitializeStage(headers: Headers, server: Server): (run: RetryRun<Response>)
    ensures 1 <= run.calls <= MAX_RETRIES
    ensures !IsTransient(run.result)
    ensures run.result == Err(MaxRetriesReached) || run.result == server(0, InitializeRequest(headers), run.calls - 1)
  {
    var request := InitializeRequest(headers);
    RetryResultOrigin(Send(server, 0, request), MAX_RETRIES);
    Retry(Send(server, 0, request), MAX_RETRIES)
  }

  /** The retried fetch of the operations of a run: the body and headers are sent, at least once
      and at most `MAX_RETRIES` times, and what comes back is the server's last answer, never a
      500 or 503, or the max-retries error. */
  function FetchStage(data: ApiData, headers: Headers, server: Server): (run: RetryRun<Response>)
    ensures 1 <= run.calls <= MAX_RETRIES
    ensures !IsTransient(run.result)
    ensures run.result == Err(MaxRetriesReached) || run.result == server(0, FetchOperationsRequest(data, headers), run.calls - 1)
  {
    var request := FetchOperationsRequest(data, headers);
    RetryResultOrigin(Send(server, 0, request), MAX_RETRIES);
    Retry(Send(server, 0, request), MAX_RETRIES)
  }

  function InitializeRun(env: Environment): RetryRun<Response> {
    InitializeStage(DeviceHeaders(env), env.server)
  }

  function FetchRun(env: Environment): RetryRun<Response>
    requires env.captcha.Ok?
  {
    FetchStage(Body(env), DeviceHeaders(env), env.server)
  }

  /** The run as a composition of its stages: the challenge, then the remote stages. */
  function RunPipeline(env: Environment, choice: Choice): (run: Run)
    ensures |run.calls| <= 4
    ensures |run.calls| == 0 <==> env.captcha.Err?
    ensures run.result.Ok? ==> |run.calls| == 4
  {
    match env.captcha
    case Err(e) => Run([], Err(e))
    case Ok(_) => RemoteStages(DeviceHeaders(env), Body(env), env.server, choice)
  }

  /** Initialize, fetch, extract and activate, with the headers and body of the run. */
  function RemoteStages(headers: Headers, data: ApiData, server: Server, choice: Choice): (run: Run)
    ensures 1 <= |run.calls| <= 4
    ensures run.calls[0].request == InitializeRequest(headers)
    ensures |run.calls| > 1 ==> run.calls[1].request == FetchOperationsRequest(data, headers)
    ensures run.result.Ok? ==> |run.calls| == 4
  {
    var initialize := InitializeRequest(headers);
    var initRun := InitializeStage(headers, server);
    var afterInit := [Call(initialize, initRun.calls, initRun.delays)];
    if initRun.result.Err? then Run(afterInit, Err(initRun.result.error))
    else
      var fetch := FetchOperationsRequest(data, headers);
      var fetchRun := FetchStage(data, headers, server);
      var afterFetch := afterInit + [Call(fetch, fetchRun.calls, fetchRun.delays)];
      if fetchRun.result.Err? then Run(afterFetch, Err(fetchRun.result.error))
      else
        match RestaurantCodes(fetchRun.result.value.operations)
        case Err(e) => Run(afterFetch, Err(e))
        case Ok(codes) =>
          var activation := ActivateBurgerCodes(codes, [choice, choice], data, headers, server);
          Run(afterFetch + activation.calls, activation.result)
  }

  /** The pipeline as the program runs it: identity, signature and headers, challenge token,
      then initialize, fetch, extract and activate, any failure ending the run as it is. */
  method GenerateCodes(env: Environment, firstChoice: Choice) returns (r: Result<GeneratedCodes>, calls: seq<Call>)
    ensures Run(calls, r) == RunPipeline(env, firstChoice)
  {
    var deviceId := ToUpperCase(env.uuid);
    var headers := CreateDeviceHeaders(deviceId);
    calls := [];
    if env.captcha.Err? {
      r := Err(env.captcha.error);
      return;
    }
    var data := ApiData(deviceId, GenerateHash(env.md5, deviceId), env.captcha.value);
    assert RunPipeline(env, firstChoice) == RemoteStages(headers, data, env.server, firstChoice);

    var initialize := InitializeRequest(headers);
    var initResult, initCalls, initDelays := RetryOn503(Send(env.server, 0, initialize), MAX_RETRIES);
    calls := [Call(initialize, initCalls, initDelays)];
    if initResult.Err? {
      r := Err(initResult.error);
      return;
    }

    var fetch := FetchOperationsRequest(data, headers);
    var response, fetchCalls, fetchDelays := RetryOn503(Send(env.server, 0, fetch), MAX_RETRIES);
    calls := calls + [Call(fetch, fetchCalls, fetchDelays)];
    if response.Err? {
      r := Err(response.error);
      return;
    }

    var restaurantCodes := GetRestaurantCodes(response.value.operations);
    if restaurantCodes.Err? {
      r := Err(restaurantCodes.error);
      return;
    }

    var activation := ActivateBurgerCodes(restaurantCodes.value, [firstChoice, firstChoice], data, headers, env.server);
    calls := calls + activation.calls;
    r := activation.result;
  }

  /** The slot the `i`-th call of a run was sent in: 0 for initialize and fetch, the
      confirmation's own index for a confirmation. */
  function Slot(i: nat): nat {
    if i < 2 then 0 else i - 2
  }

  /** The stage of a request: 0 initialize, 1 fetch, 2 confirm. */
  function Stage(request: Request): nat {
    match request
    case InitializeRequest(_) => 0
    case FetchOperationsRequest(_, _) => 1
    case ConfirmChoiceRequest(_, _, _, _) => 2
  }

  /** The remote stages run strictly in order: initialize, then fetch, then at most two
      confirmations, each stage starting only once the previous one succeeded. */
  lemma RemoteStagesInOrder(headers: Headers, data: ApiData, server: Server, choice: Choice)
    ensures var run := RemoteStages(headers, data, server, choice);
            && 1 <= |run.calls| <= 4
            && (forall i :: 0 <= i < |run.calls| ==> Stage(run.calls[i].request) == if i < 2 then i else 2)
            && (|run.calls| > 1 ==> InitializeStage(headers, server).result.Ok?)
            && (|run.calls| > 2 ==> FetchStage(data, headers, server).result.Ok?)
  {
    var run := RemoteStages(headers, data, server, choice);
    var fetch := FetchStage(data, headers, server);
    if InitializeStage(headers, server).result.Ok? && fetch.result.Ok? {
      var codes := RestaurantCodes(fetch.result.value.operations);
      if codes.Ok? {
        var a := ActivateBurgerCodes(codes.value, [choice, choice], data, headers, server);
        assert run.calls[2..] == a.calls;
      }
    }
  }

  /** How the calls of the remote stages are laid out: initialize, then fetch once initialize
      succeeded, then the confirmations once extraction succeeded. */
  lemma RemoteStagesShape(headers: Headers, data: ApiData, server: Server, choice: Choice)
    ensures var run := RemoteStages(headers, data, server, choice);
            var init := InitializeStage(headers, server);
            var fetch := FetchStage(data, headers, server);
            && run.calls[0] == Call(InitializeRequest(headers), init.calls, init.delays)
            && (|run.calls| > 1 ==> init.result.Ok? && run.calls[1] == Call(FetchOperationsRequest(data, headers), fetch.calls, fetch.delays))
            && (|run.calls| > 2 ==>
                  && init.result.Ok? && fetch.result.Ok? && RestaurantCodes(fetch.result.value.operations).Ok?
                  && run.calls[2..] == ActivateBurgerCodes(RestaurantCodes(fetch.result.value.operations).value,
                                                          [choice, choice], data, headers, server).calls)
  {
    var run := RemoteStages(headers, data, server, choice);
    var fetch := FetchStage(data, headers, server);
    if InitializeStage(headers, server).result.Ok? && fetch.result.Ok? {
      var codes := RestaurantCodes(fetch.result.value.operations);
      if codes.Ok? {
        var a := ActivateBurgerCodes(codes.value, [choice, choice], data, headers, server);
        assert run.calls[2..] == a.calls;
      }
    }
  }

  /** Every remote call of a run is recorded with the attempts and delays its retry policy made. */
  lemma RemoteStagesRecordRetries(headers: Headers, data: ApiData, server: Server, choice: Choice)
    ensures var run := RemoteStages(headers, data, server, choice);
            forall i :: 0 <= i < |run.calls| ==>
              && run.calls[i].attempts == Retry(Send(server, Slot(i), run.calls[i].request), MAX_RETRIES).calls
              && run.calls[i].delays == Retry(Send(server, Slot(i), run.calls[i].request), MAX_RETRIES).delays
  {
    var run := RemoteStages(headers, data, server, choice);
    RemoteStagesShape(headers, data, server, choice);
    forall i | 0 <= i < |run.calls|
      ensures && run.calls[i].attempts == Retry(Send(server, Slot(i), run.calls[i].request), MAX_RETRIES).calls
              && run.calls[i].delays == Retry(Send(server, Slot(i), run.calls[i].request), MAX_RETRIES).delays
    {
      if i >= 2 {
        var fetch := FetchStage(data, headers, server);
        var a := ActivateBurgerCodes(RestaurantCodes(fetch.result.value.operations).value, [choice, choice], data, headers, server);
        assert run.calls[i] == a.calls[i - 2];
      }
    }
  }

  /** Every remote call of a run carries the run's headers, and every call after initialize the run's body. */
  lemma RemoteStagesCarry(headers: Headers, data: ApiData, server: Server, choice: Choice)
    ensures var run := RemoteStages(headers, data, server, choice);
            forall i :: 0 <= i < |run.calls| ==>
              run.calls[i].request.headers == headers &&
              (!run.calls[i].request.InitializeRequest? ==> run.calls[i].request.data == data)
  {
    var run := RemoteStages(headers, data, server, choice);
    var fetch := FetchStage(data, headers, server);
    if InitializeStage(headers, server).result.Ok? && fetch.result.Ok? {
      var codes := RestaurantCodes(fetch.result.value.operations);
      if codes.Ok? {
        var a := ActivateBurgerCodes(codes.value, [choice, choice], data, headers, server);
        assert run.calls[2..] == a.calls;
      }
    }
  }

  /** The stages run strictly in order: initialize, then fetch, then at most two confirmations;
      nothing remote happens before the challenge is resolved, and each stage starts only once
      the previous one succeeded. */
  lemma PipelineStagesInOrder(env: Environment, choice: Choice)
    ensures var run := RunPipeline(env, choice);
            && |run.calls| <= 4
            && (forall i :: 0 <= i < |run.calls| ==> Stage(run.calls[i].request) == if i < 2 then i else 2)
            && (|run.calls| > 0 <==> env.captcha.Ok?)
            && (|run.calls| > 1 ==> InitializeRun(env).result.Ok?)
            && (|run.calls| > 2 ==> FetchRun(env).result.Ok?)
            && (forall i :: 0 <= i < |run.calls| ==>
                  && run.calls[i].attempts == Retry(Send(env.server, Slot(i), run.calls[i].request), MAX_RETRIES).calls
                  && run.calls[i].delays == Retry(Send(env.server, Slot(i), run.calls[i].request), MAX_RETRIES).delays)
  {
    if env.captcha.Ok? {
      RemoteStagesInOrder(DeviceHeaders(env), Body(env), env.server, choice);
      RemoteStagesRecordRetries(DeviceHeaders(env), Body(env), env.server, choice);
    }
  }

  /** Every request carries this run's headers (the fixed set plus the upper-cased device id), and
      every request body carries the device id, its keyed hash with the secret, and the challenge token. */
  lemma PipelineSignsEveryRequest(env: Environment, choice: Choice)
    ensures var run := RunPipeline(env, choice);
            forall i :: 0 <= i < |run.calls| ==>
              && run.calls[i].request.headers == CreateDeviceHeaders(ToUpperCase(env.uuid))
              && (!run.calls[i].request.InitializeRequest? ==>
                    run.calls[i].request.data ==
                      ApiData(ToUpperCase(env.uuid), env.md5(ToUpperCase(env.uuid) + PEPPER), env.captcha.value))
  {
    if env.captcha.Ok? {
      RemoteStagesCarry(DeviceHeaders(env), Body(env), env.server, choice);
    }
  }

  /** A successful run of the remote stages made exactly four calls, confirmed the first two
      extracted codes against the promotion of the one chosen variant, and returns both codes
      tagged with its letter. */
  lemma RemoteStagesSuccess(headers: Headers, data: ApiData, server: Server, choice: Choice)
    requires RemoteStages(headers, data, server, choice).result.Ok?
    ensures var run := RemoteStages(headers, data, server, choice);
            && InitializeStage(headers, server).result.Ok? && FetchStage(data, headers, server).result.Ok?
            && var all := MatchingCodes(FetchStage(data, headers, server).result.value.operations);
            && |all| >= 2
            && |run.calls| == 4
            && run.calls[2].request == ConfirmChoiceRequest(all[0], PromotionId(choice), data, headers)
            && run.calls[3].request == ConfirmChoiceRequest(all[1], PromotionId(choice), data, headers)
            && Confirmed(Outcome(server, 0, run.calls[2])) && Confirmed(Outcome(server, 1, run.calls[3]))
            && run.result.value == GeneratedCodes(Synthesize(choice, all[0]), Synthesize(choice, all[1]))
  {
    var codes := RestaurantCodes(FetchStage(data, headers, server).result.value.operations);
    var a := ActivateBurgerCodes(codes.value, [choice, choice], data, headers, server);
    ActivationAllOrNothing(codes.value, [choice, choice], data, headers, server);
    assert RemoteStages(headers, data, server, choice).calls[2..] == a.calls;
  }

  /** A successful run made exactly four calls, confirmed the first two extracted codes, both
      against the promotion of the one chosen variant, and returns both codes tagged with its letter. */
  lemma PipelineSuccess(env: Environment, choice: Choice)
    requires RunPipeline(env, choice).result.Ok?
    ensures var run := RunPipeline(env, choice);
            && env.captcha.Ok? && InitializeRun(env).result.Ok? && FetchRun(env).result.Ok?
            && var all := MatchingCodes(FetchRun(env).result.value.operations);
            && |all| >= 2
            && |run.calls| == 4
            && run.calls[2].request == ConfirmChoiceRequest(all[0], PromotionId(choice), Body(env), DeviceHeaders(env))
            && run.calls[3].request == ConfirmChoiceRequest(all[1], PromotionId(choice), Body(env), DeviceHeaders(env))
            && Confirmed(Outcome(env.server, 0, run.calls[2])) && Confirmed(Outcome(env.server, 1, run.calls[3]))
            && run.result.value == GeneratedCodes(Synthesize(choice, all[0]), Synthesize(choice, all[1]))
  {
    RemoteStagesSuccess(DeviceHeaders(env), Body(env), env.server, choice);
  }

  /** A failed challenge ends the run before any remote call, with the resolver's own error. */
  lemma PipelineChallengeFailure(env: Environment, choice: Choice)
    requires env.captcha.Err?
    ensures RunPipeline(env, choice) == Run([], Err(env.captcha.error))
  {
  }

  /** A stage that fails ends the run with that stage's error, unchanged, and nothing after it runs. */
  lemma PipelineHaltsOnFirstError(env: Environment, choice: Choice)
    ensures var run := RunPipeline(env, choice);
            && (|run.calls| == 1 ==> run.result == Err(InitializeRun(env).result.error))
            && (|run.calls| == 2 ==>
                  run.result == if FetchRun(env).result.Err? then Err(FetchRun(env).result.error) else Err(OfferNotAvailable))
  {
    PipelineStagesInOrder(env, choice);
  }

  /** A run that reached the confirmations reports the activation's outcome unchanged, whether
      codes or an error. */
  lemma PipelineReportsActivation(env: Environment, choice: Choice)
    requires env.captcha.Ok? && InitializeRun(env).result.Ok? && FetchRun(env).result.Ok?
    requires RestaurantCodes(FetchRun(env).result.value.operations).Ok?
    ensures var codes := RestaurantCodes(FetchRun(env).result.value.operations).value;
            var a := ActivateBurgerCodes(codes, [choice, choice], Body(env), DeviceHeaders(env), env.server);
            RunPipeline(env, choice) == Run([Call(InitializeRequest(DeviceHeaders(env)), InitializeRun(env).calls, InitializeRun(env).delays),
                                             Call(FetchOperationsRequest(Body(env), DeviceHeaders(env)), FetchRun(env).calls, FetchRun(env).delays)]
                                            + a.calls, a.result)
  {
  }

  /** The collaborators raise only HTTP errors or errors of their own. */
  ghost predicate ForeignErrorsOnly(env: Environment) {
    && (env.captcha.Err? ==> IsForeign(env.captcha.error))
    && (forall slot, request, k :: env.server(slot, request, k).Err? ==> IsForeign(env.server(slot, request, k).error))
  }

  /** The offer-unavailable error is reported exactly when initialize and fetch succeeded and no
      fetched operation of the target promotion has a coupon, so callers can single it out. */
  lemma PipelineOfferNotAvailable(env: Environment, choice: Choice)
    requires ForeignErrorsOnly(env)
    ensures RunPipeline(env, choice).result == Err(OfferNotAvailable) <==>
              && env.captcha.Ok? && InitializeRun(env).result.Ok? && FetchRun(env).result.Ok?
              && MatchingCodes(FetchRun(env).result.value.operations) == []
  {
    if env.captcha.Ok? {
      RetryResultOrigin(Send(env.server, 0, InitializeRequest(DeviceHeaders(env))), MAX_RETRIES);
      if InitializeRun(env).result.Ok? {
        var fetch := FetchRun(env);
        RetryResultOrigin(Send(env.server, 0, FetchOperationsRequest(Body(env), DeviceHeaders(env))), MAX_RETRIES);
        if fetch.result.Ok? {
          var codes := RestaurantCodes(fetch.result.value.operations);
          if codes.Ok? {
            ActivationErrors(codes.value, [choice, choice], Body(env), DeviceHeaders(env), env.server);
          }
        }
      }
    }
  }

  /** With a single matching coupon code the run still issues one confirmation for it, then fails:
      no codes are ever produced from one code. */
  lemma PipelineSingleCodeFails(env: Environment, choice: Choice)
    requires env.captcha.Ok? && InitializeRun(env).result.Ok? && FetchRun(env).result.Ok?
    requires |MatchingCodes(FetchRun(env).result.value.operations)| == 1
    ensures var run := RunPipeline(env, choice);
            && |run.calls| == 3
            && run.calls[2].request == ConfirmChoiceRequest(MatchingCodes(FetchRun(env).result.value.operations)[0],
                                                            PromotionId(choice), Body(env), DeviceHeaders(env))
            && run.result.Err?
  {
    var codes := RestaurantCodes(FetchRun(env).result.value.operations);
    var a := ActivateBurgerCodes(codes.value, [choice, choice], Body(env), DeviceHeaders(env), env.server);
    ActivationAllOrNothing(codes.value, [choice, choice], Body(env), DeviceHeaders(env), env.server);
    assert RunPipeline(env, choice).calls[2..] == a.calls;
  }

  /** The server of the end-to-end example: the target operation offers the coupons "R001abc" and
      "R002def", and every call succeeds at its first attempt. */
  function ExampleServer(slot: nat, request: Request, k: nat): Result<Response> {
    if request.FetchOperationsRequest?
    then Ok(Response(200, [Operation(TARGET_NAME, "", Some([Coupon("R001abc"), Coupon("R002def")]))]))
    else Ok(Response(200, []))
  }

  /** The confirmations of the example: both coupons are confirmed at their first attempt. */
  lemma ExampleActivation(data: ApiData, headers: Headers)
    ensures var a := ActivateBurgerCodes(["R001abc", "R002def"], [B, B], data, headers, ExampleServer);
            && a.result == Ok(GeneratedCodes("B001abc", "B002def"))
            && |a.calls| == 2
            && a.calls[0].request.couponCode == "R001abc" && a.calls[0].attempts == 1
            && a.calls[1].request.couponCode == "R002def" && a.calls[1].attempts == 1
  {
    var codes := ["R001abc", "R002def"];
    var calls := ConfirmationCalls(codes, [B, B], data, headers, ExampleServer);
    assert Send(ExampleServer, 0, calls[0].request)(0) == ExampleServer(0, calls[0].request, 0);
    RetrySettlesAt(Send(ExampleServer, 0, calls[0].request), MAX_RETRIES, 0);
    assert Send(ExampleServer, 1, calls[1].request)(0) == ExampleServer(1, calls[1].request, 0);
    RetrySettlesAt(Send(ExampleServer, 1, calls[1].request), MAX_RETRIES, 0);
    assert Confirmed(Outcome(ExampleServer, 0, calls[0])) && Confirmed(Outcome(ExampleServer, 1, calls[1]));
    assert forall i :: 0 <= i < |calls| ==> Confirmed(Outcome(ExampleServer, i, calls[i]));
    ActivationOutcome(codes, [B, B], data, headers, ExampleServer);
    assert Synthesize(B, "R001abc") == "B001abc";
    assert Synthesize(B, "R002def") == "B002def";
  }

  /** The remote stages of the example: initialize and fetch succeed at once, the two coupons
      are extracted and confirmed, and the beef codes come back. */
  lemma ExampleRemoteStages(headers: Headers, data: ApiData)
    ensures var run := RemoteStages(headers, data, ExampleServer, B);
            && run.result == Ok(GeneratedCodes("B001abc", "B002def"))
            && |run.calls| == 4
            && run.calls[2].request.couponCode == "R001abc" && run.calls[2].attempts == 1
            && run.calls[3].request.couponCode == "R002def" && run.calls[3].attempts == 1
  {
    var ops := [Operation(TARGET_NAME, "", Some([Coupon("R001abc"), Coupon("R002def")]))];
    assert Send(ExampleServer, 0, InitializeRequest(headers))(0) == ExampleServer(0, InitializeRequest(headers), 0);
    RetrySettlesAt(Send(ExampleServer, 0, InitializeRequest(headers)), MAX_RETRIES, 0);
    assert Send(ExampleServer, 0, FetchOperationsRequest(data, headers))(0) == ExampleServer(0, FetchOperationsRequest(data, headers), 0);
    RetrySettlesAt(Send(ExampleServer, 0, FetchOperationsRequest(data, headers)), MAX_RETRIES, 0);
    assert MatchingCodes(ops) == ["R001abc", "R002def"] by {
      assert ops[1..] == [];
    }
    ExampleActivation(data, headers);
    var a := ActivateBurgerCodes(["R001abc", "R002def"], [B, B], data, headers, ExampleServer);
    assert RemoteStages(headers, data, ExampleServer, B).calls[2..] == a.calls;
  }

  /** The end-to-end example: with the beef variant chosen, the run confirms both coupons once each
      and returns "B001abc" and "B002def". */
  lemma PipelineExample(md5: string -> string)
    ensures var run := RunPipeline(Environment("ABCD-1234", md5, Ok("tok"), ExampleServer), B);
            && run.result == Ok(GeneratedCodes("B001abc", "B002def"))
            && |run.calls| == 4
            && run.calls[2].request.couponCode == "R001abc" && run.calls[2].attempts == 1
            && run.calls[3].request.couponCode == "R002def" && run.calls[3].attempts == 1
  {
    var env := Environment("ABCD-1234", md5, Ok("tok"), ExampleServer);
    ExampleRemoteStages(DeviceHeaders(env), Body(env));
  }
}
