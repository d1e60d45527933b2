/** Confirmation and code synthesis: each extracted code is confirmed against the promotion of
    its choice, all confirmations concurrently, and the final codes exist only when every
    confirmation answered 200. */
module Activation {
  import opened Errors
  import opened Api
  import opened RetryPolicy

  /** A final code: the choice letter followed by the raw code from its second character on
      (an empty raw code leaves the letter alone). */
  function Synthesize(choice: Choice, code: string): (out: string)
    ensures |out| == if code == [] then 1 else |code|
    ensures out[0] == Letter(choice)
    ensures forall j :: 1 <= j < |code| ==> out[j] == code[j]
  {
    [Letter(choice)] + (if code == [] then [] else code[1..])
  }

  /** A confirmation succeeded when a response arrived with status exactly 200. */
  predicate Confirmed(outcome: Result<Response>) {
    outcome.Ok? && outcome.value.status == 200
  }

  /** The retried confirmation of one request, sent in `slot`, as the retry policy runs it. */
  function Confirmation(server: Server, slot: nat, request: Request): RetryRun<Response> {
    Retry(Send(server, slot, request), MAX_RETRIES)
  }

  /** What the retried call `call`, sent in `slot`, finally delivered. */
  function Outcome(server: Server, slot: nat, call: Call): Result<Response> {
    Confirmation(server, slot, call.request).result
  }

  /** The first call, from `from` on, whose retried confirmation was rejected, or `|calls|`. */
  function FirstRejected(server: Server, calls: seq<Call>, from: nat): (k: nat)
    requires from <= |calls|
    ensures from <= k <= |calls|
    ensures forall j :: from <= j < k ==> Outcome(server, j, calls[j]).Ok?
    ensures k < |calls| ==> Outcome(server, k, calls[k]).Err?
    decreases |calls| - from
  {
    if from == |calls| then from
    else if Outcome(server, from, calls[from]).Err? then from
    else FirstRejected(server, calls, from + 1)
  }

  /** The confirmations issued for the codes, one per code, all of them run to completion. */
  function ConfirmationCalls(codes: seq<string>, choices: seq<Choice>, data: ApiData, headers: Headers,
                             server: Server): (calls: seq<Call>)
    requires |codes| <= |choices|
    ensures |calls| == |codes|
    ensures forall i :: 0 <= i < |codes| ==>
              calls[i].request == ConfirmChoiceRequest(codes[i], PromotionId(choices[i]), data, headers)
    ensures forall i :: 0 <= i < |codes| ==>
              calls[i].attempts == Confirmation(server, i, calls[i].request).calls &&
              calls[i].delays == Confirmation(server, i, calls[i].request).delays
  {
    seq(|codes|, i requires 0 <= i < |codes| =>
      var request := ConfirmChoiceRequest(codes[i], PromotionId(choices[i]), data, headers);
      var run := Confirmation(server, i, request);
      Call(request, run.calls, run.delays))
  }

  datatype Activation = Activation(calls: seq<Call>, result: Result<GeneratedCodes>)

  /** Fan-out of the confirmations, fan-in of their outcomes, the all-or-nothing status check,
      then the synthesis of the two final codes. */
  function ActivateBurgerCodes(codes: seq<string>, choices: seq<Choice>, data: ApiData, headers: Headers,
                               server: Server): (a: Activation)
    requires |choices| == 2 && |codes| <= 2
    ensures a.calls == ConfirmationCalls(codes, choices, data, headers, server)
  {
    var calls := ConfirmationCalls(codes, choices, data, headers, server);
    var k := FirstRejected(server, calls, 0);
    if k < |calls| then
      Activation(calls, Err(Outcome(server, k, calls[k]).error))
    else if exists i :: 0 <= i < |calls| && Outcome(server, i, calls[i]).value.status != 200 then
      Activation(calls, Err(ActivationFailed))
    else if |codes| < 2 then
      Activation(calls, Err(UndefinedCode))
    else
      Activation(calls, Ok(GeneratedCodes(Synthesize(choices[0], codes[0]), Synthesize(choices[1], codes[1]))))
  }

  /** How the fan-in decides: a rejected confirmation is passed on unchanged (the first one in code
      order); otherwise a status other than 200 fails the activation; otherwise both codes are
      synthesized, or reading a missing code fails. */
  lemma ActivationOutcome(codes: seq<string>, choices: seq<Choice>, data: ApiData, headers: Headers,
                          server: Server)
    requires |choices| == 2 && |codes| <= 2
    ensures var a := ActivateBurgerCodes(codes, choices, data, headers, server);
            var k := FirstRejected(server, a.calls, 0);
            // a rejected confirmation is passed on unchanged (the first one, in code order)
            && (k < |a.calls| ==> a.result == Err(Outcome(server, k, a.calls[k]).error))
            // every confirmation answered, but one of them not with 200
            && ((forall i :: 0 <= i < |a.calls| ==> Outcome(server, i, a.calls[i]).Ok?) &&
                (exists i :: 0 <= i < |a.calls| && !Confirmed(Outcome(server, i, a.calls[i]))) ==>
                  a.result == Err(ActivationFailed))
            // every confirmation answered 200: two codes are synthesized, or reading the missing one fails
            && ((forall i :: 0 <= i < |a.calls| ==> Confirmed(Outcome(server, i, a.calls[i]))) ==>
                  a.result == if |codes| == 2
                              then Ok(GeneratedCodes(Synthesize(choices[0], codes[0]), Synthesize(choices[1], codes[1])))
                              else Err(UndefinedCode))
  {
  }

  /** All or nothing: codes are produced exactly when there are two of them and both confirmations
      answered 200; otherwise no code at all. */
  lemma ActivationAllOrNothing(codes: seq<string>, choices: seq<Choice>, data: ApiData, headers: Headers,
                               server: Server)
    requires |choices| == 2 && |codes| <= 2
    ensures var a := ActivateBurgerCodes(codes, choices, data, headers, server);
            a.result.Ok? <==> |codes| == 2 && Confirmed(Outcome(server, 0, a.calls[0])) && Confirmed(Outcome(server, 1, a.calls[1]))
  {
    var a := ActivateBurgerCodes(codes, choices, data, headers, server);
    if |codes| == 2 && Confirmed(Outcome(server, 0, a.calls[0])) && Confirmed(Outcome(server, 1, a.calls[1])) {
      assert forall i :: 0 <= i < |a.calls| ==> Confirmed(Outcome(server, i, a.calls[i]));
    }
  }

  /** The errors an activation can report: a confirmation's own error (which the retry policy
      never lets be transient), the max-retries error, or one of its own two failures. */
  lemma ActivationErrors(codes: seq<string>, choices: seq<Choice>, data: ApiData, headers: Headers,
                         server: Server)
    requires |choices| == 2 && |codes| <= 2
    ensures var a := ActivateBurgerCodes(codes, choices, data, headers, server);
            a.result.Err? ==>
              a.result.error in {MaxRetriesReached, ActivationFailed, UndefinedCode} ||
              exists i, k :: 0 <= i < |codes| && 0 <= k < MAX_RETRIES &&
                             server(i, a.calls[i].request, k) == Err(a.result.error) &&
                             !IsTransient(server(i, a.calls[i].request, k))
  {
    var a := ActivateBurgerCodes(codes, choices, data, headers, server);
    var k := FirstRejected(server, a.calls, 0);
    if k < |a.calls| {
      var run := Confirmation(server, k, a.calls[k].request);
      RetryResultOrigin(Send(server, k, a.calls[k].request), MAX_RETRIES);
      if run.result != Err(MaxRetriesReached) {
        assert server(k, a.calls[k].request, run.calls - 1) == Err(a.result.error);
      }
    }
  }

  /** A server that accepts the first confirmation and refuses the second, as one may do when
      the same coupon is confirmed twice. */
  function RefuseSecondServer(slot: nat, request: Request, k: nat): Result<Response> {
    if slot == 0 then Ok(Response(200, [])) else Ok(Response(409, []))
  }

  /** Two confirmations of the same coupon are answered independently: when the second one is
      refused, the activation fails although both requests are identical. */
  lemma DuplicateCodeConfirmedTwice(code: string, data: ApiData, headers: Headers)
    ensures var a := ActivateBurgerCodes([code, code], [B, B], data, headers, RefuseSecondServer);
            && |a.calls| == 2 && a.calls[0].request == a.calls[1].request
            && Confirmed(Outcome(RefuseSecondServer, 0, a.calls[0]))
            && a.result == Err(ActivationFailed)
  {
    var a := ActivateBurgerCodes([code, code], [B, B], data, headers, RefuseSecondServer);
    assert Send(RefuseSecondServer, 0, a.calls[0].request)(0) == RefuseSecondServer(0, a.calls[0].request, 0);
    RetrySettlesAt(Send(RefuseSecondServer, 0, a.calls[0].request), MAX_RETRIES, 0);
    assert Send(RefuseSecondServer, 1, a.calls[1].request)(0) == RefuseSecondServer(1, a.calls[1].request, 0);
    RetrySettlesAt(Send(RefuseSecondServer, 1, a.calls[1].request), MAX_RETRIES, 0);
    assert !Confirmed(Outcome(RefuseSecondServer, 1, a.calls[1]));
    ActivationOutcome([code, code], [B, B], data, headers, RefuseSecondServer);
  }

  /** The code synthesis on the documented example: raw coupon "X123456" with choice B gives "B123456". */
  lemma SynthesizeExample()
    ensures Synthesize(B, "X123456") == "B123456"
  {
  }
}
