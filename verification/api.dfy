/** The values exchanged with the remote commerce API, and its fixed tables. */
module Api {
  import opened Errors

  type Headers = map<string, string>

  /** Only `restaurantCode` of a coupon is consumed; its other fields are not modelled. */
  datatype Coupon = Coupon(restaurantCode: string)

  /** An active promotional operation; `coupons` may be absent from the payload. */
  datatype Operation = Operation(name: string, code: string, coupons: Option<seq<Coupon>>)

  /** The signed request body: device id, its keyed hash, and the challenge token. */
  datatype ApiData = ApiData(king: string, hash: string, queen: string)

  /** The consumer's variant: beef ("B") or veggie ("V"). */
  datatype Choice = B | V

  datatype GeneratedCodes = GeneratedCodes(firstCode: string, secondCode: string)

  /** The three remote calls of the pipeline, with everything they carry. */
  datatype Request =
    | InitializeRequest(headers: Headers)
    | FetchOperationsRequest(data: ApiData, headers: Headers)
    | ConfirmChoiceRequest(couponCode: string, promotionId: string, data: ApiData, headers: Headers)

  /** A received response: its status and its payload, already decoded as a list of operations. */
  datatype Response = Response(status: int, operations: seq<Operation>)

  /** One retried remote call as it happened: the request, how many times it was sent,
      and how many retry delays were waited for it. */
  datatype Call = Call(request: Request, attempts: nat, delays: nat)

  /** The letter that stands for a choice in a synthesized code. */
  function Letter(c: Choice): char {
    match c
    case B => 'B'
    case V => 'V'
  }

  /** The promotion identifier each choice is confirmed against. */
  function PromotionId(c: Choice): string {
    match c
    case B => "7129189026081447688"
    case V => "6645000801566560157"
  }

  /** The remote API as one run sees it: `server(slot, request, k)` is the answer to attempt `k`
      of `request`, sent as the `slot`-th of the requests its stage issues side by side (0 for
      initialize and fetch, `i` for the `i`-th confirmation). Identical requests sent side by side
      are thus answered independently. */
  type Server = (nat, Request, nat) -> Result<Response>

  /** The request function handed to the retry policy: attempt `k` of `request`, sent in `slot`,
      gets the server's answer to that attempt. */
  function Send(server: Server, slot: nat, request: Request): nat -> Result<Response> {
    (k: nat) => server(slot, request, k)
  }
}
