/** Coupon extraction: the restaurant codes of the target promotion among the fetched operations. */
module Extraction {
  import opened Errors
  import opened Api

  const TARGET_NAME: string := "Burger Mystère ou Veggie Mystère"
  const TARGET_CODE: string := "burger-mystere"

  /** An operation is the target when its name OR its code matches. */
  predicate IsTarget(op: Operation) {
    op.name == TARGET_NAME || op.code == TARGET_CODE
  }

  /** The restaurant codes of an operation's coupons, in order; an absent coupon list gives none. */
  function CouponCodes(op: Operation): (codes: seq<string>)
    ensures op.coupons.None? ==> codes == []
    ensures op.coupons.Some? ==> |codes| == |op.coupons.value|
    ensures op.coupons.Some? ==> forall j :: 0 <= j < |codes| ==> codes[j] == op.coupons.value[j].restaurantCode
  {
    match op.coupons
    case None => []
    case Some(coupons) => seq(|coupons|, j requires 0 <= j < |coupons| => coupons[j].restaurantCode)
  }

  /** What one operation adds to the collected codes: all of its codes if it is the target, else none. */
  function Contribution(op: Operation): seq<string> {
    if IsTarget(op) then CouponCodes(op) else []
  }

  /** The concatenation, in input order, of the coupon codes of every target operation. */
  function MatchingCodes(ops: seq<Operation>): seq<string> {
    if ops == [] then [] else Contribution(ops[0]) + MatchingCodes(ops[1..])
  }

  /** Matching distributes over concatenation of operation lists. */
  lemma {:induction false} MatchingCodesAppend(a: seq<Operation>, b: seq<Operation>)
    ensures MatchingCodes(a + b) == MatchingCodes(a) + MatchingCodes(b)
  {
    if a == [] {
      assert a + b == b;
    } else {
      var ab := a + b;
      assert ab[0] == a[0];
      assert ab[1..] == a[1..] + b;
      assert MatchingCodes(ab) == Contribution(a[0]) + MatchingCodes(a[1..] + b);
      MatchingCodesAppend(a[1..], b);
      assert MatchingCodes(a) == Contribution(a[0]) + MatchingCodes(a[1..]);
    }
  }

  /** An operation that is not the target contributes nothing, wherever it stands. */
  lemma NonTargetIgnored(a: seq<Operation>, op: Operation, b: seq<Operation>)
    requires !IsTarget(op)
    ensures MatchingCodes(a + [op] + b) == MatchingCodes(a + b)
  {
    MatchingCodesAppend(a + [op], b);
    MatchingCodesAppend(a, [op]);
    MatchingCodesAppend(a, b);
  }

  /** A target operation contributes all of its coupon codes, in order, wherever it stands. */
  lemma TargetContributes(a: seq<Operation>, op: Operation, b: seq<Operation>)
    requires IsTarget(op)
    ensures MatchingCodes(a + [op] + b) == MatchingCodes(a) + CouponCodes(op) + MatchingCodes(b)
  {
    MatchingCodesAppend(a + [op], b);
    MatchingCodesAppend(a, [op]);
  }

  function Min(x: int, y: int): int {
    if x <= y then x else y
  }

  /** The extraction result: the offer is unavailable exactly when no code matches; otherwise
      the first one or two matching codes, in input order. */
  function RestaurantCodes(ops: seq<Operation>): (r: Result<seq<string>>)
    ensures r.Err? <==> MatchingCodes(ops) == []
    ensures r.Err? ==> r.error == OfferNotAvailable
    ensures r.Ok? ==> 1 <= |r.value| <= 2 && |r.value| == Min(2, |MatchingCodes(ops)|)
    ensures r.Ok? ==> r.value <= MatchingCodes(ops)
  {
    var all := MatchingCodes(ops);
    if all == [] then Err(OfferNotAvailable) else Ok(all[..Min(2, |all|)])
  }

  /** The scan over the operations: collects the codes of each target operation, stops as
      soon as two are held, and keeps at most the first two. */
  method GetRestaurantCodes(operations: seq<Operation>) returns (r: Result<seq<string>>)
    ensures r == RestaurantCodes(operations)
  {
    var codes: seq<string> := [];
    assert operations[..|operations|] == operations;
    for i := 0 to |operations|
      invariant codes == MatchingCodes(operations[..i])
      invariant |codes| < 2
    {
      var operation := operations[i];
      assert operations[..i + 1] == operations[..i] + [operation];
      MatchingCodesAppend(operations[..i], [operation]);
      if operation.name == TARGET_NAME || operation.code == TARGET_CODE {
        codes := codes + CouponCodes(operation);
        if |codes| >= 2 {
          assert operations == operations[..i + 1] + operations[i + 1..];
          MatchingCodesAppend(operations[..i + 1], operations[i + 1..]);
          assert codes[..2] == MatchingCodes(operations)[..2];
          break;
        }
      }
    }
    if |codes| == 0 {
      r := Err(OfferNotAvailable);
    } else {
      r := Ok(codes[..Min(2, |codes|)]);
    }
  }
}
