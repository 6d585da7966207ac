/** The client's new-transaction form: the movement sent for each route, the
    commission percentage turned into the rate the server stores, and the
    "amount after commission" preview. */
module TransactionForm {
  import opened Common
  import opened Text
  import opened Movement

  /** `parseFloat(x) || 0`: an input that does not read as a number counts as 0. */
  function ParsedOrZero(x: Option<real>): real {
    if x.Some? then x.value else 0.0
  }

  /** `calculateAmountAfterCommission`: with a positive amount and a positive
      percentage the amount plus that percentage of it, otherwise the amount. */
  function AmountAfterCommission(amountInput: Option<real>, percentInput: Option<real>): (r: real)
    ensures var amount, percent := ParsedOrZero(amountInput), ParsedOrZero(percentInput);
      && (amount > 0.0 && percent > 0.0 ==> r == amount * (1.0 + percent / 100.0) && r > amount)
      && (!(amount > 0.0 && percent > 0.0) ==> r == amount)
  {
    var amount := ParsedOrZero(amountInput);
    var commission := ParsedOrZero(percentInput);
    if amount > 0.0 && commission > 0.0 then
      var commissionAmount := (amount * commission) / 100.0;
      amount + commissionAmount
    else amount
  }

  /** The route types of the form and the movement each sends. */
  function MovementForRoute(routeType: string): (m: string)
    ensures routeType in {"withdrawal-cash", "withdrawal-check", "deposit-cash", "deposit-check"} ==> m == routeType
    ensures routeType !in {"withdrawal-cash", "withdrawal-check", "deposit-cash", "deposit-check"} ==> m == "unknown"
  {
    match routeType
    case "withdrawal-cash" => "withdrawal-cash"
    case "withdrawal-check" => "withdrawal-check"
    case "deposit-cash" => "deposit-cash"
    case "deposit-check" => "deposit-check"
    case _ => "unknown"
  }

  /** `parseFloat(data.commission || 0) / 100`: the percentage as a fraction, a
      missing percentage as 0. */
  function SubmittedCommission(percent: Option<real>): (rate: real)
    ensures rate * 100.0 == ParsedOrZero(percent)
  {
    ParsedOrZero(percent) / 100.0
  }

  /** The commission field, and the preview with it, are shown only on the two
      check routes. */
  predicate CommissionFieldShown(routeType: string) {
    routeType == "withdrawal-check" || routeType == "deposit-check"
  }

  /** The preview additionally needs a positive amount and a positive percentage. */
  predicate PreviewShown(routeType: string, amount: real, percent: real) {
    CommissionFieldShown(routeType) && amount > 0.0 && percent > 0.0
  }

  /** On a route without the commission field no earning is recorded, whatever
      percentage the hidden field holds (its default is 0): the movement the route
      sends does not contain "check". */
  lemma HiddenFieldEarnsNothing(routeType: string, percent: Option<real>)
    requires !CommissionFieldShown(routeType)
    ensures !EarnsCommission(MovementForRoute(routeType), SubmittedCommission(percent))
    ensures CommissionAmount(MovementForRoute(routeType), ParsedOrZero(percent), SubmittedCommission(percent)) == 0.0
  {
    var m := MovementForRoute(routeType);
    if m == "unknown" {
      NotContains(m, "check", 0);
    } else {
      CashMovementsEarnNothing(m, SubmittedCommission(percent));
    }
  }

  /** Both check routes send a movement that takes the sale-of-check rule and can earn. */
  lemma CheckRouteRule(routeType: string)
    requires CommissionFieldShown(routeType)
    ensures Classify(MovementForRoute(routeType)) == SellCheck
    ensures Contains(MovementForRoute(routeType), "check")
  {
    var m := MovementForRoute(routeType);
    if routeType == "withdrawal-check" {
      WithdrawalCheckRule(m);
    } else {
      DepositCheckRule(m);
    }
  }

  /** On a check route with a positive percentage, the server records the preview's
      extra as the commission earning, and the preview equals the amount the
      movement moves into the customer's check bucket. */
  lemma PreviewMatchesServer(routeType: string, amount: real, percent: real)
    requires PreviewShown(routeType, amount, percent)
    ensures var movement, rate := MovementForRoute(routeType), SubmittedCommission(Some(percent));
      && EarnsCommission(movement, rate)
      && AmountAfterCommission(Some(amount), Some(percent)) == amount + CommissionAmount(movement, amount, rate)
      && Effect(Classify(movement), amount, CommissionAmount(movement, amount, rate)).customerCheck
           == AmountAfterCommission(Some(amount), Some(percent))
  {
    var movement, rate := MovementForRoute(routeType), SubmittedCommission(Some(percent));
    CheckRouteRule(routeType);
    PreviewIsAmountPlusRate(amount, percent, rate);
    EarnedCommission(movement, amount, rate);
  }

  /** The preview is the amount plus the amount times the rate the percentage
      stands for. */
  lemma PreviewIsAmountPlusRate(amount: real, percent: real, rate: real)
    requires amount > 0.0 && rate > 0.0 && rate * 100.0 == percent
    ensures AmountAfterCommission(Some(amount), Some(percent)) == amount + amount * rate
  {
    assert (amount * percent) / 100.0 == amount * rate;
  }

  /** A movement that earns records `amount * rate`. */
  lemma EarnedCommission(movement: string, amount: real, rate: real)
    requires Contains(movement, "check") && rate > 0.0
    ensures CommissionAmount(movement, amount, rate) == amount * rate
  {
  }
}
