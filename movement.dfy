/** The balance rules of `createTransaction`: how a movement string selects one of
    the rules, when a commission earning arises, and the signed change each rule
    makes to the company's and the customer's cash and check buckets. */
module Movement {
  import opened Text
  import opened Store

  /** The branch of `createTransaction` a movement takes. `BuyOther` and `SellOther`
      are the branches in which neither "cash" nor "check" occurs, so nothing is
      written to the balance rows. */
  datatype Rule = BuyCash | BuyCheck | BuyOther | Collection | SellCash | SellCheck | SellOther

  /** The branch selected by the four tests of `createTransaction`, in the order the
      code applies them: "buy" first, then the exact "check-collection", and
      everything else is a sale; within a branch "cash" is tested before "check". */
  function RuleOf(isBuy: bool, isCash: bool, isCheck: bool, isCollection: bool): Rule {
    if isBuy then
      if isCash then BuyCash
      else if isCheck then BuyCheck
      else BuyOther
    else if isCollection then Collection
    else if isCash then SellCash
    else if isCheck then SellCheck
    else SellOther
  }

  /** The rule of a movement: `includes("buy")`, `includes("cash")`,
      `includes("check")` and `=== "check-collection"`. */
  function Classify(movement: string): Rule {
    RuleOf(Contains(movement, "buy"), Contains(movement, "cash"), Contains(movement, "check"), movement == "check-collection")
  }

  /** A commission earning is recorded exactly for a movement containing "check"
      with a positive rate; "check-collection" contains "check". */
  predicate EarnsCommission(movement: string, rate: real) {
    Contains(movement, "check") && rate > 0.0
  }

  /** `commissionAmount`: `amount * commission` when an earning is recorded, else 0. */
  function CommissionAmount(movement: string, amount: real, rate: real): real {
    if EarnsCommission(movement, rate) then amount * rate else 0.0
  }

  /** Signed changes to the company's and the customer's buckets. */
  datatype Delta = Delta(companyCash: real, companyCheck: real, customerCash: real, customerCheck: real)

  function Negate(d: Delta): Delta {
    Delta(-d.companyCash, -d.companyCheck, -d.customerCash, -d.customerCheck)
  }

  /** The effect table of the five rules. A buy moves value from the customer to the
      company, a sale the other way, a cheque trade carries the commission with it,
      and a cheque collection turns company cheque value into company cash. */
  function Effect(rule: Rule, amount: real, commissionAmount: real): (d: Delta)
    // Trades conserve each bucket between the company and the customer.
    ensures rule != Collection ==>
      d.companyCash + d.customerCash == 0.0 && d.companyCheck + d.customerCheck == 0.0
    // A collection conserves the company's total and leaves the customer alone.
    ensures rule == Collection ==>
      d.companyCash + d.companyCheck == 0.0 && d.companyCash == amount &&
      d.customerCash == 0.0 && d.customerCheck == 0.0
    // Cash rules leave the check buckets alone, check rules the cash buckets.
    ensures rule == BuyCash || rule == SellCash ==> d.companyCheck == 0.0 && d.customerCheck == 0.0
    ensures rule == BuyCheck || rule == SellCheck ==> d.companyCash == 0.0 && d.customerCash == 0.0
    // Only collections and cheque trades differ from a plain move of `amount`.
    ensures rule == BuyOther || rule == SellOther ==> d == Delta(0.0, 0.0, 0.0, 0.0)
  {
    match rule
    case BuyCash => Delta(amount, 0.0, -amount, 0.0)
    case BuyCheck => Delta(0.0, amount + commissionAmount, 0.0, -(amount + commissionAmount))
    case BuyOther => Delta(0.0, 0.0, 0.0, 0.0)
    case Collection => Delta(amount, -amount, 0.0, 0.0)
    case SellCash => Delta(-amount, 0.0, amount, 0.0)
    case SellCheck => Delta(0.0, -(amount + commissionAmount), 0.0, amount + commissionAmount)
    case SellOther => Delta(0.0, 0.0, 0.0, 0.0)
  }

  /** A balance row after adding `cash` to its cash bucket and `check` to its check bucket. */
  function Shift(b: Balance, cash: real, check: real): Balance {
    b.(balance := b.balance + cash, checkBalance := b.checkBalance + check)
  }

  /** A sale is the exact mirror image of the corresponding buy. */
  lemma SellMirrorsBuy(amount: real, commissionAmount: real)
    ensures Effect(SellCash, amount, commissionAmount) == Negate(Effect(BuyCash, amount, commissionAmount))
    ensures Effect(SellCheck, amount, commissionAmount) == Negate(Effect(BuyCheck, amount, commissionAmount))
  {
    var total := amount + commissionAmount;
    calc {
      Negate(Effect(BuyCash, amount, commissionAmount));
      Negate(Delta(amount, 0.0, -amount, 0.0));
      Delta(-amount, 0.0, amount, 0.0);
      Effect(SellCash, amount, commissionAmount);
    }
    calc {
      Negate(Effect(BuyCheck, amount, commissionAmount));
      Negate(Delta(0.0, total, 0.0, -total));
      Delta(0.0, -total, 0.0, total);
      Effect(SellCheck, amount, commissionAmount);
    }
  }

  /** Applying a trade's effect to a company row and a customer row keeps the sum of
      the two rows in each bucket. */
  lemma TradeConservesBuckets(rule: Rule, amount: real, commissionAmount: real, company: Balance, customer: Balance)
    requires rule != Collection
    ensures var d := Effect(rule, amount, commissionAmount);
      && Shift(company, d.companyCash, d.companyCheck).balance + Shift(customer, d.customerCash, d.customerCheck).balance
         == company.balance + customer.balance
      && Shift(company, d.companyCash, d.companyCheck).checkBalance + Shift(customer, d.customerCash, d.customerCheck).checkBalance
         == company.checkBalance + customer.checkBalance
  {
  }

  /** The five values the `movement` column admits select the five rules. */
  lemma StoredMovementRules(m: string)
    ensures m == "buy-cash" ==> Classify(m) == BuyCash
    ensures m == "buy-check" ==> Classify(m) == BuyCheck
    ensures m == "sell-cash" ==> Classify(m) == SellCash
    ensures m == "sell-check" ==> Classify(m) == SellCheck
    ensures m == "check-collection" ==> Classify(m) == Collection
  {
    if m == "buy-cash" {
      BuyCashRule(m);
    } else if m == "buy-check" {
      BuyCheckRule(m);
    } else if m == "sell-cash" {
      SellCashRule(m);
    } else if m == "sell-check" {
      SellCheckRule(m);
    } else if m == "check-collection" {
      CollectionRule(m);
    }
  }

  lemma BuyCashRule(m: string)
    requires m == "buy-cash"
    ensures Classify(m) == BuyCash
  {
    ContainsAt(m, "buy", 0);
    ContainsAt(m, "cash", 4);
  }

  lemma BuyCheckRule(m: string)
    requires m == "buy-check"
    ensures Classify(m) == BuyCheck
  {
    ContainsAt(m, "buy", 0);
    NotContains(m, "cash", 1);
    ContainsAt(m, "check", 4);
  }

  lemma SellCashRule(m: string)
    requires m == "sell-cash"
    ensures Classify(m) == SellCash
  {
    NotContains(m, "buy", 0);
    ContainsAt(m, "cash", 5);
  }

  lemma SellCheckRule(m: string)
    requires m == "sell-check"
    ensures Classify(m) == SellCheck
  {
    NotContains(m, "buy", 0);
    NotContains(m, "cash", 1);
    ContainsAt(m, "check", 5);
  }

  lemma CollectionRule(m: string)
    requires m == "check-collection"
    ensures Classify(m) == Collection
  {
    NotContains(m, "buy", 0);
  }

  /** The movements the client's transaction form sends all lack "buy", so every one
      of them, deposits included, takes the sale branch; the fallback "unknown"
      changes no balance. */
  lemma ClientMovementRules(m: string)
    ensures m == "withdrawal-cash" ==> Classify(m) == SellCash
    ensures m == "withdrawal-check" ==> Classify(m) == SellCheck
    ensures m == "deposit-cash" ==> Classify(m) == SellCash
    ensures m == "deposit-check" ==> Classify(m) == SellCheck
    ensures m == "unknown" ==> Classify(m) == SellOther
  {
    if m == "withdrawal-cash" {
      NotContains(m, "buy", 0);
      ContainsAt(m, "cash", 11);
    } else if m == "withdrawal-check" {
      WithdrawalCheckRule(m);
    } else if m == "deposit-cash" {
      NotContains(m, "buy", 0);
      ContainsAt(m, "cash", 8);
    } else if m == "deposit-check" {
      DepositCheckRule(m);
    } else if m == "unknown" {
      NotContains(m, "buy", 0);
      NotContains(m, "cash", 0);
      NotContains(m, "check", 0);
    }
  }

  /** The two check movements of the client take the sale-of-check rule and, with
      a positive rate, earn a commission. */
  lemma WithdrawalCheckRule(m: string)
    requires m == "withdrawal-check"
    ensures Classify(m) == SellCheck && Contains(m, "check")
  {
    NotContains(m, "buy", 0);
    NotContains(m, "cash", 2);
    ContainsAt(m, "check", 11);
  }

  lemma DepositCheckRule(m: string)
    requires m == "deposit-check"
    ensures Classify(m) == SellCheck && Contains(m, "check")
  {
    NotContains(m, "buy", 0);
    NotContains(m, "cash", 1);
    ContainsAt(m, "check", 8);
  }

  /** "check-collection" earns a commission whenever its rate is positive, yet its
      balance rule ignores the commission amount. */
  lemma CollectionEarnsButIgnoresCommission(m: string, amount: real, rate: real, commissionAmount: real)
    requires m == "check-collection"
    ensures EarnsCommission(m, rate) <==> rate > 0.0
    ensures Effect(Classify(m), amount, commissionAmount) == Delta(amount, -amount, 0.0, 0.0)
  {
    ContainsAt(m, "check", 0);
    CollectionRule(m);
  }

  /** Cash movements never earn a commission. */
  lemma CashMovementsEarnNothing(m: string, rate: real)
    requires m in {"buy-cash", "sell-cash", "withdrawal-cash", "deposit-cash"}
    ensures !EarnsCommission(m, rate)
  {
    if m == "buy-cash" {
      NotContains(m, "check", 2);
    } else if m == "sell-cash" {
      NotContains(m, "check", 4);
    } else if m == "withdrawal-cash" {
      NotContains(m, "check", 2);
    } else {
      NotContains(m, "check", 4);
    }
  }
}
