/** What is paid for fragments: each purchase moves its price to the vault of the class, and over runs it adds up. */
module FragmentMoney {
  import opened Basics
  import opened FragmentLedger
  import opened FragmentInvariants
  import opened FragmentRights

  /** What the units cost. */
  function Cost(w: World, c: ClassId, options: BuyOptions): nat
    requires c in w.publishing
  {
    w.publishing[c].price * QuantityOf(options)
  }

  /** What a call takes out of wallet x as the buyer's, and puts in as the vault's. */
  ghost function Spent(w: World, hs: Hashing, env: ProtoView, call: Call, x: Wallet): nat {
    if call.Buy? && Outcome(w, hs, env, call).Ok? && call.c in w.definitions && call.c in w.publishing
       && BuyerWallet(w, call.who, call.c) == x
    then Cost(w, call.c, call.options) else 0
  }

  ghost function Earned(w: World, hs: Hashing, env: ProtoView, call: Call, x: Wallet): nat {
    if call.Buy? && Outcome(w, hs, env, call).Ok? && call.c in w.definitions && call.c in w.publishing
       && VaultWallet(w, hs, call.c) == x
    then Cost(w, call.c, call.options) else 0
  }

  /** A transfer takes from the one, gives to the other, and leaves everybody else's balance; to oneself it is
      nothing. */
  lemma PaidMoves(money: map<Wallet, Balance>, from: Wallet, to: Wallet, amount: nat, funds: Funds, x: Wallet)
    requires Paid(money, from, to, amount, funds).Some?
    ensures from != to ==> amount + funds.minimum <= BalanceOf(money, from)
    ensures BalanceOf(Paid(money, from, to, amount, funds).value, x) + (if x == from then amount else 0) ==
              BalanceOf(money, x) + (if x == to then amount else 0)
  {
  }

  /** A saturated price is the largest u128: nobody has that and keeps the least balance besides. */
  lemma PayableIsExact(price: nat, quantity: nat, minimum: LeastBalance, balance: Balance)
    ensures Charge(price, quantity) + minimum <= balance <==> price * quantity + minimum <= balance
    ensures Charge(price, quantity) + minimum <= balance ==> Charge(price, quantity) == price * quantity
  {
  }

  lemma BoughtPays(w: World, hs: Hashing, who: AccountId, c: ClassId, options: BuyOptions, funds: Funds)
    requires Bought(w, hs, who, c, options, funds).Ok?
    ensures c in w.publishing && c in w.definitions
    ensures Paid(w.money, BuyerWallet(w, who, c), VaultWallet(w, hs, c),
                 Charge(w.publishing[c].price, QuantityOf(options)), funds)
            == Some(Bought(w, hs, who, c, options, funds).value.money)
  {
    hide Minted, Charge, Paid, BalanceOf;
  }

  /** Every accepted purchase is paid in full, price times quantity in the currency of the definition, from the buyer's
      wallet, that keeps the minimum, to that of the vault of the class; nobody else's balance changes, and a vault that
      buys from itself, as no account that signs does, keeps what it has. */
  lemma PaidInFull(w: World, hs: Hashing, who: AccountId, c: ClassId, options: BuyOptions, funds: Funds, x: Wallet)
    requires Bought(w, hs, who, c, options, funds).Ok?
    ensures c in w.publishing && c in w.definitions
    ensures var currency := w.definitions[c].metadata.currency;
      var (buyer, vault) := (Wallet(who, currency), Wallet(hs.vault(c), currency));
      var paid := w.publishing[c].price * QuantityOf(options);
      && (buyer != vault ==> paid + funds.minimum <= BalanceOf(w.money, buyer))
      && BalanceOf(Bought(w, hs, who, c, options, funds).value.money, x) + (if x == buyer then paid else 0) ==
           BalanceOf(w.money, x) + (if x == vault then paid else 0)
  {
    BoughtPays(w, hs, who, c, options, funds);
    var (buyer, vault) := (BuyerWallet(w, who, c), VaultWallet(w, hs, c));
    var charge := Charge(w.publishing[c].price, QuantityOf(options));
    PaidMoves(w.money, buyer, vault, charge, funds, x);
    PayableIsExact(w.publishing[c].price, QuantityOf(options), funds.minimum, BalanceOf(w.money, buyer));
    hide Bought, Charge, Paid, BalanceOf;
  }

  /** There is a sale, it is not over, and not sold out. */
  predicate Open(w: World, c: ClassId) {
    && c in w.publishing
    && (w.publishing[c].expiration.Some? ==> w.now < w.publishing[c].expiration.value)
    && w.publishing[c].unitsLeft != Some(0)
  }

  /** The sale is open to the purchase: of its kind, with data not used before, and within the units left. */
  predicate OnOffer(w: World, hs: Hashing, c: ClassId, options: BuyOptions) {
    && Open(w, c) && c in w.definitions
    && OfKind(w, c, options) && !Taken(w, hs, c, options) && !PastSale(w.publishing[c], options)
  }

  /** The check `buy` makes of a balance, in u128. */
  predicate BalancePasses(balance: Balance, price: nat, quantity: nat, minimum: nat) {
    balance >= (Charge(price, quantity) + minimum) % U128
  }

  predicate BuyerPasses(w: World, who: AccountId, c: ClassId, options: BuyOptions, funds: Funds)
    requires c in w.publishing && c in w.definitions
  {
    BalancePasses(BalanceOf(w.money, BuyerWallet(w, who, c)), w.publishing[c].price, QuantityOf(options), funds.minimum)
  }

  /** The transfer goes through: it is allowed, and in plain numbers the buyer can pay price times quantity and keep the
      minimum, and the vault can hold it. A vault that buys from itself has nothing looked at. */
  predicate CanPay(w: World, hs: Hashing, who: AccountId, c: ClassId, options: BuyOptions, funds: Funds)
    requires c in w.publishing && c in w.definitions
  {
    var (buyer, vault) := (BuyerWallet(w, who, c), VaultWallet(w, hs, c));
    funds.allows && (buyer != vault ==>
      && Cost(w, c, options) + funds.minimum <= BalanceOf(w.money, buyer)
      && BalanceOf(w.money, vault) + Cost(w, c, options) < U128)
  }

  lemma PaidIff(w: World, hs: Hashing, who: AccountId, c: ClassId, options: BuyOptions, funds: Funds)
    requires c in w.publishing && c in w.definitions
    ensures var charge := Charge(w.publishing[c].price, QuantityOf(options));
      Paid(w.money, BuyerWallet(w, who, c), VaultWallet(w, hs, c), charge, funds).Some? <==>
        CanPay(w, hs, who, c, options, funds)
    ensures CanPay(w, hs, who, c, options, funds) && BuyerWallet(w, who, c) != VaultWallet(w, hs, c) ==>
              BuyerPasses(w, who, c, options, funds)
  {
    var (buyer, vault) := (BuyerWallet(w, who, c), VaultWallet(w, hs, c));
    PayableIsExact(w.publishing[c].price, QuantityOf(options), funds.minimum, BalanceOf(w.money, buyer));
    hide Charge, BalanceOf;
  }

  lemma BoughtSteps(w: World, hs: Hashing, who: AccountId, c: ClassId, options: BuyOptions, funds: Funds)
    requires Open(w, c) && c in w.definitions
    ensures var sale := w.publishing[c];
      var r := Bought(w, hs, who, c, options, funds);
      var m := Minted(w, hs, who, c, Some(sale), options, QuantityOf(options), None, sale.amount);
      && (r.Ok? <==> BuyerPasses(w, who, c, options, funds) && m.Ok? && CanPay(w, hs, who, c, options, funds))
      && (r.Err? ==>
            if BuyerPasses(w, who, c, options, funds) && m.Err? then r == m else r.error == InsufficientBalance)
  {
    PaidIff(w, hs, who, c, options, funds);
    assert BuyerPasses(w, who, c, options, funds) <==>
           LeastToPay(Charge(w.publishing[c].price, QuantityOf(options)), funds.minimum)
           <= BalanceOf(w.money, BuyerWallet(w, who, c));
    hide Minted, Charge, Paid, BalanceOf, BuyerPasses, CanPay, LeastToPay, BuyerWallet, VaultWallet;
  }

  /** A purchase is accepted exactly if the units are on offer and the buyer can pay: in plain numbers, so neither the
      saturated price nor the unchecked sum of the balance check changes what is accepted. The two only count where no
      transfer looks at the balance, for a vault that buys from itself. */
  lemma BuyAcceptedIff(w: World, hs: Hashing, who: AccountId, c: ClassId, options: BuyOptions, funds: Funds)
    ensures Bought(w, hs, who, c, options, funds).Ok? <==>
              && OnOffer(w, hs, c, options) && CanPay(w, hs, who, c, options, funds)
              && (BuyerWallet(w, who, c) == VaultWallet(w, hs, c) ==> BuyerPasses(w, who, c, options, funds))
  {
    if Open(w, c) && c in w.definitions {
      BoughtSteps(w, hs, who, c, options, funds);
      PaidIff(w, hs, who, c, options, funds);
      MintHead(w, hs, who, c, Some(w.publishing[c]), options, w.publishing[c].amount);
      hide Minted, Bought, CanPay, BuyerPasses, OfKind, Taken, PastSale;
    } else {
      hide Minted;
    }
  }

  /** And refused with the error of the first thing amiss, money being looked at before what is bought, and after. */
  lemma BuyRefusals(w: World, hs: Hashing, who: AccountId, c: ClassId, options: BuyOptions, funds: Funds)
    requires Bought(w, hs, who, c, options, funds).Err?
    ensures var offered := c in w.publishing;
      var over := offered && w.publishing[c].expiration.Some? && w.publishing[c].expiration.value <= w.now;
      var known := Open(w, c) && c in w.definitions;
      var passes := known && BuyerPasses(w, who, c, options, funds);
      match Bought(w, hs, who, c, options, funds).error
      case NotFound => !offered || (Open(w, c) && !known)
      case Expired => over
      case SoldOut => offered && !over && w.publishing[c].unitsLeft == Some(0)
      case InsufficientBalance =>
        known && (!passes || (OnOffer(w, hs, c, options) && !CanPay(w, hs, who, c, options, funds)))
      case ParamsNotValid => passes && !OfKind(w, c, options)
      case UniqueDataExists => passes && OfKind(w, c, options) && Taken(w, hs, c, options)
      case PublishedQuantityReached =>
        passes && OfKind(w, c, options) && !Taken(w, hs, c, options) && PastSale(w.publishing[c], options)
      case _ => false
  {
    if Open(w, c) && c in w.definitions {
      BoughtSteps(w, hs, who, c, options, funds);
      MintHead(w, hs, who, c, Some(w.publishing[c]), options, w.publishing[c].amount);
      hide Minted, Bought, CanPay, BuyerPasses, OfKind, Taken, PastSale;
    } else {
      hide Minted;
    }
  }

  /** No call but a purchase, accepted, moves money, and `Outside` aside. */
  lemma OthersPayNothing(w: World, hs: Hashing, env: ProtoView, call: Call)
    requires !call.Outside? && !(call.Buy? && Outcome(w, hs, env, call).Ok?)
    ensures Apply(w, hs, env, call).money == w.money
  {
    hide Minted, MintRefusal, ProtoRefusal, Given, Bought, SweptBy;
    match call
    case Create(_, _, _, _, _, _, _) =>
    case Publish(_, _, _) =>
    case Unpublish(_, _) =>
    case Mint(who, c, options, amount) =>
      if Minted(w, hs, who, c, None, options, QuantityOf(options), None, amount).Ok? {
        MintPaysNothing(w, hs, who, c, options, amount);
      }
    case Buy(_, _, _, _) =>
    case Give(who, key, to, narrowed, expiration) => GiveFrame(w, who, key, to, narrowed, expiration);
    case EndBlock(order) => SweptByFrame(w, order);
  }

  lemma MintPaysNothing(w: World, hs: Hashing, who: AccountId, c: ClassId, options: BuyOptions, amount: Option<nat>)
    requires Minted(w, hs, who, c, None, options, QuantityOf(options), None, amount).Ok?
    ensures Minted(w, hs, who, c, None, options, QuantityOf(options), None, amount).value.money == w.money
  {
    assert MintRefusal(w, hs, c, None, options, QuantityOf(options), None).None?;
    hide MintRefusal, Minted;
    MintedCounts(w, hs, who, c, None, options, QuantityOf(options), None, amount);
  }

  lemma StepBalances(w: World, hs: Hashing, env: ProtoView, call: Call, x: Wallet)
    requires !call.Outside? || call.x != x
    ensures BalanceOf(Apply(w, hs, env, call).money, x) + Spent(w, hs, env, call, x) ==
              BalanceOf(w.money, x) + Earned(w, hs, env, call, x)
  {
    if call.Buy? && Outcome(w, hs, env, call).Ok? {
      var (who, c, options, funds) := (call.who, call.c, call.options, call.funds);
      PaidInFull(w, hs, who, c, options, funds, x);
      hide Bought, BalanceOf;
    } else if !call.Outside? {
      OthersPayNothing(w, hs, env, call);
      hide Apply, Outcome, BalanceOf;
    }
  }

  ghost function AllSpent(w: World, hs: Hashing, steps: seq<(ProtoView, Call)>, x: Wallet): nat {
    if steps == [] then 0
    else
      var (before, last) := (steps[..|steps| - 1], steps[|steps| - 1]);
      AllSpent(w, hs, before, x) + Spent(Run(w, hs, before), hs, last.0, last.1, x)
  }

  ghost function AllEarned(w: World, hs: Hashing, steps: seq<(ProtoView, Call)>, x: Wallet): nat {
    if steps == [] then 0
    else
      var (before, last) := (steps[..|steps| - 1], steps[|steps| - 1]);
      AllEarned(w, hs, before, x) + Earned(Run(w, hs, before), hs, last.0, last.1, x)
  }

  /** Over any run in which nothing but purchases touches wallet x, it ends with what it had, plus price times quantity
      of all purchases whose vault it is, less price times quantity of all purchases it made: no payment is lost,
      doubled, cut or misdirected, and a purchase refused costs nothing. */
  lemma {:induction false} PurchasesAddUp(w: World, hs: Hashing, steps: seq<(ProtoView, Call)>, x: Wallet)
    requires forall i :: 0 <= i < |steps| && steps[i].1.Outside? ==> steps[i].1.x != x
    ensures BalanceOf(Run(w, hs, steps).money, x) + AllSpent(w, hs, steps, x) ==
              BalanceOf(w.money, x) + AllEarned(w, hs, steps, x)
  {
    hide Apply, Spent, Earned, BalanceOf;
    if steps != [] {
      var (before, last) := (steps[..|steps| - 1], steps[|steps| - 1]);
      PurchasesAddUp(w, hs, before, x);
      StepBalances(Run(w, hs, before), hs, last.0, last.1, x);
    }
  }

  /** So the vault of a class, as long as its account buys nothing itself, holds its sales. */
  lemma VaultHoldsItsSales(w: World, hs: Hashing, steps: seq<(ProtoView, Call)>, x: Wallet)
    requires forall i :: 0 <= i < |steps| && steps[i].1.Outside? ==> steps[i].1.x != x
    requires forall i :: 0 <= i < |steps| && steps[i].1.Buy? ==> steps[i].1.who != x.account
    ensures BalanceOf(Run(w, hs, steps).money, x) == BalanceOf(w.money, x) + AllEarned(w, hs, steps, x)
  {
    PurchasesAddUp(w, hs, steps, x);
    NothingSpent(w, hs, steps, x);
  }

  lemma {:induction false} NothingSpent(w: World, hs: Hashing, steps: seq<(ProtoView, Call)>, x: Wallet)
    requires forall i :: 0 <= i < |steps| && steps[i].1.Buy? ==> steps[i].1.who != x.account
    ensures AllSpent(w, hs, steps, x) == 0
  {
    hide Outcome, Run;
    if steps != [] {
      NothingSpent(w, hs, steps[..|steps| - 1], x);
    }
  }
}
