/** The input controller: the form's primary state cells, the change handler
    that its inputs share, the reset button, and the effect that re-derives
    the figures. */
module Controller {
  import opened Values
  import opened Derivation

  /** The primary state cells of the form. */
  datatype Form = Form(
    buyPrice: Entry,
    buyShares: Entry,
    sellPrice: Entry,
    sellShares: Entry,
    hasSetSellShares: bool,
    incStampDuty: bool)
  {
    /** The inputs the derivation engine reads. */
    function Snapshot(): Inputs
    {
      Inputs(buyPrice, buyShares, sellPrice, sellShares, incStampDuty)
    }
  }

  /** Every text cell starts out as `''`, and both flags as false. */
  const InitialForm := Form(Unset, Unset, Unset, Unset, false, false)

  /** While the sell share count has not been edited, it mirrors the buy share count. */
  predicate Mirrors(f: Form)
  {
    !f.hasSetSellShares ==> f.sellShares == f.buyShares
  }

  /** `value > buyShares ? buyShares : value`, with `''` compared as 0. */
  function Clamp(value: Entry, buyShares: Entry): (r: Entry)
    ensures Arith(r) <= Arith(buyShares)
    ensures Arith(value) <= Arith(buyShares) ==> r == value
    ensures Arith(value) > Arith(buyShares) ==> r == buyShares
  {
    if Arith(value) > Arith(buyShares) then buyShares else value
  }

  /** The form after the change handler sees an event from the input called
      `name`, carrying the parsed `value` (and, for the checkbox, `checked`). */
  function AfterChange(f: Form, name: string, value: Entry, checked: bool): (r: Form)
    // cascade: the sell share count follows the buy share count until it is edited
    ensures name == "buy_shares" ==> r.buyShares == value
    ensures name == "buy_shares" && !f.hasSetSellShares ==> r.sellShares == r.buyShares
    ensures name == "buy_shares" && f.hasSetSellShares ==> r.sellShares == f.sellShares
    ensures name == "buy_shares" ==>
      r.(buyShares := f.buyShares, sellShares := f.sellShares) == f
    // clamp: an edited sell share count is never above the buy share count
    ensures name == "sell_shares" ==>
      r.hasSetSellShares && Arith(r.sellShares) <= Arith(r.buyShares) &&
      r.sellShares == Clamp(value, f.buyShares) &&
      r.(sellShares := f.sellShares, hasSetSellShares := f.hasSetSellShares) == f
    // frame: every other input touches only its own cell
    ensures name == "buy_price" ==> r == f.(buyPrice := value)
    ensures name == "sell_price" ==> r == f.(sellPrice := value)
    ensures name == "inc_tax" ==> r == f.(incStampDuty := checked)
    ensures name !in {"buy_price", "buy_shares", "sell_price", "sell_shares", "inc_tax"} ==> r == f
    // nothing clears the flag, and the mirror is kept
    ensures f.hasSetSellShares ==> r.hasSetSellShares
    ensures Mirrors(f) ==> Mirrors(r)
  {
    match name
    case "buy_price" => f.(buyPrice := value)
    case "buy_shares" =>
      if !f.hasSetSellShares then f.(buyShares := value, sellShares := value)
      else f.(buyShares := value)
    case "sell_price" => f.(sellPrice := value)
    case "sell_shares" => f.(sellShares := Clamp(value, f.buyShares), hasSetSellShares := true)
    case "inc_tax" => f.(incStampDuty := checked)
    case _ => f
  }

  /** The form after the reset button: the four text cells are emptied, the two
      flags are left as they were. */
  function AfterReset(f: Form): (r: Form)
    ensures r.buyPrice == Unset && r.sellPrice == Unset
    ensures r.buyShares == Unset && r.sellShares == Unset
    ensures r.hasSetSellShares == f.hasSetSellShares && r.incStampDuty == f.incStampDuty
    ensures Mirrors(r)
  {
    f.(buyPrice := Unset, sellPrice := Unset, buyShares := Unset, sellShares := Unset)
  }

  /** After a reset the settled figures are those of an empty form: no duty,
      no totals, and a return and percentage of 0. */
  lemma ResetClearsFigures(f: Form)
    ensures Recompute(AfterReset(f).Snapshot()) == Derived(0, 0, 0, Hundredths(0), Hundredths(0))
  {
  }

  /** A user action: an input's change event, or a click on reset. */
  datatype Action = Edit(name: string, value: Entry, checked: bool) | ResetClick

  function Apply(f: Form, a: Action): Form
  {
    match a
    case Edit(name, value, checked) => AfterChange(f, name, value, checked)
    case ResetClick => AfterReset(f)
  }

  /** The form after a session's actions, in order. */
  function Replay(f: Form, actions: seq<Action>): Form
    decreases |actions|
  {
    if actions == [] then f else Replay(Apply(f, actions[0]), actions[1..])
  }

  /** Once the sell share count has been edited, no later action clears the flag. */
  lemma {:induction false} FlagStaysSet(f: Form, actions: seq<Action>)
    requires f.hasSetSellShares
    ensures Replay(f, actions).hasSetSellShares
    decreases |actions|
  {
    if actions != [] {
      FlagStaysSet(Apply(f, actions[0]), actions[1..]);
    }
  }

  /** In every state a session can reach, the sell share count equals the buy
      share count until the user edits it. */
  lemma {:induction false} MirrorHolds(f: Form, actions: seq<Action>)
    requires Mirrors(f)
    ensures Mirrors(Replay(f, actions))
    decreases |actions|
  {
    if actions != [] {
      MirrorHolds(Apply(f, actions[0]), actions[1..]);
    }
  }

  /** The clamp does not make `sellShares <= buyShares` an invariant: after the
      sell share count has been edited, lowering the buy share count leaves it
      above. */
  lemma OversellAfterLaterBuyEdit()
    ensures var f := Replay(InitialForm, [
              Edit("buy_shares", Num(500.0), false),
              Edit("sell_shares", Num(300.0), false),
              Edit("buy_shares", Num(100.0), false)]);
            f.buyShares == Num(100.0) && f.sellShares == Num(300.0)
  {
  }

  /** An edit of the sell share count while the buy share count is unset
      empties the sell share count (`''` compares as 0). */
  lemma ClampAgainstUnset(f: Form, x: real)
    requires f.buyShares == Unset && x > 0.0
    ensures AfterChange(f, "sell_shares", Num(x), false).sellShares == Unset
  {
  }

  /** The page's state: the primary cells, which the handlers set, and the five
      derived cells, which the effect sets. */
  class Calculator {
    var buyPrice: Entry
    var sellPrice: Entry
    var buyShares: Entry
    var sellShares: Entry
    var hasSetSellShares: bool
    var incStampDuty: bool
    var stampDuty: int
    var buyTotal: int
    var sellTotal: int
    var returnValue: Fixed2
    var returnPercent: Fixed2

    /** The primary cells as a value. */
    function Primary(): Form
      reads this
    {
      Form(buyPrice, buyShares, sellPrice, sellShares, hasSetSellShares, incStampDuty)
    }

    /** The derived cells as a value. */
    function Figures(): Derived
      reads this
    {
      Derived(stampDuty, buyTotal, sellTotal, returnValue, returnPercent)
    }

    /** The state at mount, before the effect has run. */
    constructor ()
      ensures Primary() == InitialForm && Mirrors(Primary())
      ensures Figures() == InitialDerived
    {
      buyPrice, sellPrice, buyShares, sellShares := Unset, Unset, Unset, Unset;
      hasSetSellShares, incStampDuty := false, false;
      stampDuty, buyTotal, sellTotal := 0, 0, 0;
      returnValue, returnPercent := Hundredths(0), Hundredths(0);
    }

    /** `handleCalcChange`: dispatch on the input's name.  The derived cells
        are left for the effect. */
    method HandleCalcChange(name: string, value: Entry, checked: bool)
      modifies this
      ensures Primary() == AfterChange(old(Primary()), name, value, checked)
      ensures Figures() == old(Figures())
    {
      match name
      case "buy_price" =>
        buyPrice := value;
      case "buy_shares" =>
        buyShares := value;
        if !hasSetSellShares {
          sellShares := value;
        }
      case "sell_price" =>
        sellPrice := value;
      case "sell_shares" =>
        sellShares := if Arith(value) > Arith(buyShares) then buyShares else value;
        hasSetSellShares := true;
      case "inc_tax" =>
        incStampDuty := checked;
      case _ =>
    }

    /** `reset`: empty the prices and share counts. */
    method Reset()
      modifies this
      ensures Primary() == AfterReset(old(Primary()))
      ensures Figures() == old(Figures())
    {
      buyPrice := Unset;
      sellPrice := Unset;
      buyShares := Unset;
      sellShares := Unset;
    }

    /** One run of the effect: all five derived cells are set from the
        primary cells and the derived cells as they stood before the run. */
    method RunEffect()
      modifies this
      ensures Primary() == old(Primary())
      ensures Figures() == Step(old(Primary()).Snapshot(), old(Figures()))
    {
      var subtotal := OrderSubtotal(buyPrice, buyShares);
      var duty := StampDuty(buyPrice, buyShares);
      var total := BuyTotal(subtotal, stampDuty, incStampDuty);
      var sell := OrderSubtotal(sellPrice, sellShares);
      var ret := ReturnValue(sellPrice, sellTotal, buyTotal, buyShares, sellShares);
      var pct := ReturnPercent(buyTotal, sellPrice, buyPrice, incStampDuty);
      buyTotal := total;
      sellTotal := sell;
      stampDuty := duty;
      returnValue := ret;
      returnPercent := pct;
    }
  }
}
