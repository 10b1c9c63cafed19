/**
 * The checkout page (frontend/pages/checkout.js): a three-step wizard
 * (shipping, payment, review) with a form record, the empty-cart guard, the
 * card-number ending shown on the review step, and the order submission that
 * empties the cart. Logging and the alert of the submit handler are not
 * modelled.
 */
module Checkout {
  import opened CartLines
  import opened Store
  import opened Text

  const FirstStep := 1
  const LastStep := 3

  /** `handleNextStep`: forward unless already on the last step. */
  function NextStep(step: int): (next: int)
    ensures FirstStep <= step <= LastStep ==> FirstStep <= next <= LastStep
    ensures step < LastStep ==> next == step + 1
  {
    if step < LastStep then step + 1 else step
  }

  /** `handlePrevStep`: back unless already on the first step. */
  function PrevStep(step: int): (prev: int)
    ensures FirstStep <= step <= LastStep ==> FirstStep <= prev <= LastStep
    ensures step > FirstStep ==> prev == step - 1
  {
    if step > FirstStep then step - 1 else step
  }

  datatype Nav = Next | Prev

  /** The step reached from `step` by pressing the buttons in `navs`, in order. */
  function Walk(step: int, navs: seq<Nav>): int
    decreases |navs|
  {
    if navs == [] then step
    else Walk(if navs[0] == Next then NextStep(step) else PrevStep(step), navs[1..])
  }

  /** Next on the last step and Previous on the first are no-ops; otherwise each moves by exactly one. */
  lemma StepMoves(step: int)
    requires FirstStep <= step <= LastStep
    ensures NextStep(step) == if step == LastStep then step else step + 1
    ensures PrevStep(step) == if step == FirstStep then step else step - 1
  {
  }

  /** From any step in 1..3, every sequence of Next/Previous presses stays in 1..3. */
  lemma {:induction false} WalkStaysInRange(step: int, navs: seq<Nav>)
    requires FirstStep <= step <= LastStep
    ensures FirstStep <= Walk(step, navs) <= LastStep
    decreases |navs|
  {
    if navs != [] {
      WalkStaysInRange(if navs[0] == Next then NextStep(step) else PrevStep(step), navs[1..]);
    }
  }

  /** `n` presses of Next from any step `s` in 1..3 reach step min(s + n, 3). */
  lemma {:induction false} NextPresses(n: nat, step: int)
    requires FirstStep <= step <= LastStep
    ensures Walk(step, seq(n, _ => Next)) == if step + n < LastStep then step + n else LastStep
    decreases n
  {
    if n > 0 {
      var navs := seq(n, _ => Next);
      assert navs[0] == Next && navs[1..] == seq(n - 1, _ => Next);
      NextPresses(n - 1, NextStep(step));
    }
  }

  /** The initial form record: every field empty except the country. */
  const InitialForm: map<string, string> := map[
    "firstName" := "",
    "lastName" := "",
    "email" := "",
    "phone" := "",
    "address" := "",
    "city" := "",
    "postalCode" := "",
    "country" := "suriname",
    "cardNumber" := "",
    "expiryDate" := "",
    "cvv" := "",
    "cardName" := ""]

  /** The empty-cart guard: the checkout form is shown only when the item count is not 0. */
  function ShowsCheckoutForm(cart: seq<Line>): bool
  {
    ItemsCount(cart) != 0
  }

  /**
   * With the positive quantities that the cart drawer keeps, the form is shown
   * exactly when the cart has a line.
   */
  lemma GuardMatchesNonEmptyCart(cart: seq<Line>)
    requires forall i :: 0 <= i < |cart| ==> cart[i].quantity >= 1
    ensures ShowsCheckoutForm(cart) <==> cart != []
  {
    CountZeroIffEmpty(cart);
  }

  /**
   * `formData.cardNumber.slice(-4)` on the review step: the last four
   * characters of the card number, or all of a shorter one.
   */
  function CardEnding(cardNumber: string): (ending: string)
    ensures |ending| == if |cardNumber| < 4 then |cardNumber| else 4
    ensures cardNumber == cardNumber[..|cardNumber| - |ending|] + ending
  {
    LastChars(cardNumber, 4)
  }

  /** The checkout page's component state, reading and writing the shared store. */
  class CheckoutPage {
    const store: Store
    var step: int
    var formData: map<string, string>

    /** The step is in 1..3 and every initial form field is present. */
    ghost predicate Valid()
      reads this
    {
      FirstStep <= step <= LastStep && InitialForm.Keys <= formData.Keys
    }

    constructor (store: Store)
      ensures Valid()
      ensures this.store == store && step == FirstStep && formData == InitialForm
    {
      this.store := store;
      step := FirstStep;
      formData := InitialForm;
    }

    method HandleNextStep()
      requires Valid()
      modifies this`step
      ensures Valid()
      ensures step == NextStep(old(step))
    {
      if step < LastStep {
        step := step + 1;
      }
    }

    method HandlePrevStep()
      requires Valid()
      modifies this`step
      ensures Valid()
      ensures step == PrevStep(old(step))
    {
      if step > FirstStep {
        step := step - 1;
      }
    }

    /** `handleInputChange(e)`: sets the field named by the input, leaving every other field. */
    method HandleInputChange(name: string, value: string)
      requires Valid()
      modifies this`formData
      ensures Valid()
      ensures formData.Keys == old(formData).Keys + {name}
      ensures formData[name] == value
      ensures forall k :: k in old(formData) && k != name ==> formData[k] == old(formData)[k]
    {
      formData := formData[name := value];
    }

    /** `handleSubmitOrder(e)`: the order is placed and the cart is emptied. */
    method HandleSubmitOrder()
      requires store.Valid()
      modifies store
      ensures store.Valid()
      ensures store.State() == old(store.State()).(cart := [])
      ensures !ShowsCheckoutForm(store.cart)
    {
      store.ClearCart();
    }

    /** What the review step prints after "Card ending in". */
    function ReviewCardEnding(): string
      requires Valid()
      reads this
    {
      CardEnding(formData["cardNumber"])
    }
  }

}
