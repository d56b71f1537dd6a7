/** The medicine detail screen: a quantity picker kept between 1 and 10 and
    the add-to-cart button. */
module MedicineDetail {
  import opened MedicineList

  const MinQuantity := 1
  const MaxQuantity := 10

  /** `handleQuantityChange`: the change is applied only when the result
      stays between 1 and 10. */
  function ChangedQuantity(quantity: int, change: int): (q: int)
    ensures MinQuantity <= quantity <= MaxQuantity ==> MinQuantity <= q <= MaxQuantity
    ensures q == quantity || q == quantity + change
    ensures q == quantity + change <== MinQuantity <= quantity + change <= MaxQuantity
  {
    var newQuantity := quantity + change;
    if MinQuantity <= newQuantity <= MaxQuantity then newQuantity else quantity
  }

  /** The quantity after a series of button presses. */
  function AfterPresses(quantity: int, changes: seq<int>): int
    decreases |changes|
  {
    if changes == [] then quantity else AfterPresses(ChangedQuantity(quantity, changes[0]), changes[1..])
  }

  /** However the buttons are pressed, the quantity stays between 1 and 10. */
  lemma {:induction false} PressesStayInRange(quantity: int, changes: seq<int>)
    requires MinQuantity <= quantity <= MaxQuantity
    ensures MinQuantity <= AfterPresses(quantity, changes) <= MaxQuantity
    decreases |changes|
  {
    if changes != [] {
      PressesStayInRange(ChangedQuantity(quantity, changes[0]), changes[1..]);
    }
  }

  /** The `disabled` tests of the minus and plus buttons. */
  predicate MinusDisabled(quantity: int) {
    quantity <= 1
  }

  predicate PlusDisabled(quantity: int) {
    quantity >= 10
  }

  /** The minus button is enabled exactly when pressing it lowers the
      quantity, and the plus button exactly when pressing it raises it. */
  lemma ButtonsAgreeWithClamp(quantity: int)
    requires MinQuantity <= quantity <= MaxQuantity
    ensures !MinusDisabled(quantity) <==> ChangedQuantity(quantity, -1) == quantity - 1
    ensures !PlusDisabled(quantity) <==> ChangedQuantity(quantity, 1) == quantity + 1
  {
  }

  /** The detail screen for one medicine. */
  class MedicineDetail {
    const medicine: Medicine
    var quantity: int

    ghost predicate Valid()
      reads this
    {
      MinQuantity <= quantity <= MaxQuantity
    }

    constructor (medicine: Medicine)
      ensures this.medicine == medicine && quantity == 1 && Valid()
    {
      this.medicine := medicine;
      quantity := 1;
    }

    method HandleQuantityChange(change: int)
      requires Valid()
      modifies this
      ensures Valid()
      ensures quantity == ChangedQuantity(old(quantity), change)
    {
      var newQuantity := quantity + change;
      if newQuantity >= 1 && newQuantity <= 10 {
        quantity := newQuantity;
      }
    }

    /** "Add to Cart", a button disabled for a medicine out of stock: the
        medicine as it was given and the chosen quantity go to the caller. */
    method HandleAddToCart() returns (m: Medicine, q: int)
      requires Valid() && medicine.inStock
      ensures m == medicine && q == quantity
      ensures MinQuantity <= q <= MaxQuantity
    {
      m, q := medicine, quantity;
    }
  }
}
