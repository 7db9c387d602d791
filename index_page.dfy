/**
 * The application shell: which screen is shown, and the values the handlers pass from one
 * screen to the next (mobile, ration number, family size, the order and its total).
 */
module Index {
  import PS = ProductSelection

  /** The six screens, in the order a citizen meets them. */
  datatype Screen = Login | Otp | Dashboard | Products | Confirmation | Tracking

  /** The family size recorded for each of the four demo ration cards. */
  const FamilySizeMap: map<string, int> := map[
    "123456789012" := 2,
    "234567890123" := 3,
    "345678901234" := 4,
    "456789012345" := 5
  ]

  /**
   * The family size set on OTP verification: the table's value for a known ration card,
   * and 2 for any other (the `|| 2` fallback; no table value is 0).
   */
  function FamilySizeFor(rationNumber: string): (n: int)
    ensures 2 <= n <= 5
    ensures rationNumber !in FamilySizeMap ==> n == 2
    ensures rationNumber in FamilySizeMap ==> n == FamilySizeMap[rationNumber]
  {
    if rationNumber in FamilySizeMap && FamilySizeMap[rationNumber] != 0 then FamilySizeMap[rationNumber]
    else 2
  }

  /** Each demo card maps to its own size, and the four sizes are 2, 3, 4 and 5. */
  lemma FamilySizesOfDemoCards()
    ensures FamilySizeFor("123456789012") == 2 && FamilySizeFor("234567890123") == 3
    ensures FamilySizeFor("345678901234") == 4 && FamilySizeFor("456789012345") == 5
  {
  }

  /** The shell's state: one field per piece of state the page keeps. */
  class App {
    var screen: Screen
    var userMobile: string
    var rationNumber: string
    var familySize: int
    var selectedProducts: seq<PS.Entry>
    var orderTotal: real

    /** The family size is either the initial 0 or one that OTP verification set. */
    ghost predicate Valid()
      reads this
    {
      familySize == 0 || 2 <= familySize <= 5
    }

    /** The page opens on the login screen with everything empty. */
    constructor ()
      ensures Valid()
      ensures screen == Login && userMobile == "" && rationNumber == ""
      ensures familySize == 0 && selectedProducts == [] && orderTotal == 0.0
    {
      screen := Login;
      userMobile := "";
      rationNumber := "";
      familySize := 0;
      selectedProducts := [];
      orderTotal := 0.0;
    }

    /** The login form's callback: record both values as given and go to OTP. */
    method HandleLogin(ration: string, mobile: string)
      requires Valid()
      modifies this
      ensures Valid()
      ensures screen == Otp && userMobile == mobile && rationNumber == ration
      ensures familySize == old(familySize) && selectedProducts == old(selectedProducts)
      ensures orderTotal == old(orderTotal)
    {
      userMobile := mobile;
      rationNumber := ration;
      screen := Otp;
    }

    /**
     * The OTP screen's callback: set the family size from the recorded ration number and go
     * to the dashboard. The selected members are ignored.
     */
    method HandleOtpVerify(selectedMembers: seq<string>)
      requires Valid()
      modifies this
      ensures Valid()
      ensures screen == Dashboard && familySize == FamilySizeFor(rationNumber)
      ensures 2 <= familySize <= 5
      ensures userMobile == old(userMobile) && rationNumber == old(rationNumber)
      ensures selectedProducts == old(selectedProducts) && orderTotal == old(orderTotal)
    {
      familySize := FamilySizeFor(rationNumber);
      screen := Dashboard;
    }

    method HandleProductSelection()
      requires Valid()
      modifies this
      ensures Valid()
      ensures screen == Products
      ensures userMobile == old(userMobile) && rationNumber == old(rationNumber)
      ensures familySize == old(familySize)
      ensures selectedProducts == old(selectedProducts) && orderTotal == old(orderTotal)
    {
      screen := Products;
    }

    /** The basket's callback: keep exactly the items and total it forwards. */
    method HandleOrderConfirm(products: seq<PS.Entry>, total: real)
      requires Valid()
      modifies this
      ensures Valid()
      ensures screen == Confirmation && selectedProducts == products && orderTotal == total
      ensures userMobile == old(userMobile) && rationNumber == old(rationNumber)
      ensures familySize == old(familySize)
    {
      selectedProducts := products;
      orderTotal := total;
      screen := Confirmation;
    }

    /** The confirmation screen's callback, run by its two-second timer. */
    method HandleFinalConfirm()
      requires Valid()
      modifies this
      ensures Valid()
      ensures screen == Tracking
      ensures userMobile == old(userMobile) && rationNumber == old(rationNumber)
      ensures familySize == old(familySize)
      ensures selectedProducts == old(selectedProducts) && orderTotal == old(orderTotal)
    {
      screen := Tracking;
    }

    method HandleReturnHome()
      requires Valid()
      modifies this
      ensures Valid()
      ensures screen == Dashboard
      ensures userMobile == old(userMobile) && rationNumber == old(rationNumber)
      ensures familySize == old(familySize)
      ensures selectedProducts == old(selectedProducts) && orderTotal == old(orderTotal)
    {
      screen := Dashboard;
    }

    /** The dashboard's back button. */
    method BackToLogin()
      requires Valid()
      modifies this
      ensures Valid()
      ensures screen == Login
      ensures userMobile == old(userMobile) && rationNumber == old(rationNumber)
      ensures familySize == old(familySize)
      ensures selectedProducts == old(selectedProducts) && orderTotal == old(orderTotal)
    {
      screen := Login;
    }

    /** The product screen's back button. */
    method BackToDashboard()
      requires Valid()
      modifies this
      ensures Valid()
      ensures screen == Dashboard
      ensures userMobile == old(userMobile) && rationNumber == old(rationNumber)
      ensures familySize == old(familySize)
      ensures selectedProducts == old(selectedProducts) && orderTotal == old(orderTotal)
    {
      screen := Dashboard;
    }

    /** The confirmation screen's back button. */
    method BackToProducts()
      requires Valid()
      modifies this
      ensures Valid()
      ensures screen == Products
      ensures userMobile == old(userMobile) && rationNumber == old(rationNumber)
      ensures familySize == old(familySize)
      ensures selectedProducts == old(selectedProducts) && orderTotal == old(orderTotal)
    {
      screen := Products;
    }
  }
}
