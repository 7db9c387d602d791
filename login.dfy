/**
 * The login form: the ration-card and mobile inputs with their length caps, the submit
 * button's guard, and the one-second timer that hands both values to the shell.
 */
module Login {
  import Index
  import OtpVerification

  datatype DemoAccount = DemoAccount(rationCard: string, mobile: string, familyCount: nat)

  const DemoAccounts: seq<DemoAccount> := [
    DemoAccount("123456789012", "9876543210", 2),
    DemoAccount("234567890123", "9876543211", 3),
    DemoAccount("345678901234", "9876543212", 4),
    DemoAccount("456789012345", "9876543213", 5)
  ]

  const RationLength: nat := 12
  const MobileLength: nat := 10

  /**
   * The member count printed beside each demo account is the family size the shell sets for
   * that card and the number of members the OTP screen lists for it.
   */
  lemma DemoAccountsAgree(k: nat)
    requires k < |DemoAccounts|
    ensures var a := DemoAccounts[k];
      a.rationCard in Index.FamilySizeMap && a.rationCard in OtpVerification.FamilyMembers &&
      a.familyCount == Index.FamilySizeFor(a.rationCard) &&
      a.familyCount == |OtpVerification.MembersFor(a.rationCard)|
  {
  }

  /** Every demo account fills both inputs exactly to their caps. */
  lemma DemoAccountsFitTheForm(k: nat)
    requires k < |DemoAccounts|
    ensures |DemoAccounts[k].rationCard| == RationLength && |DemoAccounts[k].mobile| == MobileLength
  {
  }

  class LoginForm {
    var rationNumber: string
    var mobileNumber: string
    var loading: bool
    /** The values the pending timer will hand over, fixed when submit was pressed. */
    var reportedRation: string
    var reportedMobile: string

    ghost predicate Valid()
      reads this
    {
      |rationNumber| <= RationLength && |mobileNumber| <= MobileLength
    }

    constructor ()
      ensures Valid()
      ensures rationNumber == "" && mobileNumber == "" && !loading
    {
      rationNumber := "";
      mobileNumber := "";
      loading := false;
      reportedRation := "";
      reportedMobile := "";
    }

    /** An edit of the ration-card input; the input refuses a value past twelve characters. */
    method EditRation(typed: string)
      requires Valid()
      modifies this
      ensures Valid()
      ensures rationNumber == if |typed| <= RationLength then typed else old(rationNumber)
      ensures mobileNumber == old(mobileNumber) && loading == old(loading)
      ensures reportedRation == old(reportedRation) && reportedMobile == old(reportedMobile)
    {
      if |typed| <= RationLength {
        rationNumber := typed;
      }
    }

    /** An edit of the mobile input; the input refuses a value past ten characters. */
    method EditMobile(typed: string)
      requires Valid()
      modifies this
      ensures Valid()
      ensures mobileNumber == if |typed| <= MobileLength then typed else old(mobileNumber)
      ensures rationNumber == old(rationNumber) && loading == old(loading)
      ensures reportedRation == old(reportedRation) && reportedMobile == old(reportedMobile)
    {
      if |typed| <= MobileLength {
        mobileNumber := typed;
      }
    }

    /**
     * The submit button is enabled for a twelve-character ration number and a ten-character
     * mobile, whatever the characters are, unless a submission is under way.
     */
    predicate CanSubmit()
      reads this
    {
      !loading && |rationNumber| == RationLength && |mobileNumber| == MobileLength
    }

    /** A submission; a disabled button does nothing. */
    method PressSubmit() returns (started: bool)
      requires Valid()
      modifies this
      ensures Valid()
      ensures started <==> old(CanSubmit())
      ensures started ==> loading && reportedRation == rationNumber && reportedMobile == mobileNumber
      ensures !started ==> loading == old(loading) && reportedRation == old(reportedRation)
      ensures !started ==> reportedMobile == old(reportedMobile)
      ensures rationNumber == old(rationNumber) && mobileNumber == old(mobileNumber)
    {
      started := CanSubmit();
      if started {
        loading := true;
        reportedRation := rationNumber;
        reportedMobile := mobileNumber;
      }
    }

    /**
     * The submit timer: hand the ration number and mobile, as they were when submit was
     * pressed and in that order, to the shell, and stop loading.
     */
    method SubmitFires() returns (ration: string, mobile: string)
      requires Valid()
      requires loading
      modifies this
      ensures Valid()
      ensures ration == old(reportedRation) && mobile == old(reportedMobile) && !loading
      ensures rationNumber == old(rationNumber) && mobileNumber == old(mobileNumber)
    {
      ration, mobile := reportedRation, reportedMobile;
      loading := false;
    }
  }

  /**
   * A demo account typed in and submitted reaches the shell unchanged: the timer hands over
   * exactly the card and mobile that were typed.
   */
  method SubmitDemoAccount(k: nat) returns (ration: string, mobile: string)
    requires k < |DemoAccounts|
    ensures ration == DemoAccounts[k].rationCard && mobile == DemoAccounts[k].mobile
  {
    var form := new LoginForm();
    form.EditRation(DemoAccounts[k].rationCard);
    form.EditMobile(DemoAccounts[k].mobile);
    var started := form.PressSubmit();
    assert started;
    ration, mobile := form.SubmitFires();
  }
}
