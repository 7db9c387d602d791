/**
 * The OTP screen: the family members listed for a ration card, the six OTP slots, the resend
 * countdown, the choice of one member, the verify button and its timer, the masked mobile
 * number and the members' initials.
 */
module OtpVerification {
  import opened Wrappers

  datatype Gender = Male | Female

  datatype Member = Member(id: string, name: string, relation: string, age: nat, gender: Gender)

  const FamilyMembers: map<string, seq<Member>> := map[
    "123456789012" := [
      Member("1", "Ramesh Kumar", "Head", 45, Male),
      Member("2", "Priya Ramesh", "Spouse", 40, Female)
    ],
    "234567890123" := [
      Member("1", "Suresh Patel", "Head", 42, Male),
      Member("2", "Lakshmi Suresh", "Spouse", 38, Female),
      Member("3", "Arun Suresh", "Son", 15, Male)
    ],
    "345678901234" := [
      Member("1", "Vijay Sharma", "Head", 48, Male),
      Member("2", "Meena Vijay", "Spouse", 44, Female),
      Member("3", "Kavya Vijay", "Daughter", 18, Female),
      Member("4", "Arjun Vijay", "Son", 14, Male)
    ],
    "456789012345" := [
      Member("1", "Murugan Raj", "Head", 50, Male),
      Member("2", "Saranya Murugan", "Spouse", 46, Female),
      Member("3", "Deepak Murugan", "Son", 20, Male),
      Member("4", "Priya Murugan", "Daughter", 16, Female),
      Member("5", "Kamala Devi", "Mother", 72, Female)
    ]
  ]

  const FallbackCard: string := "123456789012"

  /** The members shown for a ration card; an unknown card shows the first demo family. */
  function MembersFor(rationNumber: string): (ms: seq<Member>)
    ensures rationNumber in FamilyMembers ==> ms == FamilyMembers[rationNumber]
    ensures rationNumber !in FamilyMembers ==> ms == FamilyMembers[FallbackCard]
    ensures 2 <= |ms| <= 5
  {
    if rationNumber in FamilyMembers then FamilyMembers[rationNumber] else FamilyMembers[FallbackCard]
  }

  /** Within every family the member ids are distinct. */
  ghost predicate DistinctIds(ms: seq<Member>)
  {
    forall i, j :: 0 <= i < j < |ms| ==> ms[i].id != ms[j].id
  }

  lemma FamiliesHaveDistinctIds(rationNumber: string)
    ensures DistinctIds(MembersFor(rationNumber))
  {
  }

  /** A selected id highlights at most one member of the list. */
  lemma {:induction false} AtMostOneHighlighted(ms: seq<Member>, selected: string, i: nat, j: nat)
    requires DistinctIds(ms)
    requires i < |ms| && j < |ms|
    requires ms[i].id == selected && ms[j].id == selected
    ensures i == j
  {
  }

  // ---------------------------------------------------------------------------------------
  // The OTP slots

  /** The string as an array of one-character strings, as `split("")` gives it. */
  function Chars(s: string): (ps: seq<string>)
    ensures |ps| == |s|
    ensures forall k :: 0 <= k < |s| ==> ps[k] == [s[k]]
  {
    if s == [] then [] else [[s[0]]] + Chars(s[1..])
  }

  /** `join("")`: the pieces one after the other; a hole contributes nothing. */
  function Concat(ps: seq<string>): string
  {
    if ps == [] then [] else ps[0] + Concat(ps[1..])
  }

  function Holes(n: nat): (ps: seq<string>)
    ensures |ps| == n
    ensures forall k :: 0 <= k < n ==> ps[k] == ""
  {
    if n == 0 then [] else [""] + Holes(n - 1)
  }

  /**
   * `newOtp[index] = value` on the array: an index inside it replaces that element; an index
   * beyond it leaves holes up to the index.
   */
  function AssignSlot(ps: seq<string>, index: nat, value: string): (r: seq<string>)
    ensures |r| == if index < |ps| then |ps| else index + 1
  {
    if index < |ps| then ps[index := value] else ps + Holes(index - |ps|) + [value]
  }

  /**
   * The OTP after a slot edit, in closed form: typing a character over an existing one replaces
   * it; clearing a slot removes its character and closes the gap; typing into a slot at or
   * beyond the end appends, whatever slot it was.
   */
  function SlotEdit(otp: string, index: nat, value: string): (r: string)
    requires |value| <= 1
    ensures index < |otp| && |value| == 1 ==>
      |r| == |otp| && r[index] == value[0] && forall k :: 0 <= k < |otp| && k != index ==> r[k] == otp[k]
    ensures index < |otp| && value == "" ==> |r| == |otp| - 1 && r == otp[..index] + otp[index + 1..]
    ensures index >= |otp| ==> r == otp + value
  {
    if index < |otp| then otp[..index] + value + otp[index + 1..] else otp + value
  }

  lemma {:induction false} ConcatAppend(a: seq<string>, b: seq<string>)
    ensures Concat(a + b) == Concat(a) + Concat(b)
  {
    if a != [] {
      assert (a + b)[0] == a[0];
      assert (a + b)[1..] == a[1..] + b;
      ConcatAppend(a[1..], b);
      assert Concat(a + b) == a[0] + (Concat(a[1..]) + Concat(b));
      assert a[0] + (Concat(a[1..]) + Concat(b)) == (a[0] + Concat(a[1..])) + Concat(b);
    } else {
      assert a + b == b;
    }
  }

  lemma {:induction false} ConcatChars(s: string)
    ensures Concat(Chars(s)) == s
  {
    if s != [] {
      ConcatChars(s[1..]);
      assert Chars(s)[1..] == Chars(s[1..]);
    }
  }

  lemma {:induction false} ConcatHoles(n: nat)
    ensures Concat(Holes(n)) == ""
  {
    if n > 0 {
      ConcatHoles(n - 1);
      assert Holes(n)[1..] == Holes(n - 1);
    }
  }

  lemma CharsSplit(s: string, i: nat)
    requires i < |s|
    ensures Chars(s) == Chars(s[..i]) + [[s[i]]] + Chars(s[i + 1..])
  {
    var lhs, rhs := Chars(s), Chars(s[..i]) + [[s[i]]] + Chars(s[i + 1..]);
    assert |lhs| == |rhs|;
    forall k | 0 <= k < |lhs|
      ensures lhs[k] == rhs[k]
    {
      if k < i {
        assert rhs[k] == Chars(s[..i])[k];
      } else if k > i {
        assert rhs[k] == Chars(s[i + 1..])[k - i - 1];
      }
    }
  }

  /** Replacing the middle element of a three-part sequence. */
  lemma UpdateMiddle(a: seq<string>, x: string, b: seq<string>, v: string)
    ensures (a + [x] + b)[|a| := v] == a + [v] + b
  {
  }

  lemma ConcatSingle(v: string)
    ensures Concat([v]) == v
  {
    assert [v][1..] == [];
  }

  /** Inside the array, the update and `join("")` give the closed form. */
  lemma AssignInside(otp: string, index: nat, value: string)
    requires |value| <= 1 && index < |otp|
    ensures Concat(AssignSlot(Chars(otp), index, value)) == SlotEdit(otp, index, value)
  {
    var before, after := Chars(otp[..index]), Chars(otp[index + 1..]);
    calc {
      Concat(AssignSlot(Chars(otp), index, value));
      Concat(Chars(otp)[index := value]);
      { CharsSplit(otp, index); UpdateMiddle(before, [otp[index]], after, value); }
      Concat(before + [value] + after);
      { ConcatAppend(before + [value], after); }
      Concat(before + [value]) + Concat(after);
      { ConcatAppend(before, [value]); ConcatSingle(value); }
      Concat(before) + value + Concat(after);
      { ConcatChars(otp[..index]); ConcatChars(otp[index + 1..]); }
      otp[..index] + value + otp[index + 1..];
    }
  }

  /** Holes joined between some pieces and a last one add nothing. */
  lemma ConcatPastHoles(ps: seq<string>, n: nat, value: string)
    ensures Concat(ps + Holes(n) + [value]) == Concat(ps) + value
  {
    var holes := Holes(n);
    calc {
      Concat(ps + holes + [value]);
      { ConcatAppend(ps + holes, [value]); }
      Concat(ps + holes) + Concat([value]);
      { ConcatAppend(ps, holes); ConcatSingle(value); ConcatHoles(n); }
      Concat(ps) + value;
    }
  }

  /** At or beyond the end, the holes add nothing and the value is appended. */
  lemma AssignBeyond(otp: string, index: nat, value: string)
    requires |value| <= 1 && index >= |otp|
    ensures Concat(AssignSlot(Chars(otp), index, value)) == SlotEdit(otp, index, value)
  {
    ConcatPastHoles(Chars(otp), index - |otp|, value);
    ConcatChars(otp);
  }

  /** The closed form is what the array update followed by `join("")` gives. */
  lemma SlotEditIsArrayUpdate(otp: string, index: nat, value: string)
    requires |value| <= 1
    ensures Concat(AssignSlot(Chars(otp), index, value)) == SlotEdit(otp, index, value)
  {
    if index < |otp| {
      AssignInside(otp, index, value);
    } else {
      AssignBeyond(otp, index, value);
    }
  }

  /** An edit of one of the six slots never makes the OTP longer than six characters. */
  lemma SlotEditKeepsSixOrFewer(otp: string, index: nat, value: string)
    requires |otp| <= 6 && index < 6 && |value| <= 1
    ensures |SlotEdit(otp, index, value)| <= 6
  {
  }

  // ---------------------------------------------------------------------------------------
  // The masked mobile number

  predicate IsDigit(c: char)
  {
    '0' <= c <= '9'
  }

  /** Ten digits start at position i (`\d{3}\d{4}\d{3}`). */
  predicate DigitRunAt(s: string, i: nat)
  {
    i + 10 <= |s| && forall j :: i <= j < i + 10 ==> IsDigit(s[j])
  }

  /** The leftmost position at or after i where ten digits start, or |s| if none does. */
  function FirstDigitRun(s: string, i: nat): (r: nat)
    requires i <= |s|
    ensures i <= r <= |s|
    ensures r < |s| ==> DigitRunAt(s, r)
    ensures forall j :: i <= j < r ==> !DigitRunAt(s, j)
    decreases |s| - i
  {
    if i == |s| then i
    else if DigitRunAt(s, i) then i
    else FirstDigitRun(s, i + 1)
  }

  /**
   * The mobile number as shown: the first ten-digit run keeps its first three and last three
   * digits, with `****` between them; a string without such a run is shown unchanged.
   */
  function MaskMobile(s: string): (r: string)
    ensures |r| == |s|
    ensures (forall i :: 0 <= i <= |s| ==> !DigitRunAt(s, i)) ==> r == s
  {
    var k := FirstDigitRun(s, 0);
    if k < |s| then s[..k + 3] + "****" + s[k + 7..] else s
  }

  /** Replacing the four characters after position k + 3 of a ten-character window. */
  lemma MaskAtWindow(s: string, k: nat)
    requires k + 10 <= |s|
    ensures var r := s[..k + 3] + "****" + s[k + 7..];
      |r| == |s| && forall j :: 0 <= j < |s| ==> r[j] == if k + 3 <= j < k + 7 then '*' else s[j]
  {
    var r := s[..k + 3] + "****" + s[k + 7..];
    forall j | 0 <= j < |s|
      ensures r[j] == if k + 3 <= j < k + 7 then '*' else s[j]
    {
      if j < k + 3 {
        assert r[j] == s[..k + 3][j];
      } else if j < k + 7 {
        assert r[j] == "****"[j - k - 3];
      } else {
        assert r[j] == s[k + 7..][j - k - 7];
      }
    }
  }

  /** Exactly four characters are replaced, those after the first three of the leftmost run. */
  lemma MaskHidesMiddleFour(s: string)
    requires exists i :: 0 <= i <= |s| && DigitRunAt(s, i)
    ensures var k := FirstDigitRun(s, 0);
      DigitRunAt(s, k) && forall j :: 0 <= j < |s| ==>
        MaskMobile(s)[j] == if k + 3 <= j < k + 7 then '*' else s[j]
  {
    var i :| 0 <= i <= |s| && DigitRunAt(s, i);
    var k := FirstDigitRun(s, 0);
    assert k < |s|;
    assert MaskMobile(s) == s[..k + 3] + "****" + s[k + 7..];
    MaskAtWindow(s, k);
  }

  /** A ten-digit mobile is shown as its first three digits, `****`, and its last three. */
  lemma MaskTenDigits(s: string)
    requires |s| == 10 && forall j :: 0 <= j < 10 ==> IsDigit(s[j])
    ensures MaskMobile(s) == s[..3] + "****" + s[7..]
  {
    assert DigitRunAt(s, 0);
  }

  // ---------------------------------------------------------------------------------------
  // The avatar initials

  /** `split(" ")`: the pieces between single spaces, empty ones included. */
  function Split(s: string): (r: seq<string>)
    ensures |r| >= 1
    ensures forall k :: 0 <= k < |r| ==> ' ' !in r[k]
  {
    if s == [] then [""]
    else if s[0] == ' ' then [""] + Split(s[1..])
    else
      var rest := Split(s[1..]);
      [[s[0]] + rest[0]] + rest[1..]
  }

  /** `join(" ")`, the inverse of `Split`. */
  function Join(ps: seq<string>): string
    requires |ps| >= 1
  {
    if |ps| == 1 then ps[0] else ps[0] + " " + Join(ps[1..])
  }

  /** Splitting on single spaces and joining back gives the name again. */
  lemma {:induction false} SplitJoin(s: string)
    ensures Join(Split(s)) == s
  {
    if s != [] {
      SplitJoin(s[1..]);
      var rest := Split(s[1..]);
      if s[0] == ' ' {
        assert ([""] + rest)[1..] == rest;
        assert [s[0]] + s[1..] == s;
      } else {
        var ps := [[s[0]] + rest[0]] + rest[1..];
        if |rest| == 1 {
          assert Join(ps) == [s[0]] + rest[0];
        } else {
          assert ps[1..] == rest[1..];
          assert Join(rest) == rest[0] + " " + Join(rest[1..]);
        }
        assert [s[0]] + s[1..] == s;
      }
    }
  }

  /** `map(n => n[0]).join("")`: the first character of each piece; an empty piece gives nothing. */
  function Heads(ps: seq<string>): string
  {
    if ps == [] then []
    else (if ps[0] == [] then [] else [ps[0][0]]) + Heads(ps[1..])
  }

  /** The avatar text for a member's name. */
  function Initials(name: string): string
  {
    Heads(Split(name))
  }

  /**
   * The characters of a name that begin a word: those that are not a space and follow a
   * space or the start (when `atStart` holds).
   */
  function WordStarts(s: string, atStart: bool): string
  {
    if s == [] then []
    else if s[0] == ' ' then WordStarts(s[1..], true)
    else (if atStart then [s[0]] else []) + WordStarts(s[1..], false)
  }

  /**
   * The initials are exactly the characters that start a word, in order; the pieces after the
   * first word give the word starts past it.
   */
  lemma {:induction false} InitialsAreWordStarts(s: string)
    ensures Initials(s) == WordStarts(s, true)
    ensures Heads(Split(s)[1..]) == WordStarts(s, false)
  {
    if s != [] {
      InitialsAreWordStarts(s[1..]);
      var rest := Split(s[1..]);
      if s[0] == ' ' {
        assert Split(s) == [""] + rest;
        assert Split(s)[1..] == rest;
        assert Heads(Split(s)) == Heads(rest);
      } else {
        var ps := [[s[0]] + rest[0]] + rest[1..];
        assert Split(s) == ps;
        assert ps[1..] == rest[1..];
        assert Heads(ps) == [s[0]] + Heads(rest[1..]);
      }
    }
  }

  // ---------------------------------------------------------------------------------------
  // The screen's state

  const ResendSeconds: int := 30

  class OtpForm {
    const members: seq<Member>
    var otp: string
    var selectedMember: string
    var verifying: bool
    var timeLeft: int
    /** The member the pending verify timer will report, fixed when verify was pressed. */
    var reported: string

    ghost predicate Valid()
      reads this
    {
      |otp| <= 6 && 0 <= timeLeft <= ResendSeconds && DistinctIds(members)
    }

    /** The screen for a ration card: empty OTP, nobody selected, thirty seconds to go. */
    constructor (rationNumber: string)
      ensures Valid()
      ensures members == MembersFor(rationNumber)
      ensures otp == "" && selectedMember == "" && !verifying && timeLeft == ResendSeconds
    {
      members := MembersFor(rationNumber);
      otp := "";
      selectedMember := "";
      verifying := false;
      timeLeft := ResendSeconds;
      reported := "";
      new;
      FamiliesHaveDistinctIds(rationNumber);
    }

    /** One second of the countdown: down by one, never below zero. */
    method Tick()
      requires Valid()
      modifies this
      ensures Valid()
      ensures timeLeft == if old(timeLeft) > 0 then old(timeLeft) - 1 else 0
      ensures timeLeft <= old(timeLeft)
      ensures otp == old(otp) && selectedMember == old(selectedMember)
      ensures verifying == old(verifying) && reported == old(reported)
    {
      timeLeft := if timeLeft > 0 then timeLeft - 1 else 0;
    }

    /** The resend button replaces the countdown text once it has reached zero. */
    predicate ResendOffered()
      reads this
    {
      timeLeft == 0
    }

    /** A click on the resend button, which exists only once the countdown has reached zero. */
    method Resend()
      requires Valid()
      requires ResendOffered()
      modifies this
      ensures Valid()
      ensures timeLeft == ResendSeconds && !ResendOffered()
      ensures otp == old(otp) && selectedMember == old(selectedMember)
      ensures verifying == old(verifying) && reported == old(reported)
    {
      timeLeft := ResendSeconds;
    }

    /** A change in slot `index`; the slot's one-character limit keeps `value` that short. */
    method EditSlot(index: nat, value: string)
      requires Valid()
      requires index < 6 && |value| <= 1
      modifies this
      ensures Valid()
      ensures otp == SlotEdit(old(otp), index, value)
      ensures selectedMember == old(selectedMember) && timeLeft == old(timeLeft)
      ensures verifying == old(verifying) && reported == old(reported)
    {
      SlotEditKeepsSixOrFewer(otp, index, value);
      otp := SlotEdit(otp, index, value);
    }

    /** A click on a member replaces any earlier choice. */
    method SelectMember(id: string)
      requires Valid()
      modifies this
      ensures Valid()
      ensures selectedMember == id
      ensures otp == old(otp) && timeLeft == old(timeLeft)
      ensures verifying == old(verifying) && reported == old(reported)
    {
      selectedMember := id;
    }

    /** The verify button is enabled for a six-character OTP and a chosen member. */
    predicate CanVerify()
      reads this
    {
      |otp| == 6 && !verifying && selectedMember != ""
    }

    /** A press on the verify button; a disabled button does nothing. */
    method PressVerify() returns (started: bool)
      requires Valid()
      modifies this
      ensures Valid()
      ensures started <==> old(CanVerify())
      ensures started ==> verifying && reported == old(selectedMember)
      ensures !started ==> verifying == old(verifying) && reported == old(reported)
      ensures otp == old(otp) && selectedMember == old(selectedMember) && timeLeft == old(timeLeft)
    {
      started := CanVerify();
      if started {
        verifying := true;
        reported := selectedMember;
      }
    }

    /**
     * The verify timer: report the member chosen when verify was pressed, as a one-element
     * list, and stop verifying.
     */
    method VerifyFires() returns (selectedMembers: seq<string>)
      requires Valid()
      requires verifying
      modifies this
      ensures Valid()
      ensures selectedMembers == [old(reported)] && !verifying
      ensures otp == old(otp) && selectedMember == old(selectedMember) && timeLeft == old(timeLeft)
    {
      selectedMembers := [reported];
      verifying := false;
    }
  }
}
