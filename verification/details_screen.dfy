/**
 * The first-time details form: three text fields, a validator whose checks
 * run in a fixed order with the first failure winning, and the save state
 * machine Idle -> Loading -> Success | Error(message).
 */
module DetailsScreen {
  import opened Wrappers
  import opened KotlinText
  import opened RemoteStore

  /** The lifecycle of one save attempt; only Error carries a message. */
  datatype SaveState = Idle | Loading | Success | Error(message: string)

  const UserNotAuthenticated := "User not authenticated"
  const NameCannotBeEmpty := "Name cannot be empty"
  const InvalidAge := "Please enter a valid age"
  const InvalidPhone := "Please enter a valid 10-digit phone number"
  const SaveFailed := "Failed to save details"
  const UnexpectedError := "An unexpected error occurred"

  /** An acceptable age: non-empty, every character a Unicode decimal digit. */
  predicate ValidAge(age: string) {
    |age| > 0 && forall i :: 0 <= i < |age| ==> IsDigit(age[i])
  }

  /** An acceptable phone number: exactly ten ASCII digits. */
  predicate ValidPhone(phone: string) {
    |phone| == 10 && forall i :: 0 <= i < |phone| ==> IsAsciiDigit(phone[i])
  }

  /**
   * The checks of the save action, in the order they run: the message of
   * the first one that fails, or None when all pass. Without a user the
   * fields are never looked at.
   */
  function CheckDetails(user: Option<User>, name: string, age: string, phone: string): (r: Option<string>)
    ensures user.None? ==> r == Some(UserNotAuthenticated)
    ensures r.Some? ==> r.value in {UserNotAuthenticated, NameCannotBeEmpty, InvalidAge, InvalidPhone}
  {
    if user.None? then Some(UserNotAuthenticated)
    else if IsBlank(name) then Some(NameCannotBeEmpty)
    else if IsBlank(age) || !All(age, IsDigit) then Some(InvalidAge)
    else if IsBlank(phone) || !MatchesDigitRun(phone, 10) then Some(InvalidPhone)
    else None
  }

  /**
   * Each outcome of the checks, characterised in both directions: a check
   * reports its message exactly when every earlier check passed and it
   * fails, and the details are accepted exactly when all four hold.
   */
  lemma CheckDetailsCases(user: Option<User>, name: string, age: string, phone: string)
    ensures CheckDetails(user, name, age, phone) == None
        <==> user.Some? && !IsBlank(name) && ValidAge(age) && ValidPhone(phone)
    ensures CheckDetails(user, name, age, phone) == Some(UserNotAuthenticated) <==> user.None?
    ensures CheckDetails(user, name, age, phone) == Some(NameCannotBeEmpty)
        <==> user.Some? && IsBlank(name)
    ensures CheckDetails(user, name, age, phone) == Some(InvalidAge)
        <==> user.Some? && !IsBlank(name) && !ValidAge(age)
    ensures CheckDetails(user, name, age, phone) == Some(InvalidPhone)
        <==> user.Some? && !IsBlank(name) && ValidAge(age) && !ValidPhone(phone)
  {
    BlankOrNotAllDigits(age);
    BlankNeverMatchesDigitRun(phone, 10);
  }

  /**
   * The age check takes any decimal digit of the Basic Multilingual Plane,
   * the phone check only ASCII ones: an age written in Arabic-Indic digits
   * is accepted, the same kind of digit in a phone number is not, and an age
   * in mathematical bold digits (surrogate pairs to Kotlin) is rejected.
   */
  lemma NonAsciiDigitsInDetails(u: User)
    ensures CheckDetails(Some(u), "Ann", "\U{0663}\U{0660}", "5551234567") == None
    ensures CheckDetails(Some(u), "Ann", "30", "\U{0665}551234567") == Some(InvalidPhone)
    ensures CheckDetails(Some(u), "Ann", "\U{1D7D1}\U{1D7CE}", "5551234567") == Some(InvalidAge)
  {
    AnnIsNotBlank();
    var arabicAge, boldAge := "\U{0663}\U{0660}", "\U{1D7D1}\U{1D7CE}";
    assert !IsBlank(arabicAge) && All(arabicAge, IsDigit) by {
      assert !IsWhitespace(arabicAge[0]);
    }
    assert !All(boldAge, IsDigit) by {
      assert !IsDigit(boldAge[0]);
    }
    ThirtyIsAnAge();
    TenDigitPhone();
    assert !MatchesDigitRun("\U{0665}551234567", 10);
  }

  /** "Ann", aged "30", with phone "5551234567", passes every check. */
  lemma AnnPassesChecks(u: User)
    ensures CheckDetails(Some(u), "Ann", "30", "5551234567") == None
  {
    AnnIsNotBlank();
    ThirtyIsAnAge();
    TenDigitPhone();
  }

  /** The name "Ann" is not blank. */
  lemma AnnIsNotBlank()
    ensures !IsBlank("Ann")
  {
    assert !IsWhitespace("Ann"[0]);
  }

  /** The age "30" passes its check. */
  lemma ThirtyIsAnAge()
    ensures !IsBlank("30") && All("30", IsDigit)
  {
    assert !IsWhitespace("30"[0]);
  }

  /** The phone number "5551234567" passes its check. */
  lemma TenDigitPhone()
    ensures !IsBlank("5551234567") && MatchesDigitRun("5551234567", 10)
  {
    var phone := "5551234567";
    assert !IsWhitespace(phone[0]);
    assert forall i :: 0 <= i < |phone| ==> IsAsciiDigit(phone[i]);
  }

  /** The record written on a valid save: exactly the keys name, age and phone. */
  function DetailsRecord(name: string, age: string, phone: string): (m: map<string, string>)
    ensures m.Keys == {"name", "age", "phone"}
    ensures m["name"] == name && m["age"] == age && m["phone"] == phone
  {
    map["name" := name, "age" := age, "phone" := phone]
  }

  /** The save button's `enabled`: enabled in every state but Loading. */
  function SaveEnabled(s: SaveState): (enabled: bool)
    ensures enabled <==> s == Idle || s == Success || s.Error?
  {
    s != Loading
  }

  class DetailsViewModel {
    var name: string
    var age: string
    var phoneNumber: string
    var saveState: SaveState
    /** Every call issued to the remote database, in order. */
    var calls: seq<Call>
    /** Every value published on `saveState`, in order, starting with the initial one. */
    ghost var emitted: seq<SaveState>
    /** Dispatched writes whose success or failure listener has not fired yet. */
    ghost var pendingWrites: nat

    /**
     * The trace ends with the current state; every call is a write of a
     * details record, and each pending listener belongs to one of them.
     */
    ghost predicate Valid()
      reads this
    {
      && |emitted| > 0 && emitted[|emitted| - 1] == saveState
      && (forall k :: 0 <= k < |calls| ==> calls[k].SetValue? && calls[k].value.Fields?)
      && pendingWrites <= |calls|
    }

    constructor ()
      ensures Valid()
      ensures name == "" && age == "" && phoneNumber == ""
      ensures saveState == Idle && emitted == [Idle] && calls == [] && pendingWrites == 0
    {
      name, age, phoneNumber, saveState := "", "", "", Idle;
      calls, emitted, pendingWrites := [], [Idle], 0;
    }

    method UpdateName(newName: string)
      requires Valid()
      modifies this`name
      ensures Valid()
      ensures name == newName
      ensures age == old(age) && phoneNumber == old(phoneNumber) && saveState == old(saveState)
    {
      name := newName;
    }

    method UpdateAge(newAge: string)
      requires Valid()
      modifies this`age
      ensures Valid()
      ensures age == newAge
      ensures name == old(name) && phoneNumber == old(phoneNumber) && saveState == old(saveState)
    {
      age := newAge;
    }

    method UpdatePhoneNumber(newPhoneNumber: string)
      requires Valid()
      modifies this`phoneNumber
      ensures Valid()
      ensures phoneNumber == newPhoneNumber
      ensures name == old(name) && age == old(age) && saveState == old(saveState)
    {
      phoneNumber := newPhoneNumber;
    }

    /** Publishes a new save state. */
    method Emit(s: SaveState)
      modifies this`saveState, this`emitted
      ensures saveState == s && emitted == old(emitted) + [s]
    {
      saveState := s;
      emitted := emitted + [s];
    }

    /**
     * The save action, up to the point where the write is handed to the
     * database with its listeners attached (or throws). A failed check
     * publishes its Error without passing through Loading and writes
     * nothing; otherwise Loading is published and the record written.
     */
    method SaveUserDetails(user: Option<User>, dispatch: Dispatch)
      requires Valid()
      modifies this`saveState, this`emitted, this`calls, this`pendingWrites
      ensures Valid()
      ensures CheckDetails(user, name, age, phoneNumber).Some? ==>
                && saveState == Error(CheckDetails(user, name, age, phoneNumber).value)
                && emitted == old(emitted) + [saveState]
                && calls == old(calls) && pendingWrites == old(pendingWrites)
      ensures CheckDetails(user, name, age, phoneNumber).None? && dispatch.Dispatched? ==>
                && saveState == Loading
                && emitted == old(emitted) + [Loading]
                && calls == old(calls) + [SetValue(UserPath(user.value.uid), Fields(DetailsRecord(name, age, phoneNumber)))]
                && pendingWrites == old(pendingWrites) + 1
      ensures CheckDetails(user, name, age, phoneNumber).None? && dispatch.Threw? ==>
                && saveState == Error(dispatch.message.OrElse(UnexpectedError))
                && emitted == old(emitted) + [Loading, saveState]
                && calls == old(calls) && pendingWrites == old(pendingWrites)
      ensures !SaveEnabled(saveState) <==> CheckDetails(user, name, age, phoneNumber).None? && dispatch.Dispatched?
    {
      var failure := CheckDetails(user, name, age, phoneNumber);
      if failure.Some? {
        Emit(Error(failure.value));
        return;
      }
      Emit(Loading);
      var record := DetailsRecord(name, age, phoneNumber);
      match dispatch
      case Dispatched =>
        calls := calls + [SetValue(UserPath(user.value.uid), Fields(record))];
        pendingWrites := pendingWrites + 1;
      case Threw(message) =>
        Emit(Error(message.OrElse(UnexpectedError)));
    }

    /** The success listener of a dispatched write. */
    method OnSaveSucceeded()
      requires Valid() && pendingWrites > 0
      modifies this`saveState, this`emitted, this`pendingWrites
      ensures Valid()
      ensures saveState == Success && emitted == old(emitted) + [Success]
      ensures pendingWrites == old(pendingWrites) - 1
      ensures calls != [] && calls[|calls| - 1].SetValue?
    {
      Emit(Success);
      pendingWrites := pendingWrites - 1;
    }

    /** The failure listener of a dispatched write: the failure's message, or a fallback. */
    method OnSaveFailed(message: Option<string>)
      requires Valid() && pendingWrites > 0
      modifies this`saveState, this`emitted, this`pendingWrites
      ensures Valid()
      ensures saveState == Error(message.OrElse(SaveFailed)) && emitted == old(emitted) + [saveState]
      ensures pendingWrites == old(pendingWrites) - 1
      ensures calls != [] && calls[|calls| - 1].SetValue?
    {
      Emit(Error(message.OrElse(SaveFailed)));
      pendingWrites := pendingWrites - 1;
    }
  }

  /**
   * Valid details on a fresh form: the save passes through Loading, writes
   * the three fields under the user's node, and ends in Success once the
   * write is acknowledged.
   */
  method ValidSaveScenario(u: User) returns (vm: DetailsViewModel)
    ensures vm.emitted == [Idle, Loading, Success]
    ensures vm.calls == [SetValue(UserPath(u.uid), Fields(DetailsRecord("Ann", "30", "5551234567")))]
  {
    vm := new DetailsViewModel();
    vm.UpdateName("Ann");
    vm.UpdateAge("30");
    vm.UpdatePhoneNumber("5551234567");
    AnnPassesChecks(u);
    vm.SaveUserDetails(Some(u), Dispatched);
    vm.OnSaveSucceeded();
  }

  /**
   * A blank name on an otherwise valid form: the save ends in the name's
   * Error without ever publishing Loading or writing anything.
   */
  method BlankNameScenario(u: User) returns (vm: DetailsViewModel)
    ensures vm.emitted == [Idle, Error("Name cannot be empty")] && vm.calls == []
  {
    vm := new DetailsViewModel();
    vm.UpdateAge("30");
    vm.UpdatePhoneNumber("5551234567");
    assert IsBlank("");
    vm.SaveUserDetails(Some(u), Dispatched);
  }
}
