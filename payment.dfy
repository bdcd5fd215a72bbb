/**
 The payment form on the confirmation page: the bank-code table that fills in
 the bank name, and the validation chain of the submit handler, which either
 rejects the form with one of three reasons or yields the payment descriptor
 shown in the confirmation prompt.
 */
module Payment {
  import opened Common
  import opened Phone

  /** The radio values that select a bank transfer; each is also a key of the bank table. */
  const KnownBankCodes: seq<string> := ["cbe", "awash", "abyssinia", "dashen", "nib"]

  /** `bankNames[code] || ''`: the display name filled into the bank-name field. */
  function BankName(code: string): (r: string)
    ensures r != "" <==> code in KnownBankCodes
  {
    if code == "cbe" then "Commercial Bank of Ethiopia"
    else if code == "awash" then "Awash Bank"
    else if code == "abyssinia" then "Bank of Abyssinia"
    else if code == "dashen" then "Dashen Bank"
    else if code == "nib" then "NIB Bank"
    else ""
  }

  /** A character outside the Basic Multilingual Plane, which JavaScript stores as two UTF-16 code units. */
  predicate Astral(c: char) {
    c as int >= 0x1_0000
  }

  /**
   JavaScript's `length` of a string: its number of UTF-16 code units, one per
   character of the Basic Multilingual Plane and two per astral character. It
   equals the character count exactly when no character is astral.
   */
  function Utf16Length(s: string): (r: nat)
    ensures |s| <= r <= 2 * |s|
    ensures r == |s| <==> forall i :: 0 <= i < |s| ==> !Astral(s[i])
  {
    if s == [] then 0
    else
      var rest := Utf16Length(s[1..]);
      assert forall i :: 1 <= i < |s| ==> s[i] == s[1..][i - 1];
      (if Astral(s[0]) then 2 else 1) + rest
  }

  /** A string of ASCII digits, such as the normalised phone field, has one code unit per character. */
  lemma DigitsUtf16Length(s: string)
    requires AllDigits(s)
    ensures Utf16Length(s) == |s|
  {
  }

  datatype PaymentError = MissingAddress | InvalidPhone | MissingAccount

  /**
   The submit handler's checks, in the order it makes them. `choice` is the
   value of the checked payment radio button; `phone`, `bankName` and `account`
   are the current values of the Telebirr phone, bank-name and account-number
   fields. The phone check compares JavaScript's `length`, a count of UTF-16
   code units. An accepted form yields the descriptor of the chosen branch:
   every choice other than `telebirr` and `cash` is a bank transfer, described
   by whatever the bank-name field holds.
   */
  function Validate(address: string, choice: string, phone: string, bankName: string, account: string)
    : (r: Result<string, PaymentError>)
    ensures r == Err(MissingAddress) <==> address == ""
    ensures r == Err(InvalidPhone) <==> address != "" && choice == "telebirr" && Utf16Length(phone) != 10
    ensures r == Err(MissingAccount) <==>
              address != "" && choice != "telebirr" && choice != "cash" && account == ""
    ensures r.Ok? ==> r.value == if choice == "telebirr" then "Telebirr: " + phone
                                 else if choice == "cash" then "Cash on Delivery"
                                 else bankName + ": " + account
  {
    if address == "" then Err(MissingAddress)
    else if choice == "telebirr" then
      if phone == "" || Utf16Length(phone) != 10 then Err(InvalidPhone)
      else Ok("Telebirr: " + phone)
    else if choice == "cash" then Ok("Cash on Delivery")
    else if account == "" then Err(MissingAccount)
    else Ok(bankName + ": " + account)
  }

  /** The table has exactly the five known codes, and no two banks share a display name. */
  lemma BankNameTable(code: string, other: string)
    ensures BankName(code) != "" <==> code in KnownBankCodes
    ensures code in KnownBankCodes && other in KnownBankCodes && code != other ==>
              BankName(code) != BankName(other)
  {
  }

  /** A Telebirr payment with an address is accepted exactly for a phone value of ten code units. */
  lemma TelebirrAccepted(address: string, phone: string, bankName: string, account: string)
    requires address != ""
    ensures Validate(address, "telebirr", phone, bankName, account).Ok? <==> Utf16Length(phone) == 10
    ensures Utf16Length(phone) == 10 ==>
              Validate(address, "telebirr", phone, bankName, account) == Ok("Telebirr: " + phone)
  {
  }

  /** Cash on delivery with an address is always accepted, whatever the other fields hold. */
  lemma CashAccepted(address: string, phone: string, bankName: string, account: string)
    requires address != ""
    ensures Validate(address, "cash", phone, bankName, account) == Ok("Cash on Delivery")
  {
  }

  /**
   Any choice other than Telebirr and cash, with an address and an account
   number, is accepted as a bank transfer described by the bank-name field,
   whatever that field holds; for a known code whose name the change handler
   filled in, that is the table's non-empty name.
   */
  lemma BankTransferAccepted(address: string, choice: string, phone: string, bankName: string, account: string)
    requires address != "" && choice != "telebirr" && choice != "cash" && account != ""
    ensures Validate(address, choice, phone, bankName, account) == Ok(bankName + ": " + account)
    ensures choice in KnownBankCodes ==>
              BankName(choice) != "" &&
              Validate(address, choice, phone, BankName(choice), account) == Ok(BankName(choice) + ": " + account)
  {
  }

  /**
   With the phone field normalised by its input handler, a Telebirr payment is
   accepted exactly when the typed text held at least ten digits, and the
   descriptor carries the first ten of them.
   */
  lemma NormalizedPhoneAccepted(address: string, typed: string, bankName: string, account: string)
    requires address != ""
    ensures Validate(address, "telebirr", Normalize(typed), bankName, account).Ok? <==>
              |Digits(typed)| >= 10
    ensures |Digits(typed)| >= 10 ==>
              Validate(address, "telebirr", Normalize(typed), bankName, account) ==
              Ok("Telebirr: " + Digits(typed)[..10])
  {
    NormalizeIsPrefixOfDigits(typed);
    DigitsUtf16Length(Normalize(typed));
  }

  lemma ValidateExamples()
    ensures Validate("Addis Ababa", "telebirr", "09123", "", "") == Err(InvalidPhone)
    ensures Validate("Addis Ababa", "cbe", "", BankName("cbe"), "1234")
         == Ok("Commercial Bank of Ethiopia: 1234")
    ensures Validate("", "cash", "", "", "") == Err(MissingAddress)
    ensures Validate("Addis Ababa", "card", "", "", "1234") == Ok(": 1234")
  {
    assert Utf16Length("09123") == 5;
    assert "card" != "telebirr" && "card" != "cash";
    assert "cbe" != "telebirr" && "cbe" != "cash";
    assert "Commercial Bank of Ethiopia" + ": " + "1234" == "Commercial Bank of Ethiopia: 1234";
    assert "" + ": " + "1234" == ": 1234";
  }

  /**
   Eight digits followed by one astral character make ten code units, so the
   length check lets the value through although it holds nine characters and
   only eight digits.
   */
  lemma AstralPhoneAccepted()
    ensures Validate("Addis Ababa", "telebirr", "12345678\U{1F600}", "", "") == Ok("Telebirr: 12345678\U{1F600}")
  {
    var phone := "12345678\U{1F600}";
    assert Astral(phone[8]);
    assert Utf16Length(phone[8..]) == 2;
    assert Utf16Length(phone) == 10;
    assert "Telebirr: " + phone == "Telebirr: 12345678\U{1F600}";
  }
}
