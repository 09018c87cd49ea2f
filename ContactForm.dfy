/** The contact page's form: the phone formatter that runs on every keystroke,
    the validator of the Moldovan format `+373-ddd-dd-ddd`, and the handlers
    that update the form's state. Toasts and rendering are not modelled. */
module ContactForm {
  import opened JsBuiltins

  /** A character the formatter keeps at first: `[\d+]`. */
  predicate IsPhoneChar(c: char) {
    IsDigit(c) || c == '+'
  }

  predicate IsNotPlus(c: char) {
    c != '+'
  }

  /** A character a formatted number may hold. */
  predicate IsFormattedChar(c: char) {
    IsDigit(c) || c == '+' || c == '-'
  }

  /** Digits cut into groups: the first `a`, then (after a '-') up to position
      `b`, then (after another '-') up to position `c`; a group is written
      only when some digit reaches it, and digits past `c` are dropped. */
  function Grouped(d: string, a: nat, b: nat, c: nat): string
    requires a <= b <= c
  {
    if |d| <= a then d
    else if |d| <= b then d[..a] + "-" + d[a..]
    else if |d| <= c then d[..a] + "-" + d[a..b] + "-" + d[b..]
    else d[..a] + "-" + d[a..b] + "-" + d[b..c]
  }

  /** The '-' of a grouping stand exactly at the group boundaries that some
      digit reaches; everything else is a digit. */
  lemma GroupedShape(d: string, a: nat, b: nat, c: nat)
    requires a <= b <= c && AllDigits(d)
    ensures var g := Grouped(d, a, b, c);
            |g| == (if |d| <= a then |d| else if |d| <= b then |d| + 1 else if |d| <= c then |d| + 2 else c + 2) &&
            (forall i :: 0 <= i < |g| ==> (g[i] == '-' <==> (i == a && |d| > a) || (i == b + 1 && |d| > b))) &&
            (forall i :: 0 <= i < |g| ==> IsDigit(g[i]) || g[i] == '-')
  {
    var g := Grouped(d, a, b, c);
    if |d| <= a {
    } else if |d| <= b {
      assert forall i :: 0 <= i < a ==> g[i] == d[i];
      assert forall i :: a < i < |g| ==> g[i] == d[i - 1];
    } else {
      var e := if |d| <= c then |d| else c;
      assert g == d[..a] + "-" + d[a..b] + "-" + d[b..e];
      assert forall i :: 0 <= i < a ==> g[i] == d[i];
      assert forall i :: a < i <= b ==> g[i] == d[i - 1];
      assert forall i :: b + 1 < i < |g| ==> g[i] == d[i - 2];
    }
  }

  /** Filtering by a test that refuses '-' removes the dash between two texts. */
  lemma FilterAcrossDash(x: string, y: string, keep: char -> bool)
    requires !keep('-')
    ensures Filter(x + "-" + y, keep) == Filter(x, keep) + Filter(y, keep)
  {
    FilterAppend(x + "-", y, keep);
    FilterAppend(x, "-", keep);
  }

  /** Two or three groups of digits joined by '-' filter back to the groups
      themselves, whether one keeps digits or digits and '+'. */
  lemma FilterGroups(x: string, y: string, z: string)
    requires AllDigits(x) && AllDigits(y) && AllDigits(z)
    ensures Filter(x + "-" + y, IsDigit) == x + y
    ensures Filter(x + "-" + y + "-" + z, IsDigit) == x + y + z
  {
    FilterKeepsAll(x, IsDigit);
    FilterKeepsAll(y, IsDigit);
    FilterKeepsAll(z, IsDigit);
    FilterAcrossDash(x, y, IsDigit);
    FilterAcrossDash(x + "-" + y, z, IsDigit);
  }

  /** Cutting a digit string at two points gives three digit strings that
      join back to it. */
  lemma CutDigits(d: string, x: string, y: string, z: string, a: nat, b: nat, e: nat)
    requires a <= b <= e <= |d| && AllDigits(d)
    requires x == d[..a] && y == d[a..b] && z == d[b..e]
    ensures AllDigits(x) && AllDigits(y) && AllDigits(z) && x + y + z == d[..e]
  {
    assert x + y + z == d[..e];
  }

  /** A grouping keeps the first `c` digits and nothing else from `d`. */
  lemma GroupedDigits(d: string, a: nat, b: nat, c: nat)
    requires a <= b <= c && AllDigits(d)
    ensures Filter(Grouped(d, a, b, c), IsDigit) == Take(d, c)
  {
    if |d| <= a {
      FilterKeepsAll(d, IsDigit);
    } else if |d| <= b {
      var x, y := d[..a], d[a..];
      CutDigits(d, x, y, "", a, |d|, |d|);
      FilterGroups(x, y, "");
      assert Grouped(d, a, b, c) == x + "-" + y;
      assert d[..|d|] == d;
    } else {
      var e := if |d| <= c then |d| else c;
      var x, y, z := d[..a], d[a..b], d[b..e];
      CutDigits(d, x, y, z, a, b, e);
      FilterGroups(x, y, z);
      assert Grouped(d, a, b, c) == x + "-" + y + "-" + z;
      assert d[..e] == Take(d, c);
    }
  }

  /** Digits past the last position play no part in a grouping. */
  lemma GroupedIgnoresExtra(d: string, a: nat, b: nat, c: nat)
    requires a <= b < c
    ensures Grouped(Take(d, c), a, b, c) == Grouped(d, a, b, c)
  {
    if |d| > c {
      var t := Take(d, c);
      assert t[..a] == d[..a] && t[a..b] == d[a..b] && t[b..] == d[b..c];
    }
  }

  /** The number as the formatter returns it, stated over the input's digits:
      no digit and no '+' gives ''; a Moldovan number (its first kept
      character is '+' and the kept text begins "+373", or its first kept
      character is a digit and the digits begin "373") is "+373" and the
      digits after 373 grouped 3-2-3; anything else is '+' and the digits
      grouped 3-3-2. At most eight digits are kept after the prefix. */
  function PhoneFormat(value: string): string {
    var cleaned := Filter(value, IsPhoneChar);
    var digits := Filter(value, IsDigit);
    if cleaned == "" then ""
    else if IsMoldovan(cleaned, digits) then
      "+373" + (if |digits| > 3 then "-" + Grouped(Drop(digits, 3), 3, 5, 8) else "")
    else "+" + Grouped(digits, 3, 6, 8)
  }

  predicate IsMoldovan(cleaned: string, digits: string)
    requires cleaned != ""
  {
    if cleaned[0] == '+' then StartsWith(cleaned, "+373") else StartsWith(digits, "373")
  }

  /** Filtering the input's kept characters by digit gives its digits. */
  lemma DigitsOfCleaned(value: string)
    ensures Filter(Filter(value, IsPhoneChar), IsDigit) == Filter(value, IsDigit)
    ensures Filter(Filter(value, IsPhoneChar), IsNotPlus) == Filter(value, IsDigit)
  {
    FilterTwice(value, IsPhoneChar, IsDigit, IsDigit);
    var cleaned := Filter(value, IsPhoneChar);
    FilterKeeps(value, IsPhoneChar);
    FilterAgree(cleaned, IsNotPlus, IsDigit);
  }

  /** `formatPhoneNumber`, step by step as the page does it: keep digits and
      '+'; put a '+' in front of a number that lacks one, dropping the other
      '+'; then group the digits after "+373", or after the '+'. */
  method FormatPhoneNumber(value: string) returns (r: string)
    ensures r == PhoneFormat(value)
  {
    var cleaned := Filter(value, IsPhoneChar);
    ghost var original := cleaned;
    if !StartsWith(cleaned, "+") {
      if |cleaned| > 0 && cleaned[0] != '+' {
        cleaned := "+" + Filter(cleaned, IsNotPlus);
      } else if |cleaned| == 0 {
        return "";
      }
    }
    PrefixedFacts(value, original, cleaned);
    if StartsWith(cleaned, "+373") {
      var digits := Filter(cleaned[4..], IsDigit);
      MoldovanDigits(cleaned, Filter(value, IsDigit));
      if |digits| > 8 {
        digits := Slice(digits, 0, 8);
      }
      r := GroupMoldovan(digits);
      GroupedIgnoresExtra(Filter(cleaned[4..], IsDigit), 3, 5, 8);
      return;
    }
    if |cleaned| > 1 {
      var digits := Filter(cleaned[1..], IsDigit);
      r := GroupOther(digits);
      return;
    }
    return cleaned;
  }

  /** After the prefix step the text starts with '+', the digits after that
      '+' are the input's digits, and it starts with "+373" exactly when the
      input is Moldovan. */
  lemma PrefixedFacts(value: string, original: string, cleaned: string)
    requires original == Filter(value, IsPhoneChar) && original != ""
    requires cleaned == if StartsWith(original, "+") then original else "+" + Filter(original, IsNotPlus)
    ensures cleaned != "" && cleaned[0] == '+'
    ensures Filter(cleaned[1..], IsDigit) == Filter(value, IsDigit)
    ensures StartsWith(cleaned, "+373") <==> IsMoldovan(original, Filter(value, IsDigit))
    ensures |cleaned| <= 1 ==> Filter(value, IsDigit) == ""
  {
    DigitsOfCleaned(value);
    if original[0] == '+' {
      FilterAfterFirst(original, IsDigit);
    } else {
      FilterKeeps(value, IsPhoneChar);
      DigitLed(original, Filter(value, IsDigit), cleaned);
    }
  }

  /** Filtering a text whose first character is refused filters its rest. */
  lemma FilterAfterFirst(s: string, keep: char -> bool)
    requires s != "" && !keep(s[0])
    ensures Filter(s[1..], keep) == Filter(s, keep)
  {
  }

  /** A kept text led by a digit gets a '+' and its digits. */
  lemma DigitLed(original: string, digits: string, cleaned: string)
    requires original != "" && IsDigit(original[0]) && digits == Filter(original, IsDigit)
    requires cleaned == "+" + digits
    ensures digits != "" && cleaned[1..] == digits && Filter(cleaned[1..], IsDigit) == digits
    ensures StartsWith(cleaned, "+373") <==> StartsWith(digits, "373")
  {
    assert digits == [original[0]] + Filter(original[1..], IsDigit);
    FilterKeeps(original, IsDigit);
    FilterKeepsAll(digits, IsDigit);
    PlusPrefix(digits);
  }

  lemma PlusPrefix(t: string)
    ensures StartsWith("+" + t, "+373") <==> StartsWith(t, "373")
  {
    if |t| >= 3 {
      assert ("+" + t)[..4] == "+" + t[..3];
      assert t[..3] == ("+" + t[..3])[1..];
      assert "373" == "+373"[1..];
    }
  }

  /** The Moldovan tail of the formatter: "+373" and up to eight digits
      grouped 3-2-3. */
  method GroupMoldovan(digits: string) returns (formatted: string)
    requires |digits| <= 8
    ensures formatted == "+373" + (if |digits| > 0 then "-" + Grouped(digits, 3, 5, 8) else "")
  {
    formatted := "+373";
    if |digits| > 0 {
      formatted := formatted + "-" + Slice(digits, 0, 3);
      if |digits| > 3 {
        formatted := formatted + "-" + Slice(digits, 3, 5);
        if |digits| > 5 {
          formatted := formatted + "-" + Slice(digits, 5, 8);
        }
      }
    }
  }

  /** The other tail of the formatter: '+' and the digits grouped 3-3-2. */
  method GroupOther(digits: string) returns (formatted: string)
    ensures formatted == "+" + Grouped(digits, 3, 6, 8)
  {
    formatted := "+" + Slice(digits, 0, 3);
    if |digits| > 3 {
      formatted := formatted + "-" + Slice(digits, 3, 6);
      if |digits| > 6 {
        formatted := formatted + "-" + Slice(digits, 6, 8);
      }
    }
  }

  /** When the kept text begins "+373", the digits after that prefix are the
      input's digits after its first three. */
  lemma MoldovanDigits(cleaned: string, digits: string)
    requires StartsWith(cleaned, "+373") && Filter(cleaned[1..], IsDigit) == digits
    ensures Filter(cleaned[4..], IsDigit) == Drop(digits, 3)
  {
    assert cleaned[1..] == "373" + cleaned[4..];
    FilterAppend("373", cleaned[4..], IsDigit);
  }

  // ---------------------------------------------------------------------------
  // What the formatted number looks like

  /** A text of digits and dashes has the same digits whether one keeps
      digits or digits and '+'. */
  lemma PhoneCharsOfDashed(g: string)
    requires forall i :: 0 <= i < |g| ==> IsDigit(g[i]) || g[i] == '-'
    ensures Filter(g, IsPhoneChar) == Filter(g, IsDigit)
  {
    FilterAgree(g, IsPhoneChar, IsDigit);
  }

  /** The formatter's two outcomes besides '': the Moldovan one and the
      other one, each the prefix followed by grouped digits (at most eight). */
  lemma PhoneFormatCases(value: string)
    ensures var cleaned, digits := Filter(value, IsPhoneChar), Filter(value, IsDigit);
            var r := PhoneFormat(value);
            (cleaned == "" ==> r == "") &&
            (cleaned != "" && IsMoldovan(cleaned, digits) ==>
               |digits| >= 3 && digits[..3] == "373" &&
               r == "+373" + (if |digits| > 3 then "-" + Grouped(digits[3..], 3, 5, 8) else "")) &&
            (cleaned != "" && !IsMoldovan(cleaned, digits) ==> r == "+" + Grouped(digits, 3, 6, 8))
  {
    var cleaned, digits := Filter(value, IsPhoneChar), Filter(value, IsDigit);
    if cleaned != "" && IsMoldovan(cleaned, digits) && cleaned[0] == '+' {
      DigitsOfCleaned(value);
      FilterAfterFirst(cleaned, IsDigit);
      assert cleaned[1..] == "373" + cleaned[4..];
      FilterAppend("373", cleaned[4..], IsDigit);
    }
  }

  /** The output holds only digits, '+' and '-', and is '' or starts with '+'. */
  lemma PhoneFormatAlphabet(value: string)
    ensures var r := PhoneFormat(value);
            (r == "" || r[0] == '+') && forall i :: 0 <= i < |r| ==> IsFormattedChar(r[i])
  {
    var digits := Filter(value, IsDigit);
    FilterKeeps(value, IsDigit);
    assert AllDigits(digits);
    PhoneFormatCases(value);
    var r := PhoneFormat(value);
    if Filter(value, IsPhoneChar) != "" {
      if IsMoldovan(Filter(value, IsPhoneChar), digits) {
        if |digits| > 3 {
          var g := Grouped(digits[3..], 3, 5, 8);
          GroupedShape(digits[3..], 3, 5, 8);
          assert r == "+373-" + g;
          assert forall i :: 5 <= i < |r| ==> r[i] == g[i - 5];
        }
      } else {
        var g := Grouped(digits, 3, 6, 8);
        GroupedShape(digits, 3, 6, 8);
        assert forall i :: 1 <= i < |r| ==> r[i] == g[i - 1];
      }
    }
  }

  /** The output is '' exactly when the input holds no digit and no '+'. */
  lemma PhoneFormatEmptyIff(value: string)
    ensures PhoneFormat(value) == "" <==> forall i :: 0 <= i < |value| ==> !IsPhoneChar(value[i])
  {
    FilterEmptyIff(value, IsPhoneChar);
    PhoneFormatCases(value);
  }

  /** A value that begins "+373" keeps the prefix and at most eight further
      digits, which are grouped 3-2-3 with '-' between the groups. */
  lemma MoldovanKeepsEightDigits(value: string)
    requires StartsWith(value, "+373")
    ensures var rest := Filter(value[4..], IsDigit);
            var r := PhoneFormat(value);
            r == "+373" + (if rest == "" then "" else "-" + Grouped(rest, 3, 5, 8)) &&
            Filter(r, IsDigit) == "373" + Take(rest, 8)
  {
    var rest := Filter(value[4..], IsDigit);
    MoldovanInput(value);
    PhoneFormatCases(value);
    FilterKeeps(value[4..], IsDigit);
    MoldovanOutputDigits(rest);
  }

  /** The kept text and the digits of a value that begins "+373". */
  lemma MoldovanInput(value: string)
    requires StartsWith(value, "+373")
    ensures var cleaned := Filter(value, IsPhoneChar);
            cleaned != "" && IsMoldovan(cleaned, Filter(value, IsDigit))
    ensures Filter(value, IsDigit) == "373" + Filter(value[4..], IsDigit)
  {
    assert value == "+373" + value[4..];
    FilterAppend("+373", value[4..], IsPhoneChar);
    FilterAppend("+373", value[4..], IsDigit);
  }

  /** The digits of a Moldovan output are 373 and at most eight more. */
  lemma MoldovanOutputDigits(rest: string)
    requires AllDigits(rest)
    ensures Filter("+373" + (if rest == "" then "" else "-" + Grouped(rest, 3, 5, 8)), IsDigit) == "373" + Take(rest, 8)
  {
    var tail := if rest == "" then "" else "-" + Grouped(rest, 3, 5, 8);
    FilterAppend("+373", tail, IsDigit);
    if rest != "" {
      GroupedDigits(rest, 3, 5, 8);
      FilterAppend("-", Grouped(rest, 3, 5, 8), IsDigit);
    }
  }

  /** Any other number is '+' and at most its first eight digits, grouped
      3-3-2 with '-' between the groups. */
  lemma OtherKeepsEightDigits(value: string)
    requires Filter(value, IsPhoneChar) != ""
    requires !IsMoldovan(Filter(value, IsPhoneChar), Filter(value, IsDigit))
    ensures var digits := Filter(value, IsDigit);
            var r := PhoneFormat(value);
            r == "+" + Grouped(digits, 3, 6, 8) && Filter(r, IsDigit) == Take(digits, 8)
  {
    var digits := Filter(value, IsDigit);
    PhoneFormatCases(value);
    FilterKeeps(value, IsDigit);
    GroupedDigits(digits, 3, 6, 8);
    FilterAppend("+", Grouped(digits, 3, 6, 8), IsDigit);
  }

  // ---------------------------------------------------------------------------
  // Validation

  /** `validatePhoneNumber`: the regular expression `^\+373-\d{3}-\d{2}-\d{3}$`. */
  predicate IsValidPhone(s: string) {
    |s| == 15 && s[..5] == "+373-" && AllDigits(s[5..8]) && s[8] == '-' &&
    AllDigits(s[9..11]) && s[11] == '-' && AllDigits(s[12..])
  }

  /** Eight or more digits after 373 make a valid number. */
  lemma MoldovanGroupingValid(e: string)
    requires AllDigits(e) && |e| >= 8
    ensures IsValidPhone("+373-" + Grouped(e, 3, 5, 8))
  {
    var s := "+373-" + Grouped(e, 3, 5, 8);
    assert s == "+373-" + e[..3] + "-" + e[3..5] + "-" + e[5..8];
    assert s[5..8] == e[..3] && s[9..11] == e[3..5] && s[12..] == e[5..8];
  }

  /** A formatted number is valid exactly when it is Moldovan and the input
      has at least eight digits after 373; the other outcome is at most
      eleven characters long and never valid. */
  lemma PhoneFormatValidIff(value: string)
    ensures var cleaned, digits := Filter(value, IsPhoneChar), Filter(value, IsDigit);
            IsValidPhone(PhoneFormat(value)) <==> cleaned != "" && IsMoldovan(cleaned, digits) && |digits| >= 11
  {
    var cleaned, digits := Filter(value, IsPhoneChar), Filter(value, IsDigit);
    PhoneFormatCases(value);
    FilterKeeps(value, IsDigit);
    if cleaned != "" {
      if IsMoldovan(cleaned, digits) {
        if |digits| > 3 {
          var e := digits[3..];
          assert AllDigits(e);
          GroupedShape(e, 3, 5, 8);
          if |digits| >= 11 {
            MoldovanGroupingValid(e);
            assert PhoneFormat(value) == "+373-" + Grouped(e, 3, 5, 8);
          }
        }
      } else {
        GroupedShape(digits, 3, 6, 8);
      }
    }
  }

  /** "+373" followed by exactly eight digits, with any other characters
      among them, formats to a valid number. */
  lemma EightDigitsFormatValid(t: string)
    requires |Filter(t, IsDigit)| == 8
    ensures IsValidPhone(PhoneFormat("+373" + t))
  {
    var value := "+373" + t;
    assert value[4..] == t;
    MoldovanInput(value);
    PhoneFormatValidIff(value);
  }

  // ---------------------------------------------------------------------------
  // Idempotence: the change handler feeds the formatter its own output

  /** The kept text and the digits of the other outcome. */
  lemma OtherOutputFilters(digits: string)
    requires AllDigits(digits)
    ensures Filter("+" + Grouped(digits, 3, 6, 8), IsPhoneChar) == "+" + Take(digits, 8)
    ensures Filter("+" + Grouped(digits, 3, 6, 8), IsDigit) == Take(digits, 8)
  {
    var g := Grouped(digits, 3, 6, 8);
    GroupedShape(digits, 3, 6, 8);
    GroupedDigits(digits, 3, 6, 8);
    PhoneCharsOfDashed(g);
    FilterAppend("+", g, IsPhoneChar);
    FilterAppend("+", g, IsDigit);
  }

  /** When at most eight digits beginning 373 are grouped 3-3-2, the result
      is the same text as 373 and the rest grouped 3-2-3. */
  lemma OtherAsMoldovan(t: string)
    requires AllDigits(t) && |t| <= 8 && StartsWith(t, "373")
    ensures "+" + Grouped(t, 3, 6, 8) == "+373" + (if |t| > 3 then "-" + Grouped(t[3..], 3, 5, 8) else "")
  {
    var f := t[3..];
    if |t| <= 3 {
    } else if |t| <= 6 {
      assert Grouped(t, 3, 6, 8) == t[..3] + "-" + f;
    } else {
      assert Grouped(t, 3, 6, 8) == t[..3] + "-" + t[3..6] + "-" + t[6..];
      assert f[..3] == t[3..6] && f[3..] == t[6..];
    }
  }

  /** Formatting an already formatted number changes nothing. */
  lemma PhoneFormatIdempotent(value: string)
    ensures PhoneFormat(PhoneFormat(value)) == PhoneFormat(value)
  {
    var cleaned, digits := Filter(value, IsPhoneChar), Filter(value, IsDigit);
    var r := PhoneFormat(value);
    PhoneFormatCases(value);
    FilterKeeps(value, IsDigit);
    if cleaned == "" {
    } else if IsMoldovan(cleaned, digits) {
      var e := digits[3..];
      assert AllDigits(e) && (e == "" <==> |digits| <= 3);
      MoldovanIdempotent(e);
    } else {
      var t := Take(digits, 8);
      OtherOutputFilters(digits);
      PlusPrefix(t);
      PhoneFormatCases(r);
      GroupedIgnoresExtra(digits, 3, 6, 8);
      if StartsWith(t, "373") {
        OtherAsMoldovan(t);
      }
    }
  }

  /** The Moldovan outcome is its own format. */
  lemma MoldovanIdempotent(e: string)
    requires AllDigits(e)
    ensures var r := "+373" + (if e == "" then "" else "-" + Grouped(e, 3, 5, 8));
            PhoneFormat(r) == r
  {
    var tail := if e == "" then "" else "-" + Grouped(e, 3, 5, 8);
    var r := "+373" + tail;
    MoldovanKeepsEightDigits(r);
    assert r[4..] == tail;
    if e != "" {
      MoldovanTailDigits(e);
      GroupedIgnoresExtra(e, 3, 5, 8);
    }
  }

  lemma MoldovanTailDigits(e: string)
    requires AllDigits(e)
    ensures Filter("-" + Grouped(e, 3, 5, 8), IsDigit) == Take(e, 8)
  {
    GroupedDigits(e, 3, 5, 8);
    FilterAppend("-", Grouped(e, 3, 5, 8), IsDigit);
  }

  // ---------------------------------------------------------------------------
  // The form

  const PhoneErrorText: string := "Format: +373-123-45-678"
  const PhonePrefill: string := "+373"

  /** The prefilled prefix is already in its formatted form. */
  lemma PrefillIsFormatted()
    ensures PhoneFormat(PhonePrefill) == PhonePrefill
    ensures !IsValidPhone(PhonePrefill)
  {
    MoldovanIdempotent("");
    assert "+373" + "" == PhonePrefill;
  }

  /** The text fields that share the generic change handler. */
  datatype TextField = Name | Email | Message

  /** The page's `formData` and `phoneError` state. */
  class ContactPage {
    var name: string
    var email: string
    var phone: string
    var message: string
    var phoneError: string

    constructor ()
      ensures name == "" && email == "" && phone == "" && message == "" && phoneError == ""
    {
      name, email, phone, message, phoneError := "", "", "", "", "";
    }

    /** Focusing the phone field pre-fills "+373", only when it is empty. */
    method PhoneFocus()
      modifies this`phone
      ensures phone == if old(phone) == "" then PhonePrefill else old(phone)
    {
      if phone == "" {
        phone := PhonePrefill;
      }
    }

    /** Typing in the phone field stores the formatted value, which formatting
        again would not change, and shows the error exactly while that value
        is non-empty and not valid. */
    method PhoneChange(value: string)
      modifies this`phone, this`phoneError
      ensures phone == PhoneFormat(value) && PhoneFormat(phone) == phone
      ensures phoneError == if phone != "" && !IsValidPhone(phone) then PhoneErrorText else ""
    {
      var formatted := FormatPhoneNumber(value);
      PhoneFormatIdempotent(value);
      phone := formatted;
      if formatted != "" && !IsValidPhone(formatted) {
        phoneError := PhoneErrorText;
      } else {
        phoneError := "";
      }
    }

    /** Typing in one of the other fields stores the text as typed. */
    method Change(field: TextField, value: string)
      modifies this`name, this`email, this`message
      ensures name == if field == Name then value else old(name)
      ensures email == if field == Email then value else old(email)
      ensures message == if field == Message then value else old(message)
    {
      match field {
        case Name => name := value;
        case Email => email := value;
        case Message => message := value;
      }
    }

    /** The submit handler, once the browser's own form checks (a required
        name and phone, a well-formed email) have let the event through: it
        sends the message exactly when the phone is valid; then
        every field and the error are cleared; otherwise the fields stay as
        they are and the error is shown. */
    method Submit() returns (sent: bool)
      modifies this
      ensures sent == IsValidPhone(old(phone))
      ensures sent ==> name == "" && email == "" && phone == "" && message == "" && phoneError == ""
      ensures !sent ==> name == old(name) && email == old(email) && phone == old(phone) &&
                        message == old(message) && phoneError == PhoneErrorText
    {
      if !IsValidPhone(phone) {
        phoneError := PhoneErrorText;
        return false;
      }
      name, email, phone, message := "", "", "", "";
      phoneError := "";
      return true;
    }
  }
}
