/** The add-party dialog (components/AddPartyDialog.tsx): the phone field's
    keystroke formatter and the form's field bounds. The form's phone
    validity check is a call into the phone library and is a parameter. */
module PhoneFormat {
  import opened Common
  import opened Join

  /** `value.replace(/\D/g, '')`: the ASCII digits of the input, in order. */
  function DigitsOnly(s: string): (d: string)
    ensures AllDigits(d) && |d| <= |s|
    ensures forall c :: c in d ==> c in s
  {
    if s == [] then [] else (if IsDigit(s[0]) then [s[0]] else []) + DigitsOnly(s[1..])
  }

  lemma {:induction false} DigitsOnlyConcat(a: string, b: string)
    ensures DigitsOnly(a + b) == DigitsOnly(a) + DigitsOnly(b)
  {
    if a == [] {
      assert a + b == b;
    } else {
      assert (a + b)[1..] == a[1..] + b;
      DigitsOnlyConcat(a[1..], b);
    }
  }

  /** Removing non-digits from a digit string changes nothing. */
  lemma {:induction false} DigitsOnlyOfDigits(s: string)
    requires AllDigits(s)
    ensures DigitsOnly(s) == s
  {
    if s != [] {
      DigitsOnlyOfDigits(s[1..]);
    }
  }

  /** `formatPhoneInput`. */
  function FormatPhoneInput(value: string): (r: string)
    ensures DigitsOnly(value) == [] ==> r == value
    ensures DigitsOnly(value) != [] ==> |r| > |DigitsOnly(value)| && r[0] == '+'
  {
    var numbers := DigitsOnly(value);
    if StartsWith(numbers, "54") then "+" + numbers
    else if StartsWith(numbers, "9") then "+54" + numbers
    else if StartsWith(numbers, "11") then "+549" + numbers
    else if StartsWith(numbers, "15") then "+549" + numbers
    else if |numbers| > 0 then "+549" + numbers
    else value
  }

  /** The formatter's rules with the `11` and `15` branches folded into the
      fallback they duplicate: `54…` keeps its country code, `9…` gets `+54`,
      any other digits get `+549`, and an input without digits is kept. */
  function ThreeRules(value: string): string
  {
    var d := DigitsOnly(value);
    if d == [] then value
    else if d[0] == '5' && |d| >= 2 && d[1] == '4' then "+" + d
    else if d[0] == '9' then "+54" + d
    else "+549" + d
  }

  /** The `11` and `15` branches agree with the fallback: the formatter is
      the three-rule function. */
  lemma SpecialPrefixesAreFallback(value: string)
    ensures FormatPhoneInput(value) == ThreeRules(value)
  {
    var d := DigitsOnly(value);
    if d != [] {
      assert StartsWith(d, "54") <==> d[0] == '5' && |d| >= 2 && d[1] == '4' by {
        if |d| >= 2 {
          assert d[..2] == [d[0], d[1]];
        }
      }
      assert StartsWith(d, "9") <==> d[0] == '9' by {
        assert d[..1] == [d[0]];
      }
    }
  }

  /** A plus sign in front of a digit string adds no digits. */
  lemma DigitsOfPlus(t: string)
    requires AllDigits(t)
    ensures DigitsOnly("+" + t) == t
  {
    DigitsOnlyConcat("+", t);
    DigitsOnlyOfDigits(t);
  }

  /** The digits a formatted value carries: the input's digits, behind the
      prefix digits the rule added. */
  lemma DigitsAfterFormat(value: string)
    ensures var d := DigitsOnly(value);
      && (StartsWith(d, "54") ==> DigitsOnly(FormatPhoneInput(value)) == d)
      && (!StartsWith(d, "54") && StartsWith(d, "9") ==> DigitsOnly(FormatPhoneInput(value)) == "54" + d)
      && (!StartsWith(d, "54") && !StartsWith(d, "9") && d != [] ==> DigitsOnly(FormatPhoneInput(value)) == "549" + d)
  {
    var d := DigitsOnly(value);
    if StartsWith(d, "54") {
      DigitsOfPlus(d);
    } else if StartsWith(d, "9") {
      var t := "54" + d;
      assert AllDigits(t) by {
        assert forall i :: 2 <= i < |t| ==> t[i] == d[i - 2];
      }
      assert "+54" + d == "+" + t;
      DigitsOfPlus(t);
    } else if d != [] {
      var t := "549" + d;
      assert AllDigits(t) by {
        assert forall i :: 3 <= i < |t| ==> t[i] == d[i - 3];
      }
      assert "+549" + d == "+" + t;
      DigitsOfPlus(t);
    }
  }

  /** Formatting is idempotent, so reformatting on every keystroke leaves an
      already formatted number alone. */
  lemma FormatIdempotent(value: string)
    ensures FormatPhoneInput(FormatPhoneInput(value)) == FormatPhoneInput(value)
  {
    var d := DigitsOnly(value);
    var r := FormatPhoneInput(value);
    DigitsAfterFormat(value);
    if d != [] {
      var d' := DigitsOnly(r);
      assert StartsWith(d', "54");
      if StartsWith(d, "54") {
        assert r == "+" + d';
      } else if StartsWith(d, "9") {
        assert d' == "54" + d;
        assert r == "+" + d';
      } else {
        assert d' == "549" + d;
        assert r == "+" + d';
      }
    }
  }

  /** For an input with digits the result is `+` followed only by digits,
      starts with `+54`, and ends with the input's digit string. */
  lemma FormatShape(value: string)
    requires DigitsOnly(value) != []
    ensures var d, r := DigitsOnly(value), FormatPhoneInput(value);
      && StartsWith(r, "+54")
      && r[0] == '+' && AllDigits(r[1..])
      && |d| <= |r| && r[|r| - |d|..] == d
  {
    var d, r := DigitsOnly(value), FormatPhoneInput(value);
    DigitsAfterFormat(value);
    if StartsWith(d, "54") {
      assert r == "+" + d;
      assert r[..3] == "+" + d[..2];
    } else if StartsWith(d, "9") {
      assert r == "+54" + d;
    } else {
      assert r == "+549" + d;
    }
  }

  /** The dialog's form values, with the numbers as the form hands them over. */
  datatype AddPartyForm = AddPartyForm(name: string, phone: string, size: real, etaMinutes: real, notes: Option<string>)

  /** `addPartySchema`: the library's verdict on the phone is a parameter. */
  predicate FormAccepts(f: AddPartyForm, phoneIsValid: bool)
  {
    ValidName(f.name) && |f.phone| >= 1 && phoneIsValid && ValidSize(f.size) && ValidEta(f.etaMinutes)
  }

  /** The form accepts only integer sizes 1..12, integer estimates 5..120 and
      names of 1..100 characters; with a well-formed restaurant id, a form the
      dialog accepts also passes the join endpoint's schema, and the endpoint
      accepts no size, estimate or name that the form would refuse. */
  lemma FormBoundsMatchServer(f: AddPartyForm, phoneIsValid: bool, restaurantId: string)
    requires IsUuid(restaurantId)
    ensures FormAccepts(f, phoneIsValid) ==>
      && 1 <= |f.name| <= 100
      && (exists n: int :: 1 <= n <= 12 && f.size == Real(n))
      && (exists n: int :: 5 <= n <= 120 && f.etaMinutes == Real(n))
    ensures var b := CreatePartyBody(restaurantId, f.name, f.phone, f.size, f.etaMinutes, f.notes);
      (FormAccepts(f, phoneIsValid) ==> ValidBody(b)) && (ValidBody(b) && phoneIsValid ==> FormAccepts(f, phoneIsValid))
  {
    AcceptedBounds(f.size);
    AcceptedBounds(f.etaMinutes);
  }
}
