/** The character and string tests the validators and prompts of both
    generations rely on: Python's str.replace(" ", ""), str.isalpha(),
    str.isdigit(), str.lower() and int(), over ASCII. */
module Text {
  import opened Basics

  predicate IsLetter(c: char) { 'a' <= c <= 'z' || 'A' <= c <= 'Z' }

  predicate IsDigit(c: char) { '0' <= c <= '9' }

  /** str.replace(" ", ""): the characters of `s` other than spaces, in order. */
  function RemoveSpaces(s: string): (r: string)
    ensures |r| <= |s|
    ensures forall c :: c in r <==> c in s && c != ' '
  {
    if s == [] then []
    else (if s[0] == ' ' then [] else [s[0]]) + RemoveSpaces(s[1..])
  }

  /** Removing spaces works piece by piece, so the characters that remain
      keep their order: a name split in two loses its spaces in each half. */
  lemma {:induction false} RemoveSpacesAppend(a: string, b: string)
    ensures RemoveSpaces(a + b) == RemoveSpaces(a) + RemoveSpaces(b)
  {
    if a == [] {
      assert a + b == b;
    } else {
      assert (a + b)[1..] == a[1..] + b;
      RemoveSpacesAppend(a[1..], b);
    }
  }

  /** str.isalpha(): at least one character, and every character a letter. */
  predicate IsAlpha(s: string) { |s| > 0 && forall i :: 0 <= i < |s| ==> IsLetter(s[i]) }

  /** str.isdigit(): at least one character, and every character a digit. */
  predicate IsDigits(s: string) { |s| > 0 && forall i :: 0 <= i < |s| ==> IsDigit(s[i]) }

  /** The longest phone number either generation accepts. */
  const MaxPhoneLength: nat := 15

  /** The name test shared by every validator: `name.replace(" ", "").isalpha()`. */
  predicate NameAccepted(name: string) { IsAlpha(RemoveSpaces(name)) }

  /** The phone test shared by every validator: `phone.isdigit() and len(phone) <= 15`. */
  predicate PhoneAccepted(phone: string) { IsDigits(phone) && |phone| <= MaxPhoneLength }

  /** A name is accepted exactly when it is made of letters and spaces and
      holds at least one letter; so "" and "   " are rejected. */
  lemma NameAcceptedIff(name: string)
    ensures NameAccepted(name) <==>
      (forall i :: 0 <= i < |name| ==> name[i] == ' ' || IsLetter(name[i])) &&
      (exists i :: 0 <= i < |name| && IsLetter(name[i]))
  {
    var r := RemoveSpaces(name);
    if NameAccepted(name) {
      forall i | 0 <= i < |name| ensures name[i] == ' ' || IsLetter(name[i]) {
        if name[i] != ' ' {
          assert name[i] in r;
          var j :| 0 <= j < |r| && r[j] == name[i];
        }
      }
      assert r[0] in name;
      var k :| 0 <= k < |name| && name[k] == r[0];
      assert IsLetter(name[k]);
    }
    if (forall i :: 0 <= i < |name| ==> name[i] == ' ' || IsLetter(name[i])) &&
       (exists i :: 0 <= i < |name| && IsLetter(name[i])) {
      var k :| 0 <= k < |name| && IsLetter(name[k]);
      assert name[k] in r;
      forall j | 0 <= j < |r| ensures IsLetter(r[j]) {
        assert r[j] in name;
        var i :| 0 <= i < |name| && name[i] == r[j];
      }
    }
  }

  /** A phone is accepted exactly when it is 1 to 15 digits. */
  lemma PhoneAcceptedIff(phone: string)
    ensures PhoneAccepted(phone) <==>
      0 < |phone| <= 15 && forall i :: 0 <= i < |phone| ==> IsDigit(phone[i])
  {
  }

  function LowerChar(c: char): char
  {
    if 'A' <= c <= 'Z' then (c as int - 'A' as int + 'a' as int) as char else c
  }

  /** str.lower() */
  function Lower(s: string): (r: string)
    ensures |r| == |s|
  {
    seq(|s|, i requires 0 <= i < |s| => LowerChar(s[i]))
  }

  /** The sentinel that ends both generations' game loops: `code.lower() == "done"`. */
  predicate IsDone(code: string) { Lower(code) == "done" }

  /** The answer that switches on the material override: `answer.lower() == "yes"`. */
  predicate IsYes(answer: string) { Lower(answer) == "yes" }

  function DigitValue(c: char): nat requires IsDigit(c) { c as int - '0' as int }

  /** The number a string of decimal digits denotes. */
  function DigitsValue(s: string): nat
    requires forall i :: 0 <= i < |s| ==> IsDigit(s[i])
  {
    if s == [] then 0 else DigitsValue(s[..|s| - 1]) * 10 + DigitValue(s[|s| - 1])
  }

  /** int(s) on an optional sign followed by decimal digits; None where Python raises ValueError. */
  function ParseInt(s: string): (r: Option<int>)
    ensures r.Some? <==> IsDigits(s) || (|s| > 1 && (s[0] == '-' || s[0] == '+') && IsDigits(s[1..]))
    ensures IsDigits(s) ==> r == Some(DigitsValue(s) as int)
  {
    if IsDigits(s) then Some(DigitsValue(s) as int)
    else if |s| > 1 && s[0] == '-' && IsDigits(s[1..]) then Some(-(DigitsValue(s[1..]) as int))
    else if |s| > 1 && s[0] == '+' && IsDigits(s[1..]) then Some(DigitsValue(s[1..]))
    else None
  }

  /** str(n) for a natural number n. */
  function Decimal(n: nat): (r: string)
    ensures IsDigits(r)
  {
    if n < 10 then [('0' as int + n) as char]
    else Decimal(n / 10) + [('0' as int + n % 10) as char]
  }

  /** int(str(n)) == n: the text a user sees as their id reads back as that id. */
  lemma {:induction false} ParseDecimal(n: nat)
    ensures ParseInt(Decimal(n)) == Some(n)
  {
    DecimalValue(n);
  }

  lemma {:induction false} DecimalValue(n: nat)
    ensures DigitsValue(Decimal(n)) == n
  {
    if n >= 10 {
      var s := Decimal(n);
      assert s[..|s| - 1] == Decimal(n / 10);
      DecimalValue(n / 10);
    }
  }
}
