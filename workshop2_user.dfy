/** Workshop2 user.py: a user record whose name and phone are validated
    when it is built. Everything here is pure. */
module Workshop2User {
  import opened Basics
  import opened Text

  /** User.validate_name: the name itself when, spaces removed, it is all
      letters; None otherwise (the printed message is not modelled). */
  function ValidateName(name: string): (r: Option<string>)
    ensures r.Some? ==> r.value == name
    ensures r.Some? <==>
      (forall i :: 0 <= i < |name| ==> name[i] == ' ' || IsLetter(name[i])) &&
      (exists i :: 0 <= i < |name| && IsLetter(name[i]))
  {
    NameAcceptedIff(name);
    if NameAccepted(name) then Some(name) else None
  }

  /** User.validate_phone: the phone itself when it is 1 to 15 digits; None otherwise. */
  function ValidatePhone(phone: string): (r: Option<string>)
    ensures r.Some? ==> r.value == phone
    ensures r.Some? <==> 0 < |phone| <= 15 && forall i :: 0 <= i < |phone| ==> IsDigit(phone[i])
  {
    PhoneAcceptedIff(phone);
    if PhoneAccepted(phone) then Some(phone) else None
  }

  /** The attributes of a User object. `id` is None until a caller sets it. */
  datatype User = User(id: Option<int>, name: Option<string>, phone: Option<string>)

  /** User(name, phone): never fails; a rejected name or phone is stored as None. */
  function NewUser(name: string, phone: string): (u: User)
    ensures u.id == None
    ensures u.name == Some(name) || u.name == None
    ensures u.phone == Some(phone) || u.phone == None
    ensures u.name.Some? <==> NameAccepted(name)
    ensures u.phone.Some? <==> PhoneAccepted(phone)
  {
    User(None, ValidateName(name), ValidatePhone(phone))
  }

  /** The empty name and a name of spaces only are rejected, because
      "".isalpha() is false. */
  lemma BlankNamesRejected()
    ensures ValidateName("") == None
    ensures ValidateName("   ") == None
  {
    var blank := "   ";
    assert forall i :: 0 <= i < |blank| ==> blank[i] == ' ';
  }

  /** A compound name such as "Jose Maria" is accepted as typed. */
  lemma CompoundNameAccepted()
    ensures ValidateName("Jose Maria") == Some("Jose Maria")
  {
    var compound := "Jose Maria";
    assert forall i :: 0 <= i < |compound| ==> compound[i] == ' ' || IsLetter(compound[i]);
    assert IsLetter(compound[0]);
  }

  /** 15 digits is the longest phone accepted: a 16-digit phone is rejected. */
  lemma PhoneLengthBoundary(phone: string)
    requires forall i :: 0 <= i < |phone| ==> IsDigit(phone[i])
    ensures |phone| == 15 ==> ValidatePhone(phone) == Some(phone)
    ensures |phone| == 16 ==> ValidatePhone(phone) == None
  {
  }
}
