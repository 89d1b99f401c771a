/** `getStatusByPhone`: the registration status of the member with a given
    phone number, after the number is normalised to its last ten digits. */
module Users {
  import opened Common
  import opened Text
  import opened UserModel

  /** `s.replace(/\D/g, '')`: the decimal digits of `s`, in order. */
  function DigitsOf(s: string): (r: string)
    ensures AllDigits(r) && |r| <= |s|
  {
    if s == [] then []
    else if IsDigit(s[0]) then [s[0]] + DigitsOf(s[1..])
    else DigitsOf(s[1..])
  }

  /** Removing non-digits works piece by piece. */
  lemma {:induction false} DigitsOfAppend(a: string, b: string)
    ensures DigitsOf(a + b) == DigitsOf(a) + DigitsOf(b)
    decreases |a|
  {
    if a == [] {
      assert a + b == b;
    } else {
      assert (a + b)[0] == a[0] && (a + b)[1..] == a[1..] + b;
      DigitsOfAppend(a[1..], b);
    }
  }

  /** A text of digits only is left as it is. */
  lemma {:induction false} DigitsOfDigits(s: string)
    requires AllDigits(s)
    ensures DigitsOf(s) == s
  {
    if s != [] {
      DigitsOfDigits(s[1..]);
    }
  }

  const PhoneDigits: nat := 10

  /** The digits of the phone text, cut to the last ten when longer. */
  function NormalizePhone(raw: string): (phone: string)
    ensures AllDigits(phone) && |phone| <= PhoneDigits
    ensures |phone| == Min(PhoneDigits, |DigitsOf(raw)|)
    ensures phone == DigitsOf(raw)[|DigitsOf(raw)| - |phone|..]
  {
    var digits := DigitsOf(raw);
    if |digits| > PhoneDigits then digits[|digits| - PhoneDigits..] else digits
  }

  /** A normalised number normalises to itself. */
  lemma NormalizePhoneIdempotent(raw: string)
    ensures NormalizePhone(NormalizePhone(raw)) == NormalizePhone(raw)
  {
    DigitsOfDigits(NormalizePhone(raw));
  }

  /** A country code or separators in front of a ten-digit number do not
      change the number it normalises to. */
  lemma {:induction false} NormalizeIgnoresPrefix(prefix: string, number: string)
    requires AllDigits(number) && |number| == PhoneDigits
    ensures NormalizePhone(prefix + number) == number
  {
    DigitsOfAppend(prefix, number);
    DigitsOfDigits(number);
  }

  /** `User.findOne({ 'personal.phone': phone })` over the collection in its
      natural order. */
  function FirstWithPhone(all: seq<User>, phone: string): (r: Option<User>)
    ensures r.Some? ==> r.value in all && r.value.personal.phone == phone
    ensures r.None? ==> forall u | u in all :: u.personal.phone != phone
  {
    if all == [] then None
    else if all[0].personal.phone == phone then Some(all[0])
    else FirstWithPhone(all[1..], phone)
  }

  /** `getStatusByPhone`: a blank query is 400, an unknown number 404. */
  function StatusByPhone(query: Option<string>, all: seq<User>): (r: Result<RegistrationStatus>)
    ensures query.None? || Blank(query.value) ==> r == Err(BadRequest)
    ensures query.Some? && !Blank(query.value)
            && (forall u | u in all :: u.personal.phone != NormalizePhone(Trim(query.value)))
            ==> r == Err(NotFound)
    ensures r.Ok? <==> query.Some? && !Blank(query.value)
                       && exists u | u in all :: u.personal.phone == NormalizePhone(Trim(query.value))
    ensures r.Ok? ==> exists u | u in all :: u.personal.phone == NormalizePhone(Trim(query.value))
                                             && u.status == r.value
  {
    var raw := if query.Some? then Trim(query.value) else "";
    if raw == "" then Err(BadRequest)
    else
      match FirstWithPhone(all, NormalizePhone(raw))
      case None => Err(NotFound)
      case Some(u) => Ok(u.status)
  }
}
