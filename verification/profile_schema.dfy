/** The customer profile form's validation schema and the avatar image
    gate. Each field has an ordered list of rules; a field's error is the
    message of its first failing rule, and the form may be submitted only
    when no field has an error. */
module ProfileSchema {
  import opened Options
  import opened Text

  /** A calendar day as (year, month, day). Days are compared in
      lexicographic order. */
  datatype Date = Date(year: int, month: int, day: int)

  predicate Before(a: Date, b: Date) {
    || a.year < b.year
    || (a.year == b.year && a.month < b.month)
    || (a.year == b.year && a.month == b.month && a.day < b.day)
  }

  /** What the date-of-birth field holds: the empty string, a non-empty
      string that JavaScript's `Date` cannot parse, or a calendar day. */
  datatype DobEntry = Blank | Unparseable | Day(date: Date)

  /** The form's fields. All but the date of birth are strings. */
  datatype Profile = Profile(
    name: string,
    email: string,
    dob: DobEntry,
    address: string,
    googleMapLink: string,
    phone: string,
    alternatePhone: string,
    preferredService: string,
    preferredTimeSlot: string,
    specialInstructions: string)

  /** The e-mail and URL grammars, which live in the validation library and
      are not modelled: any pair of predicates may be supplied. */
  datatype Formats = Formats(isEmail: string -> bool, isUrl: string -> bool)

  datatype Field =
    | Name | Email | Address | GoogleMapLink | Phone | AlternatePhone
    | PreferredService | PreferredTimeSlot | SpecialInstructions | Dob

  const AllFields: set<Field> :=
    {Name, Email, Address, GoogleMapLink, Phone, AlternatePhone,
     PreferredService, PreferredTimeSlot, SpecialInstructions, Dob}

  const NameMessage := "Name must be at least 2 characters"
  const EmailMessage := "Invalid email"
  const AddressMessage := "Address must be at least 5 characters"
  const MapLinkMessage := "Enter a valid Google Map URL"
  const PhoneLengthMessage := "Phone must be at least 10 digits"
  const PhoneDigitsMessage := "Phone number must contain only digits"
  const ServiceMessage := "Please specify a preferred service"
  const TimeSlotMessage := "Please specify a time slot"
  const DobRequiredMessage := "Date of birth is required"
  const DobAgeMessage := "You must be at least 18 years old and cannot select today or future date"

  function MinLength(s: string, n: nat, message: string): Option<string> {
    if |s| < n then Some(message) else None
  }

  /** The refinement on the date of birth, as written: a day on or after
      today fails; otherwise the year, month and day differences decide.
      A blank or unparseable entry becomes an invalid `Date`, every
      comparison with which is false, so the refinement lets it through. */
  predicate DobRefinement(today: Date, dob: DobEntry) {
    match dob
    case Blank => true
    case Unparseable => true
    case Day(d) =>
      if !Before(d, today) then false
      else
        var age := today.year - d.year;
        var monthDiff := today.month - d.month;
        var dayDiff := today.day - d.day;
        !(age < 18 || (age == 18 && monthDiff < 0) || (age == 18 && monthDiff == 0 && dayDiff < 0))
  }

  /** The error shown for field `f` of `p`, if any. */
  function FieldIssue(f: Field, p: Profile, today: Date, fmt: Formats): Option<string> {
    match f
    case Name => MinLength(p.name, 2, NameMessage)
    case Email => if fmt.isEmail(p.email) then None else Some(EmailMessage)
    case Address => MinLength(p.address, 5, AddressMessage)
    case GoogleMapLink =>
      if fmt.isUrl(p.googleMapLink) || p.googleMapLink == "" then None else Some(MapLinkMessage)
    case Phone =>
      if |p.phone| < 10 then Some(PhoneLengthMessage)
      else if !(|p.phone| > 0 && AllDigits(p.phone)) then Some(PhoneDigitsMessage)
      else None
    case AlternatePhone => None
    case PreferredService => MinLength(p.preferredService, 2, ServiceMessage)
    case PreferredTimeSlot => MinLength(p.preferredTimeSlot, 2, TimeSlotMessage)
    case SpecialInstructions => None
    case Dob =>
      if p.dob == Blank then Some(DobRequiredMessage)
      else if !DobRefinement(today, p.dob) then Some(DobAgeMessage)
      else None
  }

  /** The form's error map: one message per field that fails. */
  function Errors(p: Profile, today: Date, fmt: Formats): (e: map<Field, string>)
    ensures forall f :: f in e <==> FieldIssue(f, p, today, fmt).Some?
  {
    map f | f in AllFields && FieldIssue(f, p, today, fmt).Some? :: FieldIssue(f, p, today, fmt).value
  }

  /** The day a person born on `d` turns eighteen. */
  function EighteenthBirthday(d: Date): Date {
    Date(d.year + 18, d.month, d.day)
  }

  /** The reference age rule: the eighteenth birthday is today or earlier. */
  predicate OfAge(today: Date, d: Date) {
    !Before(today, EighteenthBirthday(d))
  }

  /** The reference meaning of the whole schema, field by field. */
  predicate Conforms(p: Profile, today: Date, fmt: Formats) {
    && |p.name| >= 2
    && fmt.isEmail(p.email)
    && |p.address| >= 5
    && (p.googleMapLink == "" || fmt.isUrl(p.googleMapLink))
    && |p.phone| >= 10 && AllDigits(p.phone)
    && |p.preferredService| >= 2
    && |p.preferredTimeSlot| >= 2
    && match p.dob
       case Blank => false
       case Unparseable => true
       case Day(d) => OfAge(today, d)
  }

  // ---------------------------------------------------------------------
  // Field rules

  /** The length rules, and the fields that accept every string. */
  lemma LengthRules(p: Profile, today: Date, fmt: Formats)
    ensures FieldIssue(Name, p, today, fmt) == None <==> |p.name| >= 2
    ensures FieldIssue(Address, p, today, fmt) == None <==> |p.address| >= 5
    ensures FieldIssue(PreferredService, p, today, fmt) == None <==> |p.preferredService| >= 2
    ensures FieldIssue(PreferredTimeSlot, p, today, fmt) == None <==> |p.preferredTimeSlot| >= 2
    ensures FieldIssue(AlternatePhone, p, today, fmt) == None
    ensures FieldIssue(SpecialInstructions, p, today, fmt) == None
  {
  }

  /** The phone is accepted iff it has at least ten characters, all decimal
      digits; a short phone reports the length rule first. */
  lemma PhoneRule(p: Profile, today: Date, fmt: Formats)
    ensures FieldIssue(Phone, p, today, fmt) == None <==> |p.phone| >= 10 && AllDigits(p.phone)
    ensures |p.phone| < 10 ==> FieldIssue(Phone, p, today, fmt) == Some(PhoneLengthMessage)
    ensures |p.phone| >= 10 && !AllDigits(p.phone) ==>
              FieldIssue(Phone, p, today, fmt) == Some(PhoneDigitsMessage)
  {
  }

  /** "12345" breaks the length rule; "abcdefghij" breaks the digit rule. */
  lemma PhoneExamples(p: Profile, today: Date, fmt: Formats)
    ensures FieldIssue(Phone, p.(phone := "12345"), today, fmt) == Some(PhoneLengthMessage)
    ensures FieldIssue(Phone, p.(phone := "abcdefghij"), today, fmt) == Some(PhoneDigitsMessage)
  {
    assert !IsDigit("abcdefghij"[0]);
  }

  /** The date-of-birth refinement accepts a calendar day exactly when the
      eighteenth birthday has arrived. In particular the eighteenth
      birthday itself is accepted. */
  lemma DobRefinementIsOfAge(today: Date, d: Date)
    ensures DobRefinement(today, Day(d)) <==> OfAge(today, d)
  {
  }

  /** The date-of-birth field: blank is "required", a calendar day must be
      eighteen years back, and an unparseable string is let through. */
  lemma DobRule(p: Profile, today: Date, fmt: Formats)
    ensures p.dob == Blank ==> FieldIssue(Dob, p, today, fmt) == Some(DobRequiredMessage)
    ensures p.dob == Unparseable ==> FieldIssue(Dob, p, today, fmt) == None
    ensures p.dob.Day? ==>
              (FieldIssue(Dob, p, today, fmt) == None <==> OfAge(today, p.dob.date))
    ensures p.dob.Day? && !Before(p.dob.date, today) ==> FieldIssue(Dob, p, today, fmt).Some?
  {
    if p.dob.Day? {
      DobRefinementIsOfAge(today, p.dob.date);
    }
  }

  /** Born exactly eighteen years before today: accepted. */
  lemma EighteenthBirthdayAccepted(today: Date)
    ensures DobRefinement(today, Day(Date(today.year - 18, today.month, today.day)))
  {
  }

  /** The error map is empty exactly when the profile meets every rule. */
  lemma NoErrorsIffConforms(p: Profile, today: Date, fmt: Formats)
    ensures Errors(p, today, fmt) == map[] <==> Conforms(p, today, fmt)
  {
    var e := Errors(p, today, fmt);
    PhoneRule(p, today, fmt);
    DobRule(p, today, fmt);
    if Conforms(p, today, fmt) {
      forall f
        ensures FieldIssue(f, p, today, fmt).None?
      {
      }
      assert e.Keys == {};
    } else {
      var culprit :=
        if |p.name| < 2 then Name
        else if !fmt.isEmail(p.email) then Email
        else if |p.address| < 5 then Address
        else if !(p.googleMapLink == "" || fmt.isUrl(p.googleMapLink)) then GoogleMapLink
        else if !(|p.phone| >= 10 && AllDigits(p.phone)) then Phone
        else if |p.preferredService| < 2 then PreferredService
        else if |p.preferredTimeSlot| < 2 then PreferredTimeSlot
        else Dob;
      assert culprit in e;
    }
  }

  // ---------------------------------------------------------------------
  // Avatar image gate

  /** The metadata of a chosen file. */
  datatype ImageFile = ImageFile(name: string, mimeType: string, size: nat)

  const AcceptedImageTypes: seq<string> := ["image/jpeg", "image/png", "image/gif", "image/webp"]

  /** Five mebibytes. */
  const MaxImageBytes: nat := 5 * 1024 * 1024

  /** The outcome of choosing a file; the type is checked before the size. */
  datatype ImageVerdict = Accepted | WrongType | TooLarge

  function CheckImage(f: ImageFile): ImageVerdict {
    if f.mimeType !in AcceptedImageTypes then WrongType
    else if f.size > MaxImageBytes then TooLarge
    else Accepted
  }

  /** A file is accepted iff it is a JPEG, PNG, GIF or WebP image of at
      most 5 MiB; a file of the wrong type is reported as such whatever
      its size. */
  lemma ImageGate(f: ImageFile)
    ensures CheckImage(f) == Accepted <==>
              f.mimeType in {"image/jpeg", "image/png", "image/gif", "image/webp"} && f.size <= 5242880
    ensures f.mimeType !in {"image/jpeg", "image/png", "image/gif", "image/webp"} ==> CheckImage(f) == WrongType
  {
  }

  /** A 6 MiB PNG is too large, a 2 MiB BMP has the wrong type, a 2 MiB PNG
      and a PNG of exactly 5 MiB are accepted. */
  lemma ImageExamples()
    ensures CheckImage(ImageFile("a.png", "image/png", 6 * 1024 * 1024)) == TooLarge
    ensures CheckImage(ImageFile("a.bmp", "image/bmp", 2 * 1024 * 1024)) == WrongType
    ensures CheckImage(ImageFile("a.png", "image/png", 2 * 1024 * 1024)) == Accepted
    ensures CheckImage(ImageFile("a.png", "image/png", 5 * 1024 * 1024)) == Accepted
  {
    assert "image/bmp" != AcceptedImageTypes[0] && "image/bmp" != AcceptedImageTypes[1];
    assert "image/bmp" != AcceptedImageTypes[2] && "image/bmp" != AcceptedImageTypes[3];
  }
}
