/** The public booking form (src/Components/Booking.jsx): field validators,
    the phone and guest-count sanitisers, the set of booked days that the
    date picker disables, and the two-stage submission (check locally and
    open a preview; on confirmation re-fetch the booked days, then POST). */
module Booking {

  import opened Wrappers
  import opened Calendar
  import opened JsText
  import opened Lists
  import opened Feedback

  /** A dayjs value: a parsed instant, or the "invalid date" object that
      `dayjs(null)` and unparsable input give. Both are objects, so both
      are truthy. */
  datatype Stamp = Instant(date: Date, time: Time) | InvalidStamp

  /** The text `format("YYYY-MM-DD")` produces: the calendar day, or
      "Invalid Date". */
  datatype DayKey = Day(date: Date) | InvalidDay

  /** The text `format("HH:mm")` produces. */
  datatype TimeKey = Clock(time: Time) | InvalidTime

  function DayOf(s: Stamp): DayKey {
    match s
    case Instant(d, _) => Day(d)
    case InvalidStamp => InvalidDay
  }

  function TimeOf(s: Stamp): TimeKey {
    match s
    case Instant(_, t) => Clock(t)
    case InvalidStamp => InvalidTime
  }

  /** normalizeDate: a falsy value (None) gives null, anything else the
      day it falls on, with the time of day dropped. */
  function NormalizeDate(d: Option<Stamp>): (r: Option<DayKey>)
    ensures r.None? <==> d.None?
    ensures d.Some? ==> r == Some(DayOf(d.value))
  {
    if d.None? then None else Some(DayOf(d.value))
  }

  /** Normalising forgets the time of day and nothing else: two valid
      instants normalise to the same key exactly when they fall on the same
      calendar day. */
  lemma NormalizeDateSameDay(a: Date, s: Time, b: Date, t: Time)
    ensures NormalizeDate(Some(Instant(a, s))) == NormalizeDate(Some(Instant(b, t))) <==> a == b
  {
  }

  /** `list.map(normalizeDate).filter(Boolean)`: the keys of the non-null
      entries, in order. */
  function NormalizeAll(raw: seq<Option<Stamp>>): (r: seq<DayKey>)
    ensures |r| <= |raw|
    ensures forall i :: 0 <= i < |raw| && raw[i].Some? ==> DayOf(raw[i].value) in r
    ensures forall j :: 0 <= j < |r| ==>
              exists i :: 0 <= i < |raw| && raw[i].Some? && DayOf(raw[i].value) == r[j]
  {
    if raw == [] then []
    else
      var rest := NormalizeAll(raw[1..]);
      assert forall i :: 1 <= i < |raw| ==> raw[i] == raw[1..][i - 1];
      if raw[0].Some? then [DayOf(raw[0].value)] + rest else rest
  }

  /** `(data.bookedDates || [])` normalised: the booked days in a response
      body whose list may be missing (None). */
  function BookedFromBody(body: Option<seq<Option<Stamp>>>): (r: seq<DayKey>)
    ensures body.None? ==> r == []
  {
    if body.None? then [] else NormalizeAll(body.value)
  }

  /** The booked days of a present list are exactly the days of its
      present dates. */
  lemma BookedDaysOfBody(body: seq<Option<Stamp>>)
    ensures forall k :: k in BookedFromBody(Some(body)) <==>
              exists i :: 0 <= i < |body| && body[i].Some? && DayOf(body[i].value) == k
  {
    var r := BookedFromBody(Some(body));
    forall k | k in r
      ensures exists i :: 0 <= i < |body| && body[i].Some? && DayOf(body[i].value) == k
    {
      var j :| 0 <= j < |r| && r[j] == k;
    }
  }

  /** bookedSet: the booked days as a set. Every entry of bookedDates is
      already a normalised key, and normalising a key again gives the same
      key, so the set holds exactly the entries of the list. */
  function BookedSet(bookedDates: seq<DayKey>): (r: set<DayKey>)
    ensures forall k :: k in r <==> exists i :: 0 <= i < |bookedDates| && bookedDates[i] == k
  {
    set k | k in bookedDates
  }

  /** disableBookedDates: the picker disables a day exactly when some entry
      of the booked list is that day; a missing date is never disabled. */
  function DisableBookedDates(date: Option<Stamp>, bookedDates: seq<DayKey>): (r: bool)
    ensures r <==> date.Some? && exists i :: 0 <= i < |bookedDates| && bookedDates[i] == DayOf(date.value)
  {
    date.Some? && DayOf(date.value) in BookedSet(bookedDates)
  }

  // ---------------------------------------------------------------------
  // Field validation

  /** `[^\s@]`: a character allowed in each part of an address. */
  predicate EmailChar(c: char) {
    c != '@' && !IsSpace(c)
  }

  /** `[^\s@]+`. */
  predicate EmailPart(p: string) {
    |p| > 0 && forall i :: 0 <= i < |p| ==> EmailChar(p[i])
  }

  /** The index of the first occurrence of `c`, or -1. */
  function IndexOf(s: string, c: char): (r: int)
    ensures -1 <= r < |s|
    ensures r >= 0 ==> s[r] == c && c !in s[..r]
    ensures r == -1 ==> c !in s
  {
    if s == [] then -1
    else if s[0] == c then 0
    else
      var k := IndexOf(s[1..], c);
      if k == -1 then -1
      else
        assert s[..k + 1] == [s[0]] + s[1..][..k];
        k + 1
  }

  /** isValidEmail: `/^[^\s@]+@[^\s@]+\.[^\s@]+$/`, read as a scan: no white
      space, exactly one '@' and not at the front, and a '.' after the '@'
      with at least one character on each side of it. */
  predicate IsValidEmail(s: string)
    ensures IsValidEmail(s) ==> 5 <= |s| && '@' in s
  {
    var at := IndexOf(s, '@');
    && at > 0
    && (forall i :: 0 <= i < |s| ==> !IsSpace(s[i]))
    && '@' !in s[at + 1..]
    && exists j | at + 1 < j < |s| - 1 :: s[j] == '.'
  }

  /** The address splits as local part, '@', domain, '.', top-level part. */
  predicate EmailShape(s: string, l: string, d: string, t: string) {
    s == l + "@" + d + "." + t && EmailPart(l) && EmailPart(d) && EmailPart(t)
  }

  /** An address is accepted exactly when it has the form L@D.T with L, D and
      T non-empty and free of white space and '@'. */
  lemma EmailAccepted(s: string)
    ensures IsValidEmail(s) <==> exists l, d, t :: EmailShape(s, l, d, t)
  {
    if IsValidEmail(s) {
      AcceptedHasShape(s);
    }
    if exists l, d, t :: EmailShape(s, l, d, t) {
      var l, d, t :| EmailShape(s, l, d, t);
      ShapeIsAccepted(s, l, d, t);
    }
  }

  lemma AcceptedHasShape(s: string)
    requires IsValidEmail(s)
    ensures exists l, d, t :: EmailShape(s, l, d, t)
  {
    var at := IndexOf(s, '@');
    var j :| at + 1 < j < |s| - 1 && s[j] == '.';
    var l, d, t := s[..at], s[at + 1..j], s[j + 1..];
    assert s == l + "@" + d + "." + t by {
      assert s == s[..at] + [s[at]] + s[at + 1..j] + [s[j]] + s[j + 1..];
    }
    assert EmailPart(l) by {
      forall i | 0 <= i < |l| ensures EmailChar(l[i]) {
        assert l[i] == s[i] && s[i] in s[..at];
      }
    }
    assert EmailPart(d) by {
      forall i | 0 <= i < |d| ensures EmailChar(d[i]) {
        assert d[i] == s[at + 1 + i] && s[at + 1 + i] in s[at + 1..];
      }
    }
    assert EmailPart(t) by {
      forall i | 0 <= i < |t| ensures EmailChar(t[i]) {
        assert t[i] == s[j + 1 + i] && s[j + 1 + i] in s[at + 1..];
      }
    }
    assert EmailShape(s, l, d, t);
  }

  lemma ShapeIsAccepted(s: string, l: string, d: string, t: string)
    requires EmailShape(s, l, d, t)
    ensures IsValidEmail(s)
  {
    var n := |l|;
    var m := n + 1 + |d|;
    assert forall i :: 0 <= i < n ==> s[i] == l[i];
    assert s[n] == '@';
    assert forall i :: n < i < m ==> s[i] == d[i - n - 1];
    assert s[m] == '.';
    assert forall i :: m < i < |s| ==> s[i] == t[i - m - 1];
    assert IndexOf(s, '@') == n;
    assert forall i :: 0 <= i < |s| ==> !IsSpace(s[i]) by {
      forall i | 0 <= i < |s| ensures !IsSpace(s[i]) {
        if i < n { assert EmailChar(l[i]); }
        else if n < i < m { assert EmailChar(d[i - n - 1]); }
        else if m < i { assert EmailChar(t[i - m - 1]); }
      }
    }
    assert '@' !in s[n + 1..] by {
      forall i | n + 1 <= i < |s| ensures s[i] != '@' {
        if i < m { assert EmailChar(d[i - n - 1]); }
        else if m < i { assert EmailChar(t[i - m - 1]); }
      }
    }
    assert n + 1 < m < |s| - 1;
  }

  /** isValidPhone: `/^\d{10}$/`: ten characters, which the phone
      sanitiser leaves as they are. */
  predicate IsValidPhone(s: string)
    ensures IsValidPhone(s) <==> |s| == 10 && Digits(s) == s
  {
    if |s| == 10 && AllDigits(s) then
      DigitsOfDigits(s);
      true
    else
      false
  }

  /** isValidGuests: `Number(v)` is an integer of at least 1. Neither NaN
      nor Infinity is an integer. */
  predicate IsValidGuests(s: string) {
    var n := ToNumber(s);
    n.Finite? && n.value >= 1
  }

  /** The guest rule accepts exactly the numerals worth at least 1 that
      `Number` does not round to Infinity. */
  lemma GuestsRule(s: string)
    ensures IsValidGuests(s) <==> AllDigits(s) && 1 <= DecimalValue(s) < OverflowBound
  {
  }

  /** What `validateField` receives: the text of an input, or the raw value
      a picker reports (null when it was cleared). */
  datatype FieldValue = Text(text: string) | Picked(stamp: Option<Stamp>)

  /** JavaScript truthiness of a field value. */
  predicate Truthy(v: FieldValue) {
    match v
    case Text(s) => s != ""
    case Picked(p) => p.Some?
  }

  /** The text the text-field rules read; the component never hands them a
      picker value. */
  function TextOf(v: FieldValue): string {
    match v
    case Text(s) => s
    case Picked(_) => ""
  }

  /** The inputs of the form. */
  datatype Field =
    | NameField | EmailField | PhoneField | PackageField | GuestsField
    | DateField | TimeField | RequestsField

  /** The name each input has in formData and errors. */
  function Key(f: Field): string {
    match f
    case NameField => "name"
    case EmailField => "email"
    case PhoneField => "phone"
    case PackageField => "package"
    case GuestsField => "guests"
    case DateField => "date"
    case TimeField => "time"
    case RequestsField => "specialRequests"
  }

  /** The input a name denotes, if any. */
  function FieldNamed(name: string): (r: Option<Field>)
    ensures r.Some? ==> Key(r.value) == name
    ensures r.None? ==> forall f: Field :: Key(f) != name
  {
    match name
    case "name" => Some(NameField)
    case "email" => Some(EmailField)
    case "phone" => Some(PhoneField)
    case "package" => Some(PackageField)
    case "guests" => Some(GuestsField)
    case "date" => Some(DateField)
    case "time" => Some(TimeField)
    case "specialRequests" => Some(RequestsField)
    case _ => None
  }

  const NameRequired := "Name is required"
  const EmailInvalid := "Enter a valid email"
  const PhoneInvalid := "Phone must be 10 digits"
  const PackageRequired := "Select a package"
  const GuestsInvalid := "Enter number of guests (min 1)"
  const DateRequired := "Select a date"
  const TimeRequired := "Select a time"
  const DateTaken := "Selected date already booked"

  /** The error text of one failed rule, or "" when the field's rule holds. */
  function Verdict(ok: bool, message: string): string {
    if ok then "" else message
  }

  /** The rule of each input; the special-requests input has none. */
  function ValidateField(f: Field, value: FieldValue): (r: string)
    ensures f == NameField ==> (r == "" <==> Trim(TextOf(value)) != "")
    ensures f == EmailField ==> (r == "" <==> IsValidEmail(TextOf(value)))
    ensures f == PhoneField ==> (r == "" <==> IsValidPhone(TextOf(value)))
    ensures f == GuestsField ==> (r == "" <==> IsValidGuests(TextOf(value)))
    ensures f in {PackageField, DateField, TimeField} ==> (r == "" <==> Truthy(value))
    ensures f == RequestsField ==> r == ""
  {
    match f
    case NameField => Verdict(Trim(TextOf(value)) != "", NameRequired)
    case EmailField => Verdict(IsValidEmail(TextOf(value)), EmailInvalid)
    case PhoneField => Verdict(IsValidPhone(TextOf(value)), PhoneInvalid)
    case PackageField => Verdict(Truthy(value), PackageRequired)
    case GuestsField => Verdict(IsValidGuests(TextOf(value)), GuestsInvalid)
    case DateField => Verdict(Truthy(value), DateRequired)
    case TimeField => Verdict(Truthy(value), TimeRequired)
    case RequestsField => ""
  }

  /** validateField as the component calls it, by name: a name that is no
      checked input gives "". */
  function ValidateNamed(name: string, value: FieldValue): (r: string)
    ensures FieldNamed(name).None? ==> r == ""
    ensures name == "specialRequests" ==> r == ""
    ensures forall f: Field :: Key(f) == name ==> r == ValidateField(f, value)
  {
    KeyInjective();
    match FieldNamed(name)
    case None => ""
    case Some(f) => ValidateField(f, value)
  }

  /** Distinct inputs have distinct names: the first two letters already
      differ. */
  lemma KeyInjective()
    ensures forall f: Field, g: Field :: Key(f) == Key(g) ==> f == g
  {
    forall f: Field, g: Field | Key(f) == Key(g)
      ensures f == g
    {
      assert Key(f)[..2] == Key(g)[..2];
    }
  }

  /** The name rule: trimming leaves something, that is, the name has a
      character that is not white space. */
  lemma NameRule(s: string)
    ensures ValidateField(NameField, Text(s)) == "" <==> exists i :: 0 <= i < |s| && !IsSpace(s[i])
  {
    TrimEmpty(s);
  }

  // ---------------------------------------------------------------------
  // Sanitisers (handleChange)

  /** The phone input keeps its digits and at most ten of them. */
  function SanitizePhone(s: string): (r: string)
    ensures AllDigits(r)
    ensures |r| == if |Digits(s)| < 10 then |Digits(s)| else 10
    ensures r == Digits(s)[..|r|]
  {
    Take(Digits(s), 10)
  }

  /** The sanitised phone passes the phone rule exactly when the input held
      at least ten digits. */
  lemma SanitizedPhoneValid(s: string)
    ensures IsValidPhone(SanitizePhone(s)) <==> |Digits(s)| >= 10
  {
  }

  /** Sanitising a sanitised phone changes nothing. */
  lemma SanitizePhoneIdempotent(s: string)
    ensures SanitizePhone(SanitizePhone(s)) == SanitizePhone(s)
  {
    DigitsOfDigits(SanitizePhone(s));
  }

  /** The guest-count input keeps every digit, in order, without truncation. */
  function SanitizeGuests(s: string): (r: string)
    ensures r == Digits(s)
    ensures AllDigits(r)
    ensures forall c :: IsDigit(c) ==> multiset(r)[c] == multiset(s)[c]
  {
    forall c | IsDigit(c) ensures multiset(Digits(s))[c] == multiset(s)[c] {
      DigitsCount(s, c);
    }
    Digits(s)
  }

  /** After sanitising, the guest rule accepts exactly the inputs with a
      digit other than 0 whose digits, read as a numeral, stay below the
      overflow bound: "" and "0" (and "000") are refused, and so is a
      numeral so long that `Number` makes it Infinity. */
  lemma SanitizedGuestsValid(s: string)
    ensures IsValidGuests(SanitizeGuests(s)) <==>
              HasNonZeroDigit(s) && DecimalValue(SanitizeGuests(s)) < OverflowBound
  {
    var g := SanitizeGuests(s);
    DecimalValuePositive(g);
    DigitsNonZero(s);
    assert HasNonZeroDigit(g) <==> exists i :: 0 <= i < |g| && g[i] != '0';
  }

  lemma GuestsExamples()
    ensures !IsValidGuests("") && !IsValidGuests("0") && IsValidGuests("12")
    ensures SanitizeGuests("1a2") == "12"
  {
    assert DecimalValue("1") == 1;
    assert "12"[..1] == "1";
    assert !IsDigit("1a2"[1]);
    assert "1a2"[1..] == "a2" && "a2"[1..] == "2";
  }

  /** The input "12345abc678" keeps its eight digits, which do not make a
      valid phone number. */
  lemma PhoneExample()
    ensures SanitizePhone("12345abc678") == "12345678"
    ensures !IsValidPhone(SanitizePhone("12345abc678"))
  {
    assert Digits("12345abc678") == "12345678" by {
      assert "12345abc678" == "12345" + "abc" + "678";
      assert forall i :: 0 <= i < 3 ==> !IsDigit("abc"[i]);
      DigitsAround("12345", "abc", "678");
      assert "12345" + "678" == "12345678";
    }
  }

  // ---------------------------------------------------------------------
  // Form state

  datatype FormData = FormData(
    name: string, email: string, phone: string, package: string,
    guests: string, date: Stamp, time: Stamp, specialRequests: string)

  /** The fields validateForm checks, in its order. */
  const Checked: seq<Field> := [NameField, EmailField, PhoneField, PackageField, GuestsField, DateField, TimeField]

  /** The inputs that report through handleChange (the pickers have their own handlers). */
  predicate IsTextInput(f: Field) {
    f != DateField && f != TimeField
  }

  /** The empty form; date and time start at the current instant. */
  function EmptyForm(now: Stamp): FormData {
    FormData("", "", "", "", "", now, now, "")
  }

  /** The empty error record: "" for each of the seven checked fields. */
  function EmptyErrors(): (m: map<Field, string>)
    ensures m.Keys == set f | f in Checked
    ensures forall f :: f in m ==> m[f] == ""
  {
    map f | f in Checked :: ""
  }

  /** `formData[f]`. */
  function ValueOf(form: FormData, f: Field): FieldValue {
    match f
    case NameField => Text(form.name)
    case EmailField => Text(form.email)
    case PhoneField => Text(form.phone)
    case PackageField => Text(form.package)
    case GuestsField => Text(form.guests)
    case DateField => Picked(Some(form.date))
    case TimeField => Picked(Some(form.time))
    case RequestsField => Text(form.specialRequests)
  }

  /** `{ ...form, [name]: value }` for a text input. */
  function WithText(form: FormData, f: Field, value: string): (r: FormData)
    requires IsTextInput(f)
    ensures ValueOf(r, f) == Text(value)
    ensures forall g :: g != f ==> ValueOf(r, g) == ValueOf(form, g)
  {
    match f
    case NameField => form.(name := value)
    case EmailField => form.(email := value)
    case PhoneField => form.(phone := value)
    case PackageField => form.(package := value)
    case GuestsField => form.(guests := value)
    case RequestsField => form.(specialRequests := value)
  }

  /** The value handleChange stores for an input. */
  function Sanitize(f: Field, value: string): string {
    if f == PhoneField then SanitizePhone(value)
    else if f == GuestsField then SanitizeGuests(value)
    else value
  }

  /** The errors validateForm computes, one per checked field. */
  function FormErrors(form: FormData): map<Field, string> {
    map f | f in Checked :: ValidateField(f, ValueOf(form, f))
  }

  predicate FormValid(form: FormData) {
    forall f :: f in Checked ==> ValidateField(f, ValueOf(form, f)) == ""
  }

  /** The rules a valid form meets, field by field. */
  predicate FormRules(form: FormData) {
    && Trim(form.name) != ""
    && IsValidEmail(form.email)
    && IsValidPhone(form.phone)
    && form.package != ""
    && IsValidGuests(form.guests)
  }

  /** A form passes validation exactly when its name is not blank, its
      email and phone are well formed, a package is chosen and at least one
      guest is given. The date and time hold dayjs objects, which are always
      truthy, so they never fail. */
  lemma FormValidRules(form: FormData)
    ensures FormValid(form) <==> FormRules(form)
  {
    if FormValid(form) {
      ValidImpliesRules(form);
    }
    if FormRules(form) {
      RulesImplyValid(form);
    }
  }

  lemma ValidImpliesRules(form: FormData)
    requires FormValid(form)
    ensures FormRules(form)
  {
    assert ValidateField(NameField, ValueOf(form, NameField)) == "";
    assert ValidateField(EmailField, ValueOf(form, EmailField)) == "";
    assert ValidateField(PhoneField, ValueOf(form, PhoneField)) == "";
    assert ValidateField(PackageField, ValueOf(form, PackageField)) == "";
    assert ValidateField(GuestsField, ValueOf(form, GuestsField)) == "";
  }

  lemma RulesImplyValid(form: FormData)
    requires FormRules(form)
    ensures FormValid(form)
  {
    CheckedFields();
    forall f | f in Checked ensures ValidateField(f, ValueOf(form, f)) == "" {
      match f
      case NameField => assert Trim(TextOf(ValueOf(form, f))) != "";
      case EmailField => assert IsValidEmail(TextOf(ValueOf(form, f)));
      case PhoneField => assert IsValidPhone(TextOf(ValueOf(form, f)));
      case PackageField => assert Truthy(ValueOf(form, f));
      case GuestsField => assert IsValidGuests(TextOf(ValueOf(form, f)));
      case DateField =>
      case TimeField =>
      case RequestsField =>
    }
  }

  /** validateForm checks every input but the special requests. */
  lemma CheckedFields()
    ensures forall f :: f in Checked <==> f != RequestsField
  {
  }

  /** A cleared date picker stores `dayjs(null)`, an invalid but truthy
      value: validateForm then accepts the date, and the submitted day is
      "Invalid Date". */
  lemma ClearedDatePasses(form: FormData)
    requires form.date == InvalidStamp
    ensures ValidateField(DateField, Picked(None)) == DateRequired
    ensures ValidateField(DateField, ValueOf(form, DateField)) == ""
    ensures DayOf(form.date) == InvalidDay
  {
  }

  /** The loop of validateForm: one error per field, and `ok` when none is set. */
  method CollectErrors(form: FormData) returns (newErrors: map<Field, string>, ok: bool)
    ensures newErrors == FormErrors(form)
    ensures ok <==> FormValid(form)
  {
    newErrors := map[];
    ok := true;
    for k := 0 to |Checked|
      invariant forall f :: f in newErrors <==> f in Checked[..k]
      invariant forall f :: f in newErrors ==> newErrors[f] == ValidateField(f, ValueOf(form, f))
      invariant ok <==> forall f :: f in Checked[..k] ==> ValidateField(f, ValueOf(form, f)) == ""
    {
      var f := Checked[k];
      assert Checked[..k + 1] == Checked[..k] + [f];
      var err := ValidateField(f, ValueOf(form, f));
      newErrors := newErrors[f := err];
      if err != "" {
        ok := false;
      }
    }
    assert Checked[..|Checked|] == Checked;
  }

  // ---------------------------------------------------------------------
  // The page

  /** Removes repeated entries, keeping first occurrences in order
      (`Array.from(new Set(xs))`). */
  function Dedup(s: seq<DayKey>): (r: seq<DayKey>)
    ensures forall x :: x in r <==> x in s
    ensures NoDup(r)
  {
    if s == [] then []
    else
      var r := Dedup(s[..|s| - 1]);
      assert forall x :: x in s <==> x in s[..|s| - 1] || x == s[|s| - 1] by {
        assert s == s[..|s| - 1] + [s[|s| - 1]];
      }
      if s[|s| - 1] in r then r else r + [s[|s| - 1]]
  }

  /** A list without repeats is its own deduplication. */
  lemma {:induction false} DedupNoDup(s: seq<DayKey>)
    requires NoDup(s)
    ensures Dedup(s) == s
  {
    if s != [] {
      var init := s[..|s| - 1];
      DedupNoDup(init);
      assert s[|s| - 1] !in init;
      assert s == init + [s[|s| - 1]];
    }
  }

  /** Merging one day into a repeat-free list appends it once, or leaves the
      list alone when it is already there. */
  lemma MergeDay(prev: seq<DayKey>, day: DayKey)
    requires NoDup(prev)
    ensures Dedup(prev + [day]) == if day in prev then prev else prev + [day]
  {
    assert (prev + [day])[..|prev|] == prev;
    DedupNoDup(prev);
  }

  const FixErrorsNotice := "Please fix the highlighted errors"
  const DateTakenNotice := "\U{26A0}\U{FE0F} Selected date is already booked. Please choose another date."
  const SubmittedNotice := "\U{2705} Booking submitted!"
  const ConflictNotice := "\U{26A0}\U{FE0F} Booking conflict: selected date was just taken. Please choose another date."
  const SubmittingText := "Submitting..."
  const UnavailableText := "Date Unavailable"
  const ConfirmText := "Confirm Booking"
  const SubmitFailedNotice := "\U{26A0}\U{FE0F} Failed to submit booking!"

  /** A package offered in the selection list (`{_id, name, price}`). */
  datatype PackageOption = PackageOption(id: string, name: string, price: Option<string>)

  /** The body sent by POST /bookings: the form with the date reduced to its
      day and the time to "HH:mm". */
  datatype Payload = Payload(
    name: string, email: string, phone: string, package: string,
    guests: string, date: DayKey, time: TimeKey, specialRequests: string)

  function PayloadOf(form: FormData): Payload {
    Payload(form.name, form.email, form.phone, form.package, form.guests,
            DayOf(form.date), TimeOf(form.time), form.specialRequests)
  }

  /** The payload carries the normalised day of the picked date, so the
      fresh-list check before the POST refuses exactly the days the picker
      disables. */
  lemma PayloadCarriesDay(form: FormData, booked: seq<DayKey>)
    ensures Some(PayloadOf(form).date) == NormalizeDate(Some(form.date))
    ensures PayloadOf(form).date in booked <==> DisableBookedDates(Some(form.date), booked)
  {
  }

  /** The body of GET /bookings or POST /bookings: its bookedDates list, or
      None when the body or the list is missing. */
  type BookedBody = Option<seq<Option<Stamp>>>

  class BookingPage {
    var form: FormData
    var errors: map<Field, string>
    var snackbar: Toast<string>
    var previewOpen: bool
    var bookedDates: seq<DayKey>
    var loading: bool
    var submitting: bool
    var packages: seq<PackageOption>

    /** Every checked field has an entry in the error record. */
    predicate Valid()
      reads this
    {
      forall f :: f in Checked ==> f in errors
    }

    /** selectedIsBooked: the form's day is in the booked set, so the
        preview and the date picker agree on which days are taken. */
    function SelectedIsBooked(): (r: bool)
      reads this
      ensures r <==> DisableBookedDates(Some(form.date), bookedDates)
    {
      DayOf(form.date) in BookedSet(bookedDates)
    }

    /** The Confirm button of the preview is enabled. */
    function ConfirmEnabled(): (r: bool)
      reads this
      ensures r <==> !submitting && !DisableBookedDates(Some(form.date), bookedDates)
    {
      !submitting && !SelectedIsBooked()
    }

    /** The Confirm button's text. */
    function ConfirmLabel(): (r: string)
      reads this
      ensures r == ConfirmText <==> ConfirmEnabled()
      ensures r == UnavailableText <==> !submitting && SelectedIsBooked()
      ensures r == SubmittingText <==> submitting
    {
      if submitting then SubmittingText
      else if SelectedIsBooked() then UnavailableText
      else ConfirmText
    }

    constructor (now: Stamp)
      ensures Valid()
      ensures form == EmptyForm(now) && errors == EmptyErrors()
      ensures snackbar == Toast(false, "", Success)
      ensures !previewOpen && bookedDates == [] && loading && !submitting && packages == []
    {
      form := EmptyForm(now);
      errors := EmptyErrors();
      snackbar := Toast(false, "", Success);
      previewOpen := false;
      bookedDates := [];
      loading := true;
      submitting := false;
      packages := [];
    }

    /** The load of the booked days: on failure the page goes on with none
        (it fails open). */
    method LoadBookedDates(reply: Reply<BookedBody>)
      modifies this
      ensures bookedDates == (if reply.Ok? then BookedFromBody(reply.data) else [])
      ensures !loading
      ensures form == old(form) && errors == old(errors) && snackbar == old(snackbar)
      ensures previewOpen == old(previewOpen) && submitting == old(submitting) && packages == old(packages)
    {
      match reply {
        case Ok(body) => bookedDates := BookedFromBody(body);
        case Failed(_, _) => bookedDates := [];
      }
      loading := false;
    }

    /** The load of the package list; on failure the list stays as it was. */
    method LoadPackages(reply: Reply<Option<seq<PackageOption>>>)
      modifies this`packages
      ensures packages == (if reply.Ok? then reply.data.GetOr([]) else old(packages))
    {
      if reply.Ok? {
        packages := reply.data.GetOr([]);
      }
    }

    /** handleChange for a text input: phone and guest count are sanitised
        first; the field's error is recomputed from the stored value. */
    method HandleChange(f: Field, value: string)
      requires Valid() && IsTextInput(f)
      modifies this`form, this`errors
      ensures Valid()
      ensures form == WithText(old(form), f, Sanitize(f, value))
      ensures errors == old(errors)[f := ValidateField(f, Text(Sanitize(f, value)))]
    {
      if f == PhoneField {
        var digits := SanitizePhone(value);
        form := form.(phone := digits);
        errors := errors[PhoneField := ValidateField(PhoneField, Text(digits))];
        return;
      }
      if f == GuestsField {
        var digits := SanitizeGuests(value);
        form := form.(guests := digits);
        errors := errors[GuestsField := ValidateField(GuestsField, Text(digits))];
        return;
      }
      form := WithText(form, f, value);
      errors := errors[f := ValidateField(f, Text(value))];
    }

    /** The date picker's onChange: it stores `dayjs(newValue)` (invalid
        when the picker was cleared) but judges the raw value. */
    method ChangeDate(newValue: Option<Stamp>)
      requires Valid()
      modifies this`form, this`errors
      ensures Valid()
      ensures form == old(form).(date := newValue.GetOr(InvalidStamp))
      ensures errors == old(errors)[DateField := if newValue.Some? then "" else DateRequired]
    {
      form := form.(date := newValue.GetOr(InvalidStamp));
      errors := errors[DateField := ValidateField(DateField, Picked(newValue))];
    }

    /** The time picker's onChange. */
    method ChangeTime(newValue: Option<Stamp>)
      requires Valid()
      modifies this`form, this`errors
      ensures Valid()
      ensures form == old(form).(time := newValue.GetOr(InvalidStamp))
      ensures errors == old(errors)[TimeField := if newValue.Some? then "" else TimeRequired]
    {
      form := form.(time := newValue.GetOr(InvalidStamp));
      errors := errors[TimeField := ValidateField(TimeField, Picked(newValue))];
    }

    /** validateForm: overwrites the errors of the seven checked fields and
        leaves every other entry alone. */
    method ValidateForm() returns (ok: bool)
      requires Valid()
      modifies this`errors
      ensures Valid()
      ensures ok <==> FormValid(form)
      ensures errors == old(errors) + FormErrors(form)
      ensures errors.Keys == old(errors).Keys
      ensures forall k :: k in errors && k !in Checked ==> errors[k] == old(errors)[k]
    {
      var newErrors;
      newErrors, ok := CollectErrors(form);
      errors := errors + newErrors;
    }

    /** handleSubmit: validate, then refuse a day the cached set already
        holds, else open the preview. It takes no API reply because it
        makes no request on any path. */
    method HandleSubmit()
      requires Valid()
      modifies this`errors, this`snackbar, this`previewOpen
      ensures Valid()
      ensures var valid := FormValid(form);
              var taken := DayOf(form.date) in BookedSet(bookedDates);
              && previewOpen == (old(previewOpen) || (valid && !taken))
              && (!valid ==> errors == old(errors) + FormErrors(form)
                             && snackbar == Toast(true, FixErrorsNotice, Error))
              && (valid && taken ==> errors == (old(errors) + FormErrors(form))[DateField := DateTaken]
                                     && snackbar == Toast(true, DateTakenNotice, Error))
              && (valid && !taken ==> errors == old(errors) + FormErrors(form)
                                      && snackbar == old(snackbar).(open := false))
      ensures previewOpen && !old(previewOpen) ==> FormValid(form) && !SelectedIsBooked()
    {
      snackbar := snackbar.(open := false);
      var ok := ValidateForm();
      if !ok {
        snackbar := Toast(true, FixErrorsNotice, Error);
        return;
      }
      if DayOf(form.date) in BookedSet(bookedDates) {
        snackbar := Toast(true, DateTakenNotice, Error);
        errors := errors[DateField := DateTaken];
        return;
      }
      previewOpen := true;
    }

    /** What handleConfirmBooking does once the POST of `payload` has
        answered: on success reset the form and take the server's booked
        list, or merge the day into the known one; on a 409 mark the date
        as taken; on any other failure only notify. */
    method RecordOutcome(post: Reply<BookedBody>, payload: Payload, now: Stamp)
      requires Valid()
      modifies this`form, this`errors, this`snackbar, this`previewOpen, this`bookedDates
      ensures Valid()
      ensures var returned := if post.Ok? then BookedFromBody(post.data) else [];
              && (post.Ok? ==>
                    && form == EmptyForm(now) && errors == EmptyErrors() && !previewOpen
                    && snackbar == Toast(true, SubmittedNotice, Success)
                    && bookedDates == (if |returned| > 0 then returned else Dedup(old(bookedDates) + [payload.date])))
              && (post.IsConflict() ==>
                    && form == old(form) && previewOpen == old(previewOpen) && bookedDates == old(bookedDates)
                    && errors == old(errors)[DateField := DateTaken]
                    && snackbar == Toast(true, ConflictNotice, Error))
              && (post.Failed? && !post.IsConflict() ==>
                    && form == old(form) && previewOpen == old(previewOpen) && bookedDates == old(bookedDates)
                    && errors == old(errors)
                    && snackbar == Toast(true, SubmitFailedNotice, Error))
      ensures post.Ok? && |BookedFromBody(post.data)| == 0 ==> payload.date in bookedDates
    {
      if post.Ok? {
        previewOpen := false;
        snackbar := Toast(true, SubmittedNotice, Success);
        form := EmptyForm(now);
        errors := EmptyErrors();
        var booked := BookedFromBody(post.data);
        if |booked| > 0 {
          bookedDates := booked;
        } else {
          bookedDates := Dedup(bookedDates + [payload.date]);
        }
      } else if post.IsConflict() {
        errors := errors[DateField := DateTaken];
        snackbar := Toast(true, ConflictNotice, Error);
      } else {
        snackbar := Toast(true, SubmitFailedNotice, Error);
      }
    }

    /** The refresh showed the form's day as taken: flag the date, notify,
        and end the submission, which leaves Confirm disabled. */
    method RefuseTakenDay()
      requires Valid() && DayOf(form.date) in bookedDates
      modifies this`errors, this`snackbar, this`submitting
      ensures Valid()
      ensures errors == old(errors)[DateField := DateTaken]
      ensures snackbar == Toast(true, DateTakenNotice, Error) && !submitting
      ensures SelectedIsBooked() && !ConfirmEnabled() && ConfirmLabel() == UnavailableText
    {
      errors := errors[DateField := DateTaken];
      snackbar := Toast(true, DateTakenNotice, Error);
      submitting := false;
    }

    /** handleConfirmBooking: re-fetch the booked days (a failed re-fetch
        does not block), refuse a day the fresh list holds, else POST; on
        success reset the form and record the day, on a 409 flag the date,
        otherwise show the generic failure. `sent` is the body POSTed, if any. */
    method HandleConfirmBooking(refresh: Reply<BookedBody>, post: Reply<BookedBody>, now: Stamp)
      returns (sent: Option<Payload>)
      requires Valid()
      modifies this
      ensures Valid()
      ensures !submitting && packages == old(packages) && loading == old(loading)
      ensures var p := PayloadOf(old(form));
              var latest := if refresh.Ok? then BookedFromBody(refresh.data) else [];
              var blocked := refresh.Ok? && p.date in latest;
              var known := if refresh.Ok? then latest else old(bookedDates);
              var returned := if post.Ok? then BookedFromBody(post.data) else [];
              && (blocked ==> && sent == None
                              && bookedDates == latest
                              && errors == old(errors)[DateField := DateTaken]
                              && form == old(form) && previewOpen == old(previewOpen)
                              && snackbar == Toast(true, DateTakenNotice, Error))
              && (!blocked ==> sent == Some(p))
              && (!blocked && post.Ok? ==>
                    && form == EmptyForm(now) && errors == EmptyErrors() && !previewOpen
                    && snackbar == Toast(true, SubmittedNotice, Success)
                    && bookedDates == (if |returned| > 0 then returned else Dedup(known + [p.date])))
              && (!blocked && post.IsConflict() ==>
                    && form == old(form) && previewOpen == old(previewOpen) && bookedDates == known
                    && errors == old(errors)[DateField := DateTaken]
                    && snackbar == Toast(true, ConflictNotice, Error))
              && (!blocked && post.Failed? && !post.IsConflict() ==>
                    && form == old(form) && previewOpen == old(previewOpen) && bookedDates == known
                    && errors == old(errors)
                    && snackbar == Toast(true, SubmitFailedNotice, Error))
      ensures sent.Some? && post.Ok? && |BookedFromBody(post.data)| == 0 ==>
                DisableBookedDates(Some(old(form).date), bookedDates)
      ensures sent.None? ==> SelectedIsBooked() && !ConfirmEnabled()
    {
      submitting := true;
      var payload := PayloadOf(form);
      if refresh.Ok? {
        var current := BookedFromBody(refresh.data);
        bookedDates := current;
        if payload.date in current {
          RefuseTakenDay();
          return None;
        }
      }
      sent := Some(payload);
      RecordOutcome(post, payload, now);
      submitting := false;
    }
  }
}
