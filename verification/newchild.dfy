/** The "Add child" form: editing the emergency-contact list, validating the
    age, and what submitting sends and in which order. Server answers are
    inputs. */
module NewChild {
  import opened Wrappers
  import opened Text
  import opened Api
  import opened Seqs

  /** The row the "Add" button appends. */
  const BlankContact: Contact := Contact("", "", "")

  datatype Field = Name | Phone | Relation

  function FieldOf(c: Contact, f: Field): string {
    match f
    case Name => c.name
    case Phone => c.phone
    case Relation => c.relation
  }

  /** `{ ...c, [field]: value }`. */
  function SetField(c: Contact, f: Field, v: string): (d: Contact)
    ensures FieldOf(d, f) == v
    ensures forall g :: g != f ==> FieldOf(d, g) == FieldOf(c, g)
  {
    match f
    case Name => c.(name := v)
    case Phone => c.(phone := v)
    case Relation => c.(relation := v)
  }

  /** `addContact`: one blank row at the end, the others untouched. */
  function AddContact(cs: seq<Contact>): (r: seq<Contact>)
    ensures |r| == |cs| + 1
    ensures r[..|cs|] == cs
    ensures r[|cs|] == BlankContact
  {
    cs + [BlankContact]
  }

  /** `updateContact(i, field, value)` for a row on screen: only that field
      of that row changes. */
  function UpdateContact(cs: seq<Contact>, i: nat, f: Field, v: string): (r: seq<Contact>)
    requires i < |cs|
    ensures |r| == |cs|
    ensures forall j :: 0 <= j < |cs| && j != i ==> r[j] == cs[j]
    ensures FieldOf(r[i], f) == v
    ensures forall g :: g != f ==> FieldOf(r[i], g) == FieldOf(cs[i], g)
  {
    cs[i := SetField(cs[i], f, v)]
  }

  /** `removeContact(i)`, that is `filter((_, idx) => idx !== i)`: exactly
      row `i` goes and the rest keep their order; an index that names no
      row removes nothing. */
  function RemoveContact(cs: seq<Contact>, i: int): (r: seq<Contact>)
    ensures 0 <= i < |cs| ==> |r| == |cs| - 1
    ensures 0 <= i < |cs| ==> forall j :: 0 <= j < i ==> r[j] == cs[j]
    ensures 0 <= i < |cs| ==> forall j :: i <= j < |r| ==> r[j] == cs[j + 1]
    ensures 0 <= i < |cs| ==> multiset(r) + multiset{cs[i]} == multiset(cs)
    ensures !(0 <= i < |cs|) ==> r == cs
  {
    if 0 <= i < |cs| then
      assert cs == cs[..i] + [cs[i]] + cs[i + 1..];
      cs[..i] + cs[i + 1..]
    else cs
  }

  /** Removing the row just added gives the list back. */
  lemma RemoveUndoesAdd(cs: seq<Contact>)
    ensures RemoveContact(AddContact(cs), |cs|) == cs
  {
  }

  /** A contact worth sending: its name or its phone is more than white
      space. A relation alone does not count. */
  predicate Filled(c: Contact) {
    Trim(c.name) != "" || Trim(c.phone) != ""
  }

  /** `emergencyContacts.filter((c) => c.name.trim() || c.phone.trim())`. */
  function KeepFilled(cs: seq<Contact>): (r: seq<Contact>)
    ensures |r| <= |cs|
    ensures forall j :: 0 <= j < |r| ==> Filled(r[j])
  {
    Filter(cs, Filled)
  }

  /** A contact is sent exactly when it is on the list and filled. */
  lemma KeptIff(cs: seq<Contact>, c: Contact)
    ensures c in KeepFilled(cs) <==> c in cs && Filled(c)
  {
    FilterIff(cs, Filled, c);
  }

  /** A freshly added blank row is never sent, and the rows before it are
      sent as before. */
  lemma BlankRowNotSent(cs: seq<Contact>)
    ensures KeepFilled(AddContact(cs)) == KeepFilled(cs)
  {
    FilterAppend(cs, [BlankContact], Filled);
    assert !Filled(BlankContact);
    assert Filter([BlankContact], Filled) == [];
  }

  /** A row whose name and phone are white space only is never sent,
      whatever its relation says. */
  lemma RelationOnlyDropped(cs: seq<Contact>, c: Contact)
    requires AllSpace(c.name) && AllSpace(c.phone)
    ensures c !in KeepFilled(cs)
  {
    TrimEmptyIff(c.name);
    TrimEmptyIff(c.phone);
    FilterIff(cs, Filled, c);
  }

  const AgeError: string := "Age must be between 0 and 25"

  /** The age check: `parseInt(age, 10)` must be a number from 0 to 25. */
  function ValidateAge(age: string): (r: Result<int, string>)
    ensures r.Success? <==> ParseInt(age).Some? && 0 <= ParseInt(age).value <= 25
    ensures r.Success? ==> r.value == ParseInt(age).value
    ensures r.Failure? ==> r.error == AgeError
  {
    match ParseInt(age)
    case None => Failure(AgeError)
    case Some(n) => if n < 0 || n > 25 then Failure(AgeError) else Success(n)
  }

  /** Every age in range, typed as a number, is accepted as itself; one
      past the range is refused. */
  lemma AgeRoundTrip(n: int)
    ensures 0 <= n <= 25 ==> ValidateAge(IntToString(n)) == Success(n)
    ensures (n < 0 || n > 25) ==> ValidateAge(IntToString(n)) == Failure(AgeError)
  {
    ParseIntOfIntToString(n);
  }

  /** `parseInt` stops at the first non-digit, so "7 years" is the age 7;
      a string with no leading digits is refused. */
  lemma AgeExamples()
    ensures ValidateAge("7 years") == Success(7)
    ensures ValidateAge("years") == Failure(AgeError)
  {
    assert IntToString(7) == "7";
    ParseIntOfIntToStringThen(7, " years");
    assert "7" + " years" == "7 years";
    assert TrimStart("years") == "years";
  }

  datatype Form = Form(name: string, age: string, contacts: seq<Contact>, photo: bool)

  datatype CreateBody = CreateBody(name: string, age: int, contacts: seq<Contact>)

  /** What submitting does outside the page: API calls and navigation. */
  datatype Effect =
    | Create(call: Endpoint, body: CreateBody)
    | UploadPhoto(token: string, childId: string)
    | Navigate(path: string)

  /** What submitting leaves behind: its effects in order, the error shown,
      and the `loading` flag. */
  datatype Submission = Submission(effects: seq<Effect>, error: string, loading: bool)

  function BodyOf(f: Form, age: int): CreateBody {
    CreateBody(Trim(f.name), age, KeepFilled(f.contacts))
  }

  /** The request sequence once the form has passed its check: create the
      child; then, only if a photo was chosen and the child was created,
      upload it; navigate to the new child's page only when everything
      asked for succeeded. The first failure stops the sequence and its
      message is shown. */
  function Requests(token: string, body: CreateBody, photo: bool, created: Result<string, string>, uploaded: Result<(), string>): (r: Submission)
    ensures !r.loading
    ensures r.effects != [] && r.effects[0] == Create(CreateChild(token), body)
    ensures |r.effects| <= 3
    ensures forall k :: 1 <= k < |r.effects| ==> !r.effects[k].Create?
    ensures forall k :: 0 <= k < |r.effects| && r.effects[k].UploadPhoto? ==>
      k == 1 && photo && created.Success? && r.effects[k] == UploadPhoto(token, created.value)
    ensures photo && created.Success? ==> |r.effects| >= 2 && r.effects[1].UploadPhoto?
    ensures r.effects[|r.effects| - 1].Navigate? <==> created.Success? && (!photo || uploaded.Success?)
    ensures forall k :: 0 <= k < |r.effects| && r.effects[k].Navigate? ==>
      k == |r.effects| - 1 && r.effects[k] == Navigate("/children/" + created.value) && r.error == ""
    ensures created.Failure? ==> r.error == created.error
    ensures created.Success? && photo && uploaded.Failure? ==> r.error == uploaded.error
  {
    var create := Create(CreateChild(token), body);
    match created
    case Failure(e) => Submission([create], e, false)
    case Success(id) =>
      var done := Navigate("/children/" + id);
      if !photo then Submission([create, done], "", false)
      else
        var upload := UploadPhoto(token, id);
        match uploaded
        case Failure(e) => Submission([create, upload], e, false)
        case Success(_) => Submission([create, upload, done], "", false)
  }

  /** `handleSubmit`, given what creating the child and uploading the photo
      answer (a child id, or an error message): without a token nothing
      happens and no error is shown; an age out of range stops before any
      request; otherwise the trimmed name, the age as a number and only the
      filled contacts are sent. */
  function Submit(token: Option<string>, f: Form, created: Result<string, string>, uploaded: Result<(), string>): (r: Submission)
    ensures !r.loading
    ensures !Truthy(token) ==> r.effects == [] && r.error == ""
    ensures Truthy(token) && ValidateAge(f.age).Failure? ==> r.effects == [] && r.error == AgeError
    ensures r.effects != [] <==> Truthy(token) && ValidateAge(f.age).Success?
    ensures r.effects != [] ==>
      && r.effects[0].Create?
      && r.effects[0].body.name == Trim(f.name)
      && r.effects[0].body.age == ParseInt(f.age).value
      && r.effects[0].body.contacts == KeepFilled(f.contacts)
      && r == Requests(token.value, r.effects[0].body, f.photo, created, uploaded)
  {
    if !Truthy(token) then Submission([], "", false)
    else match ValidateAge(f.age)
      case Failure(e) => Submission([], e, false)
      case Success(age) => Requests(token.value, BodyOf(f, age), f.photo, created, uploaded)
  }
}
