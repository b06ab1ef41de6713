/** `AddCountryCommandHandler.Handle`: data-annotation validation of the
    command, normalisation of its fields in place, a uniqueness check
    against the live countries with per-field conflict metadata, then one
    new row saved through the shared database context. */
module AddCountryCommands {
  import opened Wrappers
  import opened Strings
  import opened Transactions
  import opened Repositories
  import opened Countries
  import AddCountryValidation

  const ValidationFailedMessage := "Validation failed for AddCountryCommand."
  const DuplicateMessage := "Country with same name or code already exists."
  const FullnameExists := "Country fullname already exists."
  const Code2Exists := "Country code (2) already exists."
  const Code3Exists := "Country code (3) already exists."
  const AddedMessage := "Country has been added successfully."
  const UnexpectedMessage := "An unexpected error occurred while adding country."

  // .NET's default messages for `[Required]` and `[StringLength]`.
  const FullnameRequired := "The CountryFullname field is required."
  const FullnameLength := "The field CountryFullname must be a string with a minimum length of 2 and a maximum length of 200."
  const ShortnameRequired := "The CountryShortname field is required."
  const ShortnameLength := "The field CountryShortname must be a string with a minimum length of 1 and a maximum length of 100."
  const DescriptionLength := "The field CountryDescription must be a string with a maximum length of 1000."
  const Code2Required := "The CountryCode2 field is required."
  const Code2Length := "The field CountryCode2 must be a string with a minimum length of 2 and a maximum length of 2."
  const Code3Required := "The CountryCode3 field is required."
  const Code3Length := "The field CountryCode3 must be a string with a minimum length of 2 and a maximum length of 3."

  // ------------------------------------------------------ data annotations

  /** A `ValidationResult` of `Validator.TryValidateObject`. */
  datatype AnnotationResult = AnnotationResult(memberNames: seq<string>, errorMessage: Option<string>)

  /** One property's attributes. `[Required]` rejects a missing or blank
      string and, when it fails, the other attributes are not tried;
      `[StringLength]` lets a missing string through. */
  function PropertyResults(property: string, v: Option<string>, required: bool, min: nat, max: nat,
                           requiredMessage: string, lengthMessage: string): (r: seq<AnnotationResult>)
    ensures |r| <= 1
    ensures r == [] <==> (required ==> !IsNullOrWhiteSpace(v)) && (v.None? || min <= |v.value| <= max)
    ensures r != [] ==> r[0].memberNames == [property]
  {
    if required && IsNullOrWhiteSpace(v) then [AnnotationResult([property], Some(requiredMessage))]
    else if v.Some? && !(min <= |v.value| <= max) then [AnnotationResult([property], Some(lengthMessage))]
    else []
  }

  /** The property-level results in declaration order. */
  function AnnotationResults(c: CountryInput): seq<AnnotationResult> {
    FullnameResults(c) + ShortnameResults(c) + DescriptionResults(c) + Code2Results(c) + Code3Results(c)
  }

  /** What the annotations on `AddCountryCommand` demand, on the raw values. */
  predicate AnnotationsHold(c: CountryInput) {
    && c.fullname.Some? && !IsBlank(c.fullname.value) && 2 <= |c.fullname.value| <= 200
    && c.shortname.Some? && !IsBlank(c.shortname.value) && 1 <= |c.shortname.value| <= 100
    && (c.description.None? || |c.description.value| <= 1000)
    && c.code2.Some? && !IsBlank(c.code2.value) && |c.code2.value| == 2
    && c.code3.Some? && !IsBlank(c.code3.value) && 2 <= |c.code3.value| <= 3
  }

  lemma AnnotationsIff(c: CountryInput)
    ensures AnnotationResults(c) == [] <==> AnnotationsHold(c)
  {
  }

  /** The metadata entry the handler attaches for one result: the first
      member name, or "Model" when there is none or it is blank, and the
      message, or "Invalid value" when there is none. */
  function Entry(r: AnnotationResult): (string, string) {
    (if |r.memberNames| == 0 || IsBlank(r.memberNames[0]) then "Model" else r.memberNames[0],
     r.errorMessage.GetOr("Invalid value"))
  }

  /** The entries for `results`, in order. */
  function MetadataOf(results: seq<AnnotationResult>): (m: seq<(string, string)>)
    ensures |m| == |results|
    ensures forall i :: 0 <= i < |results| ==> m[i] == Entry(results[i])
  {
    if results == [] then [] else MetadataOf(results[..|results| - 1]) + [Entry(results[|results| - 1])]
  }

  /** Every key of `m` is one of `names`. */
  predicate KeysIn(m: seq<(string, string)>, names: set<string>) {
    forall i :: 0 <= i < |m| ==> m[i].0 in names
  }

  lemma MetadataAppend(a: seq<AnnotationResult>, b: seq<AnnotationResult>)
    ensures MetadataOf(a + b) == MetadataOf(a) + MetadataOf(b)
  {
    assert forall i :: 0 <= i < |a + b| ==> MetadataOf(a + b)[i] == (MetadataOf(a) + MetadataOf(b))[i];
  }

  /** Metadata with distinct keys, extended by metadata whose keys are new,
      still has distinct keys. */
  lemma DistinctConcat(m1: seq<(string, string)>, names: set<string>, m2: seq<(string, string)>, key: string)
    requires DistinctKeys(m1) && KeysIn(m1, names) && key !in names
    requires |m2| <= 1 && KeysIn(m2, {key})
    ensures DistinctKeys(m1 + m2) && KeysIn(m1 + m2, names + {key})
  {
  }

  /** One property's results yield at most one entry, keyed by the property. */
  lemma PropertyKeys(property: string, v: Option<string>, required: bool, min: nat, max: nat,
                     requiredMessage: string, lengthMessage: string)
    requires !IsBlank(property)
    ensures var m := MetadataOf(PropertyResults(property, v, required, min, max, requiredMessage, lengthMessage));
      |m| <= 1 && KeysIn(m, {property})
  {
  }

  /** The five property names: none blank, no two alike. */
  lemma PropertyNamesDistinct()
    ensures !IsBlank("CountryFullname") && !IsBlank("CountryShortname") && !IsBlank("CountryDescription")
    ensures !IsBlank("CountryCode2") && !IsBlank("CountryCode3")
    ensures "CountryShortname" !in {"CountryFullname"}
    ensures "CountryDescription" !in {"CountryFullname"} + {"CountryShortname"}
    ensures "CountryCode2" !in {"CountryFullname"} + {"CountryShortname"} + {"CountryDescription"}
    ensures "CountryCode3" !in {"CountryFullname"} + {"CountryShortname"} + {"CountryDescription"} + {"CountryCode2"}
  {
    assert !IsWhiteSpace("CountryFullname"[0]) && !IsWhiteSpace("CountryShortname"[0]);
    assert !IsWhiteSpace("CountryDescription"[0]) && !IsWhiteSpace("CountryCode2"[0]) && !IsWhiteSpace("CountryCode3"[0]);
    assert "CountryCode3"[11] != "CountryCode2"[11];
  }

  function FullnameResults(c: CountryInput): seq<AnnotationResult> {
    PropertyResults("CountryFullname", c.fullname, true, 2, 200, FullnameRequired, FullnameLength)
  }

  function ShortnameResults(c: CountryInput): seq<AnnotationResult> {
    PropertyResults("CountryShortname", c.shortname, true, 1, 100, ShortnameRequired, ShortnameLength)
  }

  function DescriptionResults(c: CountryInput): seq<AnnotationResult> {
    PropertyResults("CountryDescription", c.description, false, 0, 1000, "", DescriptionLength)
  }

  function Code2Results(c: CountryInput): seq<AnnotationResult> {
    PropertyResults("CountryCode2", c.code2, true, 2, 2, Code2Required, Code2Length)
  }

  function Code3Results(c: CountryInput): seq<AnnotationResult> {
    PropertyResults("CountryCode3", c.code3, true, 2, 3, Code3Required, Code3Length)
  }

  lemma KeysAfterShortname(c: CountryInput)
    ensures var m := MetadataOf(FullnameResults(c) + ShortnameResults(c));
      DistinctKeys(m) && KeysIn(m, {"CountryFullname"} + {"CountryShortname"})
  {
    PropertyNamesDistinct();
    PropertyKeys("CountryFullname", c.fullname, true, 2, 200, FullnameRequired, FullnameLength);
    PropertyKeys("CountryShortname", c.shortname, true, 1, 100, ShortnameRequired, ShortnameLength);
    MetadataAppend(FullnameResults(c), ShortnameResults(c));
    DistinctConcat(MetadataOf(FullnameResults(c)), {"CountryFullname"}, MetadataOf(ShortnameResults(c)), "CountryShortname");
  }

  lemma KeysAfterDescription(c: CountryInput)
    ensures var m := MetadataOf(FullnameResults(c) + ShortnameResults(c) + DescriptionResults(c));
      DistinctKeys(m) && KeysIn(m, {"CountryFullname"} + {"CountryShortname"} + {"CountryDescription"})
  {
    var a := FullnameResults(c) + ShortnameResults(c);
    KeysAfterShortname(c);
    PropertyNamesDistinct();
    PropertyKeys("CountryDescription", c.description, false, 0, 1000, "", DescriptionLength);
    MetadataAppend(a, DescriptionResults(c));
    DistinctConcat(MetadataOf(a), {"CountryFullname"} + {"CountryShortname"}, MetadataOf(DescriptionResults(c)), "CountryDescription");
  }

  lemma KeysAfterCode2(c: CountryInput)
    ensures var m := MetadataOf(FullnameResults(c) + ShortnameResults(c) + DescriptionResults(c) + Code2Results(c));
      DistinctKeys(m) && KeysIn(m, {"CountryFullname"} + {"CountryShortname"} + {"CountryDescription"} + {"CountryCode2"})
  {
    var a := FullnameResults(c) + ShortnameResults(c) + DescriptionResults(c);
    KeysAfterDescription(c);
    PropertyNamesDistinct();
    PropertyKeys("CountryCode2", c.code2, true, 2, 2, Code2Required, Code2Length);
    MetadataAppend(a, Code2Results(c));
    DistinctConcat(MetadataOf(a), {"CountryFullname"} + {"CountryShortname"} + {"CountryDescription"},
                   MetadataOf(Code2Results(c)), "CountryCode2");
  }

  /** Each property yields at most one result, so the metadata keys are
      distinct and `WithMetadata` never meets a repeated key. */
  lemma AnnotationMetadataKeysDistinct(c: CountryInput)
    ensures DistinctKeys(MetadataOf(AnnotationResults(c)))
  {
    var a := FullnameResults(c) + ShortnameResults(c) + DescriptionResults(c) + Code2Results(c);
    assert AnnotationResults(c) == a + Code3Results(c);
    KeysAfterCode2(c);
    PropertyNamesDistinct();
    PropertyKeys("CountryCode3", c.code3, true, 2, 3, Code3Required, Code3Length);
    MetadataAppend(a, Code3Results(c));
    DistinctConcat(MetadataOf(a), {"CountryFullname"} + {"CountryShortname"} + {"CountryDescription"} + {"CountryCode2"},
                   MetadataOf(Code3Results(c)), "CountryCode3");
  }

  /** The FluentValidation validator is stricter than the annotations: what
      it accepts the annotations accept. */
  lemma ValidatorImpliesAnnotations(c: CountryInput)
    requires AddCountryValidation.Validate(c) == []
    ensures AnnotationsHold(c)
  {
    AddCountryValidation.LettersNotBlank(c.code2.value, 2, 2);
    AddCountryValidation.LettersNotBlank(c.code3.value, 2, 3);
  }

  /** ... and strictly so: the annotations let a code with a digit through. */
  lemma AnnotationsAllowDigits()
    ensures var c := CountryInput(Some("Malaysia"), Some("MAS"), None, Some("M1"), Some("MYS"));
      AnnotationsHold(c) && AddCountryValidation.Validate(c) != []
  {
    var c := CountryInput(Some("Malaysia"), Some("MAS"), None, Some("M1"), Some("MYS"));
    assert !IsBlank("Malaysia") by { assert !IsWhiteSpace("Malaysia"[0]); }
    assert !IsBlank("MAS") by { assert !IsWhiteSpace("MAS"[0]); }
    assert !IsBlank("M1") by { assert !IsWhiteSpace("M1"[0]); }
    assert !IsBlank("MYS") by { assert !IsWhiteSpace("MYS"[0]); }
    assert !AddCountryValidation.IsAsciiLetter("M1"[1]);
  }

  // ---------------------------------------------------------- normalising

  function TrimOption(v: Option<string>): Option<string> {
    match v
    case None => None
    case Some(s) => Some(Trim(s))
  }

  function CodeOption(v: Option<string>): Option<string> {
    match v
    case None => None
    case Some(s) => Some(ToUpperAscii(Trim(s)))
  }

  /** The command after the handler's in-place normalisation: names trimmed,
      codes trimmed and upper-cased, the description untouched. */
  function Normalize(c: CountryInput): CountryInput {
    c.(fullname := TrimOption(c.fullname), shortname := TrimOption(c.shortname),
       code2 := CodeOption(c.code2), code3 := CodeOption(c.code3))
  }

  /** A trimmed string that is not blank neither starts nor ends with white space. */
  predicate Tidy(s: string) {
    s != [] && !IsWhiteSpace(s[0]) && !IsWhiteSpace(s[|s| - 1])
  }

  lemma TrimOfNonBlank(s: string)
    requires !IsBlank(s)
    ensures Tidy(Trim(s))
  {
    TrimEmptyIffBlank(s);
    TrimIsSlice(s);
  }

  lemma UpperKeepsNonSpace(ch: char)
    requires !IsWhiteSpace(ch)
    ensures !IsWhiteSpace(UpperChar(ch))
  {
  }

  lemma CodeOfNonBlank(s: string)
    requires !IsBlank(s)
    ensures Tidy(ToUpperAscii(Trim(s)))
  {
    TrimOfNonBlank(s);
    UpperKeepsTidy(Trim(s));
  }

  lemma UpperKeepsTidy(t: string)
    requires Tidy(t)
    ensures Tidy(ToUpperAscii(t))
  {
    var u := ToUpperAscii(t);
    UpperKeepsNonSpace(t[0]);
    UpperKeepsNonSpace(t[|t| - 1]);
    assert u[0] == UpperChar(t[0]) && u[|u| - 1] == UpperChar(t[|t| - 1]);
  }

  lemma TidyIsTrimmed(s: string)
    requires Tidy(s)
    ensures Trim(s) == s && !IsBlank(s)
  {
    TrimOfTrimmed(s);
  }

  lemma TrimOptionIdempotent(v: Option<string>)
    ensures TrimOption(TrimOption(v)) == TrimOption(v)
  {
    if v.Some? {
      TrimIdempotent(v.value);
    }
  }

  lemma CodeOptionIdempotent(v: Option<string>)
    ensures CodeOption(CodeOption(v)) == CodeOption(v)
  {
    if v.Some? {
      var t := Trim(v.value);
      TrimIsSlice(v.value);
      UpperKeepsTrimmed(t);
      UpperIdempotent(t);
    }
  }

  /** Normalising twice is normalising once. */
  lemma NormalizeIdempotent(c: CountryInput)
    ensures Normalize(Normalize(c)) == Normalize(c)
  {
    TrimOptionIdempotent(c.fullname);
    TrimOptionIdempotent(c.shortname);
    CodeOptionIdempotent(c.code2);
    CodeOptionIdempotent(c.code3);
  }

  /** The lengths are checked before trimming: a padded one-letter full name
      passes the annotations and is stored one character long. */
  lemma LengthCheckedBeforeTrim()
    ensures var c := CountryInput(Some(" X"), Some("X"), None, Some("XX"), Some("XXX"));
      AnnotationsHold(c) && Normalize(c).fullname == Some("X")
  {
    assert !IsBlank(" X") by { assert !IsWhiteSpace(" X"[1]); }
    assert !IsBlank("X") by { assert !IsWhiteSpace("X"[0]); }
    assert !IsBlank("XX") by { assert !IsWhiteSpace("XX"[0]); }
    assert !IsBlank("XXX") by { assert !IsWhiteSpace("XXX"[0]); }
    assert DropWhile(" X", IsWhiteSpace) == "X" by {
      assert " X"[1..] == "X";
    }
    TrimOfTrimmed("X");
  }

  // ----------------------------------------------------------- uniqueness

  /** The query of the uniqueness check: a row with the same full name, the
      same two-letter code or the same three-letter code (compared exactly). */
  predicate Clashes(n: CountryInput, e: Entity<Country>) {
    || Some(e.data.fullname) == n.fullname
    || Some(e.data.code2) == n.code2
    || Some(e.data.code3) == n.code3
  }

  /** The metadata entry for one field: attached when the stored value is not
      blank and, trimmed, equals the command's value up to case. */
  function ConflictEntry(stored: string, value: Option<string>, key: string, message: string): seq<(string, string)> {
    if !IsBlank(stored) && value.Some? && EqualsIgnoreCase(Trim(stored), value.value) then [(key, message)] else []
  }

  function ConflictMetadata(existing: Country, n: CountryInput): seq<(string, string)> {
    ConflictEntry(existing.fullname, n.fullname, "CountryFullname", FullnameExists)
    + ConflictEntry(existing.code2, n.code2, "CountryCode2", Code2Exists)
    + ConflictEntry(existing.code3, n.code3, "CountryCode3", Code3Exists)
  }

  /** A stored value equal to a tidy command value is named in the metadata. */
  lemma EqualValueNamed(stored: string, value: string, key: string, message: string)
    requires Tidy(value) && stored == value
    ensures ConflictEntry(stored, Some(value), key, message) == [(key, message)]
  {
    TidyIsTrimmed(value);
  }

  lemma PartIn<T>(a: seq<T>, b: seq<T>, c: seq<T>, x: T)
    ensures b == [x] ==> x in a + b + c
    ensures c == [x] ==> x in a + b + c
  {
    if b == [x] {
      assert (a + b + c)[|a|] == x;
    }
    if c == [x] {
      assert (a + b + c)[|a| + |b|] == x;
    }
  }

  lemma FullnameNamed(c: CountryInput, stored: Country)
    requires AnnotationsHold(c) && Some(stored.fullname) == Normalize(c).fullname
    ensures ("CountryFullname", FullnameExists) in ConflictMetadata(stored, Normalize(c))
  {
    var n := Normalize(c);
    TrimOfNonBlank(c.fullname.value);
    EqualValueNamed(stored.fullname, n.fullname.value, "CountryFullname", FullnameExists);
  }

  lemma Code2Named(c: CountryInput, stored: Country)
    requires AnnotationsHold(c) && Some(stored.code2) == Normalize(c).code2
    ensures ("CountryCode2", Code2Exists) in ConflictMetadata(stored, Normalize(c))
  {
    var n := Normalize(c);
    var m1 := ConflictEntry(stored.fullname, n.fullname, "CountryFullname", FullnameExists);
    var m2 := ConflictEntry(stored.code2, n.code2, "CountryCode2", Code2Exists);
    var m3 := ConflictEntry(stored.code3, n.code3, "CountryCode3", Code3Exists);
    CodeOfNonBlank(c.code2.value);
    EqualValueNamed(stored.code2, n.code2.value, "CountryCode2", Code2Exists);
    PartIn(m1, m2, m3, ("CountryCode2", Code2Exists));
  }

  lemma Code3Named(c: CountryInput, stored: Country)
    requires AnnotationsHold(c) && Some(stored.code3) == Normalize(c).code3
    ensures ("CountryCode3", Code3Exists) in ConflictMetadata(stored, Normalize(c))
  {
    var n := Normalize(c);
    var m1 := ConflictEntry(stored.fullname, n.fullname, "CountryFullname", FullnameExists);
    var m2 := ConflictEntry(stored.code2, n.code2, "CountryCode2", Code2Exists);
    var m3 := ConflictEntry(stored.code3, n.code3, "CountryCode3", Code3Exists);
    CodeOfNonBlank(c.code3.value);
    EqualValueNamed(stored.code3, n.code3.value, "CountryCode3", Code3Exists);
    PartIn(m1, m2, m3, ("CountryCode3", Code3Exists));
  }

  /** A field that matched exactly in the query is always named in the
      metadata, so a rejected duplicate always says which field clashed. */
  lemma ConflictNamesMatchedFields(c: CountryInput, e: Entity<Country>)
    requires AnnotationsHold(c) && Clashes(Normalize(c), e)
    ensures var n, m := Normalize(c), ConflictMetadata(e.data, Normalize(c));
      && (Some(e.data.fullname) == n.fullname ==> ("CountryFullname", FullnameExists) in m)
      && (Some(e.data.code2) == n.code2 ==> ("CountryCode2", Code2Exists) in m)
      && (Some(e.data.code3) == n.code3 ==> ("CountryCode3", Code3Exists) in m)
      && m != []
  {
    var n := Normalize(c);
    if Some(e.data.fullname) == n.fullname {
      FullnameNamed(c, e.data);
    }
    if Some(e.data.code2) == n.code2 {
      Code2Named(c, e.data);
    }
    if Some(e.data.code3) == n.code3 {
      Code3Named(c, e.data);
    }
  }

  // ---------------------------------------------------------------- handle

  /** The entity `new Country { ... }` builds from the normalised command;
      the base fields take their defaults and the key is assigned on save. */
  function NewCountry(n: CountryInput): Entity<Country> {
    Entity(0, true, false, Country(n.fullname.GetOr(""), n.shortname.GetOr(""), n.description,
                                   n.code2.GetOr(""), n.code3.GetOr("")))
  }

  /** The repository state, the command's fields and the result after `Handle`. */
  datatype AddOutcome = AddOutcome(repo: RepoState<Country>, command: CountryInput, result: Outcome<CountryInput>)

  /** `Handle`. `saves` is false when saving throws; the added entity then
      stays in the change tracker and the catch block answers. */
  function AddCountry(s: RepoState<Country>, c: CountryInput, saves: bool): (o: AddOutcome)
    ensures AnnotationResults(c) != [] ==>
      o == AddOutcome(s, c, Failure(ValidationError(ValidationFailedMessage, MetadataOf(AnnotationResults(c)))))
    ensures AnnotationResults(c) == [] ==> o.command == Normalize(c)
    ensures o.result.Success? <==>
      AnnotationsHold(c) && FirstOrDefault(s.rows, e => Clashes(Normalize(c), e)).None? && saves
    ensures o.result.Success? ==> (o.result == Success(Normalize(c), [AddedMessage])
      && o.repo == SaveTx(s.(pending := s.pending + [Added(NewCountry(Normalize(c)))])))
    ensures o.result.Failure? && o.result.error.ValidationError? ==> o.repo == s
    ensures o.result.Failure? && o.result.error.UnexpectedError? ==>
      && o.result.error.message == UnexpectedMessage
      && o.repo == s.(pending := s.pending + [Added(NewCountry(Normalize(c)))])
  {
    AnnotationsIff(c);
    var results := AnnotationResults(c);
    if results != [] then
      AddOutcome(s, c, Failure(ValidationError(ValidationFailedMessage, MetadataOf(results))))
    else
      var n := Normalize(c);
      match FirstOrDefault(s.rows, e => Clashes(n, e))
      case Some(existing) =>
        AddOutcome(s, n, Failure(ValidationError(DuplicateMessage, ConflictMetadata(existing.data, n))))
      case None =>
        var tracked := s.(pending := s.pending + [Added(NewCountry(n))]);
        if !saves then AddOutcome(tracked, n, Failure(UnexpectedError(UnexpectedMessage)))
        else AddOutcome(SaveTx(tracked), n, Success(n, [AddedMessage]))
  }

  /** With nothing else tracked, a successful add writes exactly one new live
      row, keyed by the next identity value, carrying the normalised fields,
      and no live row had clashed with it. */
  lemma AddWritesOneRow(s: RepoState<Country>, c: CountryInput)
    requires s.pending == []
    requires AddCountry(s, c, true).result.Success?
    ensures var n := Normalize(c);
      && AddCountry(s, c, true).repo.rows == s.rows + [NewCountry(n).(id := s.nextId)]
      && forall k :: 0 <= k < |s.rows| && Live(s.rows[k]) ==> !Clashes(n, s.rows[k])
  {
    var n := Normalize(c);
    assert s.pending + [Added(NewCountry(n))] == [Added(NewCountry(n))];
    SaveOneAdded(s, NewCountry(n));
  }

  /** Adding the same request again after a successful add is rejected as a
      duplicate and changes nothing. */
  lemma SecondAddRejected(s: RepoState<Country>, c: CountryInput, saves: bool)
    requires s.pending == []
    requires AddCountry(s, c, true).result.Success?
    ensures var s2 := AddCountry(s, c, true).repo;
      var again := AddCountry(s2, c, saves);
      again.result.Failure? && again.result.error.ValidationError? && again.repo == s2
      && again.result.error.message == DuplicateMessage
  {
    var n := Normalize(c);
    var s2 := AddCountry(s, c, true).repo;
    AddWritesOneRow(s, c);
    var k := |s.rows|;
    assert s2.rows[k] == NewCountry(n).(id := s.nextId);
    assert Clashes(n, s2.rows[k]) && Live(s2.rows[k]);
  }

  // ----------------------------------------------------------------- class

  /** The command object; the handler overwrites its fields in place. */
  class AddCountryCommand {
    var fullname: Option<string>
    var shortname: Option<string>
    var description: Option<string>
    var code2: Option<string>
    var code3: Option<string>

    function Input(): CountryInput
      reads this
    {
      CountryInput(fullname, shortname, description, code2, code3)
    }

    constructor (c: CountryInput)
      ensures Input() == c
    {
      fullname, shortname, description, code2, code3 := c.fullname, c.shortname, c.description, c.code2, c.code3;
    }

    /** Trims the names and trims and upper-cases the codes, in place. */
    method NormalizeFields()
      modifies this
      ensures fullname == TrimOption(old(fullname)) && shortname == TrimOption(old(shortname))
      ensures code2 == CodeOption(old(code2)) && code3 == CodeOption(old(code3))
      ensures description == old(description)
    {
      fullname, shortname := TrimOption(fullname), TrimOption(shortname);
      code2, code3 := CodeOption(code2), CodeOption(code3);
    }
  }

  /** The handler over the country repository. The unit of work the source
      saves through shares the repository's database context, so its save is
      the repository's `SaveChanges`. */
  class AddCountryCommandHandler {
    const repository: GenericRepository<Country>

    constructor (repository: GenericRepository<Country>)
      ensures this.repository == repository
    {
      this.repository := repository;
    }

    /** The loop that turns the validation results into error metadata. */
    method CollectMetadata(results: seq<AnnotationResult>) returns (metadata: seq<(string, string)>)
      ensures metadata == MetadataOf(results)
    {
      metadata := [];
      var i := 0;
      while i < |results|
        invariant 0 <= i <= |results|
        invariant metadata == MetadataOf(results[..i])
      {
        assert results[..i + 1][..i] == results[..i];
        metadata := metadata + [Entry(results[i])];
        i := i + 1;
      }
      assert results[..|results|] == results;
    }

    method Handle(command: AddCountryCommand, saves: bool) returns (r: Outcome<CountryInput>)
      modifies command, repository
      ensures var o := AddCountry(old(repository.State()), old(command.Input()), saves);
        repository.State() == o.repo && command.Input() == o.command && r == o.result
    {
      var results := AnnotationResults(command.Input());
      if results != [] {
        var metadata := CollectMetadata(results);
        return Failure(ValidationError(ValidationFailedMessage, metadata));
      }
      AnnotationsIff(command.Input());
      command.NormalizeFields();
      assert command.Input() == Normalize(old(command.Input()));
      var n := command.Input();
      var existing := FirstOrDefault(repository.rows, e => Clashes(n, e));
      if existing.Some? {
        var metadata := ConflictMetadata(existing.value.data, n);
        return Failure(ValidationError(DuplicateMessage, metadata));
      }
      var _ := repository.Add(NewCountry(n));
      if !saves {
        return Failure(UnexpectedError(UnexpectedMessage));
      }
      var _ := repository.SaveChanges();
      r := Success(n, [AddedMessage]);
    }
  }
}
