/** `AddCountryCommandValidator`: the FluentValidation rule chain for the
    add-country request. Every rule of a chain runs (the default cascade
    mode), a missing value passes every rule except `NotEmpty`, and the
    failures come out in rule order. */
module AddCountryValidation {
  import opened Wrappers
  import opened Strings
  import opened Countries

  const FullnameRequired := "CountryFullname is required."
  const FullnameLength := "CountryFullname must be between 2 and 200 characters."
  const ShortnameRequired := "CountryShortname is required."
  const ShortnameLength := "CountryShortname must be between 1 and 100 characters."
  const Code2Required := "CountryCode2 is required."
  const Code2Length := "CountryCode2 must be 2 characters."
  const Code2Alphabetic := "CountryCode2 must be alphabetic."
  const Code3Required := "CountryCode3 is required."
  const Code3Length := "CountryCode3 must be 2 or 3 characters."
  const Code3Alphabetic := "CountryCode3 must be alphabetic."
  const DescriptionLength := "CountryDescription cannot exceed 1000 characters."

  datatype ValidationFailure = ValidationFailure(property: string, message: string)

  predicate IsAsciiLetter(c: char) {
    'A' <= c <= 'Z' || 'a' <= c <= 'z'
  }

  /** Between `min` and `max` characters, all of them ASCII letters. */
  predicate Letters(s: string, min: nat, max: nat) {
    min <= |s| <= max && forall i :: 0 <= i < |s| ==> IsAsciiLetter(s[i])
  }

  /** `Regex.IsMatch(s, "^[A-Za-z]{min,max}$")` as .NET evaluates it: without
      the multi-line option `$` also matches just before a final line feed. */
  predicate MatchesAsWritten(s: string, min: nat, max: nat) {
    Letters(s, min, max) || (|s| > 0 && s[|s| - 1] == '\n' && Letters(s[..|s| - 1], min, max))
  }

  /** The letters-only check the rule's message promises (the pattern anchored
      with `\z`). */
  predicate Matches(s: string, min: nat, max: nat) {
    Letters(s, min, max)
  }

  /** `NotEmpty()`: fails on a missing or blank string. */
  function NotEmptyRule(property: string, v: Option<string>, message: string): (r: seq<ValidationFailure>)
    ensures r == [] <==> v.Some? && !IsBlank(v.value)
  {
    if IsNullOrWhiteSpace(v) then [ValidationFailure(property, message)] else []
  }

  /** `Length(min, max)` and `MaximumLength(max)`: a missing string passes. */
  function LengthRule(property: string, v: Option<string>, min: nat, max: nat, message: string): (r: seq<ValidationFailure>)
    ensures r == [] <==> v.None? || min <= |v.value| <= max
  {
    if v.Some? && !(min <= |v.value| <= max) then [ValidationFailure(property, message)] else []
  }

  /** `Matches(pattern)`: a missing string passes. `asWritten` selects the
      .NET end-of-string rule. */
  function MatchesRule(property: string, v: Option<string>, min: nat, max: nat, asWritten: bool, message: string): (r: seq<ValidationFailure>)
    ensures r == [] <==> v.None? || (if asWritten then MatchesAsWritten(v.value, min, max) else Matches(v.value, min, max))
  {
    if v.None? then []
    else if asWritten && MatchesAsWritten(v.value, min, max) then []
    else if !asWritten && Matches(v.value, min, max) then []
    else [ValidationFailure(property, message)]
  }

  function FullnameFailures(v: Option<string>): seq<ValidationFailure> {
    NotEmptyRule("CountryFullname", v, FullnameRequired) + LengthRule("CountryFullname", v, 2, 200, FullnameLength)
  }

  function ShortnameFailures(v: Option<string>): seq<ValidationFailure> {
    NotEmptyRule("CountryShortname", v, ShortnameRequired) + LengthRule("CountryShortname", v, 1, 100, ShortnameLength)
  }

  function Code2Failures(v: Option<string>, asWritten: bool): seq<ValidationFailure> {
    NotEmptyRule("CountryCode2", v, Code2Required) + LengthRule("CountryCode2", v, 2, 2, Code2Length)
      + MatchesRule("CountryCode2", v, 2, 2, asWritten, Code2Alphabetic)
  }

  function Code3Failures(v: Option<string>, asWritten: bool): seq<ValidationFailure> {
    NotEmptyRule("CountryCode3", v, Code3Required) + LengthRule("CountryCode3", v, 2, 3, Code3Length)
      + MatchesRule("CountryCode3", v, 2, 3, asWritten, Code3Alphabetic)
  }

  function DescriptionFailures(v: Option<string>): seq<ValidationFailure> {
    LengthRule("CountryDescription", v, 0, 1000, DescriptionLength)
  }

  /** The validator with the patterns evaluated as .NET evaluates them. It
      accepts the well-formed requests and, besides them, exactly those whose
      three-letter code is two letters followed by a line feed. */
  function ValidateAsWritten(c: CountryInput): (r: seq<ValidationFailure>)
    ensures r == [] <==>
      || WellFormed(c)
      || (&& c.code3.Some? && |c.code3.value| == 3 && c.code3.value[2] == '\n'
          && WellFormed(c.(code3 := Some(c.code3.value[..2]))))
  {
    CodesNotBlank(c);
    FullnameFailures(c.fullname) + ShortnameFailures(c.shortname) + Code2Failures(c.code2, true)
      + Code3Failures(c.code3, true) + DescriptionFailures(c.description)
  }

  /** The validator with letters-only codes, as its messages intend: it
      accepts exactly the well-formed requests. */
  function Validate(c: CountryInput): (r: seq<ValidationFailure>)
    ensures r == [] <==> WellFormed(c)
  {
    CodesNotBlank(c);
    FullnameFailures(c.fullname) + ShortnameFailures(c.shortname) + Code2Failures(c.code2, false)
      + Code3Failures(c.code3, false) + DescriptionFailures(c.description)
  }

  /** What a request must look like to pass. */
  predicate WellFormed(c: CountryInput) {
    && c.fullname.Some? && !IsBlank(c.fullname.value) && 2 <= |c.fullname.value| <= 200
    && c.shortname.Some? && !IsBlank(c.shortname.value) && 1 <= |c.shortname.value| <= 100
    && c.code2.Some? && Letters(c.code2.value, 2, 2)
    && c.code3.Some? && Letters(c.code3.value, 2, 3)
    && (c.description.None? || |c.description.value| <= 1000)
  }

  /** A code made of letters only is never blank. */
  lemma LettersNotBlank(s: string, min: nat, max: nat)
    requires Letters(s, min, max) && min > 0
    ensures !IsBlank(s)
  {
    assert !IsWhiteSpace(s[0]);
  }

  /** A code the pattern accepts, as written or as intended, is not blank. */
  lemma CodesNotBlank(c: CountryInput)
    ensures c.code2.Some? && MatchesAsWritten(c.code2.value, 2, 2) ==> !IsBlank(c.code2.value)
    ensures c.code3.Some? && MatchesAsWritten(c.code3.value, 2, 3) ==> !IsBlank(c.code3.value)
    ensures c.code3.Some? && |c.code3.value| == 3 && Letters(c.code3.value[..2], 2, 2) ==> !IsBlank(c.code3.value[..2])
  {
    if c.code2.Some? && MatchesAsWritten(c.code2.value, 2, 2) {
      LeadingLetterNotBlank(c.code2.value);
    }
    if c.code3.Some? && MatchesAsWritten(c.code3.value, 2, 3) {
      LeadingLetterNotBlank(c.code3.value);
    }
    if c.code3.Some? && |c.code3.value| == 3 && Letters(c.code3.value[..2], 2, 2) {
      LeadingLetterNotBlank(c.code3.value[..2]);
    }
  }

  lemma LeadingLetterNotBlank(s: string)
    requires |s| > 0 && IsAsciiLetter(s[0])
    ensures !IsBlank(s)
  {
    assert !IsWhiteSpace(s[0]);
  }

  /** The length rule keeps the two-letter code safe from the line-feed rule:
      for it the pattern as written accepts exactly what the intended check
      accepts. */
  lemma Code2AsWrittenAgrees(v: Option<string>)
    ensures Code2Failures(v, true) == [] <==> Code2Failures(v, false) == []
  {
  }

  /** As written, the three-letter-code rule accepts a two-letter code followed
      by a line feed: it has three characters and the pattern matches. */
  lemma Code3AcceptsLineFeed()
    ensures var c := CountryInput(Some("Malaysia"), Some("MAS"), None, Some("MY"), Some("MY\n"));
      && ValidateAsWritten(c) == []
      && !Letters(c.code3.value, 2, 3)
      && Validate(c) == [ValidationFailure("CountryCode3", Code3Alphabetic)]
  {
    var c := CountryInput(Some("Malaysia"), Some("MAS"), None, Some("MY"), Some("MY\n"));
    assert "MY\n"[..2] == "MY";
    assert !IsAsciiLetter("MY\n"[2]);
    assert !IsBlank("Malaysia") by { assert !IsWhiteSpace("Malaysia"[0]); }
    assert !IsBlank("MAS") by { assert !IsWhiteSpace("MAS"[0]); }
    LettersNotBlank("MY", 2, 2);
    assert !IsBlank("MY\n") by { assert !IsWhiteSpace("MY\n"[0]); }
  }

  /** Every rule of a chain runs: an empty full name fails both `NotEmpty`
      and `Length`. */
  lemma EmptyFullnameFailsBothRules()
    ensures FullnameFailures(Some("")) ==
      [ValidationFailure("CountryFullname", FullnameRequired), ValidationFailure("CountryFullname", FullnameLength)]
  {
  }

  /** A missing full name fails `NotEmpty` only. */
  lemma MissingFullnameFailsOnce()
    ensures FullnameFailures(None) == [ValidationFailure("CountryFullname", FullnameRequired)]
  {
  }
}
