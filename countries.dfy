/** The Country reference data: the entity, its view model, the command that
    adds one, and the FluentResults outcome the handlers return. */
module Countries {
  import opened Wrappers

  /** The fields `Country` adds to `BaseEntity`; the base fields live in
      `Repositories.Entity`. */
  datatype Country = Country(
    fullname: string,
    shortname: string,
    description: Option<string>,
    code2: string,
    code3: string)

  /** `CountryVM`. */
  datatype CountryView = CountryView(
    fullname: string,
    shortname: string,
    description: Option<string>,
    code2: string,
    code3: string)

  /** The properties of `AddCountryCommand` as a request carries them; any of
      them may be missing (null). */
  datatype CountryInput = CountryInput(
    fullname: Option<string>,
    shortname: Option<string>,
    description: Option<string>,
    code2: Option<string>,
    code3: Option<string>)

  /** A FluentResults error: a `ValidationError` carries metadata entries in
      the order they were attached. */
  datatype Error =
    | ValidationError(message: string, metadata: seq<(string, string)>)
    | UnexpectedError(message: string)

  /** A FluentResults `Result<T>`: a value with its success messages, or an error. */
  datatype Outcome<T> = Success(value: T, successes: seq<string>) | Failure(error: Error)

  /** `WithMetadata` adds to a dictionary, which throws on a repeated key, so
      a metadata list is only well formed when its keys are distinct. */
  predicate DistinctKeys(metadata: seq<(string, string)>) {
    forall i, j :: 0 <= i < j < |metadata| ==> metadata[i].0 != metadata[j].0
  }
}
