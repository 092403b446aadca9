/**
 * The field validators of the configuration models: a camera's `quality`, `rate`
 * and `scaling`, and the robot session's identifiers and keys. Each validator
 * returns its argument unchanged or fails with a `ValueError` message; a model
 * is valid when every validated field passes, and otherwise reports one error per
 * failing field, in field order.
 */
module Models {
  import opened Wrappers

  const QualityRangeMessage: string := "Must be between 1 and 100"
  const PositiveMessage: string := "Must be positive and non-zero"
  const WhitespaceMessage: string := "Whitespaces are not allowed"

  /** A failed field: its name and the validator's message. */
  datatype FieldError = FieldError(field: string, message: string)

  /** `check_quality_range`: None, or an integer from 1 to 100. */
  function CheckQualityRange(quality: Option<int>): (r: Result<Option<int>, string>)
    ensures r.Ok? <==> quality.None? || 1 <= quality.value <= 100
    ensures r.Ok? ==> r.value == quality
    ensures r.Err? ==> r.error == QualityRangeMessage
  {
    if quality.Some? && !(1 <= quality.value <= 100) then Err(QualityRangeMessage) else Ok(quality)
  }

  /** `check_positive`: None, or a value above zero. */
  function CheckPositive(value: Option<real>): (r: Result<Option<real>, string>)
    ensures r.Ok? <==> value.None? || value.value > 0.0
    ensures r.Ok? ==> r.value == value
    ensures r.Err? ==> r.error == PositiveMessage
  {
    if value.Some? && value.value <= 0.0 then Err(PositiveMessage) else Ok(value)
  }

  /**
   * `str.isspace` on one character: the characters whose bidirectional class is
   * whitespace, segment or paragraph separator, or whose category is Zs.
   */
  predicate IsSpace(c: char)
  {
    var n := c as int;
    || 0x09 <= n <= 0x0D || 0x1C <= n <= 0x20 || n == 0x85 || n == 0xA0 || n == 0x1680
    || 0x2000 <= n <= 0x200A || n == 0x2028 || n == 0x2029 || n == 0x202F || n == 0x205F || n == 0x3000
  }

  /** `any(char.isspace() for char in value)`, scanning from the left. */
  function ContainsWhitespace(value: string): (r: bool)
    ensures r <==> exists i :: 0 <= i < |value| && IsSpace(value[i])
  {
    if value == [] then false
    else if IsSpace(value[0]) then true
    else
      var rest := ContainsWhitespace(value[1..]);
      assert forall i :: 1 <= i < |value| ==> value[i] == value[1..][i - 1];
      rest
  }

  /** `check_whitespace`: None and the empty string pass; otherwise no character may be whitespace. */
  function CheckWhitespace(value: Option<string>): (r: Result<Option<string>, string>)
    ensures r.Ok? <==> value.None? || forall i :: 0 <= i < |value.value| ==> !IsSpace(value.value[i])
    ensures r.Ok? ==> r.value == value
    ensures r.Err? ==> r.error == WhitespaceMessage
  {
    if value.Some? && value.value != "" && ContainsWhitespace(value.value) then Err(WhitespaceMessage) else Ok(value)
  }

  /** The error a check contributes for `field`: none if it passed. */
  function ErrorsOf<T>(field: string, r: Result<T, string>): seq<FieldError>
  {
    if r.Ok? then [] else [FieldError(field, r.error)]
  }

  /** The validated fields of `CameraConfig` (the URL is not modelled). */
  datatype CameraFields = CameraFields(quality: Option<int>, rate: Option<int>, scaling: Option<real>)

  /** `CameraConfig` validation: `quality` by its range check, `rate` and `scaling` by the positivity check. */
  function ValidateCamera(fields: CameraFields): (r: Result<CameraFields, seq<FieldError>>)
    ensures r.Ok? <==> && (fields.quality.None? || 1 <= fields.quality.value <= 100)
                       && (fields.rate.None? || fields.rate.value > 0)
                       && (fields.scaling.None? || fields.scaling.value > 0.0)
    ensures r.Ok? ==> r.value == fields
    ensures r.Err? ==> forall e :: e in r.error ==> e.field in {"quality", "rate", "scaling"}
  {
    var rate := if fields.rate.Some? then Some(fields.rate.value as real) else None;
    var errors := ErrorsOf("quality", CheckQualityRange(fields.quality))
                  + ErrorsOf("rate", CheckPositive(rate))
                  + ErrorsOf("scaling", CheckPositive(fields.scaling));
    if errors == [] then Ok(fields) else Err(errors)
  }

  /** The validated fields of `RobotSessionModel` (SSL flag and endpoint are not modelled). */
  datatype SessionFields = SessionFields(robotId: string, robotName: string, robotApiKey: Option<string>, apiKey: Option<string>)

  predicate NoWhitespace(value: string)
  {
    forall i :: 0 <= i < |value| ==> !IsSpace(value[i])
  }

  /** `RobotSessionModel` validation: each of the four identifiers and keys by the whitespace check. */
  function ValidateSession(fields: SessionFields): (r: Result<SessionFields, seq<FieldError>>)
    ensures r.Ok? <==> && NoWhitespace(fields.robotId) && NoWhitespace(fields.robotName)
                       && (fields.robotApiKey.None? || NoWhitespace(fields.robotApiKey.value))
                       && (fields.apiKey.None? || NoWhitespace(fields.apiKey.value))
    ensures r.Ok? ==> r.value == fields
    ensures r.Err? ==> forall e :: e in r.error ==> e.message == WhitespaceMessage
  {
    var errors := ErrorsOf("robot_id", CheckWhitespace(Some(fields.robotId)))
                  + ErrorsOf("robot_name", CheckWhitespace(Some(fields.robotName)))
                  + ErrorsOf("robot_api_key", CheckWhitespace(fields.robotApiKey))
                  + ErrorsOf("api_key", CheckWhitespace(fields.apiKey));
    if errors == [] then Ok(fields) else Err(errors)
  }

  /** Every validator is idempotent: what it accepts, it accepts again unchanged. */
  lemma ValidatorsIdempotent(quality: Option<int>, value: Option<real>, text: Option<string>)
    ensures CheckQualityRange(quality).Ok? ==> CheckQualityRange(CheckQualityRange(quality).value) == CheckQualityRange(quality)
    ensures CheckPositive(value).Ok? ==> CheckPositive(CheckPositive(value).value) == CheckPositive(value)
    ensures CheckWhitespace(text).Ok? ==> CheckWhitespace(CheckWhitespace(text).value) == CheckWhitespace(text)
  {
  }

  /** A single space anywhere in a value is rejected, whatever surrounds it. */
  lemma {:induction false} SpaceRejected(before: string, after: string)
    ensures CheckWhitespace(Some(before + " " + after)) == Err(WhitespaceMessage)
  {
    var s := before + " " + after;
    assert s[|before|] == ' ';
    assert IsSpace(s[|before|]);
  }
}
