/**
 * The decoder combinators the configuration is validated with, by their
 * structural meaning: each decoder either produces a typed value from an
 * untyped one or reports where and why it did not.
 */
module Decoders {
  import opened Wrappers
  import opened JsonValues

  /** One step of the path to the offending value: `.key` or `[i]`. */
  datatype PathStep = Key(name: string) | Index(i: nat)

  /** Why a value was refused (the library's message, without its wording). */
  datatype Reason =
    | ExpectedObject
    | ExpectedArray
    | ExpectedString
    | ExpectedNumber
    | ExpectedBoolean
    | NoAlternativeMatched
    | MissingKey(key: string)

  /** The library's `{at, message}` error. */
  datatype DecoderError = DecoderError(at: seq<PathStep>, reason: Reason)

  type Decoder<T> = Json -> Result<T, DecoderError>

  function Prepend(step: PathStep, e: DecoderError): DecoderError {
    DecoderError([step] + e.at, e.reason)
  }

  /** `string()` */
  function DecodeString(j: Json): (r: Result<string, DecoderError>)
    ensures r.Success? <==> j.Str?
    ensures r.Success? ==> j == Str(r.value)
  {
    if j.Str? then Success(j.s) else Failure(DecoderError([], ExpectedString))
  }

  /** `number()`: any number, with no integrality or sign constraint. */
  function DecodeNumber(j: Json): (r: Result<real, DecoderError>)
    ensures r.Success? <==> j.Num?
    ensures r.Success? ==> j == Num(r.value)
  {
    if j.Num? then Success(j.n) else Failure(DecoderError([], ExpectedNumber))
  }

  /** `boolean()` */
  function DecodeBool(j: Json): (r: Result<bool, DecoderError>)
    ensures r.Success? <==> j.Bool?
    ensures r.Success? ==> j == Bool(r.value)
  {
    if j.Bool? then Success(j.b) else Failure(DecoderError([], ExpectedBoolean))
  }

  /** `optional(d)`: `undefined` decodes to nothing, anything else must satisfy `d`. */
  function Optional<T>(d: Decoder<T>, j: Json): (r: Result<Option<T>, DecoderError>)
    ensures j == Undefined ==> r == Success(None)
    ensures j != Undefined ==> (r.Success? <==> d(j).Success?)
    ensures j != Undefined && r.Success? ==> r.value == Some(d(j).value)
  {
    if j == Undefined then Success(None)
    else
      match d(j)
      case Success(v) => Success(Some(v))
      case Failure(e) => Failure(e)
  }

  /** The elements decoded left to right; the first element that fails is reported. */
  function DecodeElems<T>(d: Decoder<T>, elems: seq<Json>): (r: Result<seq<T>, DecoderError>)
    ensures r.Success? <==> forall i :: 0 <= i < |elems| ==> d(elems[i]).Success?
    ensures r.Success? ==> |r.value| == |elems|
    ensures r.Success? ==> forall i :: 0 <= i < |elems| ==> d(elems[i]) == Success(r.value[i])
  {
    if |elems| == 0 then Success([])
    else
      var n := |elems| - 1;
      var init :- DecodeElems(d, elems[..n]);
      match d(elems[n])
      case Success(x) => Success(init + [x])
      case Failure(e) => Failure(Prepend(Index(n), e))
  }

  /** `array(d)` */
  function DecodeArray<T>(d: Decoder<T>, j: Json): (r: Result<seq<T>, DecoderError>)
    ensures r.Success? <==> j.Arr? && forall i :: 0 <= i < |j.elems| ==> d(j.elems[i]).Success?
    ensures r.Success? ==> |r.value| == |j.elems|
    ensures r.Success? ==> forall i :: 0 <= i < |j.elems| ==> d(j.elems[i]) == Success(r.value[i])
  {
    if j.Arr? then DecodeElems(d, j.elems) else Failure(DecoderError([], ExpectedArray))
  }

  /**
   * One entry `key: d` of `object({...})`: the value under `key` must satisfy
   * `d`; a refused `undefined` is reported as a missing key.
   */
  function Field<T>(fields: map<string, Json>, key: string, d: Decoder<T>): (r: Result<T, DecoderError>)
    ensures r.Success? <==> d(Lookup(fields, key)).Success?
    ensures r.Success? ==> d(Lookup(fields, key)) == Success(r.value)
    ensures r.Failure? && key !in fields ==> r.error == DecoderError([], MissingKey(key))
    ensures r.Failure? && Lookup(fields, key) != Undefined ==> r.error == Prepend(Key(key), d(Lookup(fields, key)).error)
  {
    var v := Lookup(fields, key);
    match d(v)
    case Success(x) => Success(x)
    case Failure(e) =>
      if v == Undefined then Failure(DecoderError([], MissingKey(key)))
      else Failure(Prepend(Key(key), e))
  }
}
