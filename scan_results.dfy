/** The result and error model shared by every reader: a typed scan error and
    `scan_expected`, which holds either a value (for readers: the iterator to
    the first unconsumed unit, modelled as the remaining range) or an error. */
module ScanResults {

  /** Error codes a reader may report. */
  datatype Code = EndOfRange | InvalidFormatString | InvalidScannedValue | ValueOutOfRange

  /** A scan error: a code and a human-readable message. */
  datatype ScanError = ScanError(code: Code, msg: string)

  /** Either a produced value or the error that stopped the scan. */
  datatype ScanExpected<T> = Ok(value: T) | Err(error: ScanError)

  datatype Option<T> = None | Some(value: T)

  /** `rest` is what is left of `s` after dropping some prefix of it. */
  predicate IsSuffix<T(==)>(rest: seq<T>, s: seq<T>) {
    |rest| <= |s| && s[|s| - |rest|..] == rest
  }
}
