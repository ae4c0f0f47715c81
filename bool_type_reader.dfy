/** `reader<bool, CharT>`: the boolean entry points called by the scanning
    operations. `read_default` uses a default reader without a format
    specification; `read_specs` derives the options from the specification and
    picks the localized or the classic read. The locale is passed as its two
    boolean spellings. */
module BoolTypeReader {
  import opened ScanResults
  import opened Forms
  import opened BoolReader

  /** Presentation types a format specification can carry. Only `String` and
      `IntGeneric` mean anything to the boolean reader. */
  datatype PresentationType = Unspecified | String | IntGeneric | FloatGeneric | Character | Pointer

  /** The parts of a format specification that reading consults. */
  datatype FormatSpecs = FormatSpecs(presentation: PresentationType, localized: bool)

  /** `get_options`: `string` allows only text, `int_generic` only the digits,
      every other presentation type both. */
  function GetOptions(specs: FormatSpecs): (opts: bv32)
    ensures ((opts & AllowText) != 0) <==> specs.presentation != IntGeneric
    ensures ((opts & AllowNumeric) != 0) <==> specs.presentation != String
    ensures (opts & DefaultOptions) == opts
  {
    match specs.presentation
    case String => AllowText
    case IntGeneric => AllowNumeric
    case _ => AllowText | AllowNumeric
  }

  /** `read_default`: every classic form, digits before words. */
  function ReadDefault(range: seq<char>, value: bool): (o: Scanned)
    ensures o.Matched() == FirstMatch(NumericForms + ClassicTextForms, range)
    ensures o.result.Err? ==> o.value == value && o.result.error == TextualError
  {
    DefaultReaderAllowsEveryForm();
    ReadClassicIsFirstMatch(DefaultReader, range, value);
    DefaultReader.ReadClassic(range, value)
  }

  /** The forms `read_specs` tries, in order, for a specification and a locale. */
  function SpecForms(specs: FormatSpecs, truename: seq<char>, falsename: seq<char>): (r: seq<Form>) {
    var rd := Reader(GetOptions(specs));
    if specs.localized then rd.LocalizedForms(truename, falsename) else rd.ClassicForms()
  }

  /** `read_specs`: the localized read when the specification asks for it, the
      classic read otherwise, both with the options `get_options` derives. */
  function ReadSpecs(range: seq<char>, specs: FormatSpecs, value: bool, truename: seq<char>, falsename: seq<char>): (o: Scanned)
    ensures o.Matched() == FirstMatch(SpecForms(specs, truename, falsename), range)
    ensures o.result.Err? ==> o.value == value
    ensures o.result.Err? ==> o.result.error == if specs.presentation == IntGeneric then NumericError else TextualError
  {
    var rd := Reader(GetOptions(specs));
    if specs.localized then
      ReadLocalizedIsFirstMatch(rd, range, value, truename, falsename);
      rd.ReadLocalized(range, value, truename, falsename)
    else
      ReadClassicIsFirstMatch(rd, range, value);
      rd.ReadClassic(range, value)
  }

  /** Without the localized flag the locale's spellings play no part. */
  lemma NonLocalizedIgnoresLocale(range: seq<char>, specs: FormatSpecs, value: bool,
                                  t1: seq<char>, f1: seq<char>, t2: seq<char>, f2: seq<char>)
    requires !specs.localized
    ensures ReadSpecs(range, specs, value, t1, f1) == ReadSpecs(range, specs, value, t2, f2)
  {
  }

  /** A non-localized specification whose presentation type is neither
      `string` nor `int_generic` reads exactly as `read_default`. */
  lemma GenericSpecsReadAsDefault(range: seq<char>, specs: FormatSpecs, value: bool, truename: seq<char>, falsename: seq<char>)
    requires !specs.localized && specs.presentation != String && specs.presentation != IntGeneric
    ensures ReadSpecs(range, specs, value, truename, falsename) == ReadDefault(range, value)
  {
  }

  /** A localized specification with the classic spellings reads as a
      non-localized one. */
  lemma ClassicLocaleReadsAsClassic(range: seq<char>, specs: FormatSpecs, value: bool)
    ensures ReadSpecs(range, specs, value, "true", "false") ==
            ReadSpecs(range, specs.(localized := false), value, "true", "false")
  {
  }

  /** `string` presentation accepts only the textual spellings. */
  lemma StringPresentationIsTextOnly(range: seq<char>, specs: FormatSpecs, value: bool, truename: seq<char>, falsename: seq<char>)
    requires specs.presentation == String
    ensures ReadSpecs(range, specs, value, truename, falsename).result.Ok? <==>
      if specs.localized then truename <= range || falsename <= range else ClassicTextForm(range)
  {
  }

  /** `int_generic` presentation accepts only the digits `0` and `1`. */
  lemma IntGenericPresentationIsNumericOnly(range: seq<char>, specs: FormatSpecs, value: bool, truename: seq<char>, falsename: seq<char>)
    requires specs.presentation == IntGeneric
    ensures ReadSpecs(range, specs, value, truename, falsename).result.Ok? <==> NumericForm(range)
  {
  }

  /** `"truefalse"` reads as true, leaving `"false"`. */
  lemma TrueFalseExample(value: bool)
    ensures ReadDefault("truefalse", value) == Scanned(true, Ok("false"))
  {
  }

  /** With default options the digit wins: `"1rest"` is true with `"rest"`
      left, and `"0"` is false with nothing left. */
  lemma NumericPrecedenceExample(value: bool)
    ensures ReadDefault("1rest", value) == Scanned(true, Ok("rest"))
    ensures ReadDefault("0", value) == Scanned(false, Ok(""))
  {
  }

  /** A text-only specification rejects `"1"` with `invalid_scanned_value`. */
  lemma TextOnlyRejectsDigitExample(value: bool, truename: seq<char>, falsename: seq<char>)
    requires !(truename <= "1") && !(falsename <= "1")
    ensures ReadSpecs("1", FormatSpecs(String, false), value, truename, falsename) == Scanned(value, Err(TextualError))
    ensures ReadSpecs("1", FormatSpecs(String, true), value, truename, falsename) == Scanned(value, Err(TextualError))
  {
  }

  /** An empty range never yields a boolean and leaves the value alone, unless
      a localized read is given an empty spelling, which matches anything. */
  lemma EmptyRangeFails(value: bool, specs: FormatSpecs, truename: seq<char>, falsename: seq<char>)
    ensures ReadDefault([], value) == Scanned(value, Err(TextualError))
    ensures |truename| > 0 && |falsename| > 0 ==>
      ReadSpecs([], specs, value, truename, falsename) ==
      Scanned(value, Err(if specs.presentation == IntGeneric then NumericError else TextualError))
  {
  }
}
