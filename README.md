# Boolean reader of scnlib, in Dafny

This project models the boolean reader of scnlib's scanning engine
(`src/scn/impl/reader/bool_reader.h`). Given a range of character units, the
reader reads a `bool` from its start. It returns either the remaining range or
a `scan_error`, and writes the caller's `bool` only when the read succeeds.

- A reader carries an option word of two bits, `allow_text = 1` and
  `allow_numeric = 2`. A default-constructed reader has both bits set.
- `read_classic` first tries the digits `0` and `1`, if they are allowed. It
  then tries the words `true` and `false`, if they are allowed.
- `read_localized` does the same, except that the textual step uses the
  locale's two spellings. It tries the shorter spelling first, and truename
  when both have the same length.
- `read_default` uses a default reader. `read_specs` derives the options from
  the format specification's presentation type. It calls the localized read
  when the specification is localized and the classic read otherwise.
- When every form tried fails, the error of the last form tried is returned.

Structure:

- `scan_results.dfy` (module `ScanResults`): error codes, `ScanError`,
  `ScanExpected<T>`, `Option<T>` and a suffix predicate.
- `matching.dfy` (module `Matching`): the primitives `read_matching_code_unit`
  and `read_matching_string`. They are defined in `scn/impl/reader/common.h`,
  which is not part of this model. Each is modelled as what its use in the
  reader requires: it succeeds iff the range starts with the literal, and the
  remainder is the range minus that literal.
- `forms.dfy` (module `Forms`): the reference definition `FirstMatch`. It tries
  a list of (spelling, value) forms in order, and the first spelling that
  starts the input wins. It comes with lemmas on what it chooses and on when
  the order of two forms matters.
- `bool_reader.dfy` (module `BoolReader`): `bool_reader_base` and
  `bool_reader<CharT>` as the datatype `Reader(options)`, with one member
  function per reader function. For each read, a lemma proves that on
  success its value and remainder are those `FirstMatch` gives over the forms
  that read tries, and that it fails exactly when `FirstMatch` does. The error
  and the unchanged value on failure come from each read's own contract.
- `bool_type_reader.dfy` (module `BoolTypeReader`): `reader<bool, CharT>`,
  with `get_options`, `read_default` and `read_specs`, and example lemmas.

Modelling decisions:

- A range is `seq<char>`. A remaining range is a `seq<char>` proved to be a
  suffix of the input.
- The `bool& value` out-parameter becomes an input `value` plus the field
  `Scanned.value`, which is the caller's boolean after the call. Every read
  promises that a failure leaves it equal to the input.
- The option word is `bv32`, matching C++ `unsigned`. The tests
  `m_options & allow_numeric` are bitwise, as in the source.
- The locale lookup (`numpunct::truename()`/`falsename()`) becomes two
  `seq<char>` parameters. `read_default` ignores its locale, so the model
  leaves that parameter out.

Behaviour of the code worth knowing:

- `read_textual_classic` (src/scn/impl/reader/bool_reader.h:85-92) tries
  `true` before `false` without comparing lengths. This gives the same result
  as trying the shorter word first, because `true` is the shorter word
  (`LocalizedWithClassicNamesIsClassic`).
- When the shorter locale spelling is a prefix of the longer one, the longer
  one is never produced (`ShorterSpellingShadowsLonger`).
- An empty locale spelling matches without consuming anything, so
  `ReadLocalized` promises only that the remainder is a suffix, not a strict
  one. For the same reason a localized read can succeed on an empty range;
  with two non-empty spellings every read fails there (`EmptyRangeFails`).

## Model

| member | source | states |
|---|---|---|
| `Matching.ReadMatchingCodeUnit` | src/scn/impl/reader/bool_reader.h:68-75 | succeeds iff the range starts with the unit, and the range is that unit followed by the remainder |
| `Matching.ReadMatchingString` | src/scn/impl/reader/bool_reader.h:159-166 | succeeds iff the literal is a prefix of the range, and the range is the literal followed by the remainder (also the model of the `_classic` variant at :85-92) |
| `Forms.FirstMatchChosen` | src/scn/impl/reader/bool_reader.h:41-57 | ordered trial fails iff no form's spelling starts the input; otherwise the earliest matching form gives the value and exactly its spelling is consumed |
| `Forms.FirstMatchAppend` | src/scn/impl/reader/bool_reader.h:41-57 | trying one group of forms and then another is one ordered trial over both; a success in the first group returns at once |
| `Forms.FirstMatchPair` | src/scn/impl/reader/bool_reader.h:68-75 | two forms tried in order: the first if it matches, else the second, else failure |
| `Forms.OrderIrrelevantUnlessNested` | src/scn/impl/reader/bool_reader.h:150-166 | when neither spelling is a prefix of the other, trying them in either order gives the same result on every input |
| `BoolReader.CustomTextForms` | src/scn/impl/reader/bool_reader.h:150-157 | the localized textual forms are exactly truename→true and falsename→false, the shorter spelling first, and truename first when both have the same length |
| `BoolReader.Reader.ReadNumeric` | src/scn/impl/reader/bool_reader.h:64-79 | succeeds iff the first unit is `0` or `1`; the value is true iff it was `1`; exactly one unit is consumed; otherwise `invalid_scanned_value` "read_numeric: No match" and the value is unchanged |
| `BoolReader.Reader.ReadTextualClassic` | src/scn/impl/reader/bool_reader.h:81-96 | a leading `true` gives true with input[4..] left; otherwise a leading `false` gives false with input[5..] left; otherwise `invalid_scanned_value` "read_textual: No match" and the value is unchanged |
| `BoolReader.Reader.ReadClassic` | src/scn/impl/reader/bool_reader.h:33-60 | succeeds iff an allowed form starts the input; an allowed digit always wins over text; the remainder is a strict suffix; on failure the value is unchanged and the error is the textual one if text was tried, else the numeric one, else "Failed to read boolean" |
| `BoolReader.Reader.ReadTextualCustom` | src/scn/impl/reader/bool_reader.h:143-170 | succeeds iff truename or falsename starts the input; true means truename was consumed and false means falsename was; when both match, the shorter wins and truename wins a tie; on failure the value is unchanged |
| `BoolReader.Reader.ReadLocalized` | src/scn/impl/reader/bool_reader.h:105-140 | succeeds iff an allowed digit or an allowed locale spelling starts the input; the digit wins; the remainder is a suffix; the error is as for `ReadClassic` |
| `BoolReader.DefaultReaderAllowsEveryForm` | src/scn/impl/reader/bool_reader.h:98 | a default-constructed reader allows digits and text, and so tries `0`, `1`, `true` and `false` in that order |
| `BoolReader.ReadNumericIsFirstMatch` | src/scn/impl/reader/bool_reader.h:68-78 | `read_numeric` is an ordered trial of `0`→false and then `1`→true |
| `BoolReader.ReadTextualClassicIsFirstMatch` | src/scn/impl/reader/bool_reader.h:85-95 | `read_textual_classic` is an ordered trial of `true`→true and then `false`→false |
| `BoolReader.ReadTextualCustomIsFirstMatch` | src/scn/impl/reader/bool_reader.h:150-169 | `read_textual_custom` is an ordered trial of the shorter spelling (truename on a tie) and then the longer one |
| `BoolReader.ReadClassicIsFirstMatch` | src/scn/impl/reader/bool_reader.h:38-59 | `read_classic` is an ordered trial of the allowed numeric forms followed by the allowed classic words |
| `BoolReader.ReadLocalizedIsFirstMatch` | src/scn/impl/reader/bool_reader.h:111-139 | `read_localized` is an ordered trial of the allowed numeric forms followed by the allowed locale spellings, shorter first |
| `BoolReader.LocalizedWithClassicNamesIsClassic` | src/scn/impl/reader/bool_reader.h:123-136 | with the locale spellings `true`/`false`, the localized read equals the classic read for every option word, input and value |
| `BoolReader.ShorterSpellingShadowsLonger` | src/scn/impl/reader/bool_reader.h:150-166 | when the shorter spelling is a prefix of the longer (including equal spellings), every textual success yields the shorter spelling's value |
| `BoolReader.FailuresAreInvalidScannedValue` | src/scn/impl/reader/bool_reader.h:38-59 | every failure of the classic and of the localized read has the code `invalid_scanned_value` |
| `BoolTypeReader.GetOptions` | src/scn/impl/reader/bool_reader.h:213-229 | text is allowed iff the presentation type is not `int_generic`; digits are allowed iff it is not `string`; no other bit is set |
| `BoolTypeReader.ReadDefault` | src/scn/impl/reader/bool_reader.h:186-195 | an ordered trial of `0`, `1`, `true`, `false`; on failure the value is unchanged and the error is "read_textual: No match" |
| `BoolTypeReader.ReadSpecs` | src/scn/impl/reader/bool_reader.h:197-211 | an ordered trial of the localized forms if the specification is localized, else of the classic forms, with the options `get_options` gives; it never reports "Failed to read boolean" |
| `BoolTypeReader.NonLocalizedIgnoresLocale` | src/scn/impl/reader/bool_reader.h:206-210 | without the localized flag the result does not depend on the locale's spellings |
| `BoolTypeReader.GenericSpecsReadAsDefault` | src/scn/impl/reader/bool_reader.h:204-210 | a non-localized specification of any type other than `string`/`int_generic` reads exactly as `read_default` |
| `BoolTypeReader.ClassicLocaleReadsAsClassic` | src/scn/impl/reader/bool_reader.h:204-210 | with the classic spellings as locale names, the localized flag makes no difference |
| `BoolTypeReader.StringPresentationIsTextOnly` | src/scn/impl/reader/bool_reader.h:220-221 | with `string` presentation a read succeeds iff a textual spelling starts the input |
| `BoolTypeReader.IntGenericPresentationIsNumericOnly` | src/scn/impl/reader/bool_reader.h:223-224 | with `int_generic` presentation a read succeeds iff the input starts with `0` or `1` |
| `BoolTypeReader.TrueFalseExample` | src/scn/impl/reader/bool_reader.h:85-92 | `"truefalse"` reads as true with `"false"` left |
| `BoolTypeReader.NumericPrecedenceExample` | src/scn/impl/reader/bool_reader.h:41-48 | by default `"1rest"` reads as true with `"rest"` left, and `"0"` reads as false with nothing left |
| `BoolTypeReader.TextOnlyRejectsDigitExample` | src/scn/impl/reader/bool_reader.h:220-221 | a text-only specification rejects `"1"` with `invalid_scanned_value` and leaves the value unchanged |
| `BoolTypeReader.EmptyRangeFails` | src/scn/impl/reader/bool_reader.h:186-211 | an empty range fails `read_default` with `invalid_scanned_value` and leaves the value unchanged; it fails `read_specs` too whenever both locale spellings are non-empty |

## Left out

- `check_specs_impl` (src/scn/impl/reader/bool_reader.h:179-184): it forwards to `detail::check_bool_type_specs`, which is not part of this model.
- The locale service (`loc.get<std::locale>()`, `get_or_add_facet<std::numpunct<CharT>>`): replaced by the two spellings it yields, passed as parameters.
- The errors of `read_matching_code_unit` and `read_matching_string`: the boolean reader tests them only for success and reports its own errors, so the primitives return an `Option`.
- `CharT` width and the ranges machinery (`borrowed_iterator_t`, `SCN_FWD`): a range is a `seq<char>` and an iterator is the remaining range.
- `PresentationType`: the full enumeration is declared in a header that is not part of this model. The model lists a representative set, which is enough because `get_options` only distinguishes `string` and `int_generic`.
- The aggregate operations (`scan`, `scan_default`, `scan_value`, `scan_list`, `getline`, `ignore_until`) and the other typed readers: their implementations are not part of this model.
- The fuzzing driver in test/fuzz/fuzz.cpp: it only calls the public operations and has no logic of its own to model.
