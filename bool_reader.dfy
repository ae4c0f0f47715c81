/** `bool_reader_base` and `bool_reader<CharT>`: read a `bool` from the start
    of a range, as the digit `0`/`1` or as a textual spelling. The reader's only
    state is its option bits, fixed at construction. */
module BoolReader {
  import opened ScanResults
  import opened Matching
  import opened Forms

  /** `options_type`: independent bits of the (32-bit, unsigned) option word. */
  const AllowText: bv32 := 1
  const AllowNumeric: bv32 := 2

  /** The value `m_options` has in a default-constructed reader. */
  const DefaultOptions: bv32 := AllowText | AllowNumeric

  const FailedMessage := "Failed to read boolean"
  const NumericNoMatchMessage := "read_numeric: No match"
  const TextualNoMatchMessage := "read_textual: No match"

  /** The error `read_classic`/`read_localized` start from, before any form is tried. */
  const InitialError := ScanError(InvalidScannedValue, FailedMessage)
  const NumericError := ScanError(InvalidScannedValue, NumericNoMatchMessage)
  const TextualError := ScanError(InvalidScannedValue, TextualNoMatchMessage)

  /** What a read leaves behind: the caller's `bool` after the call, and the
      returned remaining range or error. */
  datatype Scanned = Scanned(value: bool, result: ScanExpected<seq<char>>) {
    /** The read as a Match, or None when it failed. */
    function Matched(): (r: Option<Match>) {
      if result.Ok? then Some(Match(value, result.value)) else None
    }
  }

  /** The numeric forms, in the order they are tried. */
  const NumericForms := [Form("0", false), Form("1", true)]

  /** The classic textual forms, in the order they are tried. */
  const ClassicTextForms := [Form("true", true), Form("false", false)]

  /** The localized textual forms: the shorter spelling first, truename on a tie. */
  function CustomTextForms(truename: seq<char>, falsename: seq<char>): (r: seq<Form>)
    ensures |r| == 2 && {r[0], r[1]} == {Form(truename, true), Form(falsename, false)}
    ensures |r[0].spelling| <= |r[1].spelling|
    ensures |truename| == |falsename| ==> r[0] == Form(truename, true)
  {
    if |truename| <= |falsename| then [Form(truename, true), Form(falsename, false)]
    else [Form(falsename, false), Form(truename, true)]
  }

  predicate NumericForm(s: seq<char>) {
    "0" <= s || "1" <= s
  }

  predicate ClassicTextForm(s: seq<char>) {
    "true" <= s || "false" <= s
  }

  /** A reader with option word `options` (`bool_reader_base(unsigned opt)`). */
  datatype Reader = Reader(options: bv32) {

    predicate NumericAllowed() {
      (options & AllowNumeric) != 0
    }

    predicate TextAllowed() {
      (options & AllowText) != 0
    }

    /** Every form the reader tries in `read_classic`, in order. */
    function ClassicForms(): (r: seq<Form>) {
      (if NumericAllowed() then NumericForms else []) +
      (if TextAllowed() then ClassicTextForms else [])
    }

    /** Every form the reader tries in `read_localized`, in order. */
    function LocalizedForms(truename: seq<char>, falsename: seq<char>): (r: seq<Form>) {
      (if NumericAllowed() then NumericForms else []) +
      (if TextAllowed() then CustomTextForms(truename, falsename) else [])
    }

    /** `read_numeric`: `0` gives false, otherwise `1` gives true, one unit
        consumed; anything else fails and leaves `value` alone. */
    function ReadNumeric(range: seq<char>, value: bool): (o: Scanned)
      ensures o.result.Ok? <==> |range| > 0 && (range[0] == '0' || range[0] == '1')
      ensures o.result.Ok? ==> o.value == (range[0] == '1') && o.result.value == range[1..]
      ensures o.result.Err? ==> o.value == value && o.result.error == NumericError
    {
      match ReadMatchingCodeUnit(range, '0')
      case Some(rest) => Scanned(false, Ok(rest))
      case None =>
        match ReadMatchingCodeUnit(range, '1')
        case Some(rest) => Scanned(true, Ok(rest))
        case None => Scanned(value, Err(NumericError))
    }

    /** `read_textual_classic`: a leading `true` gives true and drops four
        units, otherwise a leading `false` gives false and drops five. */
    function ReadTextualClassic(range: seq<char>, value: bool): (o: Scanned)
      ensures o.result.Ok? <==> ClassicTextForm(range)
      ensures "true" <= range ==> o == Scanned(true, Ok(range[4..]))
      ensures !("true" <= range) && "false" <= range ==> o == Scanned(false, Ok(range[5..]))
      ensures o.result.Err? ==> o.value == value && o.result.error == TextualError
    {
      match ReadMatchingString(range, "true")
      case Some(rest) => Scanned(true, Ok(rest))
      case None =>
        match ReadMatchingString(range, "false")
        case Some(rest) => Scanned(false, Ok(rest))
        case None => Scanned(value, Err(TextualError))
    }

    /** `read_classic`: the numeric form (if allowed) first, then the textual
        form (if allowed); the first success is returned, otherwise the error
        of the last form tried, or the initial error when none was allowed. */
    function ReadClassic(range: seq<char>, value: bool): (o: Scanned)
      ensures o.result.Ok? <==> (NumericAllowed() && NumericForm(range)) || (TextAllowed() && ClassicTextForm(range))
      ensures NumericAllowed() && NumericForm(range) ==>
        o.result.Ok? && o.value == (range[0] == '1') && o.result.value == range[1..]
      ensures o.result.Ok? ==> IsSuffix(o.result.value, range) && |o.result.value| < |range|
      ensures o.result.Err? ==> o.value == value
      ensures o.result.Err? ==>
        o.result.error == if TextAllowed() then TextualError else if NumericAllowed() then NumericError else InitialError
    {
      var afterNumeric := if NumericAllowed() then ReadNumeric(range, value) else Scanned(value, Err(InitialError));
      if afterNumeric.result.Ok? then afterNumeric
      else if TextAllowed() then ReadTextualClassic(range, afterNumeric.value)
      else afterNumeric
    }

    /** `read_textual_custom`: tries the shorter of the two spellings first
        (truename when they are equally long), then the longer one; a match
        gives the value that spelling stands for and consumes it. */
    function ReadTextualCustom(range: seq<char>, value: bool, truename: seq<char>, falsename: seq<char>): (o: Scanned)
      ensures o.result.Ok? <==> truename <= range || falsename <= range
      ensures o.result.Ok? && o.value ==> range == truename + o.result.value
      ensures o.result.Ok? && !o.value ==> range == falsename + o.result.value
      ensures truename <= range && falsename <= range ==> o.value == (|truename| <= |falsename|)
      ensures o.result.Err? ==> o.value == value && o.result.error == TextualError
    {
      var isTruenameShorter := |truename| <= |falsename|;
      var shorter := if isTruenameShorter then truename else falsename;
      var longer := if !isTruenameShorter then truename else falsename;
      match ReadMatchingString(range, shorter)
      case Some(rest) => Scanned(isTruenameShorter, Ok(rest))
      case None =>
        match ReadMatchingString(range, longer)
        case Some(rest) => Scanned(!isTruenameShorter, Ok(rest))
        case None => Scanned(value, Err(TextualError))
    }

    /** `read_localized`: as `read_classic`, but the textual step matches the
        locale's spellings `truename`/`falsename`. */
    function ReadLocalized(range: seq<char>, value: bool, truename: seq<char>, falsename: seq<char>): (o: Scanned)
      ensures o.result.Ok? <==>
        (NumericAllowed() && NumericForm(range)) || (TextAllowed() && (truename <= range || falsename <= range))
      ensures NumericAllowed() && NumericForm(range) ==>
        o.result.Ok? && o.value == (range[0] == '1') && o.result.value == range[1..]
      ensures o.result.Ok? ==> IsSuffix(o.result.value, range)
      ensures o.result.Err? ==> o.value == value
      ensures o.result.Err? ==>
        o.result.error == if TextAllowed() then TextualError else if NumericAllowed() then NumericError else InitialError
    {
      var afterNumeric := if NumericAllowed() then ReadNumeric(range, value) else Scanned(value, Err(InitialError));
      if afterNumeric.result.Ok? then afterNumeric
      else if TextAllowed() then ReadTextualCustom(range, afterNumeric.value, truename, falsename)
      else afterNumeric
    }
  }

  /** A default-constructed reader (`bool_reader_base() = default`). */
  const DefaultReader := Reader(DefaultOptions)

  /** A default-constructed reader has both option bits set. */
  lemma DefaultReaderAllowsEveryForm()
    ensures DefaultReader.NumericAllowed() && DefaultReader.TextAllowed()
    ensures DefaultReader.ClassicForms() == NumericForms + ClassicTextForms
  {
  }

  /** `read_numeric` and `read_textual_classic` are first-match over their forms. */
  lemma ReadNumericIsFirstMatch(r: Reader, range: seq<char>, value: bool)
    ensures r.ReadNumeric(range, value).Matched() == FirstMatch(NumericForms, range)
  {
    FirstMatchPair(Form("0", false), Form("1", true), range);
  }

  lemma ReadTextualClassicIsFirstMatch(r: Reader, range: seq<char>, value: bool)
    ensures r.ReadTextualClassic(range, value).Matched() == FirstMatch(ClassicTextForms, range)
  {
    FirstMatchPair(Form("true", true), Form("false", false), range);
  }

  lemma ReadTextualCustomIsFirstMatch(r: Reader, range: seq<char>, value: bool, truename: seq<char>, falsename: seq<char>)
    ensures r.ReadTextualCustom(range, value, truename, falsename).Matched() == FirstMatch(CustomTextForms(truename, falsename), range)
  {
    FirstMatchPair(Form(truename, true), Form(falsename, false), range);
    FirstMatchPair(Form(falsename, false), Form(truename, true), range);
  }

  /** `read_classic` succeeds exactly as first-match over its enabled forms,
      numeric ones first, does. */
  lemma ReadClassicIsFirstMatch(r: Reader, range: seq<char>, value: bool)
    ensures r.ReadClassic(range, value).Matched() == FirstMatch(r.ClassicForms(), range)
  {
    var numeric := if r.NumericAllowed() then NumericForms else [];
    var text := if r.TextAllowed() then ClassicTextForms else [];
    FirstMatchAppend(numeric, text, range);
    ReadNumericIsFirstMatch(r, range, value);
    ReadTextualClassicIsFirstMatch(r, range, value);
  }

  /** `read_localized` succeeds exactly as first-match over its enabled forms. */
  lemma ReadLocalizedIsFirstMatch(r: Reader, range: seq<char>, value: bool, truename: seq<char>, falsename: seq<char>)
    ensures r.ReadLocalized(range, value, truename, falsename).Matched() == FirstMatch(r.LocalizedForms(truename, falsename), range)
  {
    var numeric := if r.NumericAllowed() then NumericForms else [];
    var text := if r.TextAllowed() then CustomTextForms(truename, falsename) else [];
    FirstMatchAppend(numeric, text, range);
    ReadNumericIsFirstMatch(r, range, value);
    ReadTextualCustomIsFirstMatch(r, range, value, truename, falsename);
  }

  /** With the classic spellings as its locale names, `read_localized` is `read_classic`. */
  lemma LocalizedWithClassicNamesIsClassic(r: Reader, range: seq<char>, value: bool)
    ensures r.ReadLocalized(range, value, "true", "false") == r.ReadClassic(range, value)
  {
  }

  /** When the shorter spelling (truename on a tie) starts the longer one, the
      longer one is never what the textual step produces. */
  lemma ShorterSpellingShadowsLonger(r: Reader, range: seq<char>, value: bool, truename: seq<char>, falsename: seq<char>)
    requires |truename| <= |falsename| ==> truename <= falsename
    requires |falsename| < |truename| ==> falsename <= truename
    ensures r.ReadTextualCustom(range, value, truename, falsename).result.Ok? ==>
      r.ReadTextualCustom(range, value, truename, falsename).value == (|truename| <= |falsename|)
  {
  }

  /** Every failure of every read is `invalid_scanned_value`. */
  lemma FailuresAreInvalidScannedValue(r: Reader, range: seq<char>, value: bool, truename: seq<char>, falsename: seq<char>)
    ensures r.ReadClassic(range, value).result.Err? ==> r.ReadClassic(range, value).result.error.code == InvalidScannedValue
    ensures r.ReadLocalized(range, value, truename, falsename).result.Err? ==>
      r.ReadLocalized(range, value, truename, falsename).result.error.code == InvalidScannedValue
  {
  }
}
