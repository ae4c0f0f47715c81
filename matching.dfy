/** The two matching primitives the boolean reader is built on. They never
    change the input: on success they return the range that is left after the
    matched literal, on failure nothing. Their own error values are not part of
    this model, because the boolean reader only tests them for success. */
module Matching {
  import opened ScanResults

  /** `read_matching_code_unit`: succeeds iff the range starts with `ch`,
      and then consumes exactly that one unit. */
  function ReadMatchingCodeUnit(range: seq<char>, ch: char): (r: Option<seq<char>>)
    ensures r.Some? <==> [ch] <= range
    ensures r.Some? ==> range == [ch] + r.value
  {
    if |range| > 0 && range[0] == ch then Some(range[1..]) else None
  }

  /** `read_matching_string` (and its `_classic` variant, whose narrow literal
      is the same sequence of units here): compares the range with `str` unit
      by unit; succeeds iff the range starts with `str`, and then consumes
      exactly `|str|` units. */
  function ReadMatchingString(range: seq<char>, str: seq<char>): (r: Option<seq<char>>)
    ensures r.Some? <==> str <= range
    ensures r.Some? ==> range == str + r.value
    decreases |str|
  {
    if str == [] then Some(range)
    else if |range| == 0 || range[0] != str[0] then None
    else
      var r := ReadMatchingString(range[1..], str[1..]);
      assert str == [str[0]] + str[1..];
      assert range == [range[0]] + range[1..];
      r
  }
}
