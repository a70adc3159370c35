/** The enum flag on the occurrences of its test table. */
module FlagsExamples {
  import opened Results
  import opened Text
  import opened FlagsValidation
  import opened FlagsEnum

  /** Index of the first comma. */
  function FirstComma(s: string): (i: nat)
    requires ',' in s
    ensures i < |s| && s[i] == ',' && ',' !in s[..i]
  {
    if s[0] == ',' then 0
    else
      assert ',' in s[1..] by {
        var j :| 0 <= j < |s| && s[j] == ',';
        assert s[1..][j - 1] == ',';
      }
      var i := FirstComma(s[1..]);
      assert s[..i + 1] == [s[0]] + s[1..][..i];
      i + 1
  }

  /** The fields of an unquoted CSV record: the text split at every comma.
      Joining them back with commas gives the text. */
  function Fields(s: string): (r: seq<string>)
    ensures |r| > 0 && Join(r, ",") == s
    ensures forall k :: 0 <= k < |r| ==> ',' !in r[k]
    decreases |s|
  {
    if ',' !in s then [s]
    else
      var i := FirstComma(s);
      var rest := Fields(s[i + 1..]);
      assert s == s[..i] + "," + s[i + 1..];
      assert ([s[..i]] + rest)[1..] == rest;
      [s[..i]] + rest
  }

  /** The record reader used with the table: unquoted input never fails. */
  function ReadRecord(s: string): Result<seq<string>>
  {
    Ok(Fields(s))
  }

  const Options := ["foo", "foobar"]
  const Refusal := ValidValues + "[foo|foobar]"

  lemma FormattedOptions()
    ensures Bracketed(Options) == "[foo|foobar]"
  {
    assert Join(Options, "|") == "foo|foobar";
  }

  /** Two comma-free fields joined by a comma split back into those two. */
  lemma FieldsOfTwo(a: string, b: string)
    requires ',' !in a && ',' !in b
    ensures Fields(a + "," + b) == [a, b]
  {
    var s := a + "," + b;
    assert s[|a|] == ',';
    var i := FirstComma(s);
    assert s[..i] == a && s[i + 1..] == b;
  }

  /** "--arg=foo --arg=bar": the first occurrence is kept, the second is
      refused with the options, and the flag shows "[foo]". */
  method InvalidMultipleFlags() returns (values: seq<string>, first: Option<string>, second: Option<string>)
    ensures values == ["foo"] && first == None && second == Some(Refusal)
  {
    var flag, _ := StringSliceEnumVarP([], "args for testing", Options, ReadRecord);
    assert Fields("foo") == ["foo"] && Fields("bar") == ["bar"];
    first := flag.Set("foo");
    second := flag.Set("bar");
    FormattedOptions();
    values := flag.values;
  }

  /** "--arg=foo,bar": the record is refused as a whole. */
  method InvalidMultipleValues() returns (values: seq<string>, err: Option<string>)
    ensures values == [] && err == Some(Refusal)
  {
    var flag, _ := StringSliceEnumVarP([], "args for testing", Options, ReadRecord);
    FieldsOfTwo("foo", "bar");
    err := flag.Set("foo,bar");
    FormattedOptions();
    values := flag.values;
  }

  /** "--arg=" is ignored. */
  method EmptyOccurrence() returns (values: seq<string>, err: Option<string>)
    ensures values == [] && err == None
  {
    var flag, _ := StringSliceEnumVarP([], "args for testing", Options, ReadRecord);
    err := flag.Set("");
    values := flag.values;
  }

  /** "--arg=foo,foobar" is appended whole and shown as "[foo|foobar]". */
  method ValidMultipleValues() returns (values: seq<string>, shown: string)
    ensures values == ["foo", "foobar"] && shown == "[foo|foobar]"
  {
    var flag, _ := StringSliceEnumVarP([], "args for testing", Options, ReadRecord);
    FieldsOfTwo("foo", "foobar");
    assert "foo" + "," + "foobar" == "foo,foobar";
    assert Check(Options, Options) == None;
    var _ := flag.Set("foo,foobar");
    values := flag.values;
    FormattedOptions();
    shown := flag.String();
  }
}
