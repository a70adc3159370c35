/** A string-list flag restricted to a fixed set of options
    (`cmd/flags/enum.go`). */
module FlagsEnum {
  import opened Results
  import opened Text
  import opened FlagsHelper
  import opened FlagsValidation

  const ValidValues := "valid values are "

  /** The enum validator: every value must be one of the options, otherwise
      the whole list is refused with the bracketed options. */
  function Check(options: seq<string>, values: seq<string>): (r: Option<string>)
    ensures r == None <==> forall k :: 0 <= k < |values| ==> values[k] in options
    ensures r.Some? ==> r.value == ValidValues + Bracketed(options)
  {
    if All(values, value => Includes(options, value)) then None
    else Some(ValidValues + Bracketed(options))
  }

  /** The validator closure handed to the flag. */
  function Validator(options: seq<string>): seq<string> -> Option<string>
  {
    values => Check(options, values)
  }

  /** The empty list passes whatever the options. */
  lemma EmptyAccepted(options: seq<string>)
    ensures Check(options, []) == None
  {
  }

  /** Lists that each passed the enum validator contain only options. */
  lemma {:induction false} AcceptedAreOptions(options: seq<string>, batches: seq<seq<string>>)
    requires forall k :: 0 <= k < |batches| ==> Check(options, batches[k]) == None
    ensures forall x :: x in Concat(batches) ==> x in options
  {
    if |batches| > 0 {
      var init := batches[..|batches| - 1];
      AcceptedAreOptions(options, init);
      assert Check(options, batches[|batches| - 1]) == None;
    }
  }

  /** Whatever sequence of `Set` calls an enum flag has seen, every value
      beyond the defaults is one of the options. */
  lemma OnlyOptionsAdded(flag: StringSliceValueWithValidation, options: seq<string>)
    requires flag.Valid() && flag.validator == Validator(options)
    ensures forall k :: |flag.defaults| <= k < |flag.values| ==> flag.values[k] in options
  {
    AcceptedAreOptions(options, flag.accepted);
    forall k | |flag.defaults| <= k < |flag.values|
      ensures flag.values[k] in options
    {
      assert flag.values[k] == Concat(flag.accepted)[k - |flag.defaults|];
    }
  }

  /** `StringSliceEnumVarP`: registers a validated flag holding the defaults,
      whose usage text ends with the bracketed options. */
  method StringSliceEnumVarP(defaults: seq<string>, usage: string, options: seq<string>,
                             readRecord: string -> Result<seq<string>>)
    returns (flag: StringSliceValueWithValidation, flagUsage: string)
    ensures fresh(flag) && flag.Valid()
    ensures flag.values == defaults && flag.defaults == defaults
    ensures flag.validator == Validator(options) && flag.readRecord == readRecord
    ensures flagUsage == usage + " " + Bracketed(options)
  {
    var formattedOptions := Bracketed(options);
    flag := new StringSliceValueWithValidation(defaults, Validator(options), readRecord);
    flagUsage := usage + " " + formattedOptions;
  }
}
