/** A repeatable string-list flag whose every occurrence is validated as a
    whole before it is appended (`cmd/flags/validation.go`). */
module FlagsValidation {
  import opened Results
  import opened Text

  /** The lists in order, concatenated. */
  function Concat(batches: seq<seq<string>>): seq<string>
  {
    if |batches| == 0 then [] else Concat(batches[..|batches| - 1]) + batches[|batches| - 1]
  }

  lemma ConcatSnoc(batches: seq<seq<string>>, batch: seq<string>)
    ensures Concat(batches + [batch]) == Concat(batches) + batch
  {
    assert (batches + [batch])[..|batches|] == batches;
  }

  /** `StringSliceValueWithValidation`. The Go value points at the caller's
      slice; here the class owns it. The validator answers `None` or an error
      message; `readRecord` is the CSV record reader applied to the raw flag
      text. */
  class StringSliceValueWithValidation {
    var values: seq<string>
    const validator: seq<string> -> Option<string>
    const readRecord: string -> Result<seq<string>>

    /** The values the flag started with, and every list `Set` has accepted. */
    ghost const defaults: seq<string>
    ghost var accepted: seq<seq<string>>

    /** The flag holds its defaults followed by the accepted lists, and the
        validator passed each of those lists. */
    ghost predicate Valid()
      reads this
    {
      values == defaults + Concat(accepted)
      && forall k :: 0 <= k < |accepted| ==> validator(accepted[k]) == None
    }

    /** `StringSliceWithValidationVarP`: the flag starts out holding the
        defaults. */
    constructor (defaults: seq<string>, validator: seq<string> -> Option<string>,
                 readRecord: string -> Result<seq<string>>)
      ensures Valid()
      ensures values == defaults && this.defaults == defaults && accepted == []
      ensures this.validator == validator && this.readRecord == readRecord
    {
      values := defaults;
      this.validator := validator;
      this.readRecord := readRecord;
      this.defaults := defaults;
      accepted := [];
    }

    /** `Set`: an empty occurrence is ignored; otherwise the text is read as
        one CSV record, the whole record is validated, and only then is it
        appended. Any error leaves the values as they were. */
    method Set(v: string) returns (err: Option<string>)
      requires Valid()
      modifies this
      ensures Valid()
      ensures v == "" ==> err == None && values == old(values)
      ensures v != "" && readRecord(v).Err? ==>
        err == Some(readRecord(v).message) && values == old(values)
      ensures v != "" && readRecord(v).Ok? && validator(readRecord(v).value).Some? ==>
        err == validator(readRecord(v).value) && values == old(values)
      ensures v != "" && readRecord(v).Ok? && validator(readRecord(v).value) == None ==>
        err == None && values == old(values) + readRecord(v).value
    {
      if v == "" {
        return None;
      }

      var record := readRecord(v);
      if record.Err? {
        return Some(record.message);
      }
      var vs := record.value;

      err := validator(vs);
      if err.Some? {
        return err;
      }

      ConcatSnoc(accepted, vs);
      values := values + vs;
      accepted := accepted + [vs];
    }

    /** `String`: the values joined by "|" inside brackets; for a flag built
        and set through this class, the defaults followed by every accepted
        record, in the order the occurrences came. */
    function String(): (r: string)
      reads this
      ensures Valid() ==> r == "[" + Join(defaults + Concat(accepted), "|") + "]"
    {
      Bracketed(values)
    }

    function Type(): string
    {
      "stringSlice"
    }
  }
}
