/** The service's error response (`api/json/error.go`) and its rendering as a
    Go error string. */
module ApiErrors {
  import opened Text

  datatype Error = Error(code: int, message: string)
  datatype ErrorResponse = ErrorResponse(errors: seq<Error>)

  /** One error as `<code>: <message>`. */
  function Line(e: Error): string
  {
    IntToDecimal(e.code) + ": " + e.message
  }

  /** The lines `<code>: <message>`, one per error, in input order. */
  function Lines(errs: seq<Error>): seq<string>
  {
    if |errs| == 0 then [] else Lines(errs[..|errs| - 1]) + [Line(errs[|errs| - 1])]
  }

  /** The message the loop accumulates: every line followed by a newline. */
  function Accumulated(errs: seq<Error>): string
  {
    if |errs| == 0 then "" else Accumulated(errs[..|errs| - 1]) + Line(errs[|errs| - 1]) + "\n"
  }

  /** The rendered error: no trailing newline, and nothing at all for an empty
      list. */
  function Rendered(res: ErrorResponse): (r: string)
    ensures r == "" || r[|r| - 1] != '\n'
    ensures res.errors == [] ==> r == ""
  {
    TrimRightNewlines(Accumulated(res.errors))
  }

  /** `(*ErrorResponse).Error`: appends one line per error in order, then trims
      the trailing newlines. */
  method ErrorString(res: ErrorResponse) returns (message: string)
    ensures message == Rendered(res)
  {
    message := "";
    for i := 0 to |res.errors|
      invariant message == Accumulated(res.errors[..i])
    {
      var e := res.errors[i];
      assert res.errors[..i + 1][..i] == res.errors[..i];
      message := message + Line(e) + "\n";
    }
    assert res.errors[..|res.errors|] == res.errors;
    message := TrimRightNewlines(message);
  }

  lemma {:induction false} AccumulatedIsJoin(errs: seq<Error>)
    requires errs != []
    ensures Accumulated(errs) == Join(Lines(errs), "\n") + "\n"
  {
    var n := |errs|;
    var last := Line(errs[n - 1]);
    if n > 1 {
      var init := errs[..n - 1];
      AccumulatedIsJoin(init);
      assert Lines(errs) == Lines(init) + [last];
      JoinSnoc(Lines(init), last, "\n");
      calc {
        Accumulated(errs);
        Accumulated(init) + last + "\n";
        (Join(Lines(init), "\n") + "\n") + last + "\n";
        Join(Lines(init), "\n") + "\n" + last + "\n";
        Join(Lines(errs), "\n") + "\n";
      }
    } else {
      assert Lines(errs) == [last];
      assert errs[..0] == [];
      assert Accumulated(errs) == Accumulated([]) + last + "\n";
    }
  }

  /** When the last message does not itself end in a newline, the rendering is
      exactly the lines `<code>: <message>` in input order, separated by "\n".
      (A last message ending in newlines loses them to the trim.) */
  lemma RenderedIsJoinedLines(res: ErrorResponse)
    requires res.errors != []
    requires var m := res.errors[|res.errors| - 1].message; m == "" || m[|m| - 1] != '\n'
    ensures Rendered(res) == Join(Lines(res.errors), "\n")
  {
    var errs := res.errors;
    AccumulatedIsJoin(errs);
    LineEnd(errs[|errs| - 1]);
    JoinEndsWithLast(Lines(errs), "\n");
    TrimSingleNewline(Join(Lines(errs), "\n"));
  }

  /** A line ends in a newline only when its message does. */
  lemma LineEnd(e: Error)
    requires e.message == "" || e.message[|e.message| - 1] != '\n'
    ensures var l := Line(e); l != "" && l[|l| - 1] != '\n'
  {
    var l := Line(e);
    if e.message == "" {
      assert l[|l| - 1] == ' ';
    } else {
      assert l[|l| - 1] == e.message[|e.message| - 1];
    }
  }

  lemma JoinEndsWithLast(ss: seq<string>, sep: string)
    requires ss != [] && ss[|ss| - 1] != ""
    ensures var j := Join(ss, sep); j != "" && j[|j| - 1] == ss[|ss| - 1][|ss[|ss| - 1]| - 1]
  {
    if |ss| > 1 {
      JoinSnoc(ss[..|ss| - 1], ss[|ss| - 1], sep);
      assert ss[..|ss| - 1] + [ss[|ss| - 1]] == ss;
    }
  }

  lemma TrimSingleNewline(x: string)
    requires x != "" && x[|x| - 1] != '\n'
    ensures TrimRightNewlines(x + "\n") == x
  {
    assert (x + "\n")[..|x|] == x;
  }

  /** The rendering of the error-response table test. */
  lemma TwoErrorsExample()
    ensures Rendered(ErrorResponse([Error(200, "forbidden"), Error(400, "something went wrong")]))
            == "200: forbidden" + "\n" + "400: something went wrong"
  {
    var res := ErrorResponse([Error(200, "forbidden"), Error(400, "something went wrong")]);
    RenderedIsJoinedLines(res);
    TwoErrorsLines();
  }

  lemma TwoErrorsLines()
    ensures Join(Lines([Error(200, "forbidden"), Error(400, "something went wrong")]), "\n")
            == "200: forbidden" + "\n" + "400: something went wrong"
  {
    var errs := [Error(200, "forbidden"), Error(400, "something went wrong")];
    ForbiddenLine();
    SomethingWentWrongLine();
    assert errs[..1] == [Error(200, "forbidden")];
    assert Lines(errs[..1]) == ["200: forbidden"] by {
      assert errs[..1][..0] == [];
    }
    assert Lines(errs) == ["200: forbidden", "400: something went wrong"];
  }

  /** A line is the code's decimal rendering, ": ", and the message. */
  lemma LineWithDigits(e: Error, digits: string)
    requires IntToDecimal(e.code) == digits
    ensures Line(e) == digits + ": " + e.message
  {
  }

  lemma ForbiddenLine()
    ensures Line(Error(200, "forbidden")) == "200: forbidden"
  {
    Decimal200();
    LineWithDigits(Error(200, "forbidden"), "200");
  }

  lemma SomethingWentWrongLine()
    ensures Line(Error(400, "something went wrong")) == "400: something went wrong"
  {
    Decimal400();
    LineWithDigits(Error(400, "something went wrong"), "400");
    SomethingWentWrongText();
  }

  lemma SomethingWentWrongText()
    ensures "400" + ": " + "something went wrong" == "400: something went wrong"
  {
  }

  /** The decimal renderings of the two codes of the examples. */
  lemma Decimal200()
    ensures IntToDecimal(200) == "200"
  {
    assert NatToDecimal(20) == "20";
    assert Digit(0) == '0';
  }

  lemma Decimal400()
    ensures IntToDecimal(400) == "400"
  {
    assert NatToDecimal(40) == "40";
    assert Digit(0) == '0';
  }

  /** The rendering of the single "forbidden" error used throughout the
      search tests. */
  lemma ForbiddenExample()
    ensures Rendered(ErrorResponse([Error(200, "forbidden")])) == "200: forbidden"
  {
    RenderedIsJoinedLines(ErrorResponse([Error(200, "forbidden")]));
    ForbiddenLines();
  }

  lemma ForbiddenLines()
    ensures Join(Lines([Error(200, "forbidden")]), "\n") == "200: forbidden"
  {
    var errs := [Error(200, "forbidden")];
    ForbiddenLine();
    assert errs[..0] == [];
    assert Lines(errs) == ["200: forbidden"];
  }
}
