/**
  * The output row `writeResults` (pipeline.go) writes for each saved job: the
  * image URL followed by the hex summary, joined with "," as Go's
  * `strings.Join` joins, and terminated by "\n". Nothing is quoted or escaped.
  */
module Rows {
  import opened Wrappers
  import Colors

  const COMMA := ','
  const NEWLINE := '\n'

  /** `strings.Join`: the fields with one separator between neighbours. */
  function Join(fields: seq<string>, sep: char): (s: string)
    ensures fields == [] ==> s == ""
    ensures |fields| == 1 ==> s == fields[0]
  {
    if fields == [] then ""
    else if |fields| == 1 then fields[0]
    else fields[0] + [sep] + Join(fields[1..], sep)
  }

  /** The field does not contain the separator. */
  predicate Plain(field: string, sep: char) {
    sep !in field
  }

  /** Position of the first sep in s, if any. */
  function IndexOf(s: string, sep: char): (r: Option<nat>)
    ensures r.None? <==> sep !in s
    ensures r.Some? ==> r.value < |s| && s[r.value] == sep && sep !in s[..r.value]
  {
    if s == [] then None
    else if s[0] == sep then Some(0)
    else match IndexOf(s[1..], sep)
      case None => None
      case Some(i) =>
        assert s[..i + 1] == [s[0]] + s[1..][..i];
        Some(i + 1)
  }

  /** `strings.Split` with a one-character separator: the pieces between separators. */
  function Split(s: string, sep: char): (fields: seq<string>)
    ensures |fields| >= 1
    decreases |s|
  {
    match IndexOf(s, sep)
      case None => [s]
      case Some(i) => [s[..i]] + Split(s[i + 1..], sep)
  }

  /** Splitting a join of separator-free fields gives the fields back. */
  lemma {:induction false} SplitJoin(fields: seq<string>, sep: char)
    requires |fields| >= 1
    requires forall i :: 0 <= i < |fields| ==> Plain(fields[i], sep)
    ensures Split(Join(fields, sep), sep) == fields
  {
    if |fields| == 1 {
      assert IndexOf(fields[0], sep).None?;
    } else {
      var rest := Join(fields[1..], sep);
      var s := fields[0] + [sep] + rest;
      assert Plain(fields[0], sep);
      assert s[..|fields[0]|] == fields[0];
      assert s[|fields[0]|] == sep;
      assert s[|fields[0]| + 1..] == rest;
      IndexOfFirst(fields[0], sep, rest);
      SplitJoin(fields[1..], sep);
      assert [fields[0]] + fields[1..] == fields;
    }
  }

  /** A separator right after a separator-free prefix is the first one. */
  lemma {:induction false} IndexOfFirst(a: string, sep: char, b: string)
    requires sep !in a
    ensures IndexOf(a + [sep] + b, sep) == Some(|a|)
  {
    if a != [] {
      assert (a + [sep] + b)[1..] == a[1..] + [sep] + b;
      IndexOfFirst(a[1..], sep, b);
    }
  }

  /** A character that is in no field and is not the separator is not in their join. */
  lemma {:induction false} JoinAvoids(fields: seq<string>, sep: char, ch: char)
    requires ch != sep
    ensures (forall i :: 0 <= i < |fields| ==> ch !in fields[i]) ==> ch !in Join(fields, sep)
  {
    if |fields| > 1 {
      JoinAvoids(fields[1..], sep, ch);
      if forall i :: 0 <= i < |fields| ==> ch !in fields[i] {
        assert forall i :: 0 <= i < |fields[1..]| ==> fields[1..][i] == fields[i + 1];
      }
    }
  }

  /**
    * The row written for one saved job. It ends in a newline, and when no
    * field holds a newline (the URL is a trimmed scanner line, the colours are
    * hexified) that newline is the row's only one.
    */
  function Row(url: string, hex: seq<string>): (line: string)
    ensures |line| >= 1 && line[|line| - 1] == NEWLINE
    ensures NEWLINE !in url && (forall i :: 0 <= i < |hex| ==> NEWLINE !in hex[i]) ==>
      NEWLINE !in line[..|line| - 1]
  {
    var fields := [url] + hex;
    assert forall i :: 0 < i < |fields| ==> fields[i] == hex[i - 1];
    JoinAvoids(fields, COMMA, NEWLINE);
    assert (Join(fields, COMMA) + [NEWLINE])[..|Join(fields, COMMA)|] == Join(fields, COMMA);
    Join(fields, COMMA) + [NEWLINE]
  }

  /** Reading a row back: drop the newline, split at every comma. */
  function ParseRow(line: string): (r: Option<(string, seq<string>)>)
    ensures r.Some? <==> |line| >= 1 && line[|line| - 1] == NEWLINE
  {
    if |line| >= 1 && line[|line| - 1] == NEWLINE then
      var fields := Split(line[..|line| - 1], COMMA);
      Some((fields[0], fields[1..]))
    else None
  }

  /** Rows whose fields contain no comma read back as the URL and the summary written. */
  lemma RowRoundTrip(url: string, hex: seq<string>)
    requires Plain(url, COMMA)
    requires forall i :: 0 <= i < |hex| ==> Plain(hex[i], COMMA)
    ensures ParseRow(Row(url, hex)) == Some((url, hex))
  {
    var fields := [url] + hex;
    forall i | 0 <= i < |fields| ensures Plain(fields[i], COMMA) {
      if i > 0 { assert fields[i] == hex[i - 1]; }
    }
    var line := Row(url, hex);
    assert line[..|line| - 1] == Join(fields, COMMA);
    SplitJoin(fields, COMMA);
  }

  /** Colours rendered by `hexify` never contain the separator. */
  lemma HexifiedPlain(most: seq<Colors.NRGBA>)
    ensures forall i :: 0 <= i < |most| ==> Plain(Colors.Hexify(most[i]), COMMA)
  {
    forall i | 0 <= i < |most| ensures Plain(Colors.Hexify(most[i]), COMMA) {
      Colors.HexifyHasNoComma(most[i]);
    }
  }

  /** A comma inside the URL is not escaped: two different jobs can write the same row. */
  lemma RowAmbiguous()
    ensures Row("a,b", ["#000000"]) == Row("a", ["b", "#000000"])
    ensures ParseRow(Row("a,b", ["#000000"])) != Some(("a,b", ["#000000"]))
  {
    assert Row("a,b", ["#000000"]) == "a,b,#000000\n";
    assert Join(["b", "#000000"], COMMA) == "b,#000000";
    assert Row("a", ["b", "#000000"]) == "a,b,#000000\n";
    RowRoundTrip("a", ["b", "#000000"]);
  }
}
