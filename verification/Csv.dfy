/** One line of CSV: the payroll export's printer and the evidence import's splitter. */
module Csv {

  // ----- printing

  /** Every quote doubled. */
  function DoubleQuotes(s: string): string {
    if s == "" then "" else (if s[0] == '"' then "\"\"" else [s[0]]) + DoubleQuotes(s[1..])
  }

  function Escape(value: string): string {
    "\"" + DoubleQuotes(value) + "\""
  }

  function Joined(texts: seq<string>): string
    requires texts != []
  {
    if |texts| == 1 then texts[0] else texts[0] + "," + Joined(texts[1..])
  }

  function Escaped(row: seq<string>): (texts: seq<string>)
    ensures |texts| == |row| && forall i :: 0 <= i < |row| ==> texts[i] == Escape(row[i])
  {
    seq(|row|, i requires 0 <= i < |row| => Escape(row[i]))
  }

  function PrintRow(row: seq<string>): string
    requires row != []
  {
    Joined(Escaped(row))
  }

  // ----- splitting

  /** The fields of the rest of a line, the first of which has begun with `current`. */
  function SplitRest(rest: string, current: string, inQuotes: bool): (fields: seq<string>)
    ensures fields != []
    decreases |rest|
  {
    if rest == "" then [current]
    else if inQuotes then
      if rest[0] == '"' && 1 < |rest| && rest[1] == '"' then SplitRest(rest[2..], current + "\"", true)
      else if rest[0] == '"' then SplitRest(rest[1..], current, false)
      else SplitRest(rest[1..], current + [rest[0]], true)
    else if rest[0] == '"' then SplitRest(rest[1..], current, true)
    else if rest[0] == ',' then [current] + SplitRest(rest[1..], "", false)
    else SplitRest(rest[1..], current + [rest[0]], false)
  }

  function Split(line: string): seq<string> {
    SplitRest(line, "", false)
  }

  method SplitCsvLine(line: string) returns (fields: seq<string>)
    ensures fields == Split(line)
  {
    fields := [];
    var current, inQuotes := "", false;
    var i := 0;
    while i < |line|
      invariant 0 <= i <= |line|
      invariant fields + SplitRest(line[i..], current, inQuotes) == Split(line)
    {
      var ch := line[i];
      ghost var rest := line[i..];
      assert rest[1..] == line[i + 1..] && (1 < |rest| ==> rest[2..] == line[i + 2..]);
      if inQuotes {
        if ch == '"' && i + 1 < |line| && line[i + 1] == '"' {
          current := current + "\"";
          i := i + 1;
        } else if ch == '"' {
          inQuotes := false;
        } else {
          current := current + [ch];
        }
      } else if ch == '"' {
        inQuotes := true;
      } else if ch == ',' {
        fields := fields + [current];
        current := "";
      } else {
        current := current + [ch];
      }
      i := i + 1;
    }
    assert line[i..] == "";
    fields := fields + [current];
  }

  // ----- where fields end

  /** The commas outside quotes, every quote turning quoting on or off. */
  function SeparatingCommas(s: string, inQuotes: bool): nat {
    if s == "" then 0
    else (if s[0] == ',' && !inQuotes then 1 else 0) + SeparatingCommas(s[1..], if s[0] == '"' then !inQuotes else inQuotes)
  }

  /** Fields end at exactly those commas, in every line, an unclosed quote included. */
  lemma {:induction false} CommasSeparate(rest: string, current: string, inQuotes: bool)
    ensures |SplitRest(rest, current, inQuotes)| == 1 + SeparatingCommas(rest, inQuotes)
    decreases |rest|
  {
    if rest != "" {
      if inQuotes && rest[0] == '"' && 1 < |rest| && rest[1] == '"' {
        assert rest[1..][1..] == rest[2..];
        CommasSeparate(rest[2..], current + "\"", true);
      } else if inQuotes {
        CommasSeparate(rest[1..], if rest[0] == '"' then current else current + [rest[0]], rest[0] != '"');
      } else if rest[0] == ',' {
        CommasSeparate(rest[1..], "", false);
      } else {
        CommasSeparate(rest[1..], if rest[0] == '"' then current else current + [rest[0]], rest[0] == '"');
      }
    }
  }

  // ----- what splitting reads

  predicate Plain(value: string) {
    forall i :: 0 <= i < |value| ==> value[i] != '"' && value[i] != ','
  }

  /** The two ways RFC 4180, section 2, lets a field be written: quoted, or as it is. */
  predicate Writes(text: string, value: string) {
    text == Escape(value) || (text == value && Plain(value))
  }

  /** What follows a field: the end of the line, or a comma. */
  predicate Ends(tail: string) {
    tail == "" || tail[0] == ','
  }

  lemma {:induction false} ReadsQuoted(value: string, current: string, tail: string)
    requires Ends(tail)
    ensures SplitRest(DoubleQuotes(value) + "\"" + tail, current, true) == SplitRest(tail, current + value, false)
    decreases |value|
  {
    var rest := DoubleQuotes(value) + "\"" + tail;
    if value == "" {
      assert rest == "\"" + tail && rest[1..] == tail;
      assert current + value == current;
    } else {
      var head := if value[0] == '"' then "\"\"" else [value[0]];
      assert rest == head + (DoubleQuotes(value[1..]) + "\"" + tail);
      assert rest[|head|..] == DoubleQuotes(value[1..]) + "\"" + tail;
      ReadsQuoted(value[1..], current + [value[0]], tail);
      assert current + value == current + [value[0]] + value[1..];
    }
  }

  lemma {:induction false} ReadsPlain(value: string, current: string, tail: string)
    requires Plain(value) && Ends(tail)
    ensures SplitRest(value + tail, current, false) == SplitRest(tail, current + value, false)
    decreases |value|
  {
    if value == "" {
      assert value + tail == tail && current + value == current;
    } else {
      assert (value + tail)[1..] == value[1..] + tail;
      ReadsPlain(value[1..], current + [value[0]], tail);
      assert current + value == current + [value[0]] + value[1..];
    }
  }

  lemma ReadsField(text: string, value: string, tail: string)
    requires Writes(text, value) && Ends(tail)
    ensures SplitRest(text + tail, "", false) == SplitRest(tail, value, false)
  {
    assert "" + value == value;
    if text == Escape(value) {
      assert text + tail == "\"" + (DoubleQuotes(value) + "\"" + tail);
      assert (text + tail)[1..] == DoubleQuotes(value) + "\"" + tail;
      ReadsQuoted(value, "", tail);
    } else {
      ReadsPlain(value, "", tail);
    }
  }

  /** A row is read back whichever way each of its fields was written. */
  lemma {:induction false} SplitReadsEveryWriting(texts: seq<string>, row: seq<string>)
    requires row != [] && |texts| == |row| && forall i :: 0 <= i < |row| ==> Writes(texts[i], row[i])
    ensures Split(Joined(texts)) == row
    decreases |row|
  {
    assert Writes(texts[0], row[0]);
    if |row| == 1 {
      ReadsField(texts[0], row[0], "");
      assert texts[0] + "" == texts[0];
    } else {
      var tail := "," + Joined(texts[1..]);
      ReadsField(texts[0], row[0], tail);
      assert texts[0] + "," + Joined(texts[1..]) == texts[0] + tail;
      assert tail[1..] == Joined(texts[1..]);
      SplitReadsEveryWriting(texts[1..], row[1..]);
    }
  }

  /** Commas, quotes and line breaks in the values included, a printed row splits into exactly that row. */
  lemma SplitOfPrint(row: seq<string>)
    requires row != []
    ensures Split(PrintRow(row)) == row
  {
    SplitReadsEveryWriting(Escaped(row), row);
  }

  lemma PrintIsInjective(row: seq<string>, row': seq<string>)
    requires row != [] && row' != [] && PrintRow(row) == PrintRow(row')
    ensures row == row'
  {
    SplitOfPrint(row);
    SplitOfPrint(row');
  }

  /** Whatever line was split, well-formed or not, printing its fields gives a line with the same fields. */
  lemma ReprintedLineSplitsTheSame(line: string)
    ensures Split(PrintRow(Split(line))) == Split(line)
  {
    SplitOfPrint(Split(line));
  }
}
