/** What splitting makes of any line at all, closed quotes or not, and what printing puts around a value. */
module CsvAnswers {
  import opened Csv

  /** Quoting is on after the text: every quote in it turned quoting on or off. */
  predicate StaysOpen(s: string, inQuotes: bool) {
    if s == "" then inQuotes else StaysOpen(s[1..], if s[0] == '"' then !inQuotes else inQuotes)
  }

  /** At a comma outside quotes a line falls into two lines split on their own. */
  lemma {:induction false} SplitsAtTheComma(s: string, t: string, current: string, inQuotes: bool)
    requires !StaysOpen(s, inQuotes)
    ensures SplitRest(s + "," + t, current, inQuotes) == SplitRest(s, current, inQuotes) + SplitRest(t, "", false)
    decreases |s|
  {
    var line := s + "," + t;
    if s == "" {
      assert line[0] == ',' && line[1..] == t;
    } else if inQuotes && s[0] == '"' && 1 < |s| && s[1] == '"' {
      assert line[2..] == s[2..] + "," + t && s[1..][1..] == s[2..];
      SplitsAtTheComma(s[2..], t, current + "\"", true);
    } else {
      assert line[0] == s[0] && line[1..] == s[1..] + "," + t;
      assert |s| == 1 ==> line[1] == ',';
      if inQuotes {
        SplitsAtTheComma(s[1..], t, if s[0] == '"' then current else current + [s[0]], s[0] != '"');
      } else if s[0] == ',' {
        SplitsAtTheComma(s[1..], t, "", false);
        assert SplitRest(s, current, false) == [current] + SplitRest(s[1..], "", false);
      } else {
        SplitsAtTheComma(s[1..], t, if s[0] == '"' then current else current + [s[0]], s[0] == '"');
      }
    }
  }

  function WithoutQuotes(s: string): string {
    if s == "" then "" else (if s[0] == '"' then "" else [s[0]]) + WithoutQuotes(s[1..])
  }

  lemma {:induction false} WithoutQuotesTogether(s: string, t: string)
    ensures WithoutQuotes(s + t) == WithoutQuotes(s) + WithoutQuotes(t)
    decreases |s|
  {
    if s == "" {
      assert s + t == t;
    } else {
      WithoutQuotesTogether(s[1..], t);
      assert (s + t)[1..] == s[1..] + t;
    }
  }

  lemma GrowsBy(current: string, c: char)
    ensures WithoutQuotes(current + [c]) == WithoutQuotes(current) + if c == '"' then "" else [c]
  {
    WithoutQuotesTogether(current, [c]);
    assert [c][1..] == "";
  }

  lemma NextCharacter(rest: string, current: string)
    requires rest != ""
    ensures WithoutQuotes(current) + WithoutQuotes(rest) ==
            WithoutQuotes(if rest[0] == '"' then current else current + [rest[0]]) + WithoutQuotes(rest[1..])
  {
    GrowsBy(current, rest[0]);
  }

  /** And a line without such a comma is one field, with every character of the line that is no quote. */
  lemma {:induction false} OneFieldKeepsItsText(rest: string, current: string, inQuotes: bool)
    requires SeparatingCommas(rest, inQuotes) == 0
    ensures |SplitRest(rest, current, inQuotes)| == 1
    ensures WithoutQuotes(SplitRest(rest, current, inQuotes)[0]) == WithoutQuotes(current) + WithoutQuotes(rest)
    decreases |rest|
  {
    if rest != "" {
      if inQuotes && rest[0] == '"' && 1 < |rest| && rest[1] == '"' {
        assert rest[1..][1..] == rest[2..];
        GrowsBy(current, '"');
        OneFieldKeepsItsText(rest[2..], current + "\"", true);
      } else {
        NextCharacter(rest, current);
        OneFieldKeepsItsText(rest[1..], if rest[0] == '"' then current else current + [rest[0]],
                             if rest[0] == '"' then !inQuotes else inQuotes);
      }
    }
  }

  function Quotes(s: string): nat {
    if s == "" then 0 else (if s[0] == '"' then 1 else 0) + Quotes(s[1..])
  }

  lemma {:induction false} QuotesAreDoubled(value: string)
    ensures |DoubleQuotes(value)| == |value| + Quotes(value)
  {
    if value != "" { QuotesAreDoubled(value[1..]); }
  }

  /** The printer puts quotes around every value, whatever is in it, and adds one to each quote inside. */
  lemma EveryFieldIsQuoted(value: string)
    ensures
      var text := Escape(value);
      |text| == |value| + Quotes(value) + 2 && text[0] == '"' && text[|text| - 1] == '"' && Split(text) == [value]
  {
    QuotesAreDoubled(value);
    assert Joined([Escape(value)]) == Escape(value);
    SplitReadsEveryWriting([Escape(value)], [value]);
  }
}
