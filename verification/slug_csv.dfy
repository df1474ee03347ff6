/**
 * `slug_array_to_csv`: the quoted, comma-separated slug list the post query
 * puts inside `NOT IN (...)`.
 */
module SlugCsv {
  import opened PhpStrings
  import opened WordPress

  /** One list entry: the slug between single quotes. */
  function Quote(slug: string): string
  {
    "'" + slug + "'"
  }

  function Slugs(terms: seq<Term>): (slugs: seq<string>)
    ensures |slugs| == |terms|
    ensures forall i :: 0 <= i < |terms| ==> slugs[i] == terms[i].slug
  {
    seq(|terms|, i requires 0 <= i < |terms| => terms[i].slug)
  }

  function Quoted(slugs: seq<string>): (entries: seq<string>)
    ensures |entries| == |slugs|
    ensures forall i :: 0 <= i < |slugs| ==> entries[i] == Quote(slugs[i])
  {
    seq(|slugs|, i requires 0 <= i < |slugs| => Quote(slugs[i]))
  }

  /** The CSV text `slug_array_to_csv` builds for a non-empty term list. */
  function CsvOf(terms: seq<Term>): string
  {
    Implode(", ", Quoted(Slugs(terms)))
  }

  /**
   * Lines 199-214: `false` (here `None`) when `$terms` is null or empty;
   * otherwise every slug quoted, in input order, joined by ", ".
   * The text reads back as exactly the slugs whenever no slug holds a quote.
   */
  method SlugArrayToCsv(terms: Option<seq<Term>>) returns (csv: Option<string>)
    ensures csv == None <==> (terms == None || terms.value == [])
    ensures csv != None ==> csv.value == CsvOf(terms.value)
    ensures csv != None && NoQuotes(Slugs(terms.value)) ==> ParseQuotedList(csv.value) == Some(Slugs(terms.value))
  {
    var entries: seq<string> := [];
    if terms != None {
      var ts := terms.value;
      for i := 0 to |ts|
        invariant |entries| == i
        invariant forall k :: 0 <= k < i ==> entries[k] == Quote(ts[k].slug)
      {
        entries := entries + [Quote(ts[i].slug)];
      }
      assert entries == Quoted(Slugs(ts));
    }
    if entries != [] {
      csv := Some(Implode(", ", entries));
      if NoQuotes(Slugs(terms.value)) {
        ParseQuotedCsv(Slugs(terms.value));
      }
    } else {
      csv := None;
    }
  }

  predicate NoQuote(s: string)
  {
    forall i :: 0 <= i < |s| ==> s[i] != '\''
  }

  predicate NoQuotes(slugs: seq<string>)
  {
    forall i :: 0 <= i < |slugs| ==> NoQuote(slugs[i])
  }

  /** Index of the first quote in `s`, or `|s|` when there is none. */
  function FirstQuote(s: string): (k: nat)
    ensures k <= |s|
    ensures k < |s| ==> s[k] == '\''
    ensures forall i :: 0 <= i < k ==> s[i] != '\''
  {
    if s == [] then 0 else if s[0] == '\'' then 0 else 1 + FirstQuote(s[1..])
  }

  /**
   * Reads a list written as `'a', 'b', 'c'` back into its entries;
   * `None` when the text is not of that form.
   */
  function ParseQuotedList(s: string): Option<seq<string>>
    decreases |s|, 1
  {
    if |s| == 0 || s[0] != '\'' then None
    else
      var j := 1 + FirstQuote(s[1..]);
      if j == |s| then None else ParseRest(s[1..j], s[j + 1..])
  }

  /** After an entry: the end of the text, or ", " and more entries. */
  function ParseRest(entry: string, rest: string): Option<seq<string>>
    decreases |rest|, 0
  {
    if rest == "" then Some([entry])
    else if |rest| >= 2 && rest[0] == ',' && rest[1] == ' ' then
      match ParseQuotedList(rest[2..])
      case None => None
      case Some(more) => Some([entry] + more)
    else None
  }

  /** The first quote after an opening quote closes the entry. */
  lemma QuotedEntry(a: string, rest: string)
    requires NoQuote(a)
    ensures FirstQuote(a + "'" + rest) == |a|
  {
    var s := a + "'" + rest;
    assert s[|a|] == '\'';
    assert forall i :: 0 <= i < |a| ==> s[i] == a[i];
  }

  /** One quoted entry is read off the front, then the reader goes on after it. */
  lemma ParseOneEntry(a: string, rest: string)
    requires NoQuote(a)
    ensures ParseQuotedList(Quote(a) + rest) == ParseRest(a, rest)
  {
    var s := Quote(a) + rest;
    assert s[1..] == a + "'" + rest;
    QuotedEntry(a, rest);
    assert s[1..|a| + 1] == a;
    assert s[|a| + 2..] == rest;
  }

  /** Quoting and joining with ", " is undone by `ParseQuotedList`. */
  lemma {:induction false} ParseQuotedCsv(slugs: seq<string>)
    requires |slugs| > 0 && NoQuotes(slugs)
    ensures ParseQuotedList(Implode(", ", Quoted(slugs))) == Some(slugs)
    decreases |slugs|
  {
    var a := slugs[0];
    if |slugs| == 1 {
      ParseOneEntry(a, "");
      assert Quote(a) + "" == Quote(a);
      assert [a] == slugs;
    } else {
      var tail := Implode(", ", Quoted(slugs[1..]));
      assert Quoted(slugs)[1..] == Quoted(slugs[1..]);
      assert Implode(", ", Quoted(slugs)) == Quote(a) + (", " + tail);
      ParseOneEntry(a, ", " + tail);
      assert (", " + tail)[2..] == tail;
      ParseQuotedCsv(slugs[1..]);
      assert [a] + slugs[1..] == slugs;
    }
  }
}
