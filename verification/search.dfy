/** The lines the `search` command prints for the directory's answer. */
module Search {
  import opened Ascii

  /** The directory lookup's outcome: the matching model names, or a raised error. */
  datatype Reply = Names(names: seq<string>) | LookupError

  const NoModels := "No models found."
  const FetchFailed := "Failed to fetch available models, check your network connection"

  /** The header line announcing how many models were found. */
  function Header(n: nat): (h: string)
    requires n >= 1
    ensures var d := Decimal(n);
      && |h| >= 6 + |d| + 7
      && h[..6 + |d|] == "Found " + d
      && ParseDecimal(h[6..6 + |d|]) == n
      && (h[|h| - 7..] == "models:" <==> n != 1)
  {
    DecimalRoundTrip(n);
    var d := Decimal(n);
    var noun := if n == 1 then " available model:" else " available models:";
    HeaderParts(d, noun);
    "Found " + d + noun
  }

  lemma HeaderParts(d: string, noun: string)
    requires |noun| >= 7
    ensures var h := "Found " + d + noun;
      && h[..6 + |d|] == "Found " + d
      && h[6..6 + |d|] == d
      && h[|h| - 7..] == noun[|noun| - 7..]
  {
  }

  /** Everything `search` prints, one string per `print` call. */
  function Output(reply: Reply): (out: seq<string>)
    ensures |out| >= 1
    ensures reply.Names? && |reply.names| > 0 ==> |out| == |reply.names| + 1
    ensures (reply.Names? && |reply.names| == 0) || reply.LookupError? <==> |out| == 1 && out[0] in {NoModels, FetchFailed}
    ensures forall i :: 1 <= i < |out| ==> NoUpper(out[i])
  {
    match reply
    case LookupError => [FetchFailed]
    case Names(names) =>
      if |names| == 0 then [NoModels]
      else [Header(|names|)] + seq(|names|, i requires 0 <= i < |names| => Lower(names[i]))
  }

  /** No names: the one line "No models found." and nothing else. */
  lemma NoNames()
    ensures Output(Names([])) == ["No models found."]
  {
  }

  lemma SingularHeader()
    ensures Header(1) == "Found 1 available model:"
  {
    assert DigitChar(1) == '1';
    assert Decimal(1) == "1";
  }

  /** One name: the singular header, then that name in lower case. */
  lemma OneName(name: string)
    ensures Output(Names([name])) == ["Found 1 available model:", Lower(name)]
  {
    SingularHeader();
  }

  /** Two or more names: the plural header carrying the count, then every name
      lower-cased, in order. */
  lemma ManyNames(names: seq<string>)
    requires |names| >= 2
    ensures |Output(Names(names))| == |names| + 1
    ensures Output(Names(names))[0] == "Found " + Decimal(|names|) + " available models:"
    ensures ParseDecimal(Decimal(|names|)) == |names|
    ensures forall i :: 0 <= i < |names| ==>
      Output(Names(names))[i + 1] == Lower(names[i]) && NoUpper(Output(Names(names))[i + 1])
  {
    DecimalRoundTrip(|names|);
    var lowered := seq(|names|, i requires 0 <= i < |names| => Lower(names[i]));
    assert Output(Names(names)) == [Header(|names|)] + lowered;
    forall i | 0 <= i < |names|
      ensures Output(Names(names))[i + 1] == Lower(names[i])
      ensures NoUpper(Output(Names(names))[i + 1])
    {
      assert Output(Names(names))[i + 1] == lowered[i];
      LowerFacts(names[i]);
    }
  }

  /** A failed lookup prints only the network message. */
  lemma LookupFailed()
    ensures Output(LookupError) == ["Failed to fetch available models, check your network connection"]
  {
  }
}
