/** The `bundle list` output of the gem list's own unit test, and what parsing it gives:
    fourteen gems, `railties` at 6.1.4.1, and no `foo`. */
module GemListSample {
  import opened Cnb
  import opened Gems
  import Text

  /** Number of gems the sample lists. */
  const SampleSize: nat := 14

  const SampleHeader: string := "\nGems included by the bundle:\n"

  /** The closing line, then the indentation before the end of the test's raw string. */
  const SampleFooter: string := "Use `bundle info` to print more " + "detailed information about a gem\n" + "            "

  /** The k-th gem of the sample; its line there is `EntryText` of it. */
  function SampleGem(k: nat): GemEntry
    requires k < SampleSize
  {
    match k
    case 0 => GemEntry("actioncable", "6.1.4.1")
    case 1 => GemEntry("actionmailbox", "6.1.4.1")
    case 2 => GemEntry("actionmailer", "6.1.4.1")
    case 3 => GemEntry("actionpack", "6.1.4.1")
    case 4 => GemEntry("actiontext", "6.1.4.1")
    case 5 => GemEntry("actionview", "6.1.4.1")
    case 6 => GemEntry("activejob", "6.1.4.1")
    case 7 => GemEntry("activemodel", "6.1.4.1")
    case 8 => GemEntry("activerecord", "6.1.4.1")
    case 9 => GemEntry("activestorage", "6.1.4.1")
    case 10 => GemEntry("activesupport", "6.1.4.1")
    case 11 => GemEntry("addressable", "2.8.0")
    case 12 => GemEntry("ast", "2.4.2")
    case _ => GemEntry("railties", "6.1.4.1")
  }

  /** The sample's gems, in the order the output lists them. */
  const SampleGems: seq<GemEntry> := seq(SampleSize, k requires 0 <= k < SampleSize => SampleGem(k))

  /** The whole text the unit test parses: a header, one line per gem, and a footer. */
  const SampleOutput: string := SampleHeader + EntryLines(SampleGems, SampleFooter)

  /** `s` is a non-empty run of lower-case ASCII letters. */
  predicate LowerWord(s: string) {
    |s| > 0 && forall i :: 0 <= i < |s| ==> 'a' <= s[i] <= 'z'
  }

  // The sample's names are checked character by character in three groups, which
  // keeps each proof small.
  lemma SampleNamesLowerFirst(k: nat)
    requires k < 5
    ensures LowerWord(SampleGem(k).name)
  {
  }

  lemma SampleNamesLowerMiddle(k: nat)
    requires 5 <= k < 10
    ensures LowerWord(SampleGem(k).name)
  {
  }

  lemma SampleNamesLowerLast(k: nat)
    requires 10 <= k < SampleSize
    ensures LowerWord(SampleGem(k).name)
  {
  }

  lemma SampleVersionsText(k: nat)
    requires k < SampleSize
    ensures IsVersionText(SampleGem(k).version)
  {
  }

  /** Every gem of the sample has a lower-case name without white space and a version
      the pattern accepts. */
  lemma SampleGemWellFormed(k: nat)
    requires k < SampleSize
    ensures WellFormed(SampleGem(k))
    ensures forall i :: 0 <= i < |SampleGem(k).name| ==> !Text.IsUpper(SampleGem(k).name[i])
  {
    if k < 5 {
      SampleNamesLowerFirst(k);
    } else if k < 10 {
      SampleNamesLowerMiddle(k);
    } else {
      SampleNamesLowerLast(k);
    }
    SampleVersionsText(k);
  }

  lemma SampleNamesDistinct(i: nat, j: nat)
    requires i < j < SampleSize
    ensures SampleGem(i).name != SampleGem(j).name
  {
  }

  predicate StarFree(s: string) {
    forall i :: 0 <= i < |s| ==> s[i] != '*'
  }

  lemma StarFreeAppend(a: string, b: string)
    requires StarFree(a) && StarFree(b)
    ensures StarFree(a + b)
  {
    forall i | 0 <= i < |a + b| ensures (a + b)[i] != '*' {
      if i >= |a| {
        assert (a + b)[i] == b[i - |a|];
      }
    }
  }

  lemma SampleTextsHaveNoStar()
    ensures StarFree(SampleHeader) && StarFree(SampleFooter)
  {
    var words := "Use `bundle info` to print more ";
    var rest := "detailed information about a gem\n";
    var pad := "            ";
    assert StarFree(words) && StarFree(rest) && StarFree(pad);
    StarFreeAppend(words, rest);
    StarFreeAppend(words + rest, pad);
  }

  /** The unit test's output holds exactly its fourteen entries, in order. */
  lemma SampleScan()
    ensures Scan(SampleOutput) == SampleGems
  {
    forall k | 0 <= k < |SampleGems| ensures WellFormed(SampleGems[k]) {
      SampleGemWellFormed(k);
    }
    SampleTextsHaveNoStar();
    ScanEntryLines(SampleGems, SampleFooter);
    EntryLinesStart(SampleGems, SampleFooter);
    ScanSkip(SampleHeader, EntryLines(SampleGems, SampleFooter));
  }

  /** The keys the sample's entries are stored under are their names as written. */
  lemma SampleKeys<V>(parseVersion: string -> Option<V>, default: V, k: nat)
    requires k < SampleSize
    ensures KeyedEntries(SampleGems, parseVersion, default)[k].0 == SampleGem(k).name
  {
    SampleGemWellFormed(k);
    Text.ToLowerOfLower(SampleGem(k).name);
  }

  /** The sample gives one key per gem. */
  lemma SampleListSize<V>(parseVersion: string -> Option<V>, default: V)
    ensures |FromStr(SampleOutput, parseVersion, default).value.gems| == SampleSize
  {
    SampleScan();
    var pairs := KeyedEntries(SampleGems, parseVersion, default);
    forall i, j | 0 <= i < j < |pairs| ensures pairs[i].0 != pairs[j].0 {
      SampleKeys(parseVersion, default, i);
      SampleKeys(parseVersion, default, j);
      SampleNamesDistinct(i, j);
    }
    CollectDistinctSize(pairs);
  }

  /** `railties`, the last gem, is stored with its version. */
  lemma SampleRailties<V>(parseVersion: string -> Option<V>, default: V)
    ensures var gems := FromStr(SampleOutput, parseVersion, default).value.gems;
            "railties" in gems && gems["railties"] == VersionOf("6.1.4.1", parseVersion, default)
  {
    SampleScan();
    var last := SampleSize - 1;
    SampleKeys(parseVersion, default, last);
    FromStrLastWins(SampleOutput, parseVersion, default, last);
  }

  /** No gem of the sample is called `foo`. */
  lemma SampleNoFoo<V>(parseVersion: string -> Option<V>, default: V)
    ensures "foo" !in FromStr(SampleOutput, parseVersion, default).value.gems
  {
    SampleScan();
    FromStrKeys(SampleOutput, parseVersion, default);
    SampleNotFoo();
  }

  /** No gem of the sample has a name that lower-cases to `foo`. */
  lemma SampleNotFoo()
    ensures forall e :: e in SampleGems ==> Text.ToLower(e.name) != "foo"
  {
    forall k | 0 <= k < SampleSize ensures Text.ToLower(SampleGems[k].name) != "foo" {
      SampleGemWellFormed(k);
      Text.ToLowerOfLower(SampleGem(k).name);
    }
  }

  /** Parsing the sample gives fourteen gems, `railties` at the version parsed from
      6.1.4.1, and no `foo`; lookups by the plain names agree. */
  lemma SampleGemList<V>(parseVersion: string -> Option<V>, default: V)
    ensures var list := FromStr(SampleOutput, parseVersion, default).value;
            && |list.gems| == SampleSize
            && Has(list, "railties")
            && VersionFor(list, "railties") == Some(VersionOf("6.1.4.1", parseVersion, default))
            && !Has(list, "foo")
            && VersionFor(list, "foo") == None
  {
    SampleListSize(parseVersion, default);
    SampleRailties(parseVersion, default);
    SampleNoFoo(parseVersion, default);
    SampleQueriesPlain();
  }

  lemma SampleQueriesPlain()
    ensures NormalizeQuery("railties") == "railties" && NormalizeQuery("foo") == "foo"
  {
    assert LowerWord("railties") && LowerWord("foo");
    PlainQuery("railties");
    PlainQuery("foo");
  }

  /** A lower-case word is its own normalised query. */
  lemma PlainQuery(q: string)
    requires LowerWord(q)
    ensures NormalizeQuery(q) == q
  {
    assert 'a' <= q[0] <= 'z' && 'a' <= q[|q| - 1] <= 'z';
    assert Text.IsTrimmed(q);
    Text.TrimOfTrimmed(q);
    forall i | 0 <= i < |q| ensures !Text.IsUpper(q[i]) {
      assert 'a' <= q[i] <= 'z';
    }
    Text.ToLowerOfLower(q);
  }
}
