/** The list of an application's gems, read from the output of `bundle list`.
    Each occurrence of `  * NAME (VERSION)` in that output names one gem: NAME is a
    run of non-white-space characters and VERSION a run of letters, digits and dots.
    The list maps each lower-cased name to its parsed version. */
module Gems {
  import opened Cnb
  import opened Errors
  import Text

  datatype GemEntry = GemEntry(name: string, version: string)

  datatype GemList<V> = GemList(gems: map<string, V>)

  /** The text that introduces an entry: two spaces, a star and a space. */
  const EntryPrefix: string := "  * "

  predicate IsNameChar(c: char) {
    !Text.IsWhitespace(c)
  }

  predicate IsVersionChar(c: char) {
    ('a' <= c <= 'z') || ('A' <= c <= 'Z') || ('0' <= c <= '9') || c == '.'
  }

  predicate IsName(n: string) {
    |n| > 0 && forall i :: 0 <= i < |n| ==> IsNameChar(n[i])
  }

  predicate IsVersionText(v: string) {
    |v| > 0 && forall i :: 0 <= i < |v| ==> IsVersionChar(v[i])
  }

  predicate WellFormed(e: GemEntry) {
    IsName(e.name) && IsVersionText(e.version)
  }

  /** The text of one entry, as the pattern `  \* (\S+) \(([a-zA-Z0-9\.]+)\)` matches it. */
  function EntryText(e: GemEntry): string {
    EntryPrefix + e.name + " (" + e.version + ")"
  }

  /** Length of the longest prefix of `s` whose characters all satisfy `ok`
      (what a greedy `+` or `*` repetition consumes). */
  function Span(s: string, ok: char -> bool): (n: nat)
    ensures n <= |s|
    ensures forall i :: 0 <= i < n ==> ok(s[i])
    ensures n < |s| ==> !ok(s[n])
  {
    if s == [] || !ok(s[0]) then 0 else 1 + Span(s[1..], ok)
  }

  /** The maximal run is determined by its contents and the character that stops it. */
  lemma {:induction false} SpanOfRun(run: string, rest: string, ok: char -> bool)
    requires forall i :: 0 <= i < |run| ==> ok(run[i])
    requires rest != [] && !ok(rest[0])
    ensures Span(run + rest, ok) == |run|
  {
    if run != [] {
      assert (run + rest)[1..] == run[1..] + rest;
      SpanOfRun(run[1..], rest, ok);
    } else {
      assert run + rest == rest;
    }
  }

  /** `t` occurs somewhere in `s`. */
  predicate OccursIn(t: string, s: string) {
    exists p :: 0 <= p <= |s| && t <= s[p..]
  }

  lemma OccursInSuffix(t: string, s: string, k: nat)
    requires k <= |s| && OccursIn(t, s[k..])
    ensures OccursIn(t, s)
  {
    var p :| 0 <= p <= |s[k..]| && t <= s[k..][p..];
    assert s[k..][p..] == s[k + p..];
  }

  /** The entry the pattern matches at the very start of `s`, if any. Both repetitions
      are greedy and cannot give back characters usefully (a name is followed by a
      space, which is not a name character; a version by `)`, which is not a version
      character), so at each position there is at most one match. */
  function MatchAt(s: string): (r: Option<GemEntry>)
    ensures r.Some? ==> WellFormed(r.value) && |EntryText(r.value)| <= |s| && s[..|EntryText(r.value)|] == EntryText(r.value)
    ensures r.Some? ==> |s| >= 4 && s[..4] == EntryPrefix
  {
    if |s| < 4 || s[..4] != EntryPrefix then None
    else
      var rest := s[4..];
      var n := Span(rest, IsNameChar);
      if n == 0 || |rest| < n + 2 || rest[n..n + 2] != " (" then None
      else
        var vs := rest[n + 2..];
        var m := Span(vs, IsVersionChar);
        if m == 0 || m == |vs| || vs[m] != ')' then None
        else
          var e := GemEntry(rest[..n], vs[..m]);
          EntryAtStart(s, rest, vs, n, m);
          Some(e)
  }

  /** The pieces `MatchAt` cuts out of `s` put back together are an entry's text at the start of `s`. */
  lemma EntryAtStart(s: string, rest: string, vs: string, n: nat, m: nat)
    requires |s| >= 4 && s[..4] == EntryPrefix && rest == s[4..]
    requires 0 < n && n + 2 <= |rest| && rest[n..n + 2] == " (" && vs == rest[n + 2..]
    requires forall i :: 0 <= i < n ==> IsNameChar(rest[i])
    requires 0 < m < |vs| && vs[m] == ')'
    requires forall i :: 0 <= i < m ==> IsVersionChar(vs[i])
    ensures var e := GemEntry(rest[..n], vs[..m]);
            WellFormed(e) && |EntryText(e)| <= |s| && s[..|EntryText(e)|] == EntryText(e)
  {
    var e := GemEntry(rest[..n], vs[..m]);
    assert s == EntryPrefix + rest;
    assert vs == vs[..m] + ")" + vs[m + 1..];
    assert rest == rest[..n] + " (" + vs;
    assert s == EntryText(e) + vs[m + 1..];
  }

  /** Wherever the text of a well-formed entry starts, the pattern matches exactly that entry. */
  lemma MatchAtEntry(e: GemEntry, rest: string)
    requires WellFormed(e)
    ensures MatchAt(EntryText(e) + rest) == Some(e)
  {
    var s := EntryText(e) + rest;
    assert s[..4] == EntryPrefix;
    var tail := s[4..];
    assert tail == e.name + (" (" + e.version + ")" + rest);
    SpanOfRun(e.name, " (" + e.version + ")" + rest, IsNameChar);
    var n := |e.name|;
    assert tail[n..n + 2] == " (";
    var vs := tail[n + 2..];
    assert vs == e.version + (")" + rest);
    SpanOfRun(e.version, ")" + rest, IsVersionChar);
    assert vs[..|e.version|] == e.version;
    assert tail[..n] == e.name;
  }

  /** `captures_iter`: the entries of all leftmost, non-overlapping matches, in order. */
  function Scan(s: string): (es: seq<GemEntry>)
    decreases |s|
  {
    if s == [] then []
    else match MatchAt(s)
      case Some(e) => [e] + Scan(s[|EntryText(e)|..])
      case None => Scan(s[1..])
  }

  /** Every entry found is well formed and its text occurs in the input. */
  lemma {:induction false} ScanSound(s: string)
    ensures forall e :: e in Scan(s) ==> WellFormed(e) && OccursIn(EntryText(e), s)
    decreases |s|
  {
    if s != [] {
      match MatchAt(s)
      case Some(e0) =>
        var k := |EntryText(e0)|;
        ScanSound(s[k..]);
        assert EntryText(e0) <= s[0..];
        forall e | e in Scan(s[k..]) ensures OccursIn(EntryText(e), s) {
          OccursInSuffix(EntryText(e), s, k);
        }
      case None =>
        ScanSound(s[1..]);
        forall e | e in Scan(s[1..]) ensures OccursIn(EntryText(e), s) {
          OccursInSuffix(EntryText(e), s, 1);
        }
    }
  }

  /** Two spaces in a row occur in an entry's text only at its very start, and the text ends with `)`. */
  lemma EntryTextShape(e: GemEntry, k: nat)
    requires WellFormed(e) && k >= 1
    ensures k < |EntryText(e)| - 1 ==> !(EntryText(e)[k] == ' ' && EntryText(e)[k + 1] == ' ')
    ensures k == |EntryText(e)| - 1 ==> EntryText(e)[k] == ')'
  {
    var t := EntryText(e);
    var n := |e.name|;
    assert t == "  * " + e.name + " (" + e.version + ")";
    if k < |t| - 1 {
      if k < 3 {
        assert t[2] == '*';
      } else if k == 3 {
        assert t[4] == e.name[0];
      } else if k < 4 + n {
        assert t[k] == e.name[k - 4];
      } else if k == 4 + n {
        assert t[k + 1] == '(';
      } else if k == 5 + n {
        assert t[k] == '(';
      } else {
        assert t[k] == e.version[k - 6 - n];
      }
    }
  }

  /** A match that starts before a text beginning with two spaces ends before that text. */
  lemma MatchStopsBefore(a: string, b: string)
    requires a != [] && |b| >= 2 && b[0] == ' ' && b[1] == ' '
    requires MatchAt(a + b).Some?
    ensures |EntryText(MatchAt(a + b).value)| <= |a|
  {
    var e := MatchAt(a + b).value;
    var t := EntryText(e);
    var s := a + b;
    assert s[..|t|] == t;
    assert s[|a|] == ' ' && s[|a| + 1] == ' ';
    EntryTextShape(e, |a|);
  }

  /** Every occurrence of a well-formed entry's text is matched: the scan reaches its
      first character whatever precedes it, and the pattern matches there. */
  lemma {:induction false} ScanComplete(a: string, e: GemEntry, b: string)
    requires WellFormed(e)
    ensures e in Scan(a + EntryText(e) + b)
    decreases |a|
  {
    var s := a + EntryText(e) + b;
    var tail := EntryText(e) + b;
    if a == [] {
      assert s == tail;
      MatchAtEntry(e, b);
    } else {
      assert s == a + tail;
      assert tail[0] == ' ' && tail[1] == ' ';
      match MatchAt(s)
      case Some(e0) =>
        MatchStopsBefore(a, tail);
        var k := |EntryText(e0)|;
        assert s[k..] == a[k..] + EntryText(e) + b;
        ScanComplete(a[k..], e, b);
      case None =>
        assert s[1..] == a[1..] + EntryText(e) + b;
        ScanComplete(a[1..], e, b);
    }
  }

  /** The scan of an entry's text followed by anything: that entry, then the scan of the rest. */
  lemma ScanEntry(e: GemEntry, rest: string)
    requires WellFormed(e)
    ensures Scan(EntryText(e) + rest) == [e] + Scan(rest)
  {
    MatchAtEntry(e, rest);
    assert (EntryText(e) + rest)[|EntryText(e)|..] == rest;
  }

  /** Text without a star, followed by text that does not start with a star in its first
      two characters, contributes no entry. */
  lemma {:induction false} ScanSkip(a: string, b: string)
    requires forall i :: 0 <= i < |a| ==> a[i] != '*'
    requires forall i :: 0 <= i < 2 && i < |b| ==> b[i] != '*'
    ensures Scan(a + b) == Scan(b)
    decreases |a|
  {
    if a != [] {
      var s := a + b;
      if |s| >= 4 {
        assert s[..4][2] == s[2] != '*';
      }
      assert MatchAt(s) == None;
      assert s[1..] == a[1..] + b;
      ScanSkip(a[1..], b);
    } else {
      assert a + b == b;
    }
  }

  /** Output made of entry lines, each followed by a line break, and then a closing text. */
  function EntryLines(es: seq<GemEntry>, footer: string): string {
    if es == [] then footer else EntryText(es[0]) + ("\n" + EntryLines(es[1..], footer))
  }

  /** Output made of well-formed entry lines and a closing text without a star yields exactly those entries, in order. */
  lemma {:induction false} ScanEntryLines(es: seq<GemEntry>, footer: string)
    requires forall i :: 0 <= i < |es| ==> WellFormed(es[i])
    requires forall i :: 0 <= i < |footer| ==> footer[i] != '*'
    ensures Scan(EntryLines(es, footer)) == es
  {
    if es == [] {
      ScanSkip(footer, "");
      assert footer + "" == footer;
    } else {
      var rest := EntryLines(es[1..], footer);
      ScanEntry(es[0], "\n" + rest);
      EntryLinesStart(es[1..], footer);
      ScanSkip("\n", rest);
      ScanEntryLines(es[1..], footer);
    }
  }

  lemma EntryLinesStart(es: seq<GemEntry>, footer: string)
    requires forall i :: 0 <= i < |footer| ==> footer[i] != '*'
    ensures forall i :: 0 <= i < 2 && i < |EntryLines(es, footer)| ==> EntryLines(es, footer)[i] != '*'
  {
    if es != [] {
      var t := EntryText(es[0]);
      assert t[..4] == EntryPrefix;
      assert EntryLines(es, footer)[..2] == t[..2];
    }
  }

  /** `collect` into a hash map: later pairs replace earlier ones with the same key. */
  function Collect<V>(pairs: seq<(string, V)>): (m: map<string, V>)
    ensures m.Keys == set i | 0 <= i < |pairs| :: pairs[i].0
  {
    if pairs == [] then map[]
    else
      var init := pairs[..|pairs| - 1];
      var last := pairs[|pairs| - 1];
      var m := Collect(init)[last.0 := last.1];
      assert (set i | 0 <= i < |pairs| :: pairs[i].0) == (set i | 0 <= i < |init| :: init[i].0) + {last.0} by {
        forall i | 0 <= i < |pairs| ensures pairs[i].0 in (set i | 0 <= i < |init| :: init[i].0) + {last.0} {
          if i < |init| { assert init[i] == pairs[i]; }
        }
        forall i | 0 <= i < |init| ensures init[i].0 in (set i | 0 <= i < |pairs| :: pairs[i].0) {
          assert pairs[i] == init[i];
        }
      }
      m
  }

  /** The value kept for a key is that of the last pair with the key. */
  lemma {:induction false} CollectLastWins<V>(pairs: seq<(string, V)>, i: int)
    requires 0 <= i < |pairs|
    requires forall j :: i < j < |pairs| ==> pairs[j].0 != pairs[i].0
    ensures pairs[i].0 in Collect(pairs) && Collect(pairs)[pairs[i].0] == pairs[i].1
  {
    var init := pairs[..|pairs| - 1];
    if i < |pairs| - 1 {
      forall j | i < j < |init| ensures init[j].0 != init[i].0 {
        assert init[j] == pairs[j];
      }
      CollectLastWins(init, i);
    }
  }

  /** Pairs with pairwise different keys give a map with one key per pair. */
  lemma {:induction false} CollectDistinctSize<V>(pairs: seq<(string, V)>)
    requires forall i, j :: 0 <= i < j < |pairs| ==> pairs[i].0 != pairs[j].0
    ensures |Collect(pairs)| == |pairs|
  {
    if pairs != [] {
      var init := pairs[..|pairs| - 1];
      var last := pairs[|pairs| - 1];
      CollectDistinctSize(init);
      forall i | 0 <= i < |init| ensures init[i].0 != last.0 {
        assert init[i] == pairs[i];
      }
      assert last.0 !in Collect(init);
    }
  }

  /** The version stored for an entry: the parsed version, or the default when it does not parse. */
  function VersionOf<V>(text: string, parseVersion: string -> Option<V>, default: V): (v: V)
    ensures parseVersion(text).None? ==> v == default
    ensures parseVersion(text).Some? ==> v == parseVersion(text).value
  {
    parseVersion(text).GetOr(default)
  }

  function KeyedEntries<V>(es: seq<GemEntry>, parseVersion: string -> Option<V>, default: V): (pairs: seq<(string, V)>)
    ensures |pairs| == |es|
    ensures forall i :: 0 <= i < |es| ==> pairs[i] == (Text.ToLower(es[i].name), VersionOf(es[i].version, parseVersion, default))
  {
    seq(|es|, i requires 0 <= i < |es| => (Text.ToLower(es[i].name), VersionOf(es[i].version, parseVersion, default)))
  }

  /** `GemList::from_str`. The pattern is a constant, so this never fails. */
  function FromStr<V>(s: string, parseVersion: string -> Option<V>, default: V): (r: Result<GemList<V>, GemListError>)
    ensures r.Ok?
  {
    Ok(GemList(Collect(KeyedEntries(Scan(s), parseVersion, default))))
  }

  /** The keys of the parsed list are the lower-cased names of the entries found. */
  lemma FromStrKeys<V>(s: string, parseVersion: string -> Option<V>, default: V)
    ensures FromStr(s, parseVersion, default).value.gems.Keys == set e | e in Scan(s) :: Text.ToLower(e.name)
  {
    var es := Scan(s);
    var pairs := KeyedEntries(es, parseVersion, default);
    assert Collect(pairs).Keys == set i | 0 <= i < |pairs| :: pairs[i].0;
    forall i | 0 <= i < |es| ensures pairs[i].0 in (set e | e in es :: Text.ToLower(e.name)) {
      assert es[i] in es;
    }
    forall i | 0 <= i < |es| ensures Text.ToLower(es[i].name) in (set i | 0 <= i < |pairs| :: pairs[i].0) {
      assert pairs[i].0 == Text.ToLower(es[i].name);
    }
    assert (set i | 0 <= i < |pairs| :: pairs[i].0) == set e | e in es :: Text.ToLower(e.name);
  }

  /** Each key holds the version of the last entry found with that lower-cased name. */
  lemma FromStrLastWins<V>(s: string, parseVersion: string -> Option<V>, default: V, i: int)
    requires 0 <= i < |Scan(s)|
    requires forall j :: i < j < |Scan(s)| ==> Text.ToLower(Scan(s)[j].name) != Text.ToLower(Scan(s)[i].name)
    ensures FromStr(s, parseVersion, default).value.gems[Text.ToLower(Scan(s)[i].name)]
            == VersionOf(Scan(s)[i].version, parseVersion, default)
  {
    var es := Scan(s);
    var pairs := KeyedEntries(es, parseVersion, default);
    forall j | i < j < |pairs| ensures pairs[j].0 != pairs[i].0 {
    }
    CollectLastWins(pairs, i);
  }

  /** Every well-formed entry written anywhere in the output is in the list, under its lower-cased name. */
  lemma FromStrFindsEntry<V>(a: string, e: GemEntry, b: string, parseVersion: string -> Option<V>, default: V)
    requires WellFormed(e)
    ensures Text.ToLower(e.name) in FromStr(a + EntryText(e) + b, parseVersion, default).value.gems
  {
    ScanComplete(a, e, b);
    FromStrKeys(a + EntryText(e) + b, parseVersion, default);
  }

  /** Every key of the list is the lower-cased name of a well-formed entry whose text occurs in the output. */
  lemma FromStrKeysOccur<V>(s: string, parseVersion: string -> Option<V>, default: V, key: string)
    requires key in FromStr(s, parseVersion, default).value.gems
    ensures exists e :: WellFormed(e) && Text.ToLower(e.name) == key && OccursIn(EntryText(e), s)
  {
    FromStrKeys(s, parseVersion, default);
    ScanSound(s);
    var e :| e in Scan(s) && Text.ToLower(e.name) == key;
  }

  /** `GemList::from_bundle_list`: run `bundle list` and parse its standard output;
      a failing command is reported as a shell-command error. */
  function FromBundleList<V>(env: Env, bundleList: Env -> Result<string, EnvCommandError>,
                             parseVersion: string -> Option<V>, default: V): (r: Result<GemList<V>, GemListError>)
    ensures bundleList(env).Err? ==> r == Err(BundleListShellCommandError(bundleList(env).error))
    ensures bundleList(env).Ok? ==> r == FromStr(bundleList(env).value, parseVersion, default)
  {
    match bundleList(env)
    case Err(e) => Err(BundleListShellCommandError(e))
    case Ok(stdout) => FromStr(stdout, parseVersion, default)
  }

  /** The query as the list looks it up: trimmed, then lower-cased. */
  function NormalizeQuery(query: string): string {
    Text.ToLower(Text.Trim(query))
  }

  function VersionFor<V>(list: GemList<V>, query: string): (r: Option<V>)
    ensures r.Some? <==> NormalizeQuery(query) in list.gems
    ensures r.Some? ==> r.value == list.gems[NormalizeQuery(query)]
  {
    var key := NormalizeQuery(query);
    if key in list.gems then Some(list.gems[key]) else None
  }

  function Has<V>(list: GemList<V>, query: string): (b: bool)
    ensures b <==> VersionFor(list, query).Some?
  {
    NormalizeQuery(query) in list.gems
  }

  /** Looking up an already normalised query gives the same answer: surrounding white
      space and letter case in the query do not matter. */
  lemma {:induction false} LookupIgnoresCaseAndPadding<V>(list: GemList<V>, query: string)
    ensures VersionFor(list, query) == VersionFor(list, NormalizeQuery(query))
    ensures Has(list, query) == Has(list, NormalizeQuery(query))
  {
    Text.NormalizeIdempotent(query);
  }
}
