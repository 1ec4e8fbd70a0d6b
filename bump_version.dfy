/** The release script (scripts/bump_version.py): it finds `VERSION = "x.y.z"`
    in the integration's const.py, bumps one component of the triple, and
    rewrites const.py, the manifest's "version" and the changelog. The three
    files are the fields of a small class; reading and writing them, the JSON
    serialisation of the manifest and the console output are not modelled. */
module BumpVersion {
  import opened Python

  const EXPECTED_ARG_COUNT: nat := 2
  const VERSION_PREFIX: string := "VERSION = \""
  const CHANGELOG_HEADER: string := "# Changelog\n"

  // ---------------------------------------------------------------------------
  // The pattern VERSION = "([0-9\.]+)"

  predicate IsVersionChar(c: char)
  {
    IsDigit(c) || c == '.'
  }

  /** The longest prefix of `s` made of digits and dots. */
  function VersionRun(s: string): (r: string)
    ensures |r| <= |s| && r == s[..|r|]
    ensures forall i | 0 <= i < |r| :: IsVersionChar(r[i])
    ensures |r| < |s| ==> !IsVersionChar(s[|r|])
  {
    if s == [] || !IsVersionChar(s[0]) then [] else [s[0]] + VersionRun(s[1..])
  }

  /** The pattern matched at the start of `s`: its captured group and the
      length of the whole match. The greedy `[0-9\.]+` cannot give back a
      character to let the closing quote match, since a quote is neither a
      digit nor a dot, so the maximal run is the only candidate. */
  function MatchHere(s: string): (r: Option<(string, nat)>)
    ensures r.Some? ==> var (group, n) := r.value;
      && n == |VERSION_PREFIX| + |group| + 1 && n <= |s|
      && s[..n] == VERSION_PREFIX + group + "\""
      && group != [] && forall i | 0 <= i < |group| :: IsVersionChar(group[i])
  {
    if |s| < |VERSION_PREFIX| || s[..|VERSION_PREFIX|] != VERSION_PREFIX then None
    else
      var rest := s[|VERSION_PREFIX|..];
      var group := VersionRun(rest);
      if group != [] && |group| < |rest| && rest[|group|] == '"' then
        assert s[..|VERSION_PREFIX| + |group| + 1] == VERSION_PREFIX + group + "\"" by {
          assert s == VERSION_PREFIX + rest;
          assert rest[..|group| + 1] == group + "\"";
        }
        Some((group, |VERSION_PREFIX| + |group| + 1))
      else None
  }

  /** The pattern matched at position `j` of `s`. */
  function MatchAt(s: string, j: nat): Option<(string, nat)>
    requires j <= |s|
  {
    MatchHere(s[j..])
  }

  /** re.search: the captured group of the leftmost match at or after `i`. */
  function Search(s: string, i: nat): (r: Option<string>)
    requires i <= |s|
    ensures r.None? <==> forall j | i <= j <= |s| :: MatchHere(s[j..]).None?
    ensures r.Some? ==> exists j | i <= j <= |s| :: MatchHere(s[j..]).Some? && r.value == MatchHere(s[j..]).value.0
    decreases |s| - i
  {
    if MatchHere(s[i..]).Some? then Some(MatchHere(s[i..]).value.0)
    else if i == |s| then None
    else Search(s, i + 1)
  }

  /** The match the search reports is the leftmost one. */
  lemma {:induction false} SearchIsLeftmost(s: string, i: nat)
    requires i <= |s| && Search(s, i).Some?
    ensures exists j | i <= j <= |s| ::
      && MatchHere(s[j..]).Some? && Search(s, i).value == MatchHere(s[j..]).value.0
      && forall k | i <= k < j :: MatchHere(s[k..]).None?
    decreases |s| - i
  {
    if MatchHere(s[i..]).None? {
      SearchIsLeftmost(s, i + 1);
      var j :| i + 1 <= j <= |s| && MatchHere(s[j..]).Some? && Search(s, i).value == MatchHere(s[j..]).value.0
        && forall k | i + 1 <= k < j :: MatchHere(s[k..]).None?;
      assert forall k | i <= k < j :: MatchHere(s[k..]).None?;
    }
  }

  /** The search reports the match at the first matching position. */
  lemma SearchFindsFirst(s: string, i: nat, k: nat)
    requires i <= k <= |s| && MatchHere(s[k..]).Some?
    requires forall j | i <= j < k :: MatchHere(s[j..]).None?
    ensures Search(s, i) == Some(MatchHere(s[k..]).value.0)
  {
    var r := Search(s, i);
    SearchIsLeftmost(s, i);
    var j :| i <= j <= |s| && MatchHere(s[j..]).Some? && r.value == MatchHere(s[j..]).value.0
      && forall x | i <= x < j :: MatchHere(s[x..]).None?;
    assert j == k;
  }

  /** The run is the digits and dots before the first other character. */
  lemma {:induction false} VersionRunUpTo(t: string, m: nat)
    requires m < |t| && !IsVersionChar(t[m])
    requires forall x | 0 <= x < m :: IsVersionChar(t[x])
    ensures VersionRun(t) == t[..m]
  {
    if m > 0 {
      VersionRunUpTo(t[1..], m - 1);
      assert t[..m] == [t[0]] + t[1..][..m - 1];
    }
  }

  /** A match depends only on the text it covers. */
  lemma MatchHereStable(t: string, u: string)
    requires MatchHere(t).Some?
    requires MatchHere(t).value.1 <= |u| && t[..MatchHere(t).value.1] == u[..MatchHere(t).value.1]
    ensures MatchHere(u) == MatchHere(t)
  {
    var (group, n) := MatchHere(t).value;
    var p := |VERSION_PREFIX|;
    assert u[..p] == t[..n][..p] == t[..p];
    var restT, restU := t[p..], u[p..];
    assert restT[..|group| + 1] == t[p..n] == u[p..n] == restU[..|group| + 1];
    assert VersionRun(restT) == group;
    forall x | 0 <= x < |group| ensures IsVersionChar(restU[x]) {
      assert restU[x] == restT[..|group| + 1][x] == restT[x];
    }
    assert restU[|group|] == restT[|group|] == '"';
    VersionRunUpTo(restU, |group|);
    assert restU[..|group|] == restT[..|group|];
  }

  /** `VERSION = "v"` matches with `v` as its group. */
  lemma MatchHereOf(v: string, tail: string)
    requires v != [] && forall x | 0 <= x < |v| :: IsVersionChar(v[x])
    ensures MatchHere(VERSION_PREFIX + v + "\"" + tail) == Some((v, |VERSION_PREFIX| + |v| + 1))
  {
    var t := VERSION_PREFIX + v + "\"" + tail;
    var p := |VERSION_PREFIX|;
    assert t[..p] == VERSION_PREFIX;
    var rest := t[p..];
    assert rest == v + "\"" + tail;
    VersionRunUpTo(rest, |v|);
    assert rest[..|v|] == v;
  }

  /** Only the first character of `VERSION = "` is a `V`. */
  lemma PrefixHasOneV(d: nat)
    requires 0 < d < |VERSION_PREFIX|
    ensures VERSION_PREFIX[d] != 'V'
  {
  }

  /** Past its first character a match holds no `V`: `VERSION = "` has one
      only at its start, and the group and closing quote have none. */
  lemma NoVAfterStart(u: string, group: string, n: nat, d: nat)
    requires n == |VERSION_PREFIX| + |group| + 1 && n <= |u|
    requires u[..n] == VERSION_PREFIX + group + "\""
    requires forall i | 0 <= i < |group| :: IsVersionChar(group[i])
    requires 0 < d < n
    ensures u[d] != 'V'
  {
    assert u[d] == (VERSION_PREFIX + group + "\"")[d];
    if d < |VERSION_PREFIX| {
      PrefixHasOneV(d);
    } else if d < |VERSION_PREFIX| + |group| {
      assert u[d] == group[d - |VERSION_PREFIX|];
    }
  }

  /** Two texts that agree before `k` agree on every window ending by `k`. */
  lemma SameWindow(s: string, t: string, k: nat, j: nat, n: nat)
    requires j + n <= k <= |s| && k <= |t| && t[..k] == s[..k]
    ensures t[j..][..n] == s[j..][..n]
  {
    forall x | 0 <= x < n ensures t[j..][..n][x] == s[j..][..n][x] {
      assert t[j..][..n][x] == t[..k][j + x];
      assert s[j..][..n][x] == s[..k][j + x];
    }
  }

  /** A text that agrees with `s` before position `k`, where it has a `V`,
      gains no match before `k`: `VERSION = "` cannot overlap itself. */
  lemma NoEarlierMatch(s: string, t: string, k: nat, j: nat)
    requires j < k < |t| && k <= |s| && t[..k] == s[..k] && t[k] == 'V'
    requires MatchAt(s, j).None?
    ensures MatchAt(t, j).None?
  {
    var u := t[j..];
    if MatchHere(u).Some? {
      var (group, n) := MatchHere(u).value;
      if j + n <= k {
        SameWindow(s, t, k, j, n);
        MatchHereStable(u, s[j..]);
      } else {
        assert u[k - j] == t[k];
        NoVAfterStart(u, group, n, k - j);
      }
    }
  }

  /** re.sub: every non-overlapping match, scanning left to right, replaced by
      `replacement`. */
  function SubAll(s: string, replacement: string): (r: string)
    ensures (forall j | 0 <= j <= |s| :: MatchHere(s[j..]).None?) ==> r == s
    decreases |s|
  {
    var m := MatchHere(s);
    assert s[0..] == s;
    if m.Some? then
      replacement + SubAll(s[m.value.1..], replacement)
    else if s == [] then []
    else
      assert forall j | 0 <= j <= |s| - 1 :: s[1..][j..] == s[j + 1..];
      [s[0]] + SubAll(s[1..], replacement)
  }

  /** re.sub at a match at `k`: the replacement, then the rest substituted. */
  lemma SubAllAtMatch(s: string, replacement: string, k: nat)
    requires k <= |s| && MatchAt(s, k).Some?
    ensures SubAll(s[k..], replacement)
         == replacement + SubAll(s[k + MatchAt(s, k).value.1..], replacement)
  {
    assert s[k..][MatchAt(s, k).value.1..] == s[k + MatchAt(s, k).value.1..];
  }

  /** re.sub where nothing matches at `i`: the character is kept. */
  lemma SubAllSkip(s: string, replacement: string, i: nat)
    requires i < |s| && MatchAt(s, i).None?
    ensures SubAll(s[i..], replacement) == [s[i]] + SubAll(s[i + 1..], replacement)
  {
    assert s[i..][1..] == s[i + 1..];
  }

  /** Putting back the character at `i` in front of a text split at `k`. */
  lemma ConsSplit(s: string, i: nat, k: nat, x: string, y: string)
    requires i < k <= |s|
    ensures [s[i]] + (s[i + 1..k] + x + y) == s[i..k] + x + y
  {
    assert s[i..k] == [s[i]] + s[i + 1..k];
  }

  /** From `i` up to the first match at `k` the text is kept; the match is
      replaced. */
  lemma {:induction false} SubAllFrom(s: string, replacement: string, i: nat, k: nat)
    requires i <= k <= |s| && MatchAt(s, k).Some?
    requires forall j | i <= j < k :: MatchAt(s, j).None?
    ensures SubAll(s[i..], replacement)
         == s[i..k] + replacement + SubAll(s[k + MatchAt(s, k).value.1..], replacement)
    decreases k - i
  {
    if i == k {
      SubAllAtMatch(s, replacement, k);
      assert s[i..k] == [];
    } else {
      SubAllFrom(s, replacement, i + 1, k);
      SubAllFromStep(s, replacement, i, k, SubAll(s[k + MatchAt(s, k).value.1..], replacement));
    }
  }

  /** One step of SubAllFrom: a kept character in front of what follows it. */
  lemma SubAllFromStep(s: string, replacement: string, i: nat, k: nat, rest: string)
    requires i < k <= |s| && MatchAt(s, i).None?
    requires SubAll(s[i + 1..], replacement) == s[i + 1..k] + replacement + rest
    ensures SubAll(s[i..], replacement) == s[i..k] + replacement + rest
  {
    SubAllSkip(s, replacement, i);
    ConsSplit(s, i, k, replacement, rest);
  }

  /** A text that keeps `s` up to its first match at `k` and has
      `VERSION = "v"` there is searched to `v`: the kept text has no match,
      cannot form one with the new line since `VERSION = "` does not overlap
      itself, and the new line matches. */
  lemma ReplacedLineFound(s: string, k: nat, v: string, tail: string, t: string)
    requires k <= |s| && forall j | 0 <= j < k :: MatchHere(s[j..]).None?
    requires v != [] && forall x | 0 <= x < |v| :: IsVersionChar(v[x])
    requires t == s[0..k] + (VERSION_PREFIX + v + "\"") + tail
    ensures Search(t, 0) == Some(v)
  {
    assert s[0..k] == s[..k];
    assert t == s[..k] + (VERSION_PREFIX + v + "\"" + tail);
    assert t[k..] == VERSION_PREFIX + v + "\"" + tail;
    MatchHereOf(v, tail);
    assert t[..k] == s[..k];
    assert t[k] == 'V';
    forall j | 0 <= j < k ensures MatchHere(t[j..]).None? {
      assert MatchAt(s, j).None?;
      NoEarlierMatch(s, t, k, j);
    }
    SearchFindsFirst(t, 0, k);
  }

  /** After the substitution the search finds the new version. */
  lemma SubAllReadsBack(s: string, v: string)
    requires Search(s, 0).Some?
    requires v != [] && forall x | 0 <= x < |v| :: IsVersionChar(v[x])
    ensures Search(SubAll(s, VERSION_PREFIX + v + "\""), 0) == Some(v)
  {
    SearchIsLeftmost(s, 0);
    var k :| 0 <= k <= |s| && MatchHere(s[k..]).Some? && Search(s, 0).value == MatchHere(s[k..]).value.0
      && forall x | 0 <= x < k :: MatchHere(s[x..]).None?;
    var rep := VERSION_PREFIX + v + "\"";
    SubAllFrom(s, rep, 0, k);
    assert s[0..] == s;
    ReplacedLineFound(s, k, v, SubAll(s[k + MatchAt(s, k).value.1..], rep), SubAll(s, rep));
  }

  // ---------------------------------------------------------------------------
  // Version triples

  datatype Version = Version(major: nat, minor: nat, patch: nat)

  /** `str.split(".")` */
  function Split(s: string): (r: seq<string>)
    ensures |r| >= 1
  {
    if s == [] then [""]
    else
      var rest := Split(s[1..]);
      if s[0] == '.' then [""] + rest else [[s[0]] + rest[0]] + rest[1..]
  }

  /** `major, minor, patch = map(int, current_version.split("."))`: exactly
      three parts, each an integer. */
  function ParseVersion(s: string): (r: Py<Version>)
    ensures r.Ok? <==> |Split(s)| == 3 && forall i | 0 <= i < 3 :: ParseNat(Split(s)[i]).Ok?
    ensures r.Raise? ==> r.error == ValueError
  {
    var parts := Split(s);
    if |parts| != 3 then Raise(ValueError)
    else
      var major :- ParseNat(parts[0]);
      var minor :- ParseNat(parts[1]);
      var patch :- ParseNat(parts[2]);
      Ok(Version(major, minor, patch))
  }

  /** `f"{major}.{minor}.{patch}"` */
  function FormatVersion(v: Version): (r: string)
    ensures forall i | 0 <= i < |r| :: IsVersionChar(r[i])
  {
    NatToString(v.major) + "." + NatToString(v.minor) + "." + NatToString(v.patch)
  }

  lemma {:induction false} SplitDigits(a: string)
    requires AllDigits(a)
    ensures Split(a) == [a]
  {
    if a != [] {
      SplitDigits(a[1..]);
      assert [a[0]] + a[1..] == a;
    }
  }

  lemma {:induction false} SplitAfterDigits(a: string, b: string)
    requires AllDigits(a)
    ensures Split(a + "." + b) == [a] + Split(b)
  {
    if a == [] {
      assert a + "." + b == ['.'] + b;
      assert (['.'] + b)[1..] == b;
    } else {
      var s := a + "." + b;
      assert s[0] == a[0] && s[1..] == a[1..] + "." + b;
      SplitAfterDigits(a[1..], b);
      assert [a[0]] + a[1..] == a;
    }
  }

  /** Parsing a formatted version gives the version back. */
  lemma ParseFormatRoundTrip(v: Version)
    ensures ParseVersion(FormatVersion(v)) == Ok(v)
  {
    var a, b, c := NatToString(v.major), NatToString(v.minor), NatToString(v.patch);
    SplitDigits(c);
    SplitAfterDigits(b, c);
    SplitAfterDigits(a, b + "." + c);
    assert FormatVersion(v) == a + "." + (b + "." + c);
    assert Split(FormatVersion(v)) == [a, b, c];
    NatToStringRoundTrip(v.major);
    NatToStringRoundTrip(v.minor);
    NatToStringRoundTrip(v.patch);
  }

  /** The order in which releases follow each other. */
  predicate Later(a: Version, b: Version)
  {
    || a.major > b.major
    || (a.major == b.major && a.minor > b.minor)
    || (a.major == b.major && a.minor == b.minor && a.patch > b.patch)
  }

  /** The if/elif chain on the version type; any other type is rejected. */
  function Bump(v: Version, versionType: string): (r: Option<Version>)
    ensures r.Some? <==> versionType in ["major", "minor", "patch"]
  {
    if versionType == "major" then Some(Version(v.major + 1, 0, 0))
    else if versionType == "minor" then Some(Version(v.major, v.minor + 1, 0))
    else if versionType == "patch" then Some(Version(v.major, v.minor, v.patch + 1))
    else None
  }

  /** Every bump yields a later version, which changes exactly the named
      component and resets the ones below it. */
  lemma BumpIsLater(v: Version, versionType: string)
    requires Bump(v, versionType).Some?
    ensures Later(Bump(v, versionType).value, v)
    ensures var w := Bump(v, versionType).value;
      && (versionType == "major" ==> w.major == v.major + 1 && w.minor == 0 && w.patch == 0)
      && (versionType == "minor" ==> w.major == v.major && w.minor == v.minor + 1 && w.patch == 0)
      && (versionType == "patch" ==> w.major == v.major && w.minor == v.minor && w.patch == v.patch + 1)
  {
  }

  /** Later is a strict order: no version is later than itself, and it is
      transitive, so repeated bumps never revisit a version. */
  lemma LaterIsStrictOrder(a: Version, b: Version, c: Version)
    ensures !Later(a, a)
    ensures Later(a, b) && Later(b, c) ==> Later(a, c)
  {
  }

  // ---------------------------------------------------------------------------
  // The changelog

  /** `str.replace(pattern, replacement)`: non-overlapping occurrences, left to right. */
  function ReplaceAll(s: string, pat: string, rep: string): string
    requires pat != []
    decreases |s|
  {
    if |s| < |pat| then s
    else if s[..|pat|] == pat then rep + ReplaceAll(s[|pat|..], pat, rep)
    else [s[0]] + ReplaceAll(s[1..], pat, rep)
  }

  /** The number of occurrences str.replace replaces. */
  function Count(s: string, pat: string): nat
    requires pat != []
    decreases |s|
  {
    if |s| < |pat| then 0
    else if s[..|pat|] == pat then 1 + Count(s[|pat|..], pat)
    else Count(s[1..], pat)
  }

  /** Each replaced occurrence grows the text by the difference in length. */
  lemma {:induction false} ReplaceAllLength(s: string, pat: string, rep: string)
    requires pat != []
    ensures |ReplaceAll(s, pat, rep)| == |s| + Count(s, pat) * (|rep| - |pat|)
    decreases |s|
  {
    var d := |rep| - |pat|;
    if |s| < |pat| {
    } else if s[..|pat|] == pat {
      var rest := s[|pat|..];
      ReplaceAllLength(rest, pat, rep);
      var c := Count(rest, pat);
      var r := ReplaceAll(rest, pat, rep);
      assert ReplaceAll(s, pat, rep) == rep + r;
      assert Count(s, pat) == 1 + c;
      OneMoreOccurrence(|s|, |pat|, |rep|, |r|, c);
    } else {
      var r := ReplaceAll(s[1..], pat, rep);
      ReplaceAllLength(s[1..], pat, rep);
      assert ReplaceAll(s, pat, rep) == [s[0]] + r;
      assert Count(s, pat) == Count(s[1..], pat);
    }
  }

  /** The length bookkeeping of one replaced occurrence. */
  lemma OneMoreOccurrence(n: int, p: int, q: int, m: int, c: int)
    requires m == (n - p) + c * (q - p)
    ensures q + m == n + (1 + c) * (q - p)
  {
    assert (1 + c) * (q - p) == (q - p) + c * (q - p);
  }

  /** Text without an occurrence is left as it is. */
  lemma {:induction false} ReplaceAllAbsent(s: string, pat: string, rep: string)
    requires pat != [] && !IsSubstring(pat, s)
    ensures ReplaceAll(s, pat, rep) == s
    ensures Count(s, pat) == 0
    decreases |s|
  {
    if |s| >= |pat| {
      assert !OccursAt(pat, s, 0);
      var t := s[1..];
      if IsSubstring(pat, t) {
        var i :| 0 <= i <= |t| - |pat| && OccursAt(pat, t, i);
        assert t[i..i + |pat|] == s[i + 1..i + 1 + |pat|];
        assert OccursAt(pat, s, i + 1);
      }
      ReplaceAllAbsent(t, pat, rep);
      assert ReplaceAll(s, pat, rep) == [s[0]] + t;
    }
  }

  /** `f"\n## {new_version}\n\n_Changes go here_\n\n"` */
  function ChangelogEntry(version: string): string
  {
    "\n## " + version + "\n\n_Changes go here_\n\n"
  }

  /** The changelog rewrite: the entry goes right after each header. */
  function InsertEntry(changelog: string, version: string): string
  {
    ReplaceAll(changelog, CHANGELOG_HEADER, CHANGELOG_HEADER + ChangelogEntry(version))
  }

  /** With the header once at the top, the entry is inserted right below it
      and the rest of the changelog follows unchanged. */
  lemma InsertEntryBelowHeader(rest: string, version: string)
    requires !IsSubstring(CHANGELOG_HEADER, rest)
    ensures InsertEntry(CHANGELOG_HEADER + rest, version) == CHANGELOG_HEADER + ChangelogEntry(version) + rest
  {
    var s := CHANGELOG_HEADER + rest;
    assert s[..|CHANGELOG_HEADER|] == CHANGELOG_HEADER;
    assert s[|CHANGELOG_HEADER|..] == rest;
    ReplaceAllAbsent(rest, CHANGELOG_HEADER, CHANGELOG_HEADER + ChangelogEntry(version));
  }

  /** Every header gains one entry, and nothing else is inserted. */
  lemma InsertEntryLength(changelog: string, version: string)
    ensures |InsertEntry(changelog, version)| == |changelog| + Count(changelog, CHANGELOG_HEADER) * |ChangelogEntry(version)|
  {
    ReplaceAllLength(changelog, CHANGELOG_HEADER, CHANGELOG_HEADER + ChangelogEntry(version));
  }

  // ---------------------------------------------------------------------------
  // The script

  /** The contents of the three files the script reads and rewrites. */
  datatype FileSet = FileSet(constText: string, manifest: map<string, Json>, changelog: string)

  const VERSION_TYPES: seq<string> := ["major", "minor", "patch"]

  /** bump_version: the exit status and the files afterwards. 0 after
      rewriting all three files; 1 with nothing written when there is no
      version line or the type is unknown; a version that is not three
      integers raises ValueError before anything is written, whatever the
      type. */
  function BumpStep(files: FileSet, versionType: string): (r: (Py<int>, FileSet))
    ensures r.0 == Ok(1) || r.0 == Ok(0) || r.0 == Raise(ValueError)
    ensures r.0 != Ok(0) ==> r.1 == files
    ensures Search(files.constText, 0).None? ==> r.0 == Ok(1)
    ensures Search(files.constText, 0).Some? && ParseVersion(Search(files.constText, 0).value).Raise? ==>
      r.0 == Raise(ValueError)
    ensures (&& Search(files.constText, 0).Some? && ParseVersion(Search(files.constText, 0).value).Ok?
             && versionType !in VERSION_TYPES) ==> r.0 == Ok(1)
    ensures r.0 == Ok(0) <==>
      && Search(files.constText, 0).Some?
      && ParseVersion(Search(files.constText, 0).value).Ok?
      && versionType in VERSION_TYPES
    ensures r.0 == Ok(0) ==>
      var next := FormatVersion(Bump(ParseVersion(Search(files.constText, 0).value).value, versionType).value);
      r.1 == FileSet(SubAll(files.constText, VERSION_PREFIX + next + "\""),
                     files.manifest["version" := Str(next)],
                     InsertEntry(files.changelog, next))
  {
    var found := Search(files.constText, 0);
    if found.None? then (Ok(1), files)
    else
      var current := ParseVersion(found.value);
      if current.Raise? then (Raise(current.error), files)
      else
        var bumped := Bump(current.value, versionType);
        if bumped.None? then (Ok(1), files)
        else
          var next := FormatVersion(bumped.value);
          (Ok(0), FileSet(SubAll(files.constText, VERSION_PREFIX + next + "\""),
                          files.manifest["version" := Str(next)],
                          InsertEntry(files.changelog, next)))
  }

  /** The three files, as fields the script rewrites in place. */
  class Files {
    var constText: string
    var manifest: map<string, Json>
    var changelog: string

    constructor (constText: string, manifest: map<string, Json>, changelog: string)
      ensures State() == FileSet(constText, manifest, changelog)
    {
      this.constText := constText;
      this.manifest := manifest;
      this.changelog := changelog;
    }

    function State(): FileSet
      reads this
    {
      FileSet(constText, manifest, changelog)
    }

    /** bump_version on the files: returns the status and rewrites the files
        as BumpStep says. */
    method BumpVersion(versionType: string) returns (r: Py<int>)
      modifies this
      ensures (r, State()) == BumpStep(old(State()), versionType)
    {
      var found := Search(constText, 0);
      if found.None? {
        return Ok(1);
      }
      var current := ParseVersion(found.value);
      if current.Raise? {
        return Raise(current.error);
      }
      var bumped := Bump(current.value, versionType);
      if bumped.None? {
        return Ok(1);
      }
      var next := FormatVersion(bumped.value);
      constText := SubAll(constText, VERSION_PREFIX + next + "\"");
      manifest := manifest["version" := Str(next)];
      changelog := InsertEntry(changelog, next);
      r := Ok(0);
    }
  }

  /** The command-line check: exactly one argument, naming a version type. */
  predicate ValidArguments(argv: seq<string>)
  {
    |argv| == EXPECTED_ARG_COUNT && argv[1] in VERSION_TYPES
  }

  /** The script's entry point: exit status 1 with nothing written on a bad
      command line; otherwise bump_version's status and files. */
  method Run(files: Files, argv: seq<string>) returns (r: Py<int>)
    modifies files
    ensures !ValidArguments(argv) ==> r == Ok(1) && files.State() == old(files.State())
    ensures ValidArguments(argv) ==> (r, files.State()) == BumpStep(old(files.State()), argv[1])
  {
    if |argv| != EXPECTED_ARG_COUNT || argv[1] !in VERSION_TYPES {
      return Ok(1);
    }
    r := files.BumpVersion(argv[1]);
  }

  /** The bumped triple formats to a version string that parses back to it. */
  lemma FormattedBumpParses(v: Version, versionType: string)
    requires Bump(v, versionType).Some?
    ensures ParseVersion(FormatVersion(Bump(v, versionType).value)) == Ok(Bump(v, versionType).value)
    ensures Later(Bump(v, versionType).value, v)
  {
    ParseFormatRoundTrip(Bump(v, versionType).value);
    BumpIsLater(v, versionType);
  }

  /** After a successful bump, const.py's version line reads back as the
      bumped version, which is later than the old one, and the manifest
      carries the same version string. */
  lemma BumpedVersionReadsBack(files: FileSet, versionType: string)
    requires BumpStep(files, versionType).0 == Ok(0)
    ensures var after := BumpStep(files, versionType).1;
      var before := ParseVersion(Search(files.constText, 0).value).value;
      && Search(after.constText, 0).Some?
      && ParseVersion(Search(after.constText, 0).value) == Ok(Bump(before, versionType).value)
      && Later(ParseVersion(Search(after.constText, 0).value).value, before)
      && after.manifest["version"] == Str(Search(after.constText, 0).value)
  {
    var before := ParseVersion(Search(files.constText, 0).value).value;
    var next := FormatVersion(Bump(before, versionType).value);
    SubAllReadsBack(files.constText, next);
    FormattedBumpParses(before, versionType);
  }
}
