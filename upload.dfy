/** The upload configuration (server/config/multer.js): the stored file name and the
    filter that admits only CSV uploads. */
module Upload {
  import opened Common

  const OnlyCsv := "Only .csv files are allowed!"
  const StoredPrefix := "import-"

  predicate IsAsciiLetter(c: char) { IsAsciiUpper(c) || IsAsciiLower(c) }

  /** A character the pattern `/[^a-z0-9.]/gi` leaves alone. */
  predicate Kept(c: char) { IsAsciiLetter(c) || IsAsciiDigit(c) || c == '.' }

  /** A character a safe file name may hold. */
  predicate SafeChar(c: char) { IsAsciiLower(c) || IsAsciiDigit(c) || c == '.' || c == '_' }

  function SanitizeChar(c: char): (r: char)
    ensures SafeChar(r)
    ensures Kept(c) ==> r == LowerChar(c)
    ensures !Kept(c) ==> r == '_'
  {
    if Kept(c) then LowerChar(c) else '_'
  }

  /** `originalname.replace(/[^a-z0-9.]/gi, '_').toLowerCase()`: position by position,
      letters are lower-cased, digits and dots kept, everything else becomes `_`. */
  function SafeFilename(name: string): (r: string)
    ensures |r| == |name|
    ensures forall i :: 0 <= i < |name| ==> r[i] == SanitizeChar(name[i])
    ensures forall i :: 0 <= i < |r| ==> SafeChar(r[i])
  {
    seq(|name|, i requires 0 <= i < |name| => SanitizeChar(name[i]))
  }

  /** Sanitising a safe name changes nothing, so sanitising twice is sanitising once. */
  lemma SafeFilenameIdempotent(name: string)
    ensures SafeFilename(SafeFilename(name)) == SafeFilename(name)
  {
    var once := SafeFilename(name);
    forall i | 0 <= i < |once|
      ensures SafeFilename(once)[i] == once[i]
    {
      assert SafeChar(once[i]);
    }
  }

  /** Sanitising keeps dots where they were and creates no new ones. */
  lemma SanitizeKeepsDots(name: string)
    ensures forall i :: 0 <= i < |name| ==> (SafeFilename(name)[i] == '.' <==> name[i] == '.')
  {
  }

  /** The index of the last occurrence of `c` in `s`, if any. */
  function LastIndex(s: string, c: char): (r: Option<nat>)
    ensures r.None? <==> c !in s
    ensures r.Some? ==> r.value < |s| && s[r.value] == c && c !in s[r.value + 1..]
  {
    if s == [] then None
    else if s[|s| - 1] == c then Some(|s| - 1)
    else
      var r := LastIndex(s[..|s| - 1], c);
      assert s == s[..|s| - 1] + [s[|s| - 1]];
      if r.Some? then assert s[r.value + 1..] == s[..|s| - 1][r.value + 1..] + [s[|s| - 1]]; r else r
  }

  /** The path without its trailing slashes. */
  function TrimTrailingSlashes(p: string): (r: string)
    ensures |r| <= |p| && r == p[..|r|]
    ensures r == [] || r[|r| - 1] != '/'
    ensures forall i :: 0 <= i < |r| ==> r[i] in p
  {
    if p != [] && p[|p| - 1] == '/' then TrimTrailingSlashes(p[..|p| - 1]) else p
  }

  /** The last segment of a POSIX path. */
  function Basename(p: string): (r: string)
    ensures '/' !in r
    ensures forall i :: 0 <= i < |r| ==> r[i] in p
  {
    var trimmed := TrimTrailingSlashes(p);
    var slash := LastIndex(trimmed, '/');
    if slash.Some? then trimmed[slash.value + 1..] else trimmed
  }

  /** Node's POSIX `path.extname`: from the last dot of the last segment to its end;
      empty when that segment has no dot, starts with its only leading dot, or is `..`. */
  function ExtName(p: string): (r: string)
    ensures r == [] || r[0] == '.'
    ensures '/' !in r
    ensures r != [] ==> '.' !in r[1..]
    ensures forall i :: 0 <= i < |r| ==> r[i] in p
  {
    var base := Basename(p);
    var dot := LastIndex(base, '.');
    if dot.None? || dot.value == 0 || base == ".." then "" else base[dot.value..]
  }

  /** For a name without slashes, the extension of the sanitised name is the sanitised
      extension: dots stay where they were and the segment does not change. */
  lemma ExtNameOfSafe(name: string)
    requires '/' !in name
    ensures ExtName(SafeFilename(name)) == SafeFilename(ExtName(name))
  {
    var safe := SafeFilename(name);
    assert '/' !in safe by { assert forall i :: 0 <= i < |safe| ==> SafeChar(safe[i]); }
    NoSlashTrim(name);
    NoSlashTrim(safe);
    LastIndexSame(name, safe);
    DotDotSame(name);
    var dot := LastIndex(name, '.');
    if dot.Some? && dot.value != 0 && name != ".." {
      SafeFilenameSuffix(name, dot.value);
    }
  }

  /** Only `..` sanitises to `..`. */
  lemma DotDotSame(name: string)
    ensures SafeFilename(name) == ".." <==> name == ".."
  {
    var safe := SafeFilename(name);
    SanitizeKeepsDots(name);
    if |name| == 2 {
      assert safe == ".." <==> safe[0] == '.' && safe[1] == '.';
      assert name == ".." <==> name[0] == '.' && name[1] == '.';
    }
  }

  /** Sanitising works character by character, so it commutes with taking a suffix. */
  lemma SafeFilenameSuffix(name: string, k: nat)
    requires k <= |name|
    ensures SafeFilename(name[k..]) == SafeFilename(name)[k..]
  {
    var a, b := SafeFilename(name[k..]), SafeFilename(name)[k..];
    assert |a| == |b|;
    forall i | 0 <= i < |a| ensures a[i] == b[i] {
      assert name[k..][i] == name[k + i];
    }
  }

  lemma NoSlashTrim(p: string)
    requires '/' !in p
    ensures TrimTrailingSlashes(p) == p && Basename(p) == p
  {
  }

  /** Sanitising keeps the last dot where it was. */
  lemma {:induction false} LastIndexSame(name: string, safe: string)
    requires safe == SafeFilename(name)
    ensures LastIndex(safe, '.') == LastIndex(name, '.')
    decreases |name|
  {
    if name != [] && name[|name| - 1] != '.' {
      assert safe[..|safe| - 1] == SafeFilename(name[..|name| - 1]);
      LastIndexSame(name[..|name| - 1], safe[..|safe| - 1]);
    }
  }

  /** The unique part of the stored name, `Date.now() + '-' + Math.round(Math.random() * 1e9)`,
      for the clock reading `now` and the random draw `random`. */
  function UniqueSuffix(now: nat, random: real): (r: string)
    requires 0.0 <= random < 1.0
    ensures forall i :: 0 <= i < |r| ==> IsAsciiDigit(r[i]) || r[i] == '-'
    ensures Split(r, '-') == [NatToString(now), NatToString(Round(random * 1000000000.0))]
  {
    var a, b := NatToString(now), NatToString(Round(random * 1000000000.0));
    assert '-' !in a && '-' !in b by {
      assert forall i :: 0 <= i < |a| ==> IsAsciiDigit(a[i]);
      assert forall i :: 0 <= i < |b| ==> IsAsciiDigit(b[i]);
    }
    SplitCons(a, b, '-');
    SplitFree(b, '-');
    a + "-" + b
  }

  /** A character a stored name may hold. */
  predicate StoredChar(c: char) { SafeChar(c) || c == '-' }

  predicate AllStoredChars(s: string)
  {
    forall i :: 0 <= i < |s| ==> StoredChar(s[i])
  }

  lemma StoredCharsConcat(a: string, b: string)
    requires AllStoredChars(a) && AllStoredChars(b)
    ensures AllStoredChars(a + b)
  {
    forall i | 0 <= i < |a + b|
      ensures StoredChar((a + b)[i])
    {
      if i < |a| { assert (a + b)[i] == a[i]; } else { assert (a + b)[i] == b[i - |a|]; }
    }
  }

  /** The extension of a sanitised name holds only characters a stored name may hold. */
  lemma SafeExtensionStored(name: string)
    ensures AllStoredChars(ExtName(SafeFilename(name)))
  {
    var safe := SafeFilename(name);
    var ext := ExtName(safe);
    forall i | 0 <= i < |ext| ensures StoredChar(ext[i]) {
      assert ext[i] in safe;
    }
  }

  /** The three parts of a stored name can be read back from it by position. */
  lemma StoredParts(middle: string, ext: string)
    requires AllStoredChars(middle) && AllStoredChars(ext)
    ensures var r := StoredPrefix + middle + ext;
      StartsWith(r, StoredPrefix) && AllStoredChars(r)
      && |r| >= |StoredPrefix| + |ext| && r[|r| - |ext|..] == ext
      && r[|StoredPrefix|..|r| - |ext|] == middle
  {
    assert AllStoredChars(StoredPrefix);
    StoredCharsConcat(StoredPrefix, middle);
    StoredCharsConcat(StoredPrefix + middle, ext);
    var r := StoredPrefix + middle + ext;
    assert r[..|StoredPrefix|] == StoredPrefix;
    assert r[|r| - |ext|..] == ext;
    assert r[|StoredPrefix|..|r| - |ext|] == middle;
  }

  /** The `filename` callback: `import-` followed by the unique part and the
      extension of the sanitised original name. */
  function StoredName(originalName: string, now: nat, random: real): (r: string)
    requires 0.0 <= random < 1.0
    ensures StartsWith(r, StoredPrefix)
    ensures AllStoredChars(r)
    ensures |r| >= |StoredPrefix| + |ExtName(SafeFilename(originalName))|
    ensures r[|r| - |ExtName(SafeFilename(originalName))|..] == ExtName(SafeFilename(originalName))
    ensures r[|StoredPrefix|..|r| - |ExtName(SafeFilename(originalName))|] == UniqueSuffix(now, random)
  {
    var ext := ExtName(SafeFilename(originalName));
    var middle := UniqueSuffix(now, random);
    SafeExtensionStored(originalName);
    StoredParts(middle, ext);
    StoredPrefix + middle + ext
  }

  /** `fileFilter`: accepted exactly when the lower-cased extension of the original
      name and the MIME type both contain `csv`. */
  function FileFilter(originalName: string, mimetype: string): (r: Result<bool, string>)
    ensures r.Ok? <==> Contains(Lower(ExtName(originalName)), "csv") && Contains(mimetype, "csv")
    ensures r.Ok? ==> r.value
    ensures r.Err? ==> r.error == OnlyCsv
  {
    if Contains(Lower(ExtName(originalName)), "csv") && Contains(mimetype, "csv") then Ok(true)
    else Err(OnlyCsv)
  }

  /** Sanitising an extension that contains `csv` in any case leaves `csv` in it. */
  lemma CsvSurvives(ext: string)
    requires Contains(Lower(ext), "csv")
    ensures Contains(SafeFilename(ext), "csv")
  {
    var low, safe := Lower(ext), SafeFilename(ext);
    var k :| 0 <= k <= |low| - 3 && OccursAt(low, "csv", k);
    assert low[k..k + 3] == "csv";
    forall j | k <= j < k + 3
      ensures safe[j] == low[j]
    {
      assert low[j] == "csv"[j - k];
      assert IsAsciiLower(low[j]);
      assert Kept(ext[j]);
    }
    assert safe[k..k + 3] == low[k..k + 3];
    assert OccursAt(safe, "csv", k);
  }

  /** An accepted upload is stored under a name whose extension still contains `csv`.
      The name is taken to be a plain file name without '/', as a browser sends it in
      the multipart `filename`; a name with '/' is not covered here. */
  lemma AcceptedKeepsCsvExtension(originalName: string, mimetype: string)
    requires '/' !in originalName
    requires FileFilter(originalName, mimetype).Ok?
    ensures Contains(ExtName(SafeFilename(originalName)), "csv")
  {
    ExtNameOfSafe(originalName);
    CsvSurvives(ExtName(originalName));
  }
}
