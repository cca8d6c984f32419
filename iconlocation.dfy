/** IconLocation (src/WindowsShortcut/IconLocation.cs): the file holding a link's icon
    and the index of the icon in it, written as `path,index`. */
module IconLocations {
  import opened Errors
  import opened Text
  import opened Decimal

  /** An icon location. `New` is the only way the library builds one, so the path is
      never null or empty (ValidIconLocation). */
  datatype IconLocation = IconLocation(path: string, index: Int32)

  predicate ValidIconLocation(l: IconLocation) { |l.path| > 0 }

  /** `new IconLocation(path, index)`: a null path throws ArgumentNullException, an
      empty one ArgumentException; every index is accepted. */
  function New(path: Option<string>, index: Int32): (r: Result<IconLocation>)
    ensures path.None? ==> r == Err(ArgumentNull)
    ensures path == Some("") ==> r == Err(Argument)
    ensures r.Ok? <==> path.Some? && |path.value| > 0
    ensures r.Ok? ==> ValidIconLocation(r.value) && r.value.path == path.value && r.value.index == index
  {
    if path.None? then Err(ArgumentNull)
    else if |path.value| == 0 then Err(Argument)
    else Ok(IconLocation(path.value, index))
  }

  /** `IconLocation.Parse(s)`: split at the first comma, which must come after at
      least two characters; the rest must be an integer for `int.TryParse`. */
  function Parse(s: Option<string>): (r: Result<IconLocation>)
    ensures s.None? ==> r == Err(ArgumentNull)
    ensures s == Some("") ==> r == Err(Argument)
    ensures s.Some? && |s.value| > 0 && r.Err? ==> r.error == Format
    ensures r.Ok? ==> ValidIconLocation(r.value) && |r.value.path| >= 2 && ',' !in r.value.path
    ensures r.Ok? ==> |r.value.path| < |s.value|
  {
    if s.None? then Err(ArgumentNull)
    else if |s.value| == 0 then Err(Argument)
    else
      var t := s.value;
      var comma := IndexOf(t, ',');
      if comma < 2 then Err(Format)
      else
        Located(t[..comma], ParseInt32(t[comma + 1..]))
  }

  /** The last step of Parse: the location of `path` at `index`, when the text after
      the comma was an integer. */
  function Located(path: string, index: Option<Int32>): (r: Result<IconLocation>)
    ensures r.Ok? <==> index.Some? && |path| > 0
    ensures r.Ok? ==> r.value == IconLocation(path, index.value)
    ensures r.Err? && |path| > 0 ==> r.error == Format
  {
    if index.None? then Err(Format) else New(Some(path), index.value)
  }

  /** What Parse accepts is the path it gives, a comma, and the text of the index it
      gives. */
  lemma ParseParts(s: string)
    requires Parse(Some(s)).Ok?
    ensures var l := Parse(Some(s)).value;
            s == l.path + "," + s[|l.path| + 1..] && ParseInt32(s[|l.path| + 1..]) == Some(l.index)
  {
    var comma := IndexOf(s, ',');
    SplitAt(s, comma);
  }

  /** `ToString()`: `"{Path},{Index}"`. The text of the index holds no comma, so the
      comma after the path is the first one whenever the path has none. */
  function ToString(l: IconLocation): (s: string)
    ensures |s| > |l.path| && s[..|l.path|] == l.path && s[|l.path|] == ','
    ensures ',' !in s[|l.path| + 1..]
    ensures ',' !in l.path ==> IndexOf(s, ',') == |l.path|
  {
    var digits := FormatInt(l.index);
    assert forall k :: 0 < k < |digits| ==> digits[k] == digits[1..][k - 1];
    var s := l.path + "," + digits;
    assert s[|l.path| + 1..] == digits;
    if ',' in l.path then s
    else
      IndexOfAfterPrefix(l.path, ',', digits);
      s
  }

  /** A text of the form `path,rest`, with no comma in `path` and at least two
      characters of it, is split right after `path`: it parses exactly when `rest` is an
      integer, and then into `path` and that integer. */
  lemma ParseAtFirstComma(path: string, rest: string)
    requires |path| >= 2 && ',' !in path
    ensures Parse(Some(path + "," + rest)).Ok? <==> ParseInt32(rest).Some?
    ensures ParseInt32(rest).Some? ==>
              Parse(Some(path + "," + rest)) == Ok(IconLocation(path, ParseInt32(rest).value))
  {
    var t := path + "," + rest;
    IndexOfAfterPrefix(path, ',', rest);
    assert t[..|path|] == path && t[|path| + 1..] == rest;
    ParseSplit(t, |path|);
  }

  /** Parse splits a text at its first comma, when that comma comes after at least two
      characters. */
  lemma ParseSplit(t: string, comma: nat)
    requires IndexOf(t, ',') == comma && comma >= 2
    ensures Parse(Some(t)) == Located(t[..comma], ParseInt32(t[comma + 1..]))
  {
  }

  /** ToString followed by Parse gives the location back exactly when its path has at
      least two characters and no comma: a one-character path, or a path with a comma,
      does not survive the round trip (Parse then fails with FormatException). */
  lemma ParseToString(l: IconLocation)
    requires ValidIconLocation(l)
    ensures Parse(Some(ToString(l))) == Ok(l) <==> |l.path| >= 2 && ',' !in l.path
    ensures Parse(Some(ToString(l))).Err? ==> Parse(Some(ToString(l))).error == Format
  {
    if |l.path| >= 2 && ',' !in l.path {
      ParseFormat(l.index);
      ParseAtFirstComma(l.path, FormatInt(l.index));
    }
  }

  /** Text without a comma is never an icon location. */
  lemma ParseWithoutComma(s: string)
    requires |s| > 0 && ',' !in s
    ensures Parse(Some(s)) == Err(Format)
  {
  }

  /** A comma among the first two characters is never a separator. */
  lemma ParseEarlyComma(s: string, i: nat)
    requires i < 2 && i < |s| && s[i] == ',' && ',' !in s[..i]
    ensures Parse(Some(s)) == Err(Format)
  {
    IndexOfUnique(s, ',', i);
  }

  lemma ParseSmallIndexes()
    ensures ParseInt32("0") == Some(0) && ParseInt32("1") == Some(1)
  {
    ParseFormat(0);
    ParseFormat(1);
    assert FormatInt(0) == "0" && FormatInt(1) == "1";
  }

  /** The texts the library's tests expect Parse to reject. */
  lemma ParseRejectedExamples()
    ensures Parse(Some("0")) == Err(Format)
    ensures Parse(Some("%windir%\\system32\\shell32.dll")) == Err(Format)
    ensures Parse(Some(",0")) == Err(Format)
  {
    ParseWithoutComma("0");
    ParseWithoutComma("%windir%\\system32\\shell32.dll");
    ParseEarlyComma(",0", 0);
  }

  /** The paths of the library's examples hold no comma and have at least two
      characters. */
  lemma ExamplePaths(path: string)
    requires path == "C:\\Windows\\System32\\shell32.dll" || path == "%windir%\\system32\\user32.dll"
    ensures |path| >= 2 && ',' !in path
  {
  }

  /** The texts the library's tests expect Parse to split, each given as its path, the
      comma and the index text. */
  lemma ParseAcceptedExample(path: string, s: string)
    requires path == "C:\\Windows\\System32\\shell32.dll" && s == path + "," + "0"
    ensures Parse(Some(s)) == Ok(IconLocation(path, 0))
  {
    ParseSmallIndexes();
    ExamplePaths(path);
    ParseAtFirstComma(path, "0");
  }

  lemma ParseAcceptedExampleWithVariable(path: string, s: string)
    requires path == "%windir%\\system32\\user32.dll" && s == path + "," + "1"
    ensures Parse(Some(s)) == Ok(IconLocation(path, 1))
  {
    ParseSmallIndexes();
    ExamplePaths(path);
    ParseAtFirstComma(path, "1");
  }
}
