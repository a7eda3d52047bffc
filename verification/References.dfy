/** Skill reference paths, the URIs that name them, and the manifest that lists them. */
module References {
  import opened Text
  import opened JsonValues

  // ---- percent encoding, for ASCII ----

  function HexValue(c: char): int
    requires IsHex(c)
  {
    if IsDigit(c) then c as int - '0' as int
    else if 'a' <= c <= 'f' then c as int - 'a' as int + 10
    else c as int - 'A' as int + 10
  }

  function HexDigit(n: int): (c: char)
    requires 0 <= n < 16
    ensures IsHex(c) && HexValue(c) == n
  {
    if n < 10 then ('0' as int + n) as char else ('A' as int + n - 10) as char
  }

  function Escaped(s: string): Option<char>
    requires s != "" && s[0] == '%'
  {
    if |s| < 3 || !IsHex(s[1]) || !IsHex(s[2]) then None
    else
      var code := 16 * HexValue(s[1]) + HexValue(s[2]);
      if code < 128 then Some(code as char) else None
  }

  /**
   decodeURIComponent, with None for a malformed escape and also for any escaped byte above 127: that
   is malformed too or part of a character no reference path may hold.
   */
  function Decode(s: string): Option<string> {
    if s == "" then Some("")
    else if s[0] != '%' then
      var rest := Decode(s[1..]);
      if rest.None? then None else Some([s[0]] + rest.value)
    else
      var c := Escaped(s);
      if c.None? then None
      else
        var rest := Decode(s[3..]);
        if rest.None? then None else Some([c.value] + rest.value)
  }

  /** What encodeURIComponent leaves alone. */
  predicate IsUnreserved(c: char) {
    IsAlnum(c) || c in { '-', '_', '.', '!', '~', '*', '\'', '(', ')' }
  }

  predicate IsAscii(s: string) { forall i | 0 <= i < |s| :: s[i] as int < 128 }

  predicate Plain(s: string) { forall i | 0 <= i < |s| :: IsUnreserved(s[i]) }

  function Encode(s: string): string
    requires IsAscii(s)
  {
    if s == "" then ""
    else
      (if IsUnreserved(s[0]) then [s[0]]
       else ['%', HexDigit(s[0] as int / 16), HexDigit(s[0] as int % 16)])
      + Encode(s[1..])
  }

  lemma {:induction false} DecodeInvertsEncode(s: string)
    requires IsAscii(s)
    ensures Decode(Encode(s)) == Some(s)
  {
    if s != "" {
      DecodeInvertsEncode(s[1..]);
      var c, e := s[0], Encode(s);
      if IsUnreserved(c) {
        assert e == [c] + Encode(s[1..]) && e[1..] == Encode(s[1..]) && c != '%';
        assert s == [c] + s[1..];
      } else {
        var hi, lo := HexDigit(c as int / 16), HexDigit(c as int % 16);
        assert e == ['%', hi, lo] + Encode(s[1..]) && e[3..] == Encode(s[1..]);
        assert Escaped(e) == Some(c);
        assert s == [c] + s[1..];
      }
    }
  }

  lemma {:induction false} PlainTextIsItsOwnCode(s: string)
    ensures '%' !in s ==> Decode(s) == Some(s)
    ensures Plain(s) ==> IsAscii(s) && Encode(s) == s
  {
    if s != "" {
      PlainTextIsItsOwnCode(s[1..]);
      assert s == [s[0]] + s[1..];
    }
  }

  // ---- paths ----

  const HOME := "references/"

  function Split(s: string): (r: seq<string>)
    ensures |r| >= 1
  {
    if s == "" then [""]
    else
      var rest := Split(s[1..]);
      if s[0] == '/' then [""] + rest else [[s[0]] + rest[0]] + rest[1..]
  }

  function Join(segments: seq<string>): string
    requires |segments| >= 1
  {
    if |segments| == 1 then segments[0] else segments[0] + "/" + Join(segments[1..])
  }

  lemma {:induction false} JoinInvertsSplit(s: string)
    ensures Join(Split(s)) == s
  {
    if s != "" {
      JoinInvertsSplit(s[1..]);
      var rest := Split(s[1..]);
      if s[0] == '/' {
        assert Split(s)[1..] == rest;
      } else {
        assert Split(s)[1..] == rest[1..];
      }
    }
  }

  /** `/^[A-Za-z0-9][A-Za-z0-9._-]*$/` */
  predicate SafeSegment(s: string) {
    s != "" && IsAlnum(s[0]) && forall c <- s :: IsAlnum(c) || c in { '.', '_', '-' }
  }

  predicate IsReferencePath(s: string) {
    && '\\' !in s && '\0' !in s && !StartsWith(s, "/")
    && |Split(s)| >= 2 && Split(s)[0] == "references"
    && forall segment <- Split(s) :: SafeSegment(segment) && segment != "." && segment != ".."
  }

  /** normalizeReferencePath; a value that is not text gives None. */
  function Normalize(value: Option<Json>): Option<string> {
    if value.Some? && value.value.Str? && Decode(value.value.s).Some? && IsReferencePath(Decode(value.value.s).value)
    then Some(Join(Split(Decode(value.value.s).value)))
    else None
  }

  predicate AllPlain(segments: seq<string>) { forall i | 0 <= i < |segments| :: Plain(segments[i]) }

  predicate PlainOrSlash(s: string) { forall i | 0 <= i < |s| :: s[i] == '/' || IsUnreserved(s[i]) }

  lemma PlainCons(c: char, s: string)
    ensures Plain([c] + s) <==> IsUnreserved(c) && Plain(s)
  {
    assert ([c] + s)[0] == c && forall i | 0 <= i < |s| :: ([c] + s)[i + 1] == s[i];
  }

  lemma AllPlainCons(s: string, segments: seq<string>)
    ensures AllPlain([s] + segments) <==> Plain(s) && AllPlain(segments)
  {
    assert ([s] + segments)[0] == s && forall i | 0 <= i < |segments| :: ([s] + segments)[i + 1] == segments[i];
  }

  lemma {:induction false} CharsOfSplit(s: string)
    ensures AllPlain(Split(s)) <==> PlainOrSlash(s)
  {
    if s != "" {
      var rest := Split(s[1..]);
      CharsOfSplit(s[1..]);
      assert PlainOrSlash(s) <==> (s[0] == '/' || IsUnreserved(s[0])) && PlainOrSlash(s[1..]);
      if s[0] == '/' {
        AllPlainCons("", rest);
      } else {
        PlainCons(s[0], rest[0]);
        AllPlainCons([s[0]] + rest[0], rest[1..]);
        AllPlainCons(rest[0], rest[1..]);
        assert rest == [rest[0]] + rest[1..];
      }
    }
  }

  lemma SafeSegmentsArePlain(segments: seq<string>)
    requires forall segment <- segments :: SafeSegment(segment)
    ensures AllPlain(segments)
  {
    forall i | 0 <= i < |segments| ensures Plain(segments[i]) {
      assert segments[i] in segments;
    }
  }

  /** A reference path is its own normal form: plain, ASCII, and under its directory. */
  lemma PathsAreNormal(p: string)
    requires IsReferencePath(p)
    ensures Normalize(Some(Str(p))) == Some(p)
    ensures PlainOrSlash(p)
    ensures StartsWith(p, HOME) && |p| > |HOME|
  {
    SafeSegmentsArePlain(Split(p));
    CharsOfSplit(p);
    PlainTextIsItsOwnCode(p);
    JoinInvertsSplit(p);
    assert SafeSegment(Split(p)[1]);
    assert p == "references" + "/" + Join(Split(p)[1..]);
  }

  /** Normalising twice is normalising once, and the result is a reference path. */
  lemma NormalizeIsIdempotent(value: Option<Json>)
    requires Normalize(value).Some?
    ensures IsReferencePath(Normalize(value).value)
    ensures Normalize(Some(Str(Normalize(value).value))) == Normalize(value)
  {
    JoinInvertsSplit(Decode(value.value.s).value);
    PathsAreNormal(Normalize(value).value);
  }

  /** Walking a path from a directory, as a file system does. */
  function Walk(dir: seq<string>, segments: seq<string>): seq<string>
    decreases |segments|
  {
    if segments == [] then dir
    else
      var next := segments[0];
      Walk(if next == "" || next == "." then dir
           else if next == ".." then (if dir == [] then [] else dir[..|dir| - 1])
           else dir + [next],
           segments[1..])
  }

  lemma {:induction false} SafeWalksDescend(dir: seq<string>, segments: seq<string>)
    requires forall segment <- segments :: SafeSegment(segment)
    ensures Walk(dir, segments) == dir + segments
    decreases |segments|
  {
    if segments != [] {
      assert SafeSegment(segments[0]);
      SafeWalksDescend(dir + [segments[0]], segments[1..]);
      assert dir + [segments[0]] + segments[1..] == dir + segments;
    }
  }

  /** A normalised path never leaves `references/`: from any directory, each of its steps goes down from there. */
  lemma PathsStayInside(value: Option<Json>, root: seq<string>, i: nat)
    requires Normalize(value).Some? && 1 <= i <= |Split(Normalize(value).value)|
    ensures var walked := Walk(root, Split(Normalize(value).value)[..i]);
            root + ["references"] <= walked && |walked| == |root| + i
  {
    NormalizeIsIdempotent(value);
    SafeWalksDescend(root, Split(Normalize(value).value)[..i]);
  }

  // ---- URIs ----

  const SCHEME := "opchain://skill/"
  const VERSION := "1"
  const MANIFEST := "manifest.json"
  const VERSIONED := "references/v"

  /** Where a skill's references begin. */
  function Base(skill: string): string { SCHEME + skill + "/" + (VERSIONED + VERSION + "/") }

  predicate AllAscii(segments: seq<string>) { forall i | 0 <= i < |segments| :: IsAscii(segments[i]) }

  function MapEncode(segments: seq<string>): (r: seq<string>)
    requires AllAscii(segments)
    ensures |r| == |segments|
  {
    if segments == [] then [] else [Encode(segments[0])] + MapEncode(segments[1..])
  }

  lemma {:induction false} PlainSegmentsEncodeAsThemselves(segments: seq<string>)
    requires AllPlain(segments)
    ensures AllAscii(segments) && MapEncode(segments) == segments
  {
    if segments != [] {
      PlainTextIsItsOwnCode(segments[0]);
      PlainSegmentsEncodeAsThemselves(segments[1..]);
      assert segments == [segments[0]] + segments[1..];
    }
  }

  lemma RelativePartIsPlain(value: Option<Json>)
    requires Normalize(value).Some?
    ensures var p := Normalize(value).value;
            StartsWith(p, HOME) && AllPlain(Split(p[|HOME|..])) && AllAscii(Split(p[|HOME|..]))
  {
    NormalizeIsIdempotent(value);
    var p := Normalize(value).value;
    PathsAreNormal(p);
    CharsOfSplit(p[|HOME|..]);
    PlainSegmentsEncodeAsThemselves(Split(p[|HOME|..]));
  }

  /** referenceUri. */
  function ReferenceUri(skill: string, path: Option<Json>): Option<string> {
    var safe := Normalize(path);
    if !IsSkillId(skill) || safe.None? then None
    else
      RelativePartIsPlain(path);
      Some(Base(skill) + Join(MapEncode(Split(safe.value[|HOME|..]))))
  }

  function ManifestUri(skill: string): Option<string> {
    if !IsSkillId(skill) then None else Some(Base(skill) + MANIFEST)
  }

  datatype Parsed = Manifest(skill: string) | Resource(skill: string, path: string, alias: bool)

  /** The text before and after the first slash. */
  function Cut(s: string): (r: Option<(string, string)>)
    ensures r.Some? ==> s == r.value.0 + ['/'] + r.value.1 && '/' !in r.value.0
    ensures r.None? ==> '/' !in s
  {
    if s == "" then None
    else if s[0] == '/' then Some(("", s[1..]))
    else
      var rest := Cut(s[1..]);
      if rest.None? then None else Some(([s[0]] + rest.value.0, rest.value.1))
  }

  /** `.+` to the end: no line terminator. */
  predicate OneLine(s: string) {
    s != "" && forall c <- s :: c !in { '\n', '\r', 0x2028 as char, 0x2029 as char }
  }

  /** `references/v(\d+)/(.+)`. */
  function Canonical(rest: string): Option<(string, string)> {
    if !StartsWith(rest, VERSIONED) then None
    else
      var cut := Cut(rest[|VERSIONED|..]);
      if cut.Some? && cut.value.0 != "" && (forall c <- cut.value.0 :: IsDigit(c)) && OneLine(cut.value.1)
      then cut else None
  }

  function Located(skill: string, path: string, alias: bool): Option<Parsed> {
    var safe := Normalize(Some(Str(path)));
    if safe.None? then None else Some(Resource(skill, safe.value, alias))
  }

  function ParseRest(skill: string, rest: string): Option<Parsed> {
    var canonical := Canonical(rest);
    if canonical.Some? then
      var (version, tail) := canonical.value;
      if version != VERSION then None
      else if tail == MANIFEST then Some(Manifest(skill))
      else Located(skill, HOME + tail, false)
    else if StartsWith(rest, HOME) && OneLine(rest[|HOME|..]) then Located(skill, rest, true)
    else None
  }

  /** parseReferenceUri. */
  function Parse(uri: string): Option<Parsed> {
    if !StartsWith(uri, SCHEME) then None
    else
      var cut := Cut(uri[|SCHEME|..]);
      if cut.Some? && IsSkillId(cut.value.0) then ParseRest(cut.value.0, cut.value.1) else None
  }

  // ---- printing, then parsing ----

  lemma CutAt(a: string, b: string)
    requires '/' !in a
    ensures Cut(a + ['/'] + b) == Some((a, b))
  {
    var s := a + ['/'] + b;
    assert s[|a|] == '/';
    SplitIsUnique(a, b, Cut(s).value.0, Cut(s).value.1, '/');
  }

  lemma ParsePrinted(skill: string, rest: string)
    requires IsSkillId(skill)
    ensures Parse(SCHEME + skill + "/" + rest) == ParseRest(skill, rest)
  {
    var uri := SCHEME + skill + "/" + rest;
    assert uri[|SCHEME|..] == skill + ['/'] + rest;
    assert '/' !in skill;
    CutAt(skill, rest);
  }

  lemma ParseVersioned(skill: string, tail: string)
    requires IsSkillId(skill) && OneLine(tail)
    ensures Parse(Base(skill) + tail)
            == if tail == MANIFEST then Some(Manifest(skill)) else Located(skill, HOME + tail, false)
  {
    var rest := VERSIONED + VERSION + "/" + tail;
    assert Base(skill) + tail == SCHEME + skill + "/" + rest;
    ParsePrinted(skill, rest);
    assert rest[|VERSIONED|..] == VERSION + ['/'] + tail;
    CutAt(VERSION, tail);
  }

  /** A printed URI carries the path as it stands. */
  lemma PrintedUri(skill: string, path: Option<Json>)
    requires IsSkillId(skill) && Normalize(path).Some?
    ensures var p := Normalize(path).value;
            && StartsWith(p, HOME) && OneLine(p[|HOME|..]) && HOME + p[|HOME|..] == p
            && ReferenceUri(skill, path) == Some(Base(skill) + p[|HOME|..])
  {
    NormalizeIsIdempotent(path);
    PathsAreNormal(Normalize(path).value);
    RelativePartIsPlain(path);
    var tail := Normalize(path).value[|HOME|..];
    PlainSegmentsEncodeAsThemselves(Split(tail));
    JoinInvertsSplit(tail);
    PlainIsOneLine(tail);
  }

  lemma PlainIsOneLine(s: string)
    requires s != "" && PlainOrSlash(s)
    ensures OneLine(s)
  {
  }

  /**
   A printed URI parses back to its skill and normalised path, exactly when the path is not the one
   name kept for the manifest; there it parses as the manifest.
   */
  lemma ParseInvertsPrint(skill: string, path: Option<Json>)
    requires IsSkillId(skill) && Normalize(path).Some?
    ensures ReferenceUri(skill, path).Some?
    ensures var p := Normalize(path).value;
            && (Parse(ReferenceUri(skill, path).value) == Some(Resource(skill, p, false)) <==> p != HOME + MANIFEST)
            && (p == HOME + MANIFEST ==>
                  ReferenceUri(skill, path) == ManifestUri(skill)
                  && Parse(ReferenceUri(skill, path).value) == Some(Manifest(skill)))
  {
    PrintedUri(skill, path);
    NormalizeIsIdempotent(path);
    var tail := Normalize(path).value[|HOME|..];
    ParseVersioned(skill, tail);
  }

  lemma OneSafeSegmentIsAPath(name: string)
    requires SafeSegment(name)
    ensures IsReferencePath(HOME + name)
  {
    var p := HOME + name;
    assert '/' !in name && '\\' !in name && '\0' !in name;
    NoSlash(name);
    assert p == "references" + ['/'] + name;
    SplitAtSlash("references", name);
  }

  /** The name the round trip loses is one a file may have. */
  lemma ManifestNameIsTaken()
    ensures Normalize(Some(Str(HOME + MANIFEST))) == Some(HOME + MANIFEST)
    ensures ReferenceUri("plan", Some(Str(HOME + MANIFEST))) == ManifestUri("plan")
  {
    assert SafeSegment(MANIFEST) && IsSkillId("plan");
    OneSafeSegmentIsAPath(MANIFEST);
    PathsAreNormal(HOME + MANIFEST);
    ParseInvertsPrint("plan", Some(Str(HOME + MANIFEST)));
  }

  lemma {:induction false} NoSlash(s: string)
    requires '/' !in s
    ensures Split(s) == [s]
  {
    if s != "" {
      NoSlash(s[1..]);
      assert s == [s[0]] + s[1..];
    }
  }

  lemma {:induction false} SplitAtSlash(a: string, b: string)
    requires '/' !in a
    ensures Split(a + ['/'] + b) == [a] + Split(b)
  {
    var s := a + ['/'] + b;
    if a == "" {
      assert s[1..] == b;
    } else {
      assert s[1..] == a[1..] + ['/'] + b;
      SplitAtSlash(a[1..], b);
      assert a == [a[0]] + a[1..];
      assert ([a[1..]] + Split(b))[1..] == Split(b);
    }
  }

  /** A skill, a fixed middle and a tail are determined by their whole. */
  lemma PartsOfUri(skill: string, tail: string, skill': string, tail': string, mid: string)
    requires '/' !in skill && '/' !in skill'
    requires SCHEME + skill + "/" + mid + tail == SCHEME + skill' + "/" + mid + tail'
    ensures skill == skill' && tail == tail'
  {
    var uri := SCHEME + skill + "/" + mid + tail;
    assert uri[|SCHEME|..] == skill + ['/'] + (mid + tail);
    assert uri[|SCHEME|..] == skill' + ['/'] + (mid + tail');
    SplitIsUnique(skill, mid + tail, skill', mid + tail', '/');
    assert tail == (mid + tail)[|mid|..] && tail' == (mid + tail')[|mid|..];
  }

  /** Distinct resources have distinct URIs. */
  lemma UrisAreInjective(skill: string, path: Option<Json>, skill': string, path': Option<Json>)
    requires ReferenceUri(skill, path).Some? && ReferenceUri(skill, path) == ReferenceUri(skill', path')
    ensures skill == skill' && Normalize(path) == Normalize(path')
  {
    PrintedUri(skill, path);
    PrintedUri(skill', path');
    var p, p' := Normalize(path).value, Normalize(path').value;
    SkillHasNoSlash(skill);
    SkillHasNoSlash(skill');
    PartsOfUri(skill, p[|HOME|..], skill', p'[|HOME|..], VERSIONED + VERSION + "/");
  }

  lemma SkillHasNoSlash(skill: string)
    requires IsSkillId(skill)
    ensures '/' !in skill
  {
  }

  // ---- parsing, then printing ----

  lemma CutSkill(uri: string)
    requires Parse(uri).Some?
    ensures IsSkillId(Parse(uri).value.skill)
    ensures Parse(uri).value.Resource? ==>
      exists raw: string :: Normalize(Some(Str(raw))) == Some(Parse(uri).value.path)
  {
    var cut := Cut(uri[|SCHEME|..]).value;
    var rest := cut.1;
    if Canonical(rest).Some? {
      assert Parse(uri).value.Resource? ==>
        Normalize(Some(Str(HOME + Canonical(rest).value.1))) == Some(Parse(uri).value.path);
    } else {
      assert Normalize(Some(Str(rest))) == Some(Parse(uri).value.path);
    }
  }

  /** The URI a parsed one is rewritten to. */
  function CanonicalUri(parsed: Parsed): Option<string> {
    match parsed
    case Manifest(skill) => ManifestUri(skill)
    case Resource(skill, path, _) => ReferenceUri(skill, Some(Str(path)))
  }

  /**
   Whatever parses has a canonical URI, and that one parses to the same resource; again the exception
   is an alias spelling of the file called manifest.json.
   */
  lemma CanonicalFormsAgree(uri: string)
    requires Parse(uri).Some?
    ensures CanonicalUri(Parse(uri).value).Some?
    ensures var parsed := Parse(uri).value;
            var again := Parse(CanonicalUri(parsed).value);
            match parsed
            case Manifest(skill) => again == Some(Manifest(skill))
            case Resource(skill, path, _) => again == Some(Resource(skill, path, false)) <==> path != HOME + MANIFEST
  {
    CutSkill(uri);
    match Parse(uri).value
    case Manifest(skill) =>
      ParseVersioned(skill, MANIFEST);
    case Resource(skill, path, _) =>
      var raw: string :| Normalize(Some(Str(raw))) == Some(path);
      NormalizeIsIdempotent(Some(Str(raw)));
      ParseInvertsPrint(skill, Some(Str(path)));
  }

  // ---- which URIs parse, and to what ----

  /** Normalising decodes, and lets exactly the reference paths through. */
  lemma NormalizeIsExact(value: Option<Json>, p: string)
    ensures Normalize(value) == Some(p) <==>
      value.Some? && value.value.Str? && Decode(value.value.s) == Some(p) && IsReferencePath(p)
  {
    if value.Some? && value.value.Str? && Decode(value.value.s).Some? { JoinInvertsSplit(Decode(value.value.s).value); }
  }

  /** `references/v`, a number, and more: what the first pattern takes, whatever the version. */
  ghost predicate IsVersioned(rest: string) {
    exists v: string, tail: string ::
      rest == VERSIONED + v + "/" + tail && v != "" && (forall c <- v :: IsDigit(c)) && OneLine(tail)
  }

  lemma CanonicalIsVersioned(rest: string)
    ensures Canonical(rest).Some? <==> IsVersioned(rest)
    ensures Canonical(rest).Some? ==> rest == VERSIONED + Canonical(rest).value.0 + "/" + Canonical(rest).value.1
  {
    if Canonical(rest).Some? {
      var (v, tail) := Canonical(rest).value;
      assert rest == VERSIONED + v + "/" + tail;
    }
    if v: string, tail: string :| rest == VERSIONED + v + "/" + tail && v != "" && (forall c <- v :: IsDigit(c))
                                  && OneLine(tail) {
      assert rest[|VERSIONED|..] == v + ['/'] + tail;
      CutAt(v, tail);
    }
  }

  /** The URI of a tail under the current version. */
  predicate IsCanonicalUri(uri: string, skill: string, tail: string) {
    IsSkillId(skill) && OneLine(tail) && uri == SCHEME + skill + "/" + (VERSIONED + VERSION + "/") + tail
  }

  /** The unversioned URI of a tail. */
  ghost predicate IsAlias(uri: string, skill: string, tail: string) {
    IsSkillId(skill) && OneLine(tail) && !IsVersioned(HOME + tail) && uri == SCHEME + skill + "/" + (HOME + tail)
  }

  ghost predicate Reads(uri: string, parsed: Parsed) {
    match parsed
    case Manifest(skill) => IsCanonicalUri(uri, skill, MANIFEST)
    case Resource(skill, path, alias) =>
      if alias then exists tail :: IsAlias(uri, skill, tail) && Normalize(Some(Str(HOME + tail))) == Some(path)
      else exists tail :: tail != MANIFEST && IsCanonicalUri(uri, skill, tail)
                          && Normalize(Some(Str(HOME + tail))) == Some(path)
  }

  /** A URI parses to exactly what it reads as: the manifest, a versioned path, or an unversioned alias of one. */
  lemma ParseIsExact(uri: string, parsed: Parsed)
    ensures Parse(uri) == Some(parsed) <==> Reads(uri, parsed)
  {
    if Parse(uri) == Some(parsed) { ParsedIsRead(uri, parsed); }
    if Reads(uri, parsed) { ReadIsParsed(uri, parsed); }
  }

  lemma ReadIsParsed(uri: string, parsed: Parsed)
    requires Reads(uri, parsed)
    ensures Parse(uri) == Some(parsed)
  {
    match parsed
    case Manifest(skill) => ParseVersioned(skill, MANIFEST);
    case Resource(skill, path, alias) =>
      if alias {
        var tail :| IsAlias(uri, skill, tail) && Normalize(Some(Str(HOME + tail))) == Some(path);
        ParsePrinted(skill, HOME + tail);
        CanonicalIsVersioned(HOME + tail);
        AliasTail(tail);
      } else {
        var tail :| tail != MANIFEST && IsCanonicalUri(uri, skill, tail)
                    && Normalize(Some(Str(HOME + tail))) == Some(path);
        ParseVersioned(skill, tail);
      }
  }

  lemma AliasTail(tail: string)
    ensures StartsWith(HOME + tail, HOME) && (HOME + tail)[|HOME|..] == tail
  {
  }

  lemma ParsedIsRead(uri: string, parsed: Parsed)
    requires Parse(uri) == Some(parsed)
    ensures Reads(uri, parsed)
  {
    var (skill, rest) := Cut(uri[|SCHEME|..]).value;
    assert uri == SCHEME + skill + "/" + rest;
    CanonicalIsVersioned(rest);
    if Canonical(rest).Some? {
      var tail := Canonical(rest).value.1;
      assert uri == SCHEME + skill + "/" + (VERSIONED + VERSION + "/") + tail;
      assert IsCanonicalUri(uri, skill, tail);
    } else {
      var tail := rest[|HOME|..];
      assert rest == HOME + tail;
      assert IsAlias(uri, skill, tail);
    }
  }

  // ---- the manifest ----

  type Comparator = (string, string) -> bool

  /** A total preorder, as localeCompare(..) <= 0 is. */
  ghost predicate TotalPreorder(le: Comparator) {
    && (forall a: string, b: string :: le(a, b) || le(b, a))
    && (forall a: string, b: string, c: string :: le(a, b) && le(b, c) ==> le(a, c))
  }

  datatype File = File(path: string, uri: Option<string>, mimeType: Json)

  /** The path of an entry that is itself a text, or of an item. */
  function PathOf(entry: Json): Option<string> {
    Normalize(if entry.Str? then Some(entry) else Prop(Some(entry), "path"))
  }

  function FileOf(skill: string, entry: Json): File
    requires PathOf(entry).Some?
  {
    var path := PathOf(entry).value;
    var given := Prop(Some(entry), "mimeType");
    File(path, ReferenceUri(skill, Some(Str(path))),
         if Truthy(given) then given.value
         else Str(if EndsWith(path, ".json") then "application/json" else "text/markdown"))
  }

  /** An entry's own type if it names one; else JSON for a .json path and Markdown for any other. */
  lemma TypesAreThese(skill: string, entry: Json)
    requires PathOf(entry).Some?
    ensures var f := FileOf(skill, entry);
            && f.path == PathOf(entry).value
            && (Truthy(Prop(Some(entry), "mimeType")) ==> Prop(Some(entry), "mimeType") == Some(f.mimeType))
            && (entry.Str? && EndsWith(f.path, ".json") ==> f.mimeType == Str("application/json"))
            && (entry.Str? && !EndsWith(f.path, ".json") ==> f.mimeType == Str("text/markdown"))
  {
  }

  /** The files of a manifest before they are sorted: the first entry of each path. */
  function Firsts(skill: string, entries: seq<Json>): seq<File> {
    if entries == [] then []
    else
      var before, entry := Firsts(skill, entries[..|entries| - 1]), entries[|entries| - 1];
      if PathOf(entry).None? || Listed(before, PathOf(entry).value) then before
      else before + [FileOf(skill, entry)]
  }

  predicate Listed(files: seq<File>, path: string) { exists f <- files :: f.path == path }

  predicate DistinctPaths(files: seq<File>) {
    forall i, j | 0 <= i < j < |files| :: files[i].path != files[j].path
  }

  /** The first entry of its path. */
  predicate FirstOf(entries: seq<Json>, i: nat)
    requires i < |entries|
  {
    PathOf(entries[i]).Some? && forall k | 0 <= k < i :: PathOf(entries[k]) != PathOf(entries[i])
  }

  /** Firsts lists each path once, and exactly the paths that entries have. */
  lemma {:induction false} FirstsListEachPath(skill: string, entries: seq<Json>)
    ensures DistinctPaths(Firsts(skill, entries))
    ensures forall p :: Listed(Firsts(skill, entries), p) <==> HasPath(entries, p)
  {
    if entries != [] {
      var shorter, entry := entries[..|entries| - 1], entries[|entries| - 1];
      FirstsListEachPath(skill, shorter);
      forall p ensures HasPath(entries, p) <==> HasPath(shorter, p) || PathOf(entry) == Some(p) {
        HasPathAppend(shorter, entry, p);
      }
      var before := Firsts(skill, shorter);
      if PathOf(entry).Some? && !Listed(before, PathOf(entry).value) {
        forall p ensures Listed(before + [FileOf(skill, entry)], p) <==> Listed(before, p) || PathOf(entry) == Some(p) {
          ListedAppend(before, FileOf(skill, entry), p);
        }
      }
    }
  }

  predicate HasPath(entries: seq<Json>, p: string) { exists e <- entries :: PathOf(e) == Some(p) }

  lemma HasPathAppend(shorter: seq<Json>, entry: Json, p: string)
    ensures shorter + [entry] == (shorter + [entry])[..|shorter|] + [entry]
    ensures HasPath(shorter + [entry], p) <==> HasPath(shorter, p) || PathOf(entry) == Some(p)
  {
    if HasPath(shorter, p) {
      var e :| e in shorter && PathOf(e) == Some(p);
      assert e in shorter + [entry];
    }
    assert entry in shorter + [entry];
  }

  predicate ComesFrom(skill: string, entries: seq<Json>, f: File) {
    exists i :: 0 <= i < |entries| && FirstOf(entries, i) && f == FileOf(skill, entries[i])
  }

  /** And each file of it is made from the first entry of its path. */
  lemma {:induction false} FirstsComeFirst(skill: string, entries: seq<Json>)
    ensures forall f <- Firsts(skill, entries) :: ComesFrom(skill, entries, f)
  {
    if entries != [] {
      var shorter, entry := entries[..|entries| - 1], entries[|entries| - 1];
      var before := Firsts(skill, shorter);
      FirstsComeFirst(skill, shorter);
      FirstsListEachPath(skill, shorter);
      assert entries == shorter + [entry];
      forall f <- before ensures ComesFrom(skill, entries, f) {
        ComesFromLonger(skill, shorter, entry, f);
      }
      if PathOf(entry).Some? && !Listed(before, PathOf(entry).value) {
        NoneBefore(shorter, entry);
        ComesLast(skill, entries);
      }
    }
  }

  lemma ComesFromLonger(skill: string, shorter: seq<Json>, entry: Json, f: File)
    requires ComesFrom(skill, shorter, f)
    ensures ComesFrom(skill, shorter + [entry], f)
  {
    var i :| 0 <= i < |shorter| && FirstOf(shorter, i) && f == FileOf(skill, shorter[i]);
    assert FirstOf(shorter + [entry], i);
  }

  lemma ComesLast(skill: string, entries: seq<Json>)
    requires entries != [] && FirstOf(entries, |entries| - 1)
    ensures ComesFrom(skill, entries, FileOf(skill, entries[|entries| - 1]))
  {
  }

  lemma NoneBefore(shorter: seq<Json>, entry: Json)
    requires PathOf(entry).Some? && !HasPath(shorter, PathOf(entry).value)
    ensures FirstOf(shorter + [entry], |shorter|)
  {
    forall k | 0 <= k < |shorter| ensures PathOf(shorter[k]) != PathOf(entry) {
      assert shorter[k] in shorter;
    }
  }

  lemma ListedAppend(files: seq<File>, f: File, p: string)
    ensures Listed(files + [f], p) <==> Listed(files, p) || f.path == p
  {
    if Listed(files, p) {
      var g :| g in files && g.path == p;
      assert g in files + [f];
    }
    assert f in files + [f];
  }

  predicate InOrder(le: Comparator, files: seq<File>) {
    forall i, j | 0 <= i < j < |files| :: le(files[i].path, files[j].path)
  }

  /** One step of a stable sort: `f` before everything it is not after. */
  function Place(le: Comparator, f: File, files: seq<File>): (r: seq<File>)
    ensures multiset(r) == multiset(files) + multiset{f}
  {
    if files == [] || le(f.path, files[0].path) then [f] + files
    else
      assert files == [files[0]] + files[1..];
      [files[0]] + Place(le, f, files[1..])
  }

  function Sort(le: Comparator, files: seq<File>): (r: seq<File>)
    ensures multiset(r) == multiset(files)
  {
    if files == [] then []
    else
      assert files == [files[0]] + files[1..];
      Place(le, files[0], Sort(le, files[1..]))
  }

  lemma {:induction false} PlaceKeepsOrder(le: Comparator, f: File, files: seq<File>)
    requires TotalPreorder(le) && InOrder(le, files)
    ensures InOrder(le, Place(le, f, files))
  {
    if files == [] {
    } else if le(f.path, files[0].path) {
      forall j | 0 < j < |files| ensures le(f.path, files[j].path) {
        assert le(files[0].path, files[j].path);
      }
    } else {
      var rest := Place(le, f, files[1..]);
      PlaceKeepsOrder(le, f, files[1..]);
      forall j | 0 <= j < |rest| ensures le(files[0].path, rest[j].path) {
        assert rest[j] in multiset(rest);
        if rest[j] != f {
          assert rest[j] in files[1..];
        }
      }
    }
  }

  lemma {:induction false} SortOrders(le: Comparator, files: seq<File>)
    requires TotalPreorder(le)
    ensures InOrder(le, Sort(le, files))
  {
    if files != [] {
      SortOrders(le, files[1..]);
      PlaceKeepsOrder(le, files[0], Sort(le, files[1..]));
    }
  }

  /** buildReferenceManifest's files; None where it throws. */
  method BuildManifest(le: Comparator, skill: string, entries: seq<Json>) returns (r: Option<seq<File>>)
    ensures r == if IsSkillId(skill) then Some(Sort(le, Firsts(skill, entries))) else None
  {
    if !IsSkillId(skill) { return None; }
    var files: seq<File> := [];
    var seen: set<string> := {};
    for i := 0 to |entries|
      invariant files == Firsts(skill, entries[..i])
      invariant seen == set f <- files :: f.path
    {
      assert entries[..i + 1][..i] == entries[..i];
      var path := PathOf(entries[i]);
      if path.None? || path.value in seen { continue; }
      seen := seen + { path.value };
      files := files + [FileOf(skill, entries[i])];
    }
    assert entries[..|entries|] == entries;
    r := Some(Sort(le, files));
  }

  /**
   A manifest is sorted, lists exactly the paths its entries normalise to, each once and from its
   first entry, and every URI in it parses back to its file.
   */
  lemma ManifestIsExact(le: Comparator, skill: string, entries: seq<Json>)
    requires TotalPreorder(le) && IsSkillId(skill)
    ensures var files := Sort(le, Firsts(skill, entries));
            && InOrder(le, files)
            && DistinctPaths(files)
            && (forall p :: Listed(files, p) <==> HasPath(entries, p))
            && (forall f <- files :: ComesFrom(skill, entries, f))
            && (forall f <- files | f.path != HOME + MANIFEST ::
                  f.uri.Some? && Parse(f.uri.value) == Some(Resource(skill, f.path, false)))
  {
    var firsts := Firsts(skill, entries);
    var files := Sort(le, firsts);
    SortOrders(le, firsts);
    FirstsListEachPath(skill, entries);
    FirstsComeFirst(skill, entries);
    DistinctAnyOrder(firsts, files);
    forall f ensures f in files <==> f in firsts { SameMembers(firsts, files, f); }
    forall f <- files | f.path != HOME + MANIFEST
      ensures f.uri.Some? && Parse(f.uri.value) == Some(Resource(skill, f.path, false))
    {
      var i :| 0 <= i < |entries| && FirstOf(entries, i) && f == FileOf(skill, entries[i]);
      ListedUriParses(skill, entries[i]);
    }
  }

  lemma ListedUriParses(skill: string, entry: Json)
    requires IsSkillId(skill) && PathOf(entry).Some? && PathOf(entry).value != HOME + MANIFEST
    ensures var f := FileOf(skill, entry);
            f.uri.Some? && Parse(f.uri.value) == Some(Resource(skill, f.path, false))
  {
    NormalizeIsIdempotent(if entry.Str? then Some(entry) else Prop(Some(entry), "path"));
    ParseInvertsPrint(skill, Some(Str(PathOf(entry).value)));
  }

  lemma SameMembers(s: seq<File>, t: seq<File>, f: File)
    requires multiset(s) == multiset(t)
    ensures f in s <==> f in t
  {
    assert f in s <==> f in multiset(s);
    assert f in t <==> f in multiset(t);
  }

  lemma {:induction false} DistinctAnyOrder(s: seq<File>, t: seq<File>)
    requires multiset(s) == multiset(t) && DistinctPaths(s)
    ensures DistinctPaths(t)
  {
    forall i, j | 0 <= i < j < |t| ensures t[i].path != t[j].path {
      assert multiset(t) == multiset(t[..j]) + multiset(t[j..]) by { assert t == t[..j] + t[j..]; }
      assert t[i] in t[..j] && t[j] in t[j..];
      SameMembers(s, t, t[i]);
      SameMembers(s, t, t[j]);
      OncePerPath(s, t[i]);
    }
  }

  lemma OncePerPath(s: seq<File>, f: File)
    requires DistinctPaths(s) && f in s
    ensures multiset(s)[f] == 1
    ensures forall g <- s :: g.path == f.path ==> g == f
  {
    var k :| 0 <= k < |s| && s[k] == f;
    assert s == s[..k] + [f] + s[k + 1..];
    assert f !in s[..k] && f !in s[k + 1..];
    assert multiset(s) == multiset(s[..k]) + multiset{f} + multiset(s[k + 1..]);
  }

  function Paths(files: seq<File>): (r: seq<string>)
    ensures |r| == |files| && forall i | 0 <= i < |files| :: r[i] == files[i].path
  {
    if files == [] then [] else [files[0].path] + Paths(files[1..])
  }

  /** Where the comparator tells all texts apart, the listed paths do not depend on the order of the entries. */
  lemma ManifestIgnoresOrder(le: Comparator, skill: string, entries: seq<Json>, entries': seq<Json>)
    requires TotalPreorder(le) && forall a: string, b: string :: le(a, b) && le(b, a) ==> a == b
    requires IsSkillId(skill) && forall p :: HasPath(entries, p) <==> HasPath(entries', p)
    ensures Paths(Sort(le, Firsts(skill, entries))) == Paths(Sort(le, Firsts(skill, entries')))
  {
    ManifestIsExact(le, skill, entries);
    ManifestIsExact(le, skill, entries');
    OneSortedListing(le, Sort(le, Firsts(skill, entries)), Sort(le, Firsts(skill, entries')));
  }

  lemma {:induction false} OneSortedListing(le: Comparator, s: seq<File>, t: seq<File>)
    requires TotalPreorder(le) && forall a: string, b: string :: le(a, b) && le(b, a) ==> a == b
    requires InOrder(le, s) && InOrder(le, t) && DistinctPaths(s) && DistinctPaths(t)
    requires forall p :: Listed(s, p) <==> Listed(t, p)
    ensures Paths(s) == Paths(t)
  {
    if s == [] {
      if t != [] { assert t[0] in t && Listed(t, t[0].path); }
    } else {
      assert s[0] in s && Listed(s, s[0].path);
      assert t != [] && t[0] in t && Listed(t, t[0].path);
      FirstIsLeast(le, s, t[0].path);
      FirstIsLeast(le, t, s[0].path);
      forall p ensures Listed(s[1..], p) <==> Listed(t[1..], p) {
        ListedTail(s, p);
        ListedTail(t, p);
      }
      OneSortedListing(le, s[1..], t[1..]);
    }
  }

  lemma FirstIsLeast(le: Comparator, s: seq<File>, p: string)
    requires TotalPreorder(le) && InOrder(le, s) && Listed(s, p)
    ensures le(s[0].path, p)
  {
    var f :| f in s && f.path == p;
    var i :| 0 <= i < |s| && s[i] == f;
    assert le(s[0].path, s[0].path);
  }

  lemma ListedTail(s: seq<File>, p: string)
    requires s != [] && DistinctPaths(s)
    ensures Listed(s[1..], p) <==> Listed(s, p) && p != s[0].path
  {
    if Listed(s[1..], p) {
      var f :| f in s[1..] && f.path == p;
      assert f in s;
    }
  }
}
