/** Values and small text facts shared by the whole model. */
module Text {
  datatype Option<+T> = None | Some(value: T)

  predicate IsDigit(c: char) { '0' <= c <= '9' }
  predicate IsLower(c: char) { 'a' <= c <= 'z' }
  predicate IsUpper(c: char) { 'A' <= c <= 'Z' }
  predicate IsAlnum(c: char) { IsDigit(c) || IsLower(c) || IsUpper(c) }
  predicate IsHex(c: char) { IsDigit(c) || 'a' <= c <= 'f' || 'A' <= c <= 'F' }

  /** The characters String.prototype.trim strips. */
  predicate IsSpace(c: char) {
    || 9 as char <= c <= 13 as char
    || c in { ' ', 0xA0 as char, 0x1680 as char, 0x2028 as char, 0x2029 as char,
              0x202F as char, 0x205F as char, 0x3000 as char, 0xFEFF as char }
    || 0x2000 as char <= c <= 0x200A as char
  }

  /** `s.trim() === ""` */
  predicate Blank(s: string) { forall c <- s :: IsSpace(c) }

  /** `/^[a-z][a-z0-9-]*$/` */
  predicate IsSkillId(s: string) {
    |s| > 0 && IsLower(s[0]) && forall c <- s :: IsLower(c) || IsDigit(c) || c == '-'
  }

  /** The case-insensitive version-4 UUID shape the servers test ids against. */
  predicate IsUuidV4(s: string) {
    && |s| == 36
    && s[8] == s[13] == s[18] == s[23] == '-'
    && s[14] == '4'
    && s[19] in { '8', '9', 'a', 'b', 'A', 'B' }
    && forall i | 0 <= i < 36 && i !in { 8, 13, 18, 23 } :: IsHex(s[i])
  }

  predicate StartsWith(s: string, prefix: string) { prefix <= s }

  predicate EndsWith(s: string, suffix: string) {
    |suffix| <= |s| && s[|s| - |suffix|..] == suffix
  }

  /** Equal wholes with equal ends have equal fronts. */
  lemma CancelSuffix(a: string, b: string, suffix: string)
    requires a + suffix == b + suffix
    ensures a == b
  {
    assert |a| == |b|;
    assert a == (a + suffix)[..|a|];
    assert b == (b + suffix)[..|b|];
  }

  /** Equal wholes whose tails have one length have equal tails and fronts. */
  lemma CancelEqualTails(a: string, x: string, b: string, y: string)
    requires a + x == b + y && |x| == |y|
    ensures a == b && x == y
  {
    assert |a| == |b|;
    assert a == (a + x)[..|a|] && b == (b + y)[..|b|];
    assert x == (a + x)[|a|..] && y == (b + y)[|b|..];
  }

  /** A separator that occurs in neither head determines the split. */
  lemma SplitIsUnique(a: string, x: string, b: string, y: string, sep: char)
    requires a + [sep] + x == b + [sep] + y
    requires sep !in a && sep !in b
    ensures a == b && x == y
  {
    var whole := a + [sep] + x;
    assert whole[|a|] == sep;
    assert whole == b + [sep] + y;
    assert whole[|b|] == sep;
    assert !(|a| < |b|);
    assert !(|b| < |a|);
    CancelEqualTails(a + [sep], x, b + [sep], y);
    CancelSuffix(a, b, [sep]);
  }

  // ---- the code-unit order of Array.prototype.sort ----

  predicate Less(a: string, b: string) {
    if b == [] then false
    else if a == [] then true
    else if a[0] != b[0] then a[0] < b[0]
    else Less(a[1..], b[1..])
  }

  lemma {:induction false} LessIsTransitive(a: string, b: string, c: string)
    requires Less(a, b) && Less(b, c)
    ensures Less(a, c)
  {
    if a != [] && a[0] == b[0] && b[0] == c[0] {
      LessIsTransitive(a[1..], b[1..], c[1..]);
    }
  }

  lemma {:induction false} LessIsTotal(a: string, b: string)
    ensures a == b || Less(a, b) || Less(b, a)
    ensures !(Less(a, b) && Less(b, a))
    ensures !Less(a, a)
  {
    if a != [] && b != [] && a[0] == b[0] {
      LessIsTotal(a[1..], b[1..]);
      assert a == [a[0]] + a[1..] && b == [b[0]] + b[1..];
    }
    if a != [] {
      LessIsTotal(a[1..], a[1..]);
    }
  }

  predicate StrictlySorted(s: seq<string>) {
    forall i, j | 0 <= i < j < |s| :: Less(s[i], s[j])
  }

  /** The place-and-keep step of a sorted set of strings. */
  function Insert(x: string, s: seq<string>): (r: seq<string>)
    requires StrictlySorted(s)
    ensures StrictlySorted(r)
    ensures forall y :: y in r <==> y == x || y in s
  {
    if s == [] then [x]
    else if x == s[0] then s
    else if Less(x, s[0]) then
      assert forall j | 0 < j < |s| :: Less(x, s[j]) by {
        forall j | 0 < j < |s| ensures Less(x, s[j]) { LessIsTransitive(x, s[0], s[j]); }
      }
      [x] + s
    else
      var rest := Insert(x, s[1..]);
      assert Less(s[0], x) by { LessIsTotal(x, s[0]); }
      assert s == [s[0]] + s[1..];
      assert forall y | y in rest :: Less(s[0], y);
      [s[0]] + rest
  }

  /** `[...new Set(s)].sort()` */
  function SortedSet(s: seq<string>): (r: seq<string>)
    ensures StrictlySorted(r)
    ensures forall y :: y in r <==> y in s
  {
    if s == [] then []
    else
      assert s == [s[0]] + s[1..];
      Insert(s[0], SortedSet(s[1..]))
  }
}
