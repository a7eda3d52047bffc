/** Hosted session tokens: `<uuid>.<unpadded base64url of a 32-byte MAC>`. */
module SessionToken {
  import opened Text
  import opened JsonValues

  type Byte = n: nat | n < 256
  type Sextet = n: nat | n < 64

  // ---- base64url without padding (section 5 of RFC 4648) ----

  function CharOf(n: Sextet): char {
    if n < 26 then 'A' + n as char
    else if n < 52 then 'a' + (n - 26) as char
    else if n < 62 then '0' + (n - 52) as char
    else if n == 62 then '-'
    else '_'
  }

  predicate InAlphabet(c: char) { IsAlnum(c) || c == '-' || c == '_' }

  function ValueOf(c: char): Sextet
    requires InAlphabet(c)
  {
    if IsUpper(c) then (c - 'A') as nat
    else if IsLower(c) then (c - 'a') as nat + 26
    else if IsDigit(c) then (c - '0') as nat + 52
    else if c == '-' then 62
    else 63
  }

  function Sextets(bytes: seq<Byte>): seq<Sextet> {
    if |bytes| == 0 then []
    else if |bytes| == 1 then [bytes[0] / 4, bytes[0] % 4 * 16]
    else if |bytes| == 2 then [bytes[0] / 4, bytes[0] % 4 * 16 + bytes[1] / 16, bytes[1] % 16 * 4]
    else
      [bytes[0] / 4, bytes[0] % 4 * 16 + bytes[1] / 16, bytes[1] % 16 * 4 + bytes[2] / 64, bytes[2] % 64]
      + Sextets(bytes[3..])
  }

  // The octets of a group of four sextets.
  function Octet0(a: Sextet, b: Sextet): Byte { var x: int, y: int := a, b; x * 4 + y / 16 }
  function Octet1(b: Sextet, c: Sextet): Byte { var x: int, y: int := b, c; x % 16 * 16 + y / 4 }
  function Octet2(c: Sextet, d: Sextet): Byte { var x: int, y: int := c, d; x % 4 * 64 + y }

  /** Leftover bits are dropped, as atob drops them. */
  function Bytes(sextets: seq<Sextet>): seq<Byte> {
    if |sextets| < 2 then []
    else if |sextets| == 2 then [Octet0(sextets[0], sextets[1])]
    else if |sextets| == 3 then [Octet0(sextets[0], sextets[1]), Octet1(sextets[1], sextets[2])]
    else
      [Octet0(sextets[0], sextets[1]), Octet1(sextets[1], sextets[2]), Octet2(sextets[2], sextets[3])]
      + Bytes(sextets[4..])
  }

  function Spell(sextets: seq<Sextet>): string { seq(|sextets|, i requires 0 <= i < |sextets| => CharOf(sextets[i])) }

  function Unspell(s: string): seq<Sextet>
    requires forall c <- s :: InAlphabet(c)
  {
    seq(|s|, i requires 0 <= i < |s| => ValueOf(s[i]))
  }

  function Encode(bytes: seq<Byte>): string { Spell(Sextets(bytes)) }

  /** None when atob would throw on url-alphabet text; other characters are not part of this model. */
  function Decode(s: string): Option<seq<Byte>> {
    if (forall c <- s :: InAlphabet(c)) && |s| % 4 != 1 then Some(Bytes(Unspell(s))) else None
  }

  /** The check `base64Url(decodeBase64Url(s)) === s`. */
  predicate Canonical(s: string) { Decode(s).Some? && Encode(Decode(s).value) == s }

  lemma SpellInverts(sextets: seq<Sextet>)
    ensures forall c <- Spell(sextets) :: InAlphabet(c)
    ensures Unspell(Spell(sextets)) == sextets
  {
    forall n: Sextet ensures InAlphabet(CharOf(n)) && ValueOf(CharOf(n)) == n {}
  }

  lemma UnspellInverts(s: string)
    requires forall c <- s :: InAlphabet(c)
    ensures Spell(Unspell(s)) == s
  {
    forall c | InAlphabet(c) ensures CharOf(ValueOf(c)) == c {}
  }

  lemma {:induction false} BytesInvertSextets(bytes: seq<Byte>)
    ensures |Sextets(bytes)| % 4 != 1
    ensures |Sextets(bytes)| == (4 * |bytes| + 2) / 3
    ensures Bytes(Sextets(bytes)) == bytes
  {
    if |bytes| >= 3 {
      BytesInvertSextets(bytes[3..]);
      assert Sextets(bytes)[4..] == Sextets(bytes[3..]);
      assert bytes == bytes[..3] + bytes[3..];
    }
  }

  /** The unused low bits of the last character. */
  predicate NoStrayBits(sextets: seq<Sextet>) {
    match |sextets| % 4
    case 0 => true
    case 2 => sextets[|sextets| - 1] % 16 == 0
    case 3 => sextets[|sextets| - 1] % 4 == 0
    case _ => false
  }

  lemma GroupInverts(a: Sextet, b: Sextet, c: Sextet, d: Sextet)
    ensures Octet0(a, b) / 4 == a
    ensures Octet0(a, b) % 4 * 16 + Octet1(b, c) / 16 == b
    ensures Octet1(b, c) % 16 * 4 + Octet2(c, d) / 64 == c
    ensures Octet2(c, d) % 64 == d
    ensures Octet0(a, b) % 4 * 16 == b <==> b % 16 == 0
    ensures Octet1(b, c) % 16 * 4 == c <==> c % 4 == 0
  {
  }

  lemma PairInverts(a: Sextet, b: Sextet)
    ensures Sextets(Bytes([a, b])) == [a, b] <==> b % 16 == 0
  {
    GroupInverts(a, b, 0, 0);
    var x := Octet0(a, b);
    assert Bytes([a, b]) == [x];
    assert Sextets([x]) == [x / 4, x % 4 * 16];
  }

  lemma TripleInverts(a: Sextet, b: Sextet, c: Sextet)
    ensures Sextets(Bytes([a, b, c])) == [a, b, c] <==> c % 4 == 0
  {
    GroupInverts(a, b, c, 0);
    var x, y := Octet0(a, b), Octet1(b, c);
    assert Bytes([a, b, c]) == [x, y];
    assert Sextets([x, y]) == [x / 4, x % 4 * 16 + y / 16, y % 16 * 4];
  }

  lemma BytesOfGroup(group: seq<Sextet>, rest: seq<Sextet>)
    requires |group| == 4
    ensures Bytes(group + rest)
         == [Octet0(group[0], group[1]), Octet1(group[1], group[2]), Octet2(group[2], group[3])] + Bytes(rest)
  {
    assert (group + rest)[4..] == rest;
  }

  lemma SextetsOfGroup(x: Byte, y: Byte, z: Byte, rest: seq<Byte>)
    ensures Sextets([x, y, z] + rest)
         == [x / 4, x % 4 * 16 + y / 16, y % 16 * 4 + z / 64, z % 64] + Sextets(rest)
  {
    assert ([x, y, z] + rest)[3..] == rest;
  }

  lemma GroupThenRest(group: seq<Sextet>, rest: seq<Sextet>)
    requires |group| == 4
    ensures Sextets(Bytes(group + rest)) == group + Sextets(Bytes(rest))
  {
    var a, b, c, d := group[0], group[1], group[2], group[3];
    GroupInverts(a, b, c, d);
    BytesOfGroup(group, rest);
    SextetsOfGroup(Octet0(a, b), Octet1(b, c), Octet2(c, d), Bytes(rest));
    assert group == [a, b, c, d];
  }

  lemma StrayBitsOfRest(group: seq<Sextet>, rest: seq<Sextet>)
    requires |group| == 4 && |rest| % 4 != 1
    ensures NoStrayBits(group + rest) == NoStrayBits(rest)
  {
    assert |group + rest| % 4 == |rest| % 4;
    if rest != [] { assert (group + rest)[|group + rest| - 1] == rest[|rest| - 1]; }
  }

  lemma {:induction false} SextetsInvertBytes(sextets: seq<Sextet>)
    requires |sextets| % 4 != 1
    ensures Sextets(Bytes(sextets)) == sextets <==> NoStrayBits(sextets)
  {
    if |sextets| == 0 {
      assert Bytes(sextets) == [];
    } else if |sextets| == 2 {
      assert sextets == [sextets[0], sextets[1]];
      PairInverts(sextets[0], sextets[1]);
    } else if |sextets| == 3 {
      assert sextets == [sextets[0], sextets[1], sextets[2]];
      TripleInverts(sextets[0], sextets[1], sextets[2]);
    } else {
      var group, rest := sextets[..4], sextets[4..];
      assert sextets == group + rest;
      SextetsInvertBytes(rest);
      GroupThenRest(group, rest);
      CancelFront(group, Sextets(Bytes(rest)), rest);
      StrayBitsOfRest(group, rest);
    }
  }

  lemma CancelFront(front: seq<Sextet>, a: seq<Sextet>, b: seq<Sextet>)
    ensures front + a == front + b <==> a == b
  {
    assert (front + a)[|front|..] == a && (front + b)[|front|..] == b;
  }

  /** Decoding undoes encoding, on every byte string. */
  lemma DecodeInvertsEncode(bytes: seq<Byte>)
    ensures Decode(Encode(bytes)) == Some(bytes)
    ensures |Encode(bytes)| == (4 * |bytes| + 2) / 3
  {
    BytesInvertSextets(bytes);
    SpellInverts(Sextets(bytes));
  }

  /** The canonical check accepts exactly the encoder's outputs: texts without stray bits. */
  lemma CanonicalIsEncoded(s: string)
    ensures Canonical(s) <==> exists bytes: seq<Byte> :: s == Encode(bytes)
    ensures Canonical(s) <==> (forall c <- s :: InAlphabet(c)) && |s| % 4 != 1 && NoStrayBits(Unspell(s))
  {
    if bytes: seq<Byte> :| s == Encode(bytes) { DecodeInvertsEncode(bytes); }
    if (forall c <- s :: InAlphabet(c)) && |s| % 4 != 1 {
      var sextets := Unspell(s);
      SextetsInvertBytes(sextets);
      UnspellInverts(s);
      SpellInverts(Sextets(Bytes(sextets)));
    }
  }

  /** Digits of base 64, most significant first. */
  function Number(digits: seq<Sextet>): int {
    if digits == [] then 0 else Number(digits[..|digits| - 1]) * 64 + digits[|digits| - 1] as int
  }

  lemma NumberOf4(d: seq<Sextet>)
    ensures |d| == 2 ==> Number(d) == d[0] as int * 64 + d[1] as int
    ensures |d| == 3 ==> Number(d) == (d[0] as int * 64 + d[1] as int) * 64 + d[2] as int
    ensures |d| == 4 ==> Number(d) == ((d[0] as int * 64 + d[1] as int) * 64 + d[2] as int) * 64 + d[3] as int
  {
    if |d| == 2 {
      assert Number(d[..1]) == d[0] as int;
    } else if |d| == 3 {
      assert d[..2][..1] == d[..1] && Number(d[..1]) == d[0] as int;
    } else if |d| == 4 {
      assert d[..3][..2] == d[..2] && d[..2][..1] == d[..1] && Number(d[..1]) == d[0] as int;
    }
  }

  /** The sextets of one to three octets are their bits, high bits first, zeros below. */
  lemma SextetsAreTheBits(a: Byte, b: Byte, c: Byte)
    ensures |Sextets([a])| == 2 && Number(Sextets([a])) == a as int * 16
    ensures |Sextets([a, b])| == 3 && Number(Sextets([a, b])) == (a as int * 256 + b as int) * 4
    ensures |Sextets([a, b, c])| == 4 && Number(Sextets([a, b, c])) == (a as int * 256 + b as int) * 256 + c as int
  {
    assert Sextets([a, b, c][3..]) == [];
    NumberOf4(Sextets([a]));
    NumberOf4(Sextets([a, b]));
    NumberOf4(Sextets([a, b, c]));
  }

  /** Longer texts are taken three octets at a time. */
  lemma SextetsByGroups(a: Byte, b: Byte, c: Byte, rest: seq<Byte>)
    ensures Sextets([a, b, c] + rest) == Sextets([a, b, c]) + Sextets(rest)
  {
    var whole := [a, b, c] + rest;
    assert whole[3..] == rest && [a, b, c][3..] == [];
    assert whole[0] == a && whole[1] == b && whole[2] == c;
    assert Sextets([a, b, c]) + [] == Sextets([a, b, c]);
  }

  /** Table 2 of RFC 4648: capitals, small letters, digits, minus, underscore. */
  lemma AlphabetIsTable2(n: Sextet)
    ensures n < 26 ==> CharOf(n) as int == 'A' as int + n
    ensures 26 <= n < 52 ==> CharOf(n) as int == 'a' as int + n - 26
    ensures 52 <= n < 62 ==> CharOf(n) as int == '0' as int + n - 52
    ensures CharOf(62) == '-' && CharOf(63) == '_'
  {
  }

  // ---- tokens ----

  /** The keyed MAC, 32 bytes of each id; None when the signing key is missing or short. */
  datatype Signer = Signer(mac: string -> seq<Byte>) {
    ghost predicate Sized() { forall id :: |mac(id)| == 32 }
  }

  function Token(signer: Signer, id: string): string { id + ['.'] + Encode(signer.mac(id)) }

  function LastBefore(s: string, c: char, n: nat): (i: int)
    requires n <= |s|
    ensures -1 <= i < n
    ensures i >= 0 ==> s[i] == c
    ensures forall k | i < k < n :: s[k] != c
  {
    if n == 0 then -1 else if s[n - 1] == c then n - 1 else LastBefore(s, c, n - 1)
  }

  function LastIndexOf(s: string, c: char): (i: int)
    ensures -1 <= i < |s|
    ensures i >= 0 ==> s[i] == c
    ensures forall k | i < k < |s| :: s[k] != c
  {
    LastBefore(s, c, |s|)
  }

  predicate HasSession(signer: Option<Signer>, session: string) {
    var separator := LastIndexOf(session, '.');
    if separator <= 0 then false
    else
      var id, signature := session[..separator], session[separator + 1..];
      && IsUuidV4(id)
      && |signature| == 43 && (forall c <- signature :: InAlphabet(c))
      && Canonical(signature)
      && signer.Some?                       // without a key the check throws, and is caught
      && Decode(signature).value == signer.value.mac(id)
  }

  function TrimLeft(s: string): string {
    if s != [] && IsSpace(s[0]) then TrimLeft(s[1..]) else s
  }

  function TrimRight(s: string): string {
    if s != [] && IsSpace(s[|s| - 1]) then TrimRight(s[..|s| - 1]) else s
  }

  function Trim(s: string): string { TrimRight(TrimLeft(s)) }

  predicate TokenShape(s: string) {
    43 <= |s| <= 128 && forall c <- s :: IsAlnum(c) || c in { '_', '.', '-' }
  }

  function SanitizeSession(value: Option<Json>): Option<string> {
    if !(value.Some? && value.value.Str?) then None
    else
      var s := Trim(value.value.s);
      if IsUuidV4(s) || TokenShape(s) then Some(s) else None
  }

  lemma {:induction false} TrimLeftCuts(s: string) returns (a: string)
    ensures Blank(a) && s == a + TrimLeft(s)
  {
    a := "";
    if s != [] && IsSpace(s[0]) {
      a := TrimLeftCuts(s[1..]);
      a := [s[0]] + a;
    }
  }

  lemma {:induction false} TrimRightCuts(s: string) returns (b: string)
    ensures Blank(b) && s == TrimRight(s) + b
  {
    b := "";
    if s != [] && IsSpace(s[|s| - 1]) {
      b := TrimRightCuts(s[..|s| - 1]);
      b := b + [s[|s| - 1]];
    }
  }

  lemma {:induction false} TrimLeftOf(a: string, s: string)
    requires Blank(a) && s != "" && !IsSpace(s[0])
    ensures TrimLeft(a + s) == s
  {
    if a == "" {
      assert a + s == s;
    } else {
      assert (a + s)[1..] == a[1..] + s;
      TrimLeftOf(a[1..], s);
    }
  }

  lemma {:induction false} TrimRightOf(s: string, b: string)
    requires Blank(b) && s != "" && !IsSpace(s[|s| - 1])
    ensures TrimRight(s + b) == s
  {
    if b == "" {
      assert s + b == s;
    } else {
      assert (s + b)[..|s + b| - 1] == s + b[..|b| - 1];
      assert forall c <- b[..|b| - 1] :: c in b;
      TrimRightOf(s, b[..|b| - 1]);
    }
  }

  /** A uuid or a text of token shape, with nothing but white space around it. */
  ghost predicate Wraps(text: string, s: string) {
    && (IsUuidV4(s) || TokenShape(s))
    && exists a: string, b: string :: Blank(a) && Blank(b) && text == a + s + b
  }

  lemma ShapesHaveNoSpace(s: string)
    requires IsUuidV4(s) || TokenShape(s)
    ensures s != "" && !IsSpace(s[0]) && !IsSpace(s[|s| - 1])
  {
    if IsUuidV4(s) { UuidChars(s); }
    assert s[0] in s && s[|s| - 1] in s;
  }

  /** sanitizeSession lets exactly those through, and as they are without the white space. */
  lemma SanitizeIsExact(value: Option<Json>, s: string)
    ensures SanitizeSession(value) == Some(s) <==> value.Some? && value.value.Str? && Wraps(value.value.s, s)
  {
    if value.Some? && value.value.Str? {
      var text := value.value.s;
      if SanitizeSession(value) == Some(s) {
        var a := TrimLeftCuts(text);
        var b := TrimRightCuts(TrimLeft(text));
        assert text == a + s + b;
      }
      if Wraps(text, s) {
        var a: string, b: string :| Blank(a) && Blank(b) && text == a + s + b;
        ShapesHaveNoSpace(s);
        assert text == a + (s + b);
        TrimLeftOf(a, s + b);
        TrimRightOf(s, b);
      }
    }
  }

  lemma UuidChars(id: string)
    requires IsUuidV4(id)
    ensures forall c <- id :: IsHex(c) || c == '-'
  {
    forall c <- id ensures IsHex(c) || c == '-' {
      var i :| 0 <= i < 36 && id[i] == c;
    }
  }

  lemma LastIndexIs(s: string, c: char, k: nat)
    requires k < |s| && s[k] == c && forall j | k < j < |s| :: s[j] != c
    ensures LastIndexOf(s, c) == k
  {
  }

  lemma SplitToken(id: string, signature: string)
    requires '.' !in signature
    ensures LastIndexOf(id + ['.'] + signature, '.') == |id|
  {
    var s := id + ['.'] + signature;
    assert s[|id|] == '.';
    assert forall k | |id| < k < |s| :: s[k] == signature[k - |id| - 1];
    LastIndexIs(s, '.', |id|);
  }

  lemma TrimsNothing(s: string)
    requires s != [] && !IsSpace(s[0]) && !IsSpace(s[|s| - 1])
    ensures Trim(s) == s
  {
  }

  lemma TokenIsAccepted(signer: Signer, id: string)
    requires signer.Sized() && IsUuidV4(id)
    ensures HasSession(Some(signer), Token(signer, id))
    ensures LastIndexOf(Token(signer, id), '.') == |id|
  {
    var signature, token := Encode(signer.mac(id)), Token(signer, id);
    DecodeInvertsEncode(signer.mac(id));
    SpellInverts(Sextets(signer.mac(id)));
    SplitToken(id, signature);
    assert token[..|id|] == id && token[|id| + 1..] == signature;
  }

  lemma AcceptedIsToken(signer: Signer, session: string)
    requires HasSession(Some(signer), session)
    ensures var id := session[..LastIndexOf(session, '.')]; IsUuidV4(id) && session == Token(signer, id)
  {
    var separator := LastIndexOf(session, '.');
    var id, signature := session[..separator], session[separator + 1..];
    assert session == id + ['.'] + signature;
  }

  /** An accepted session is exactly the token of the UUID before its last dot. */
  lemma AcceptedIffIssuedForm(signer: Signer, session: string)
    requires signer.Sized()
    ensures HasSession(Some(signer), session) <==> exists id :: IsUuidV4(id) && session == Token(signer, id)
  {
    if HasSession(Some(signer), session) { AcceptedIsToken(signer, session); }
    if id :| IsUuidV4(id) && session == Token(signer, id) { TokenIsAccepted(signer, id); }
  }

  lemma TokenHasTokenShape(signer: Signer, id: string)
    requires signer.Sized() && IsUuidV4(id)
    ensures var token := Token(signer, id); TokenShape(token) && !IsSpace(token[0]) && !IsSpace(token[|token| - 1])
  {
    var signature, token := Encode(signer.mac(id)), Token(signer, id);
    DecodeInvertsEncode(signer.mac(id));
    SpellInverts(Sextets(signer.mac(id)));
    UuidChars(id);
    forall c <- token ensures IsAlnum(c) || c in { '_', '.', '-' } {
      assert c in id || c == '.' || c in signature;
    }
    assert token[0] == id[0];
    assert token[|token| - 1] == signature[42];
  }

  /** Every issued token survives sanitizeSession unchanged and is accepted. */
  lemma IssuedTokensAreAccepted(signer: Signer, id: string)
    requires signer.Sized() && IsUuidV4(id)
    ensures SanitizeSession(Some(Str(Token(signer, id)))) == Some(Token(signer, id))
    ensures HasSession(Some(signer), Token(signer, id))
  {
    TokenIsAccepted(signer, id);
    TokenHasTokenShape(signer, id);
    TrimsNothing(Token(signer, id));
  }

  /** Each id has one accepted token text, and a token tells its id. */
  lemma OneTokenPerId(signer: Signer, a: string, b: string)
    requires signer.Sized() && HasSession(Some(signer), a) && HasSession(Some(signer), b)
    ensures a == b <==> a[..LastIndexOf(a, '.')] == b[..LastIndexOf(b, '.')]
  {
    AcceptedIsToken(signer, a);
    AcceptedIsToken(signer, b);
  }

  /** No accepted session contains the separator of the storage keys. */
  lemma AcceptedHasNoColon(signer: Signer, session: string)
    requires signer.Sized() && HasSession(Some(signer), session)
    ensures ':' !in session
  {
    AcceptedIsToken(signer, session);
    var id := session[..LastIndexOf(session, '.')];
    UuidChars(id);
    SpellInverts(Sextets(signer.mac(id)));
  }

  /** Everything an accepted session tells. */
  lemma AcceptedFacts(signer: Option<Signer>, session: string)
    requires HasSession(signer, session) && (signer.Some? ==> signer.value.Sized())
    ensures signer.Some? && ':' !in session
    ensures exists id :: IsUuidV4(id) && session == Token(signer.value, id)
  {
    AcceptedHasNoColon(signer.value, session);
    AcceptedIsToken(signer.value, session);
  }

  // ---- the gate: all a store needs to know of sessions ----

  datatype Gate = Gate(
    sanitize: Option<Json> -> Option<string>,
    accepts: string -> bool,
    issue: string -> Option<string>)
  {
    /** Whatever is accepted is the token of some UUID, and is safe inside a key. */
    ghost predicate Lawful() {
      forall s: string | accepts(s) :: ':' !in s && IssuedForm(s)
    }

    ghost predicate IssuedForm(s: string) { exists id :: IsUuidV4(id) && issue(id) == Some(s) }
  }

  function GateOf(signer: Option<Signer>): Gate {
    Gate(SanitizeSession,
         s => HasSession(signer, s),
         id => if signer.None? then None else Some(Token(signer.value, id)))
  }

  /** The token codec is such a gate, and lets every token it issues through. */
  lemma GateIsLawful(signer: Option<Signer>, id: string)
    requires signer.Some? ==> signer.value.Sized()
    ensures GateOf(signer).Lawful()
    ensures var g := GateOf(signer);
            IsUuidV4(id) && g.issue(id).Some? ==>
              g.sanitize(Some(Str(g.issue(id).value))) == g.issue(id) && g.accepts(g.issue(id).value)
  {
    var g := GateOf(signer);
    forall s: string | g.accepts(s) ensures ':' !in s && g.IssuedForm(s) {
      AcceptedFacts(signer, s);
      var i :| IsUuidV4(i) && s == Token(signer.value, i);
      assert g.issue(i) == Some(s);
    }
    if signer.Some? && IsUuidV4(id) { IssuedTokensAreAccepted(signer.value, id); }
  }
}
