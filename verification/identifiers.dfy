/** Identifier construction and validation of the mock identity ledger:
    the `BC-` identity ID with its checksum, the enhanced ID that also binds
    a passport number, the `0x` block hash, the recovery and multi-signature
    request IDs, and the validator for identity IDs. The clock reading and
    the random token are parameters. */
module Identifiers {

  import opened Strings
  import opened Radix
  import opened Hash32

  /** The owner fields stored with an identity record. */
  datatype UserData = UserData(name: string, email: string, role: string)

  /** `n.toString(36)`. */
  function Base36(n: nat): string
  {
    ToBase(n, 36)
  }

  /** Text made only of lower-case base-36 digits `[0-9a-z]`. */
  predicate IsBase36Text(s: string)
  {
    forall i :: 0 <= i < |s| ==> IsDigitOf(s[i], 36)
  }

  /** What `Math.random().toString(36).substring(2, 8)` can yield: up to six
      base-36 digits, possibly none. */
  predicate IsRandomToken(s: string)
  {
    IsBase36Text(s) && |s| <= 6
  }

  /** `generateChecksum`: the first four base-36 digits of `|hash(input)|`. */
  function Checksum(input: string): (r: string)
    ensures 1 <= |r| <= 4
    ensures |r| == Min(4, |Base36(AbsHash(input))|)
    ensures IsBase36Text(r)
    ensures IsPrefix(r, Base36(AbsHash(input)))
  {
    SliceFront(Base36(AbsHash(input)), 4)
  }

  lemma Pow36To6()
    ensures Pow(36, 6) == 2176782336
  {
    assert Pow(36, 3) == 46656;
  }

  lemma Pow16To8()
    ensures Pow(16, 8) == 0x1_0000_0000
  {
    assert Pow(16, 4) == 65536;
  }

  /** `generateUserHash`: the hash of name, email, role and passport in
      base 36, cut to six digits. The cut never bites: `|hash| <= 2^31`
      and `2^31 < 36^6`, so the text reads back as the whole hash. */
  function UserHash(user: UserData, passport: string): (r: string)
    ensures 1 <= |r| <= 6
    ensures IsBase36Text(r)
    ensures r == Base36(AbsHash(user.name + user.email + user.role + passport))
    ensures FromBase(r, 36) == AbsHash(user.name + user.email + user.role + passport)
  {
    var h := AbsHash(user.name + user.email + user.role + passport);
    Pow36To6();
    ToBaseLength(h, 36, 6);
    SliceFront(Base36(h), 6)
  }

  predicate IsLowerHexDigit(c: char)
  {
    '0' <= c <= '9' || 'a' <= c <= 'f'
  }

  /** `generateBlockHash`: `"0x"` and the hexadecimal `|hash|` of
      `id + name + email + role`, left-padded with zeros to 16 digits.
      Since `|hash| <= 2^31` needs at most eight hex digits, the first eight
      digits are always zeros, and the digits read back as the hash. */
  function BlockHash(id: string, user: UserData): (r: string)
    ensures |r| == 18 && r[..2] == "0x"
    ensures forall i :: 2 <= i < 18 ==> IsLowerHexDigit(r[i])
    ensures forall i :: 2 <= i < 10 ==> r[i] == '0'
    ensures FromBase(r[2..], 16) == AbsHash(id + user.name + user.email + user.role)
  {
    var h := AbsHash(id + user.name + user.email + user.role);
    var padded := PadStart(ToBase(h, 16), 16, '0');
    PaddedHex(h);
    var r := "0x" + padded;
    assert r[2..] == padded;
    r
  }

  /** A hash magnitude printed in hexadecimal and padded to 16 digits: the
      first eight digits are zeros and the whole reads back as the hash. */
  lemma PaddedHex(h: nat)
    requires h <= TWO31
    ensures var padded := PadStart(ToBase(h, 16), 16, '0');
            |padded| == 16
            && (forall i :: 0 <= i < 16 ==> IsLowerHexDigit(padded[i]))
            && (forall i :: 0 <= i < 8 ==> padded[i] == '0')
            && FromBase(padded, 16) == h
  {
    var hex := ToBase(h, 16);
    assert |hex| <= 8 by {
      Pow16To8();
      ToBaseLength(h, 16, 8);
    }
    var padded := PadStart(hex, 16, '0');
    assert padded == Repeat('0', 16 - |hex|) + hex;
    assert FromBase(padded, 16) == h by {
      FromBaseLeadingZeros(16 - |hex|, hex, 16);
    }
    forall i | 0 <= i < 16
      ensures IsLowerHexDigit(padded[i])
    {
      if i >= 16 - |hex| {
        assert padded[i] == hex[i - (16 - |hex|)];
        HexDigitIsLower(hex[i - (16 - |hex|)]);
      }
    }
  }

  lemma HexDigitIsLower(c: char)
    requires IsDigitOf(c, 16)
    ensures IsLowerHexDigit(c)
  {
  }

  /** The identity ID grammar: `BC-a-b-c`. */
  function IdOf(a: string, b: string, c: string): string
  {
    "BC-" + a + "-" + b + "-" + c
  }

  /** `generateBlockchainId`: time token, random token and their checksum,
      joined and upper-cased. The checksum is taken over the lower-case
      text, before upper-casing. */
  function GenerateBlockchainId(now: nat, random: string): (id: string)
    ensures IsPrefix("BC-", id)
    ensures NoLowerLetter(id)
  {
    var timestamp := Base36(now);
    var raw := "BC-" + timestamp + "-" + random + "-" + Checksum(timestamp + random);
    UpperKeepsPrefix("BC-", raw);
    UpperHasNoLowerLetter(raw);
    Upper(raw)
  }

  /** `generateEnhancedBlockchainId`: a fourth segment carries the user hash,
      and the checksum also covers it. */
  function GenerateEnhancedBlockchainId(now: nat, random: string, user: UserData, passport: string): (id: string)
    ensures IsPrefix("BC-", id)
    ensures NoLowerLetter(id)
  {
    var timestamp := Base36(now);
    var userHash := UserHash(user, passport);
    var raw := "BC-" + timestamp + "-" + random + "-" + userHash + "-" + Checksum(timestamp + random + userHash);
    UpperKeepsPrefix("BC-", raw);
    UpperHasNoLowerLetter(raw);
    Upper(raw)
  }

  /** Upper-casing keeps a prefix that has no lower-case letter. */
  lemma UpperKeepsPrefix(p: string, s: string)
    requires IsPrefix(p, s) && NoLowerLetter(p) && forall i :: 0 <= i < |p| ==> UpperChar(p[i]) == p[i]
    ensures IsPrefix(p, Upper(s))
  {
    assert Upper(s)[..|p|] == p;
  }

  /** Upper-cased text has no lower-case letter left. */
  lemma UpperHasNoLowerLetter(s: string)
    ensures NoLowerLetter(Upper(s))
  {
  }

  /** `generateRecoveryId`. */
  function RecoveryId(now: nat, random: string): (r: string)
    ensures IsPrefix("REC-", r)
    ensures !ValidateBlockchainId(r)
  {
    var r := "REC-" + Base36(now) + "-" + random;
    assert r[0] == 'R';
    r
  }

  /** `generateMultiSigId`. */
  function MultiSigId(now: nat, random: string): (r: string)
    ensures IsPrefix("MS-", r)
    ensures !ValidateBlockchainId(r)
  {
    var r := "MS-" + Base36(now) + "-" + random;
    assert r[0] == 'M';
    r
  }

  /** One segment of `[A-Z0-9]+`. */
  predicate IsIdToken(s: string)
  {
    s != [] && forall i :: 0 <= i < |s| ==> IsUpperLetter(s[i]) || IsDigit(s[i])
  }

  /** `validateBlockchainId`: the regular expression
      `^BC-[A-Z0-9]+-[A-Z0-9]+-[A-Z0-9]+$`, read as "after `BC-`, exactly
      three dash-separated segments, none empty, all upper-case alphanumeric". */
  function ValidateBlockchainId(id: string): (ok: bool)
    ensures ok <==> MatchesIdPattern(id)
  {
    var ok :=
      && |id| >= 3 && id[..3] == "BC-"
      && var segments := Split(id[3..], '-');
      && |segments| == 3
      && IsIdToken(segments[0]) && IsIdToken(segments[1]) && IsIdToken(segments[2]);
    assert ok ==> MatchesIdPattern(id) by {
      if ok {
        var s := Split(id[3..], '-');
        IdOfIsJoin(s[0], s[1], s[2]);
        assert s == [s[0], s[1], s[2]];
        assert id == id[..3] + id[3..];
        assert id == IdOf(s[0], s[1], s[2]);
      }
    }
    assert MatchesIdPattern(id) ==> ok by {
      if MatchesIdPattern(id) {
        var a, b, c :| IsIdToken(a) && IsIdToken(b) && IsIdToken(c) && id == IdOf(a, b, c);
        IdOfIsJoin(a, b, c);
        TokenHasNoDash(a);
        TokenHasNoDash(b);
        TokenHasNoDash(c);
        SplitJoin([a, b, c], '-');
        assert id[..3] == "BC-";
        assert id[3..] == Join([a, b, c], '-');
      }
    }
    ok
  }

  /** The language of the regular expression, stated directly: this is the
      partner definition `ValidateBlockchainId` is proved equal to. */
  ghost predicate MatchesIdPattern(id: string)
  {
    exists a, b, c :: IsIdToken(a) && IsIdToken(b) && IsIdToken(c) && id == IdOf(a, b, c)
  }

  lemma TokenHasNoDash(s: string)
    requires IsIdToken(s)
    ensures '-' !in s
  {
  }

  lemma Join3(a: string, b: string, c: string, sep: char)
    ensures Join([a, b, c], sep) == a + [sep] + b + [sep] + c
  {
    assert [a, b, c][1..] == [b, c];
    assert [b, c][1..] == [c];
    assert Join([b, c], sep) == b + [sep] + c;
  }

  lemma Join4(a: string, b: string, c: string, d: string, sep: char)
    ensures Join([a, b, c, d], sep) == a + [sep] + b + [sep] + c + [sep] + d
  {
    assert [a, b, c, d][1..] == [b, c, d];
    Join3(b, c, d, sep);
  }

  lemma IdOfIsJoin(a: string, b: string, c: string)
    ensures IdOf(a, b, c) == "BC-" + Join([a, b, c], '-')
  {
    Join3(a, b, c, '-');
  }

  /** Upper-casing the assembled ID upper-cases each piece. */
  lemma UpperIdShape(t: string, r: string, c: string)
    ensures Upper("BC-" + t + "-" + r + "-" + c) == "BC-" + Upper(t) + "-" + Upper(r) + "-" + Upper(c)
  {
    UpperConcat("BC-" + t + "-" + r + "-", c);
    UpperConcat("BC-" + t + "-" + r, "-");
    UpperConcat("BC-" + t + "-", r);
    UpperConcat("BC-" + t, "-");
    UpperConcat("BC-", t);
    assert Upper("BC-") == "BC-";
    assert Upper("-") == "-";
  }

  lemma UpperEnhancedShape(t: string, r: string, u: string, c: string)
    ensures Upper("BC-" + t + "-" + r + "-" + u + "-" + c)
         == "BC-" + Upper(t) + "-" + Upper(r) + "-" + Upper(u) + "-" + Upper(c)
  {
    UpperConcat("BC-" + t + "-" + r + "-" + u + "-", c);
    UpperConcat("BC-" + t + "-" + r + "-" + u, "-");
    UpperIdShape(t, r, u);
    assert Upper("-") == "-";
  }

  lemma Base36HasNoDash(s: string)
    requires IsBase36Text(s)
    ensures '-' !in s
  {
  }

  /** Upper-casing base-36 text gives `[A-Z0-9]*` text without dashes. */
  lemma UpperBase36(s: string)
    requires IsBase36Text(s)
    ensures s != [] ==> IsIdToken(Upper(s))
    ensures '-' !in Upper(s)
    ensures Lower(Upper(s)) == s
  {
    assert forall i :: 0 <= i < |s| ==> IsUpperLetter(Upper(s)[i]) || IsDigit(Upper(s)[i]);
    LowerUpper(s);
  }

  /** The upper-cased identity ID splits at its dashes into its parts. */
  lemma GeneratedIdParts(now: nat, random: string)
    requires IsRandomToken(random)
    ensures Split(GenerateBlockchainId(now, random), '-') ==
            ["BC", Upper(Base36(now)), Upper(random), Upper(Checksum(Base36(now) + random))]
  {
    var t, c := Base36(now), Checksum(Base36(now) + random);
    var T, R, C := Upper(t), Upper(random), Upper(c);
    UpperIdShape(t, random, c);
    UpperBase36(t);
    UpperBase36(random);
    UpperBase36(c);
    Join4("BC", T, R, C, '-');
    assert "BC" + ['-'] == "BC-";
    SplitJoin(["BC", T, R, C], '-');
  }

  /** Round trip of issuance and validation: an ID built from a non-empty
      random token passes `validateBlockchainId`. */
  lemma GeneratedIdIsValid(now: nat, random: string)
    requires IsRandomToken(random) && random != []
    ensures ValidateBlockchainId(GenerateBlockchainId(now, random))
  {
    var id := GenerateBlockchainId(now, random);
    var t, c := Base36(now), Checksum(Base36(now) + random);
    GeneratedIdParts(now, random);
    UpperBase36(t);
    UpperBase36(random);
    UpperBase36(c);
    var s := Split(id, '-');
    assert id == Join(s, '-');
    IdOfIsJoin(s[1], s[2], s[3]);
    assert s[1..] == [s[1], s[2], s[3]];
    assert id == IdOf(s[1], s[2], s[3]);
  }

  /** The ID can be read back: its time segment decodes to the issuing
      instant and its checksum segment can be recomputed from the others. */
  lemma GeneratedIdRecheck(now: nat, random: string)
    requires IsRandomToken(random)
    ensures var s := Split(GenerateBlockchainId(now, random), '-');
            && |s| == 4
            && FromBase(Lower(s[1]), 36) == now
            && Lower(s[2]) == random
            && Checksum(Lower(s[1]) + Lower(s[2])) == Lower(s[3])
  {
    var t := Base36(now);
    GeneratedIdParts(now, random);
    UpperBase36(t);
    UpperBase36(random);
    UpperBase36(Checksum(t + random));
  }

  /** With an empty random token the ID has an empty segment, which the
      validator rejects. */
  lemma EmptyRandomIdRejected(now: nat)
    ensures !ValidateBlockchainId(GenerateBlockchainId(now, ""))
  {
    var s := Split(GenerateBlockchainId(now, ""), '-');
    GeneratedIdParts(now, "");
    ValidatorSeesSegments(GenerateBlockchainId(now, ""));
    assert Upper("") == "";
    assert !IsIdToken(s[2]);
  }

  /** How the validator's segments relate to the dash-split of the whole ID. */
  lemma ValidatorSeesSegments(id: string)
    requires |id| >= 3 && id[..3] == "BC-"
    ensures Split(id, '-') == ["BC"] + Split(id[3..], '-')
  {
    var w: string := ['B', 'C'];
    assert id == id[..3] + id[3..];
    assert id[..3] == w + ['-'];
    SplitAfterPiece(w, id[3..], '-');
    assert w == "BC";
  }

  lemma Join5(a: string, b: string, c: string, d: string, e: string, sep: char)
    ensures Join([a, b, c, d, e], sep) == a + [sep] + b + [sep] + c + [sep] + d + [sep] + e
  {
    assert [a, b, c, d, e][1..] == [b, c, d, e];
    Join4(b, c, d, e, sep);
  }

  /** The enhanced ID splits at its dashes into `BC`, the upper-cased time
      token, random token, user hash, and the checksum over all three. */
  lemma EnhancedIdParts(now: nat, random: string, user: UserData, passport: string)
    requires IsRandomToken(random)
    ensures var t, u := Base36(now), UserHash(user, passport);
            Split(GenerateEnhancedBlockchainId(now, random, user, passport), '-') ==
            ["BC", Upper(t), Upper(random), Upper(u), Upper(Checksum(t + random + u))]
  {
    var t, u := Base36(now), UserHash(user, passport);
    var c := Checksum(t + random + u);
    var T, R, U, C := Upper(t), Upper(random), Upper(u), Upper(c);
    UpperEnhancedShape(t, random, u, c);
    UpperBase36(t);
    UpperBase36(random);
    UpperBase36(u);
    UpperBase36(c);
    Join5("BC", T, R, U, C, '-');
    assert "BC" + ['-'] == "BC-";
    SplitJoin(["BC", T, R, U, C], '-');
  }

  /** The enhanced ID can be read back: its time segment decodes to the
      clock reading, its fourth segment is the user hash, and its last
      segment is the checksum over the three before it. */
  lemma EnhancedIdRecheck(now: nat, random: string, user: UserData, passport: string)
    requires IsRandomToken(random)
    ensures var s := Split(GenerateEnhancedBlockchainId(now, random, user, passport), '-');
            && |s| == 5
            && FromBase(Lower(s[1]), 36) == now
            && Lower(s[2]) == random
            && Lower(s[3]) == UserHash(user, passport)
            && Checksum(Lower(s[1]) + Lower(s[2]) + Lower(s[3])) == Lower(s[4])
  {
    var t, u := Base36(now), UserHash(user, passport);
    EnhancedIdParts(now, random, user, passport);
    UpperBase36(t);
    UpperBase36(random);
    UpperBase36(u);
    UpperBase36(Checksum(t + random + u));
  }

  /** The enhanced ID has four segments after `BC-`, so the validator
      rejects every enhanced ID. */
  lemma EnhancedIdRejected(now: nat, random: string, user: UserData, passport: string)
    requires IsRandomToken(random)
    ensures !ValidateBlockchainId(GenerateEnhancedBlockchainId(now, random, user, passport))
  {
    var t, u := Base36(now), UserHash(user, passport);
    var c := Checksum(t + random + u);
    var id := GenerateEnhancedBlockchainId(now, random, user, passport);
    UpperEnhancedShape(t, random, u, c);
    UpperBase36(t);
    UpperBase36(random);
    UpperBase36(u);
    UpperBase36(c);
    FourSegmentsRejected(Upper(t), Upper(random), Upper(u), Upper(c));
  }

  /** Four dash-free segments after `BC-` are one too many for the validator. */
  lemma FourSegmentsRejected(a: string, b: string, c: string, d: string)
    requires '-' !in a && '-' !in b && '-' !in c && '-' !in d
    ensures !ValidateBlockchainId("BC-" + a + "-" + b + "-" + c + "-" + d)
  {
    var id := "BC-" + a + "-" + b + "-" + c + "-" + d;
    Join4(a, b, c, d, '-');
    assert id[..3] == "BC-";
    assert id[3..] == Join([a, b, c, d], '-');
    SplitJoin([a, b, c, d], '-');
  }

  /** Text without lower-case ASCII letters. */
  predicate NoLowerLetter(s: string)
  {
    forall i :: 0 <= i < |s| ==> !IsLowerLetter(s[i])
  }

  lemma NoLowerLetterConcat(a: string, b: string)
    requires NoLowerLetter(a) && NoLowerLetter(b)
    ensures NoLowerLetter(a + b)
  {
    assert forall i :: |a| <= i < |a + b| ==> (a + b)[i] == b[i - |a|];
  }

  /** The validator accepts no ID with a lower-case letter in it, so an ID
      that was not upper-cased is rejected. */
  lemma ValidIdHasNoLowerLetter(id: string)
    requires ValidateBlockchainId(id)
    ensures NoLowerLetter(id)
  {
    var a, b, c :| IsIdToken(a) && IsIdToken(b) && IsIdToken(c) && id == IdOf(a, b, c);
    assert NoLowerLetter("BC-");
    assert NoLowerLetter("-");
    NoLowerLetterConcat("BC-", a);
    NoLowerLetterConcat("BC-" + a, "-");
    NoLowerLetterConcat("BC-" + a + "-", b);
    NoLowerLetterConcat("BC-" + a + "-" + b, "-");
    NoLowerLetterConcat("BC-" + a + "-" + b + "-", c);
  }

  /** A recovery ID splits into `REC`, the time token and the random token;
      its time token decodes to the issuing instant; and it never passes the
      identity-ID validator. */
  lemma RecoveryIdParts(now: nat, random: string)
    requires IsRandomToken(random)
    ensures Split(RecoveryId(now, random), '-') == ["REC", Base36(now), random]
    ensures FromBase(Split(RecoveryId(now, random), '-')[1], 36) == now
    ensures !ValidateBlockchainId(RecoveryId(now, random))
  {
    var t := Base36(now);
    Base36HasNoDash(t);
    Base36HasNoDash(random);
    Join3("REC", t, random, '-');
    assert "REC" + ['-'] == "REC-";
    SplitJoin(["REC", t, random], '-');
    assert RecoveryId(now, random)[..3] == "REC";
  }

  /** A multi-signature ID splits into `MS`, the time token and the random
      token; its time token decodes to the issuing instant; and it never
      passes the identity-ID validator. */
  lemma MultiSigIdParts(now: nat, random: string)
    requires IsRandomToken(random)
    ensures Split(MultiSigId(now, random), '-') == ["MS", Base36(now), random]
    ensures FromBase(Split(MultiSigId(now, random), '-')[1], 36) == now
    ensures !ValidateBlockchainId(MultiSigId(now, random))
  {
    var t := Base36(now);
    Base36HasNoDash(t);
    Base36HasNoDash(random);
    Join3("MS", t, random, '-');
    assert "MS" + ['-'] == "MS-";
    SplitJoin(["MS", t, random], '-');
    assert MultiSigId(now, random)[2] == '-';
  }
}
