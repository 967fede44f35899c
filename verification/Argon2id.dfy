// The password hash string: its printer, its parser, and the hasher built on
// them. A string stands for its bytes; the key derivation is a parameter.

module Argon2id {
  import opened Common
  import Text
  import Decimal
  import Base64

  type Bytes = seq<Base64.Byte>

  const VERSION: nat := 19 // RFC 9106, section 3.1: 0x13
  const MAX_ENCODED_HASH_LENGTH: nat := 512
  const UINT32_BOUND: nat := 0x1_0000_0000
  const UINT8_BOUND: nat := 0x100

  datatype Parameters = Parameters(memory: nat, iterations: nat, parallelism: nat, saltLength: nat, keyLength: nat)

  datatype HashError = InvalidParameters | InvalidEncodedHash | EmptyPassword

  datatype Parsed = Parsed(parameters: Parameters, salt: Bytes, key: Bytes)

  /** argon2.IDKey, left uninterpreted: password, salt, iterations, memory,
      parallelism and key length determine the key. */
  type Derivation = (string, Bytes, nat, nat, nat, nat) -> Bytes

  ghost predicate YieldsRequestedLength(derive: Derivation) {
    forall pw: string, salt: Bytes, t: nat, m: nat, p: nat, n: nat :: |derive(pw, salt, t, m, p, n)| == n
  }

  /** validateParameters */
  predicate ValidParameters(p: Parameters) {
    && 19 * 1024 <= p.memory <= 64 * 1024
    && 2 <= p.iterations <= 5
    && 1 <= p.parallelism <= 4
    && 16 <= p.saltLength <= 64
    && 32 <= p.keyLength <= 64
  }

  function CostText(p: Parameters): string {
    "m=" + Decimal.Print(p.memory) + ",t=" + Decimal.Print(p.iterations) + ",p=" + Decimal.Print(p.parallelism)
  }

  function EncodeHash(p: Parameters, salt: Bytes, key: Bytes): string {
    "$argon2id$v=" + Decimal.Print(VERSION) + "$" + CostText(p)
    + "$" + Base64.Encode(salt) + "$" + Base64.Encode(key)
  }

  function ParseNamedUint(value: string, prefix: string, bound: nat): Option<nat> {
    if !(prefix <= value) || |value| == |prefix| then None
    else Decimal.ParseUint(value[|prefix|..], bound)
  }

  function ParseHash(encoded: string): Result<Parsed, HashError> {
    if encoded == "" || |encoded| > MAX_ENCODED_HASH_LENGTH then Err(InvalidEncodedHash)
    else
      var parts := Text.Split(encoded, '$');
      if |parts| != 6 || parts[0] != "" || parts[1] != "argon2id" then Err(InvalidEncodedHash)
      else
        var version := ParseNamedUint(parts[2], "v=", UINT32_BOUND);
        if version != Some(VERSION) then Err(InvalidEncodedHash)
        else
          var costs := Text.Split(parts[3], ',');
          if |costs| != 3 then Err(InvalidEncodedHash)
          else
            var memory := ParseNamedUint(costs[0], "m=", UINT32_BOUND);
            var iterations := ParseNamedUint(costs[1], "t=", UINT32_BOUND);
            var parallelism := ParseNamedUint(costs[2], "p=", UINT8_BOUND);
            var salt := Base64.Decode(parts[4]);
            var key := Base64.Decode(parts[5]);
            if memory.None? || iterations.None? || parallelism.None? || salt.None? || key.None?
            then Err(InvalidEncodedHash)
            else
              var p := Parameters(memory.value, iterations.value, parallelism.value, |salt.value|, |key.value|);
              if ValidParameters(p) then Ok(Parsed(p, salt.value, key.value)) else Err(InvalidEncodedHash)
  }

  class Hasher {
    const parameters: Parameters

    /** What NewHasher has checked. */
    predicate Valid() {
      ValidParameters(parameters)
    }

    constructor (parameters: Parameters)
      ensures this.parameters == parameters
    {
      this.parameters := parameters;
    }

    /** `salt` is what the random source filled the salt buffer with. */
    method Hash(derive: Derivation, plainPassword: string, salt: Bytes) returns (hash: string)
      requires Valid() && |salt| == parameters.saltLength
      ensures hash == EncodeHash(parameters, salt,
                                 derive(plainPassword, salt, parameters.iterations, parameters.memory,
                                        parameters.parallelism, parameters.keyLength))
      ensures !Text.Blank(hash)
    {
      var key := derive(plainPassword, salt, parameters.iterations, parameters.memory,
                        parameters.parallelism, parameters.keyLength);
      hash := EncodeHash(parameters, salt, key);
      Text.NotBlank(hash);
    }

    method Matches(derive: Derivation, plainPassword: string, hash: string) returns (r: Result<bool, HashError>)
      ensures r == Verdict(derive, plainPassword, hash)
    {
      if plainPassword == "" {
        return Err(EmptyPassword);
      }
      var parsed := ParseHash(hash);
      if parsed.Err? {
        return Err(parsed.error);
      }
      var h := parsed.value;
      var actual := derive(plainPassword, h.salt, h.parameters.iterations, h.parameters.memory,
                           h.parameters.parallelism, h.parameters.keyLength);
      r := Ok(actual == h.key);
    }
  }

  /** The only way to a hasher: exactly the parameters within the limits are accepted. */
  method NewHasher(parameters: Parameters) returns (r: Result<Hasher, HashError>)
    ensures r.Ok? ==> fresh(r.value) && r.value.Valid() && r.value.parameters == parameters
    ensures r.Ok? <==>
      && 19_456 <= parameters.memory <= 65_536 && 2 <= parameters.iterations <= 5 && 1 <= parameters.parallelism <= 4
      && 16 <= parameters.saltLength <= 64 && 32 <= parameters.keyLength <= 64
    ensures r.Err? ==> r.error == InvalidParameters
  {
    if parameters.memory < 19 * 1024 || parameters.memory > 64 * 1024 { return Err(InvalidParameters); }
    if parameters.iterations < 2 || parameters.iterations > 5 { return Err(InvalidParameters); }
    if parameters.parallelism < 1 || parameters.parallelism > 4 { return Err(InvalidParameters); }
    if parameters.saltLength < 16 || parameters.saltLength > 64 { return Err(InvalidParameters); }
    if parameters.keyLength < 32 || parameters.keyLength > 64 { return Err(InvalidParameters); }
    var hasher := new Hasher(parameters);
    r := Ok(hasher);
  }

  /** What checking a password against a stored hash answers. */
  function Verdict(derive: Derivation, plainPassword: string, hash: string): Result<bool, HashError> {
    if plainPassword == "" then Err(EmptyPassword)
    else match ParseHash(hash)
      case Err(e) => Err(e)
      case Ok(h) => Ok(h.key == derive(plainPassword, h.salt, h.parameters.iterations, h.parameters.memory,
                                       h.parameters.parallelism, h.parameters.keyLength))
  }

  method EraseBytes(value: array<Base64.Byte>)
    modifies value
    ensures forall i :: 0 <= i < value.Length ==> value[i] == 0
  {
    for index := 0 to value.Length
      invariant forall i :: 0 <= i < index ==> value[i] == 0
    {
      value[index] := 0;
    }
  }

  // ----- Main results ---------------------------------------------------------

  lemma EncodedBegins(p: Parameters, salt: Bytes, key: Bytes)
    ensures "$argon2id$v=19$m=" <= EncodeHash(p, salt, key)
  {
    assert Decimal.Print(19) == "19";
  }

  /** Printing and parsing undo each other, within the length the parser accepts. */
  lemma {:induction false} HashRoundTrips(p: Parameters, salt: Bytes, key: Bytes)
    requires ValidParameters(p) && |salt| == p.saltLength && |key| == p.keyLength
    ensures |EncodeHash(p, salt, key)| <= 512 && "$argon2id$v=19$m=" <= EncodeHash(p, salt, key)
    ensures ParseHash(EncodeHash(p, salt, key)) == Ok(Parsed(p, salt, key))
  {
    EncodedLength(p, salt, key);
    EncodedBegins(p, salt, key);
    EncodedParts(p, salt, key);
    CostParts(p);
    var encoded := EncodeHash(p, salt, key);
    var parts := Parts(p, salt, key);
    var costs := Costs(p);
    NamedUint(VERSION, "v=", UINT32_BOUND);
    NamedUint(p.memory, "m=", UINT32_BOUND);
    NamedUint(p.iterations, "t=", UINT32_BOUND);
    NamedUint(p.parallelism, "p=", UINT8_BOUND);
    DecodesEncoding(salt);
    DecodesEncoding(key);
  }

  /** The text a parse came from is the printed one exactly when it is canonical:
      no leading zeros in the decimal fields and no line breaks in the base64
      fields, both of which the parser lets through. */
  lemma {:induction false} ParsedTextIsPrintedIffCanonical(encoded: string)
    requires ParseHash(encoded).Ok?
    ensures |encoded| <= 512
    ensures
      var h := ParseHash(encoded).value;
      encoded == EncodeHash(h.parameters, h.salt, h.key) <==> Canonical(encoded)
  {
    var h := ParseHash(encoded).value;
    EncodedParts(h.parameters, h.salt, h.key);
    Text.JoinOfSplit(encoded, '$');
    CanonicalParts(encoded);
  }

  /** A hash text in which the costs and the salt may be written differently. */
  function Assembled(p: Parameters, salt: Bytes, key: Bytes, costText: string, saltText: string): string {
    Text.Join(Parts(p, salt, key)[3 := costText][4 := saltText], '$')
  }

  /** The costs with a zero before the memory cost. */
  function PaddedCosts(p: Parameters): string {
    Text.Join(Costs(p)[0 := "m=" + ("0" + Decimal.Print(p.memory))], ',')
  }

  function PaddedHash(p: Parameters, salt: Bytes, key: Bytes): string {
    Assembled(p, salt, key, PaddedCosts(p), Base64.Encode(salt))
  }

  /** A line break before the salt. */
  function BrokenHash(p: Parameters, salt: Bytes, key: Bytes): string {
    Assembled(p, salt, key, CostText(p), "\n" + Base64.Encode(salt))
  }

  /** Every hash has such texts beside its printed one, and the parser accepts them. */
  lemma NonCanonicalTextsAreAccepted(p: Parameters, salt: Bytes, key: Bytes)
    requires ValidParameters(p) && |salt| == p.saltLength && |key| == p.keyLength
    ensures ParseHash(PaddedHash(p, salt, key)) == Ok(Parsed(p, salt, key)) && !Canonical(PaddedHash(p, salt, key))
    ensures ParseHash(BrokenHash(p, salt, key)) == Ok(Parsed(p, salt, key)) && !Canonical(BrokenHash(p, salt, key))
  {
    PaddedHashParses(p, salt, key);
    BrokenHashParses(p, salt, key);
  }

  lemma SomeAcceptedTextIsNotCanonical()
    ensures exists text :: ParseHash(text).Ok? && !Canonical(text)
  {
    var p := Parameters(19 * 1024, 2, 1, 16, 32);
    NonCanonicalTextsAreAccepted(p, seq(16, _ => 0), seq(32, _ => 0));
  }

  lemma PaddedHashParses(p: Parameters, salt: Bytes, key: Bytes)
    requires ValidParameters(p) && |salt| == p.saltLength && |key| == p.keyLength
    ensures ParseHash(PaddedHash(p, salt, key)) == Ok(Parsed(p, salt, key)) && !Canonical(PaddedHash(p, salt, key))
  {
    PaddedMemory(p.memory);
    SplitPaddedCosts(p);
    Base64.EncodingShape(salt);
    assert Base64.Value('$').None?;
    DecodesEncoding(salt);
    hide *;
    PartsParse(p, salt, key, PaddedCosts(p), Costs(p)[0 := "m=" + ("0" + Decimal.Print(p.memory))], Base64.Encode(salt));
  }

  lemma BrokenHashParses(p: Parameters, salt: Bytes, key: Bytes)
    requires ValidParameters(p) && |salt| == p.saltLength && |key| == p.keyLength
    ensures ParseHash(BrokenHash(p, salt, key)) == Ok(Parsed(p, salt, key)) && !Canonical(BrokenHash(p, salt, key))
  {
    DecodesBroken(salt);
    CostParts(p);
    NamedUint(p.memory, "m=", UINT32_BOUND);
    hide *;
    PartsParse(p, salt, key, CostText(p), Costs(p), "\n" + Base64.Encode(salt));
  }

  lemma PaddedMemory(n: nat)
    requires n < UINT32_BOUND
    ensures ParseNamedUint("m=" + ("0" + Decimal.Print(n)), "m=", UINT32_BOUND) == Some(n)
  {
    var digits := "0" + Decimal.Print(n);
    assert ("m=" + digits)[2..] == digits;
    Decimal.LeadingZeroParses(n, UINT32_BOUND);
  }

  lemma DecodesBroken(salt: Bytes)
    ensures Base64.Decode("\n" + Base64.Encode(salt)) == Some(salt)
    ensures '$' !in "\n" + Base64.Encode(salt)
  {
    assert ("\n" + Base64.Encode(salt))[1..] == Base64.Encode(salt);
    DecodesEncoding(salt);
    Base64.EncodingShape(salt);
    assert Base64.Value('$').None?;
  }

  lemma SplitPaddedCosts(p: Parameters)
    ensures Text.Split(PaddedCosts(p), ',') == Costs(p)[0 := "m=" + ("0" + Decimal.Print(p.memory))]
    ensures '$' !in PaddedCosts(p) && |PaddedCosts(p)| == |CostText(p)| + 1
  {
    var costs := Costs(p)[0 := "m=" + ("0" + Decimal.Print(p.memory))];
    assert costs[1..] == [costs[1], costs[2]] && costs[1..][1..] == [costs[2]];
    assert Text.Join(costs[1..], ',') == costs[1] + [','] + costs[2];
    assert Text.Join(costs, ',') == costs[0] + [','] + (costs[1] + [','] + costs[2]);
    Text.SplitOfJoin(costs, ',');
  }

  /** A text whose parts parse, whatever form its costs and its salt have, parses to
      the same hash, and is canonical only in their printed form. */
  lemma PartsParse(p: Parameters, salt: Bytes, key: Bytes, costText: string, costs: seq<string>, saltText: string)
    requires ValidParameters(p) && |salt| == p.saltLength && |key| == p.keyLength
    requires Text.Split(costText, ',') == costs && |costs| == 3 && costs[1..] == Costs(p)[1..]
    requires ParseNamedUint(costs[0], "m=", UINT32_BOUND) == Some(p.memory)
    requires Base64.Decode(saltText) == Some(salt)
    requires '$' !in costText && '$' !in saltText
    requires |costText| <= |CostText(p)| + 1 && |saltText| <= |Base64.Encode(salt)| + 1
    ensures
      var text := Assembled(p, salt, key, costText, saltText);
      && ParseHash(text) == Ok(Parsed(p, salt, key))
      && (Canonical(text) <==> costText == CostText(p) && saltText == Base64.Encode(salt))
  {
    var parts := Parts(p, salt, key)[3 := costText][4 := saltText];
    var encoded := Text.Join(parts, '$');
    AssembledSplits(p, salt, key, costText, saltText);
    assert costs[1] == costs[1..][0] && costs[2] == costs[1..][1];
    NamedUint(VERSION, "v=", UINT32_BOUND);
    NamedUint(p.iterations, "t=", UINT32_BOUND);
    NamedUint(p.parallelism, "p=", UINT8_BOUND);
    DecodesEncoding(key);
    hide EncodeHash;
    hide Text.Join;
    hide Text.Split;
    hide CostText;
    hide Base64.Encode;
    hide Base64.Decode;
    hide ParseNamedUint;
    hide Canonical;
    assert ParseHash(encoded) == Ok(Parsed(p, salt, key));
    CanonicalParts(encoded);
    assert parts[3] == costText && parts[4] == saltText;
    assert costText == CostText(p) && saltText == Base64.Encode(salt) ==> parts == Parts(p, salt, key);
  }

  lemma AssembledSplits(p: Parameters, salt: Bytes, key: Bytes, costText: string, saltText: string)
    requires ValidParameters(p) && |salt| == p.saltLength && |key| == p.keyLength
    requires '$' !in costText && '$' !in saltText
    requires |costText| <= |CostText(p)| + 1 && |saltText| <= |Base64.Encode(salt)| + 1
    ensures
      var text := Assembled(p, salt, key, costText, saltText);
      && 0 < |text| <= MAX_ENCODED_HASH_LENGTH
      && Text.Split(text, '$') == Parts(p, salt, key)[3 := costText][4 := saltText]
  {
    var parts := Parts(p, salt, key)[3 := costText][4 := saltText];
    EncodedLength(p, salt, key);
    EncodedText(p, salt, key);
    JoinSix(parts);
    assert |Text.Join(parts, '$')| <= |EncodeHash(p, salt, key)| + 2;
    NoDollar(p, salt, key);
    assert forall part :: part in parts ==> part in Parts(p, salt, key) || part == costText || part == saltText;
    Text.SplitOfJoin(parts, '$');
  }

  lemma CanonicalParts(encoded: string)
    requires ParseHash(encoded).Ok?
    ensures
      var h := ParseHash(encoded).value;
      Canonical(encoded) <==> Text.Split(encoded, '$') == Parts(h.parameters, h.salt, h.key)
  {
    var h := ParseHash(encoded).value;
    var parts := Text.Split(encoded, '$');
    NamedUintIsCanonical(parts[2], "v=", UINT32_BOUND);
    CanonicalCosts(parts[3], h.parameters);
    DecodedIsEncodingIffNoNewline(parts[4], h.salt);
    DecodedIsEncodingIffNoNewline(parts[5], h.key);
  }

  lemma CanonicalCosts(text: string, p: Parameters)
    requires |Text.Split(text, ',')| == 3
    requires
      var costs := Text.Split(text, ',');
      && ParseNamedUint(costs[0], "m=", UINT32_BOUND) == Some(p.memory)
      && ParseNamedUint(costs[1], "t=", UINT32_BOUND) == Some(p.iterations)
      && ParseNamedUint(costs[2], "p=", UINT8_BOUND) == Some(p.parallelism)
    ensures CanonicalCostText(text) <==> text == CostText(p)
  {
    var costs := Text.Split(text, ',');
    CostParts(p);
    Text.JoinOfSplit(text, ',');
    NamedUintIsCanonical(costs[0], "m=", UINT32_BOUND);
    NamedUintIsCanonical(costs[1], "t=", UINT32_BOUND);
    NamedUintIsCanonical(costs[2], "p=", UINT8_BOUND);
    if CanonicalCostText(text) {
      assert costs == Costs(p);
    }
  }

  /** No leading zero in any of the three cost fields. */
  predicate CanonicalCostText(text: string) {
    var costs := Text.Split(text, ',');
    forall i :: 0 <= i < |costs| && |costs[i]| >= 2 ==> Decimal.NoLeadingZero(costs[i][2..])
  }

  predicate Canonical(encoded: string)
    requires ParseHash(encoded).Ok?
  {
    var parts := Text.Split(encoded, '$');
    && Decimal.NoLeadingZero(parts[2][2..])
    && CanonicalCostText(parts[3])
    && '\r' !in parts[4] + parts[5] && '\n' !in parts[4] + parts[5]
  }

  /** A password is accepted by the hash made from it exactly when it is not
      empty (an empty one is hashed but never matched); any other password is
      accepted exactly when it derives the same key. */
  lemma OwnHashMatches(derive: Derivation, p: Parameters, salt: Bytes, password: string, other: string)
    requires YieldsRequestedLength(derive)
    requires ValidParameters(p) && |salt| == p.saltLength
    ensures
      var key := derive(password, salt, p.iterations, p.memory, p.parallelism, p.keyLength);
      var stored := EncodeHash(p, salt, key);
      && (Verdict(derive, password, stored) == Ok(true) <==> password != "")
      && (other != "" ==> Verdict(derive, other, stored)
                          == Ok(key == derive(other, salt, p.iterations, p.memory, p.parallelism, p.keyLength)))
  {
    HashRoundTrips(p, salt, derive(password, salt, p.iterations, p.memory, p.parallelism, p.keyLength));
  }

  /** The whole path: a hash made by one hasher, checked by another whose own
      parameters may differ. */
  method HashThenMatch(derive: Derivation, maker: Hasher, checker: Hasher, password: string, salt: Bytes)
    returns (r: Result<bool, HashError>)
    requires YieldsRequestedLength(derive)
    requires maker.Valid() && |salt| == maker.parameters.saltLength
    ensures r == if password == "" then Err(EmptyPassword) else Ok(true)
  {
    var hash := maker.Hash(derive, password, salt);
    var p := maker.parameters;
    OwnHashMatches(derive, p, salt, password, password);
    r := checker.Matches(derive, password, hash);
  }

  // ----- Proof steps -----------------------------------------------------------

  function Costs(p: Parameters): seq<string> {
    ["m=" + Decimal.Print(p.memory), "t=" + Decimal.Print(p.iterations), "p=" + Decimal.Print(p.parallelism)]
  }

  function Parts(p: Parameters, salt: Bytes, key: Bytes): seq<string> {
    ["", "argon2id", "v=" + Decimal.Print(VERSION), CostText(p), Base64.Encode(salt), Base64.Encode(key)]
  }

  lemma CostParts(p: Parameters)
    ensures CostText(p) == Text.Join(Costs(p), ',')
    ensures Text.Split(CostText(p), ',') == Costs(p)
    ensures '$' !in CostText(p)
  {
    var costs := Costs(p);
    assert costs[1..] == [costs[1], costs[2]] && costs[1..][1..] == [costs[2]];
    var m, t := Decimal.Print(p.memory), Decimal.Print(p.iterations);
    var q := Decimal.Print(p.parallelism);
    assert ",t=" == [','] + "t=" && ",p=" == [','] + "p=";
    assert CostText(p) == costs[0] + [','] + (costs[1] + [','] + costs[2]) by {
      assert "m=" + m + ",t=" + t + ",p=" + q == ("m=" + m) + (",t=" + t) + (",p=" + q);
      assert ",t=" + t == [','] + ("t=" + t) && ",p=" + q == [','] + ("p=" + q);
    }
    assert Text.Join(costs[1..], ',') == costs[1] + [','] + Text.Join([costs[2]], ',');
    Text.SplitOfJoin(costs, ',');
  }

  lemma EncodedParts(p: Parameters, salt: Bytes, key: Bytes)
    ensures EncodeHash(p, salt, key) == Text.Join(Parts(p, salt, key), '$')
    ensures Text.Split(EncodeHash(p, salt, key), '$') == Parts(p, salt, key)
  {
    var parts := Parts(p, salt, key);
    NoDollar(p, salt, key);
    JoinSix(parts);
    EncodedText(p, salt, key);
    Text.SplitOfJoin(parts, '$');
  }

  lemma EncodedText(p: Parameters, salt: Bytes, key: Bytes)
    ensures
      var parts := Parts(p, salt, key);
      EncodeHash(p, salt, key)
      == parts[0] + "$" + parts[1] + "$" + parts[2] + "$" + parts[3] + "$" + parts[4] + "$" + parts[5]
  {
    assert "$argon2id$v=" == "" + "$" + "argon2id" + "$" + "v=";
    assert "$argon2id$v=" + Decimal.Print(VERSION) == "" + "$" + "argon2id" + "$" + ("v=" + Decimal.Print(VERSION));
  }

  lemma NoDollar(p: Parameters, salt: Bytes, key: Bytes)
    ensures forall part :: part in Parts(p, salt, key) ==> '$' !in part
  {
    CostParts(p);
    Base64.EncodingShape(salt);
    Base64.EncodingShape(key);
    assert Base64.Value('$').None?;
  }

  lemma JoinSix(parts: seq<string>)
    requires |parts| == 6
    ensures Text.Join(parts, '$')
            == parts[0] + "$" + parts[1] + "$" + parts[2] + "$" + parts[3] + "$" + parts[4] + "$" + parts[5]
  {
    assert parts[1..][1..] == parts[2..] && parts[2..][1..] == parts[3..];
    assert parts[3..][1..] == parts[4..] && parts[4..][1..] == parts[5..];
    assert Text.Join(parts[4..], '$') == parts[4] + "$" + parts[5];
    assert Text.Join(parts[2..], '$') == parts[2] + "$" + (parts[3] + "$" + Text.Join(parts[4..], '$'));
    assert Text.Join(parts, '$') == parts[0] + "$" + (parts[1] + "$" + Text.Join(parts[2..], '$'));
  }

  lemma EncodedLength(p: Parameters, salt: Bytes, key: Bytes)
    requires ValidParameters(p) && |salt| == p.saltLength && |key| == p.keyLength
    ensures |EncodeHash(p, salt, key)| <= 256
  {
    Base64.EncodingShape(salt);
    Base64.EncodingShape(key);
    assert Decimal.Pow10(4) == 10_000;
    Decimal.PrintLength(VERSION, 100, 2);
    Decimal.PrintLength(p.memory, 100_000, 5);
    Decimal.PrintLength(p.iterations, 10, 1);
    Decimal.PrintLength(p.parallelism, 10, 1);
  }

  lemma NamedUint(n: nat, prefix: string, bound: nat)
    requires n < bound
    ensures ParseNamedUint(prefix + Decimal.Print(n), prefix, bound) == Some(n)
  {
    var value := prefix + Decimal.Print(n);
    assert value[|prefix|..] == Decimal.Print(n);
    Decimal.ParsesItsPrint(n, bound);
  }

  lemma NamedUintIsCanonical(value: string, prefix: string, bound: nat)
    requires ParseNamedUint(value, prefix, bound).Some?
    ensures |value| > |prefix|
    ensures Decimal.NoLeadingZero(value[|prefix|..])
            <==> value == prefix + Decimal.Print(ParseNamedUint(value, prefix, bound).value)
  {
    var digits := value[|prefix|..];
    assert value == prefix + digits;
    Decimal.PrintIsCanonical(digits);
  }

  lemma DecodesEncoding(b: Bytes)
    ensures Base64.Decode(Base64.Encode(b)) == Some(b)
  {
    Base64.EncodingShape(b);
    Base64.NothingToSkip(Base64.Encode(b));
    Base64.DecodeExactly(Base64.Encode(b), b);
  }

  lemma DecodedIsEncodingIffNoNewline(s: string, b: Bytes)
    requires Base64.Decode(s) == Some(b)
    ensures s == Base64.Encode(b) <==> '\r' !in s && '\n' !in s
  {
    Base64.DecodeExactly(s, b);
    Base64.NothingToSkip(s);
    Base64.EncodingShape(b);
  }
}
