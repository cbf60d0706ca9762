/** The byte string hashed into a cache key: UTF-8 fields, each behind its length in eight bytes. */
module CacheKeys {
  import opened Rows
  import opened Text

  type Byte = n: nat | n < 256

  // ---- UTF-8 ----

  function EncodeChar(c: char): (bytes: seq<Byte>)
    ensures 1 <= |bytes| <= 4
  {
    var n := c as int;
    if n < 0x80 then [n]
    else if n < 0x800 then [0xC0 + n / 64, 0x80 + n % 64]
    else if n < 0x1_0000 then [0xE0 + n / 4096, 0x80 + n / 64 % 64, 0x80 + n % 64]
    else [0xF0 + n / 262144, 0x80 + n / 4096 % 64, 0x80 + n / 64 % 64, 0x80 + n % 64]
  }

  function Encode(s: string): (bytes: seq<Byte>) {
    if s == "" then [] else EncodeChar(s[0]) + Encode(s[1..])
  }

  /** The code point at the front: the first byte says how many follow. */
  function FirstCode(bytes: seq<Byte>): int {
    if bytes == [] then -1
    else if bytes[0] < 0x80 then bytes[0]
    else if bytes[0] < 0xE0 then (if |bytes| < 2 then -1 else bytes[0] as int * 64 + bytes[1] as int - 0x3080)
    else if bytes[0] < 0xF0 then
      if |bytes| < 3 then -1 else bytes[0] as int * 4096 + bytes[1] as int * 64 + bytes[2] as int - 0xE_2080
    else if |bytes| < 4 then -1
    else bytes[0] as int * 262144 + bytes[1] as int * 4096 + bytes[2] as int * 64 + bytes[3] as int - 0x3C8_2080
  }

  lemma CharIsRead(c: char, rest: seq<Byte>)
    ensures FirstCode(EncodeChar(c) + rest) == c as int
  {
    var n := c as int;
    var bytes := EncodeChar(c) + rest;
    assert n / 4096 == n / 64 / 64 && n / 262144 == n / 4096 / 64;
    if n < 0x80 {
      assert bytes[0] == n;
    } else if n < 0x800 {
      assert bytes[0] == 0xC0 + n / 64 && bytes[1] == 0x80 + n % 64;
    } else if n < 0x1_0000 {
      assert bytes[0] == 0xE0 + n / 4096 && bytes[1] == 0x80 + n / 64 % 64 && bytes[2] == 0x80 + n % 64;
    } else {
      assert bytes[0] == 0xF0 + n / 262144 && bytes[1] == 0x80 + n / 4096 % 64 && bytes[2] == 0x80 + n / 64 % 64 && bytes[3] == 0x80 + n % 64;
    }
  }

  lemma {:induction false} Utf8IsInjective(a: string, b: string)
    requires Encode(a) == Encode(b)
    ensures a == b
    decreases |a|
  {
    if a != "" && b != "" {
      CharIsRead(a[0], Encode(a[1..]));
      CharIsRead(b[0], Encode(b[1..]));
      assert a[0] == b[0];
      var n := |EncodeChar(a[0])|;
      assert Encode(a)[n..] == Encode(a[1..]) && Encode(b)[n..] == Encode(b[1..]);
      Utf8IsInjective(a[1..], b[1..]);
      assert a == [a[0]] + a[1..] && b == [b[0]] + b[1..];
    }
  }

  // ---- lengths ----

  function Power256(k: nat): nat {
    if k == 0 then 1 else 256 * Power256(k - 1)
  }

  /** `n.to_bytes(k, "big")` */
  function BigEndian(n: nat, k: nat): (bytes: seq<Byte>)
    ensures |bytes| == k
  {
    if k == 0 then [] else BigEndian(n / 256, k - 1) + [n % 256]
  }

  /** The number the bytes spell, most significant first. */
  function Spelled(bytes: seq<Byte>): nat {
    if bytes == [] then 0 else bytes[0] * Power256(|bytes| - 1) + Spelled(bytes[1..])
  }

  lemma {:induction false} SpelledAppend(bytes: seq<Byte>, last: Byte)
    ensures Spelled(bytes + [last]) == Spelled(bytes) * 256 + last
  {
    if bytes == [] {
      assert ([] + [last])[1..] == [];
    } else {
      assert (bytes + [last])[1..] == bytes[1..] + [last];
      SpelledAppend(bytes[1..], last);
      assert Power256(|bytes|) == 256 * Power256(|bytes| - 1);
      assert bytes[0] * Power256(|bytes|) == (bytes[0] * Power256(|bytes| - 1)) * 256;
    }
  }

  lemma {:induction false} BigEndianSpells(n: nat, k: nat)
    requires n < Power256(k)
    ensures Spelled(BigEndian(n, k)) == n
  {
    if k > 0 {
      BigEndianSpells(n / 256, k - 1);
      SpelledAppend(BigEndian(n / 256, k - 1), n % 256);
    }
  }

  lemma {:induction false} BigEndianIsInjective(m: nat, n: nat, k: nat)
    requires m < Power256(k) && n < Power256(k) && BigEndian(m, k) == BigEndian(n, k)
    ensures m == n
  {
    if k > 0 {
      assert BigEndian(m, k)[..k - 1] == BigEndian(m / 256, k - 1) && BigEndian(n, k)[..k - 1] == BigEndian(n / 256, k - 1);
      assert BigEndian(m, k)[k - 1] == m % 256 && BigEndian(n, k)[k - 1] == n % 256;
      BigEndianIsInjective(m / 256, n / 256, k - 1);
    }
  }

  // ---- fields ----

  const LENGTH_BYTES: nat := 8

  function Field(field: string): seq<Byte> {
    BigEndian(|Encode(field)|, LENGTH_BYTES) + Encode(field)
  }

  function Preimage(fields: seq<string>): seq<Byte> {
    if fields == [] then [] else Field(fields[0]) + Preimage(fields[1..])
  }

  /** A length that does not fit eight bytes raises. */
  predicate Encodable(fields: seq<string>) {
    forall i | 0 <= i < |fields| :: |Encode(fields[i])| < Power256(LENGTH_BYTES)
  }

  lemma FieldIsRead(a: string, b: string, restA: seq<Byte>, restB: seq<Byte>)
    requires |Encode(a)| < Power256(LENGTH_BYTES) && |Encode(b)| < Power256(LENGTH_BYTES)
    requires Field(a) + restA == Field(b) + restB
    ensures a == b && restA == restB
  {
    var bytes := Field(a) + restA;
    assert bytes[..LENGTH_BYTES] == BigEndian(|Encode(a)|, LENGTH_BYTES);
    assert bytes[..LENGTH_BYTES] == BigEndian(|Encode(b)|, LENGTH_BYTES);
    BigEndianIsInjective(|Encode(a)|, |Encode(b)|, LENGTH_BYTES);
    var n := LENGTH_BYTES + |Encode(a)|;
    assert bytes[LENGTH_BYTES..n] == Encode(a) && bytes[LENGTH_BYTES..n] == Encode(b);
    Utf8IsInjective(a, b);
    assert bytes[n..] == restA && bytes[n..] == restB;
  }

  /** No two field lists are hashed from the same bytes, whatever their lengths. */
  lemma {:induction false} FieldsAreRead(a: seq<string>, b: seq<string>)
    requires Encodable(a) && Encodable(b) && Preimage(a) == Preimage(b)
    ensures a == b
    decreases |a|
  {
    if a != [] && b != [] {
      FieldIsRead(a[0], b[0], Preimage(a[1..]), Preimage(b[1..]));
      FieldsAreRead(a[1..], b[1..]);
      assert a == [a[0]] + a[1..] && b == [b[0]] + b[1..];
    }
  }

  lemma Regroup(a: seq<Byte>, b: seq<Byte>, c: seq<Byte>, d: seq<Byte>)
    ensures a + b + c + d == a + ((b + c) + d)
  {
  }

  /** The digest is fed the fields one after the other. */
  method HashFields(fields: seq<string>) returns (fed: seq<Byte>)
    requires Encodable(fields)
    ensures fed == Preimage(fields)
  {
    fed := [];
    for i := 0 to |fields|
      invariant fed + Preimage(fields[i..]) == Preimage(fields)
    {
      var encoded := Encode(fields[i]);
      ghost var before := fed;
      fed := fed + BigEndian(|encoded|, LENGTH_BYTES);
      fed := fed + encoded;
      assert fields[i..][1..] == fields[i + 1..];
      Regroup(before, BigEndian(|encoded|, LENGTH_BYTES), encoded, Preimage(fields[i + 1..]));
    }
    assert fed + [] == fed;
  }

  // ---- the two keys ----

  const CACHE_KEY_SCHEMA := "v1"

  datatype KeyInput = KeyInput(repoId: nat, provider: string, model: string, promptVersion: string, language: Option<string>,
                               content: string, patch: string)

  function KeyFields(k: KeyInput): seq<string> {
    [CACHE_KEY_SCHEMA, Decimal(k.repoId), k.provider, k.model, k.promptVersion,
     if k.language.Some? then k.language.value else "", k.content, k.patch]
  }

  function ContentFields(content: string, patch: string): seq<string> {
    [content, patch]
  }

  /** None and "" are the same language to the key. */
  function Normal(k: KeyInput): KeyInput {
    k.(language := if k.language == Some("") then None else k.language)
  }

  /** Two reviews share what is hashed into their key exactly when they agree on every input, a missing
      language counting as an empty one. */
  lemma SameKeySameInput(a: KeyInput, b: KeyInput)
    requires Encodable(KeyFields(a)) && Encodable(KeyFields(b))
    ensures Preimage(KeyFields(a)) == Preimage(KeyFields(b)) <==> Normal(a) == Normal(b)
  {
    if Preimage(KeyFields(a)) == Preimage(KeyFields(b)) {
      FieldsAreRead(KeyFields(a), KeyFields(b));
      var (x, y) := (KeyFields(a), KeyFields(b));
      assert x[1] == y[1] && x[2] == y[2] && x[3] == y[3] && x[4] == y[4] && x[5] == y[5] && x[6] == y[6] && x[7] == y[7];
      DecimalValue(a.repoId);
      DecimalValue(b.repoId);
    }
    if Normal(a) == Normal(b) {
      assert a.language == b.language || (a.language in {None, Some("")} && b.language in {None, Some("")});
      assert KeyFields(a) == KeyFields(b);
    }
  }

  /** The audit hash of content and patch is never taken over the bytes of a cache key. */
  lemma ContentHashIsNoKey(k: KeyInput, content: string, patch: string)
    requires Encodable(KeyFields(k)) && Encodable(ContentFields(content, patch))
    ensures Preimage(KeyFields(k)) != Preimage(ContentFields(content, patch))
  {
    if Preimage(KeyFields(k)) == Preimage(ContentFields(content, patch)) {
      FieldsAreRead(KeyFields(k), ContentFields(content, patch));
    }
  }
}
