/** The device fingerprint (utils/DeviceUtils.kt): a per-installation UUID, created on first use and
    kept in shared preferences, hashed with SHA-256 and rendered as lowercase hex. The digest
    (FIPS 180-4 SHA-256) and the UUID generator are abstracted. */
module DeviceUtils {
  import opened Wrappers

  /** A Kotlin `Byte`: signed, 8 bits. */
  newtype int8 = x: int | -128 <= x < 128

  predicate IsLowerHexDigit(c: char) {
    '0' <= c <= '9' || 'a' <= c <= 'f'
  }

  predicate IsLowerHex(s: string) {
    forall i :: 0 <= i < |s| ==> IsLowerHexDigit(s[i])
  }

  /** The lowercase hex digit of a nibble. */
  function HexDigit(n: int): (c: char)
    requires 0 <= n < 16
    ensures IsLowerHexDigit(c)
  {
    if n < 10 then ('0' as int + n) as char else ('a' as int + n - 10) as char
  }

  function HexValue(c: char): (v: int)
    requires IsLowerHexDigit(c)
    ensures 0 <= v < 16 && HexDigit(v) == c
  {
    if c <= '9' then c as int - '0' as int else c as int - 'a' as int + 10
  }

  /** The unsigned value the `%x` conversion prints for a Byte: `b & 0xFF`. */
  function Unsigned(b: int8): (u: int)
    ensures 0 <= u < 256
    ensures b >= 0 ==> u == b as int
    ensures b < 0 ==> u == b as int + 256
  {
    (b as int + 256) % 256
  }

  /** `"%02x".format(b)`: two lowercase hex digits, high nibble first. */
  function Format02x(b: int8): (s: string)
    ensures |s| == 2 && IsLowerHex(s)
    ensures 16 * HexValue(s[0]) + HexValue(s[1]) == Unsigned(b)
  {
    var u := Unsigned(b);
    [HexDigit(u / 16), HexDigit(u % 16)]
  }

  /** `hash.fold("") { str, it -> str + "%02x".format(it) }`: a left fold, so the last byte's
      digits come last. */
  function HexFold(bytes: seq<int8>): (s: string)
    ensures |s| == 2 * |bytes|
    ensures IsLowerHex(s)
    ensures forall i :: 0 <= i < |bytes| ==> s[2 * i..2 * i + 2] == Format02x(bytes[i])
  {
    if bytes == [] then ""
    else
      var init := HexFold(bytes[..|bytes| - 1]);
      var s := init + Format02x(bytes[|bytes| - 1]);
      assert forall i :: 0 <= i < |bytes| - 1 ==> s[2 * i..2 * i + 2] == init[2 * i..2 * i + 2];
      s
  }

  /** The byte whose `%02x` rendering is the two digits `hi` `lo`. */
  function DecodeByte(hi: char, lo: char): int8
    requires IsLowerHexDigit(hi) && IsLowerHexDigit(lo)
  {
    var v := 16 * HexValue(hi) + HexValue(lo);
    if v >= 128 then (v - 256) as int8 else v as int8
  }

  /** Reading lowercase hex back into bytes, two digits per byte. */
  function ParseHex(s: string): (bytes: seq<int8>)
    requires IsLowerHex(s) && |s| % 2 == 0
    ensures |bytes| == |s| / 2
  {
    if s == [] then []
    else ParseHex(s[..|s| - 2]) + [DecodeByte(s[|s| - 2], s[|s| - 1])]
  }

  lemma DecodeFormat(b: int8)
    ensures DecodeByte(Format02x(b)[0], Format02x(b)[1]) == b
  {
  }

  /** The hex rendering loses nothing: reading it back gives the digest bytes. */
  lemma {:induction false} HexRoundTrip(bytes: seq<int8>)
    ensures ParseHex(HexFold(bytes)) == bytes
  {
    if bytes != [] {
      var init := bytes[..|bytes| - 1];
      var s := HexFold(bytes);
      assert s == HexFold(init) + Format02x(bytes[|bytes| - 1]);
      assert s[..|s| - 2] == HexFold(init);
      HexRoundTrip(init);
      DecodeFormat(bytes[|bytes| - 1]);
      assert bytes == init + [bytes[|bytes| - 1]];
    }
  }

  /** `hashString(input)`: the hex of the digest, or the input itself when hashing throws (`digest`
      returns `None`). */
  function HashString(input: string, digest: string -> Option<seq<int8>>): (r: string)
    ensures digest(input).None? ==> r == input
    ensures digest(input).Some? ==> |r| == 2 * |digest(input).value| && IsLowerHex(r) &&
                                    ParseHex(r) == digest(input).value
  {
    match digest(input)
    case None => input
    case Some(hash) => HexRoundTrip(hash); HexFold(hash)
  }

  /** The get-or-create of `getAppSpecificUUID`: the identifier returned and the stored value
      afterwards. */
  function GetOrCreate(stored: Option<string>, generated: string): (r: (string, Option<string>))
    ensures r.1 == Some(r.0)
    ensures stored.Some? ==> r.0 == stored.value && r.1 == stored
    ensures stored.None? ==> r.0 == generated
  {
    match stored
    case Some(id) => (id, stored)
    case None => (generated, Some(generated))
  }

  /** Once created, the identifier never changes, whatever later calls would generate, and so
      neither does the fingerprint. */
  lemma FingerprintStable(stored: Option<string>, g1: string, g2: string, digest: string -> Option<seq<int8>>)
    ensures GetOrCreate(GetOrCreate(stored, g1).1, g2) == GetOrCreate(stored, g1)
    ensures HashString(GetOrCreate(GetOrCreate(stored, g1).1, g2).0, digest) == HashString(GetOrCreate(stored, g1).0, digest)
  {
  }

  /** The "IDDigitalSDK" shared preferences, reduced to the installation-identifier key. */
  class InstallationPreferences {
    var installationUuid: Option<string>   // "id_digital_installation_uuid"

    constructor(initial: Option<string>)
      ensures installationUuid == initial
    {
      installationUuid := initial;
    }

    /** `getAppSpecificUUID`; `generated` is the value `UUID.randomUUID()` would produce. */
    method GetAppSpecificUuid(generated: string) returns (id: string)
      modifies this
      ensures (id, installationUuid) == GetOrCreate(old(installationUuid), generated)
    {
      var appUuid := installationUuid;
      if appUuid.None? {
        appUuid := Some(generated);
        installationUuid := appUuid;
      }
      id := appUuid.value;
    }

    /** `getDeviceFingerprint`. */
    method GetDeviceFingerprint(generated: string, digest: string -> Option<seq<int8>>) returns (fingerprint: string)
      modifies this
      ensures installationUuid == GetOrCreate(old(installationUuid), generated).1
      ensures fingerprint == HashString(GetOrCreate(old(installationUuid), generated).0, digest)
    {
      var id := GetAppSpecificUuid(generated);
      fingerprint := HashString(id, digest);
    }
  }
}
