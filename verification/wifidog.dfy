/** The fallback MAC address of src/utils/wifidog.ts: a 32-bit string hash of a
    browser fingerprint, printed as six colon-separated hex groups. The canvas that
    produces the fingerprint is outside the model: the fingerprint's UTF-16 code
    units (what `charCodeAt` returns) are the input.

    JavaScript evaluates the bit operations on signed 32-bit integers. They are
    written out exactly here: `ToInt32` is the conversion every bit operator applies,
    `x << 5` of an int32 is `ToInt32(x * 32)`, `x & x` is `ToInt32(x)`, `x >> k` is
    floor division by 2^k and `x & 0xFF` is the Euclidean remainder modulo 256. */
module WifiDog {
  import opened JsHex

  const TwoTo31: int := 0x8000_0000
  const TwoTo32: int := 0x1_0000_0000

  /** A UTF-16 code unit, as `charCodeAt` returns it. */
  type CodeUnit = c: int | 0 <= c < 0x1_0000

  /** The ToInt32 conversion: the signed 32-bit value congruent to `x`. */
  function ToInt32(x: int): (r: int)
    ensures -TwoTo31 <= r < TwoTo31
    ensures (r - x) % TwoTo32 == 0
  {
    (x + TwoTo31) % TwoTo32 - TwoTo31
  }

  lemma ToInt32Congruent(x: int, y: int)
    requires (x - y) % TwoTo32 == 0
    ensures ToInt32(x) == ToInt32(y)
  {
    var k := (x - y) / TwoTo32;
    assert x + TwoTo31 == (y + TwoTo31) + k * TwoTo32;
  }

  /** One iteration of the hash loop: `hash = ((hash << 5) - hash) + char;
      hash = hash & hash`. */
  function HashStep(hash: int, c: CodeUnit): int
  {
    ToInt32(ToInt32(hash * 32) - hash + c)
  }

  /** Each character maps h to 31·h + c, reduced to a signed 32-bit value. */
  lemma HashStepIsAffine(hash: int, c: CodeUnit)
    ensures HashStep(hash, c) == ToInt32(31 * hash + c)
    ensures (HashStep(hash, c) - (31 * hash + c)) % TwoTo32 == 0
  {
    var shifted := ToInt32(hash * 32);
    assert (shifted - hash * 32) % TwoTo32 == 0;
    ToInt32Congruent(shifted - hash + c, 31 * hash + c);
  }

  /** The hash of a fingerprint: the loop's fold, starting from 0. */
  function HashOf(fingerprint: seq<CodeUnit>): int
  {
    if fingerprint == [] then 0
    else HashStep(HashOf(fingerprint[..|fingerprint| - 1]), fingerprint[|fingerprint| - 1])
  }

  /** The hash loop of `generateFallbackMac`. */
  method FingerprintHash(fingerprint: seq<CodeUnit>) returns (hash: int)
    ensures hash == HashOf(fingerprint)
    ensures -TwoTo31 <= hash < TwoTo31
  {
    hash := 0;
    for i := 0 to |fingerprint|
      invariant hash == HashOf(fingerprint[..i])
      invariant -TwoTo31 <= hash < TwoTo31
    {
      assert fingerprint[..i + 1][..i] == fingerprint[..i];
      hash := HashStep(hash, fingerprint[i]);
    }
    assert fingerprint[..|fingerprint|] == fingerprint;
  }

  /** 2^(4·i): `x >> (i * 4)` divides by this, rounding down. */
  function NibbleScale(i: nat): (p: int)
    requires i < 6
    ensures p in {1, 16, 256, 4096, 65536, 1048576}
    // p is 16 to the power i: each nibble scales by 16
    ensures i == 0 ==> p == 1
    ensures 0 < i ==> p == 16 * NibbleScale(i - 1)
  {
    match i
    case 0 => 1
    case 1 => 16
    case 2 => 256
    case 3 => 4096
    case 4 => 65536
    case _ => 1048576
  }

  /** Group i of the address: `(hash >> (i * 4)) & 0xFF`, bits 4i .. 4i+7. Each
      shift is written with its own power of two. */
  function Group(hash: int, i: nat): (b: int)
    requires i < 6
    ensures 0 <= b < 256
  {
    match i
    case 0 => hash % 256
    case 1 => (hash / 16) % 256
    case 2 => (hash / 256) % 256
    case 3 => (hash / 4096) % 256
    case 4 => (hash / 65536) % 256
    case _ => (hash / 1048576) % 256
  }

  /** Every group is the hash shifted right by 4i bits, then masked to 8 bits. */
  lemma GroupIsShift(hash: int, i: nat)
    requires i < 6
    ensures Group(hash, i) == (hash / NibbleScale(i)) % 256
  {
  }

  /** `s.padStart(n, fill)` for a one-character fill. */
  function PadStart(s: string, n: nat, fill: char): (r: string)
    ensures |r| == if |s| >= n then |s| else n
    ensures r[|r| - |s|..] == s
    ensures forall k :: 0 <= k < |r| - |s| ==> r[k] == fill
    decreases n - |s|
  {
    if |s| >= n then s
    else
      var r := PadStart([fill] + s, n, fill);
      assert r[|r| - |s| - 1..][0] == fill;
      r
  }

  /** `b.toString(16).padStart(2, '0')`. */
  function HexGroup(b: int): string
    requires 0 <= b < 256
  {
    PadStart(ToString16(b), 2, '0')
  }

  /** Two lower-case hex digits, high nibble first. */
  function TwoDigits(b: int): (s: string)
    requires 0 <= b < 256
    ensures |s| == 2
  {
    [HexChar(b / 16), HexChar(b % 16)]
  }

  /** `parts.join(sep)`. */
  function Join(parts: seq<string>, sep: string): string
  {
    if parts == [] then ""
    else if |parts| == 1 then parts[0]
    else parts[0] + sep + Join(parts[1..], sep)
  }

  /** The first `n` groups, in the order the loop pushes them. */
  function GroupsUpTo(hash: int, n: nat): (gs: seq<string>)
    requires n <= 6
    ensures |gs| == n
  {
    if n == 0 then [] else GroupsUpTo(hash, n - 1) + [TwoDigits(Group(hash, n - 1))]
  }

  /** The six groups. */
  function Groups(hash: int): (gs: seq<string>)
    ensures |gs| == 6
  {
    GroupsUpTo(hash, 6)
  }

  /** Group k of the list is the k-th group of the hash. */
  lemma {:induction false} GroupsUpToAt(hash: int, n: nat, k: nat)
    requires k < n <= 6
    ensures GroupsUpTo(hash, n)[k] == TwoDigits(Group(hash, k))
  {
    if k < n - 1 {
      GroupsUpToAt(hash, n - 1, k);
    }
  }

  /** The address printed for a hash. */
  function MacOf(hash: int): string
  {
    Join(Groups(hash), ":")
  }

  /** The formatting loop of `generateFallbackMac`: push six groups, then join. */
  method FormatMac(hash: int) returns (mac: string)
    ensures mac == MacOf(hash)
  {
    var macBytes: seq<string> := [];
    for i := 0 to 6
      invariant macBytes == GroupsUpTo(hash, i)
    {
      var b := Group(hash, i);
      HexGroupDigits(b);
      macBytes := macBytes + [HexGroup(b)];
    }
    mac := Join(macBytes, ":");
  }

  /** `generateFallbackMac` with the fingerprint as a parameter: the address
      depends on the fingerprint alone. */
  method GenerateFallbackMac(fingerprint: seq<CodeUnit>) returns (mac: string)
    ensures mac == MacOf(HashOf(fingerprint))
  {
    var hash := FingerprintHash(fingerprint);
    mac := FormatMac(hash);
  }

  /** Every group prints as exactly two lower-case hex digits, high nibble first. */
  lemma HexGroupDigits(b: int)
    requires 0 <= b < 256
    ensures HexGroup(b) == TwoDigits(b)
  {
    var s := ToString16(b);
    if b < 16 {
      assert s == [HexChar(b)];
      var padded := ['0'] + s;
      assert PadStart(s, 2, '0') == PadStart(padded, 2, '0') == padded;
      assert HexChar(0) == '0';
    } else {
      var high := ToString16Nat(b / 16);
      assert high == [HexChar(b / 16)];
      assert s == high + [HexChar(b % 16)];
      assert PadStart(s, 2, '0') == s;
    }
  }

  /** Joining parts of two characters each with a one-character separator puts
      part k at index 3k and a separator after every part but the last. */
  lemma {:induction false} JoinPairs(parts: seq<string>, sep: string)
    requires |parts| >= 1 && |sep| == 1
    requires forall k :: 0 <= k < |parts| ==> |parts[k]| == 2
    ensures |Join(parts, sep)| == 3 * |parts| - 1
    ensures forall k :: 0 <= k < |parts| ==>
      Join(parts, sep)[3 * k] == parts[k][0] && Join(parts, sep)[3 * k + 1] == parts[k][1]
    ensures forall k :: 0 <= k < |parts| - 1 ==> Join(parts, sep)[3 * k + 2] == sep[0]
  {
    if |parts| > 1 {
      JoinPairs(parts[1..], sep);
      var rest := Join(parts[1..], sep);
      var whole := parts[0] + sep + rest;
      assert Join(parts, sep) == whole;
      forall k | 1 <= k < |parts|
        ensures whole[3 * k] == parts[k][0] && whole[3 * k + 1] == parts[k][1]
      {
        assert whole[3 * k] == rest[3 * (k - 1)];
        assert whole[3 * k + 1] == rest[3 * (k - 1) + 1];
        assert parts[1..][k - 1] == parts[k];
      }
      forall k | 1 <= k < |parts| - 1
        ensures whole[3 * k + 2] == sep[0]
      {
        assert whole[3 * k + 2] == rest[3 * (k - 1) + 2];
      }
    }
  }

  /** Each of the six groups is two digits: the high nibble, then the low one. */
  lemma GroupsDigits(hash: int)
    ensures forall k :: 0 <= k < 6 ==>
      Groups(hash)[k] == [HexChar(Group(hash, k) / 16), HexChar(Group(hash, k) % 16)]
  {
    forall k | 0 <= k < 6
      ensures Groups(hash)[k] == [HexChar(Group(hash, k) / 16), HexChar(Group(hash, k) % 16)]
    {
      GroupsUpToAt(hash, 6, k);
    }
  }

  /** The address is 17 characters: six groups of two lower-case hex digits at
      positions 3k and 3k+1 giving bits 4k .. 4k+7 of the hash, and ':' between them. */
  lemma MacLayout(hash: int)
    ensures |MacOf(hash)| == 17
    ensures forall k :: 0 <= k < 6 ==>
      MacOf(hash)[3 * k] == HexChar(Group(hash, k) / 16) &&
      MacOf(hash)[3 * k + 1] == HexChar(Group(hash, k) % 16)
    ensures forall k :: 0 <= k < 5 ==> MacOf(hash)[3 * k + 2] == ':'
  {
    var gs := Groups(hash);
    GroupsDigits(hash);
    JoinPairs(gs, ":");
  }

  /** Every character of the address is a lower-case hex digit or ':'. */
  lemma MacCharset(hash: int)
    ensures |MacOf(hash)| == 17
    ensures forall j :: 0 <= j < 17 ==> IsLowerHexDigit(MacOf(hash)[j]) || MacOf(hash)[j] == ':'
  {
    MacLayout(hash);
    var mac := MacOf(hash);
    forall j | 0 <= j < 17
      ensures IsLowerHexDigit(mac[j]) || mac[j] == ':'
    {
      var k := j / 3;
      if j == 3 * k {
        assert mac[3 * k] == HexChar(Group(hash, k) / 16);
      } else if j == 3 * k + 1 {
        assert mac[3 * k + 1] == HexChar(Group(hash, k) % 16);
      } else {
        assert mac[3 * k + 2] == ':';
      }
    }
  }

  lemma DivBy16(x: int, p: int)
    requires p in {1, 16, 256, 4096, 65536}
    ensures x / (16 * p) == (x / p) / 16
  {
    if p == 1 {} else if p == 16 {} else if p == 256 {} else if p == 4096 {} else {}
  }

  lemma Nibbles(q: int)
    ensures (q % 256) / 16 == (q / 16) % 16
    ensures (q % 256) % 16 == q % 16
  {
  }

  /** Shifting by 4 bits per group makes neighbouring groups overlap: the high
      nibble of group i is the low nibble of group i+1. */
  lemma GroupOverlap(hash: int, i: nat)
    requires i < 5
    ensures Group(hash, i) / 16 == Group(hash, i + 1) % 16
  {
    var p := NibbleScale(i);
    assert NibbleScale(i + 1) == 16 * p;
    GroupIsShift(hash, i);
    GroupIsShift(hash, i + 1);
    DivBy16(hash, p);
    Nibbles(hash / p);
    Nibbles(hash / (16 * p));
  }

  /** In the printed address, the first digit of group i repeats as the second
      digit of group i+1. */
  lemma MacDigitsOverlap(hash: int, i: nat)
    requires i < 5
    ensures |MacOf(hash)| == 17 && MacOf(hash)[3 * i] == MacOf(hash)[3 * (i + 1) + 1]
  {
    MacLayout(hash);
    GroupOverlap(hash, i);
  }

  lemma ZeroGroups()
    ensures Groups(0) == ["00", "00", "00", "00", "00", "00"]
  {
    assert HexChar(0) == '0';
    var zero := TwoDigits(0);
    assert zero == "00";
    assert Group(0, 0) == 0 && Group(0, 1) == 0 && Group(0, 2) == 0;
    assert Group(0, 3) == 0 && Group(0, 4) == 0 && Group(0, 5) == 0;
    assert GroupsUpTo(0, 1) == [zero];
    assert GroupsUpTo(0, 2) == [zero, zero];
    assert GroupsUpTo(0, 3) == [zero, zero, zero];
    assert GroupsUpTo(0, 4) == [zero, zero, zero, zero];
    assert GroupsUpTo(0, 5) == [zero, zero, zero, zero, zero];
  }

  lemma JoinZeros()
    ensures Join(["00", "00", "00", "00", "00", "00"], ":") == "00:00:00:00:00:00"
  {
    var zero := "00";
    assert [zero, zero][1..] == [zero];
    assert Join([zero, zero], ":") == "00:00";
    assert [zero, zero, zero][1..] == [zero, zero];
    assert Join([zero, zero, zero], ":") == "00:00:00";
    assert [zero, zero, zero, zero][1..] == [zero, zero, zero];
    assert Join([zero, zero, zero, zero], ":") == "00:00:00:00";
    assert [zero, zero, zero, zero, zero][1..] == [zero, zero, zero, zero];
    assert Join([zero, zero, zero, zero, zero], ":") == "00:00:00:00:00";
    assert [zero, zero, zero, zero, zero, zero][1..] == [zero, zero, zero, zero, zero];
  }

  /** An empty fingerprint hashes to 0 and prints as all zeros. */
  lemma EmptyFingerprintMac()
    ensures MacOf(HashOf([])) == "00:00:00:00:00:00"
  {
    ZeroGroups();
    JoinZeros();
  }
}
