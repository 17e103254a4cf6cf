/**
 * Node names. A sensor node is named "node_" followed by its identifier in decimal; the
 * mobile node rebuilds that name from the origin byte of a packet and keys its tables by
 * the fixed-width, zero-padded name.
 */
module NodeNames {
  import opened Bytes

  type Name = seq<byte>

  const MOBILE_NAME_LEN: nat := 9
  const BASE_NAME_LEN: nat := 8

  const NODE_PREFIX: seq<byte> := [0x6E, 0x6F, 0x64, 0x65, 0x5F]
  const EOW_MARKER: seq<byte> := [0x45, 0x4F, 0x57]

  function Digit(d: nat): byte
    requires d < 10
  {
    0x30 + d
  }

  /** The conversion %u of a byte. */
  function Decimal(x: byte): seq<byte> {
    if x < 10 then [Digit(x)]
    else if x < 100 then [Digit(x / 10), Digit(x % 10)]
    else [Digit(x / 100), Digit(x / 10 % 10), Digit(x % 10)]
  }

  /** The value of a string of decimal digits. */
  function ValueOf(digits: seq<int>): int {
    if digits == [] then 0 else 10 * ValueOf(digits[..|digits| - 1]) + (digits[|digits| - 1] - 0x30)
  }

  /** The digits are those of the number, without leading zeros. */
  lemma DecimalReadsBack(x: byte)
    ensures ValueOf(Decimal(x)) == x
    ensures forall i :: 0 <= i < |Decimal(x)| ==> 0x30 <= Decimal(x)[i] <= 0x39
    ensures Decimal(x)[0] == 0x30 ==> x == 0 && |Decimal(x)| == 1
  {
    var d := Decimal(x);
    if |d| == 3 {
      assert d[..2][..1] == [d[0]] && [d[0]][..0] == [];
      assert ValueOf([d[0]]) == x / 100 && ValueOf(d[..2]) == 10 * (x / 100) + x / 10 % 10;
    } else if |d| == 2 {
      assert d[..1] == [d[0]] && [d[0]][..0] == [];
      assert ValueOf([d[0]]) == x / 10;
    } else {
      assert d[..0] == [];
    }
  }

  function Text(origin: byte): seq<byte> {
    NODE_PREFIX + Decimal(origin)
  }

  /**
   * snprintf of a node name into a buffer: at most all but one byte of text, then a
   * terminator; what follows in the buffer keeps its old contents.
   */
  function PrintName(buffer: Name, origin: byte): (r: Name)
    requires |buffer| > 0
    ensures |r| == |buffer|
  {
    var text := Text(origin);
    var kept := if |text| < |buffer| then text else text[..|buffer| - 1];
    kept + [0] + buffer[|kept| + 1..]
  }

  function Zeros(width: nat): (r: Name)
    ensures |r| == width
  {
    seq(width, _ => 0)
  }

  /** The name printed into a zeroed buffer. */
  function NodeName(width: nat, origin: byte): Name
    requires width > 0
  {
    PrintName(Zeros(width), origin)
  }

  /** memcmp of the first n bytes. */
  predicate SamePrefix(a: Name, b: Name, n: nat)
    requires n <= |a| && n <= |b|
  {
    a[..n] == b[..n]
  }

  predicate IsEow(name: Name) {
    |EOW_MARKER| <= |name| && SamePrefix(name, EOW_MARKER, |EOW_MARKER|)
  }

  function EowName(width: nat): Name
    requires |EOW_MARKER| <= width
  {
    EOW_MARKER + Zeros(width - |EOW_MARKER|)
  }

  lemma EowIsEow(width: nat)
    requires |EOW_MARKER| <= width
    ensures IsEow(EowName(width)) && |EowName(width)| == width
  {
    assert EowName(width)[..3] == EOW_MARKER;
  }

  /** No node record is ever mistaken for the end-of-window marker. */
  lemma NodeNameIsNotEow(width: nat, origin: byte)
    requires width >= BASE_NAME_LEN
    ensures !IsEow(NodeName(width, origin))
  {
    assert NodeName(width, origin)[0] == 0x6E;
    assert NodeName(width, origin)[..3][0] == 0x6E;
  }

  /** Which part of the identifier survives the truncation to an 8-byte field. */
  function Surviving(width: nat, origin: byte): nat {
    if width == BASE_NAME_LEN && origin >= 100 then origin / 10 else origin
  }

  /** The three bytes after the prefix. */
  predicate HasDigits(width: nat, a: byte, name: Name) {
    && |name| >= BASE_NAME_LEN
    && name[5] == (if a < 10 then Digit(a) else if a < 100 then Digit(a / 10) else Digit(a / 100))
    && name[6] == (if a < 10 then 0 else if a < 100 then Digit(a % 10) else Digit(a / 10 % 10))
    && name[7] == (if a < 100 || width == BASE_NAME_LEN then 0 else Digit(a % 10))
  }

  lemma NodeNameDigits(width: nat, a: byte)
    requires width == BASE_NAME_LEN || width == MOBILE_NAME_LEN
    ensures HasDigits(width, a, NodeName(width, a))
  {
  }

  lemma Decompose(a: byte)
    ensures a == 10 * (a / 10) + a % 10 && a / 10 == 10 * (a / 100) + a / 10 % 10
  {
  }

  lemma SameDecimals(width: nat, a: byte, b: byte, name: Name)
    requires width == BASE_NAME_LEN || width == MOBILE_NAME_LEN
    requires HasDigits(width, a, name) && HasDigits(width, b, name)
    ensures Surviving(width, a) == Surviving(width, b)
  {
    Decompose(a);
    Decompose(b);
    DigitsDecide(width == MOBILE_NAME_LEN, a, a / 10, a / 100, a % 10, a / 10 % 10, b, b / 10, b / 100, b % 10, b / 10 % 10);
  }

  /** `a` has tens `a1` and hundreds `a2`, last digit `al` and middle digit `am`; likewise `b`. */
  lemma DigitsDecide(wide: bool, a: nat, a1: nat, a2: nat, al: nat, am: nat, b: nat, b1: nat, b2: nat, bl: nat, bm: nat)
    requires a == 10 * a1 + al && a1 == 10 * a2 + am && al < 10 && am < 10
    requires b == 10 * b1 + bl && b1 == 10 * b2 + bm && bl < 10 && bm < 10
    requires (if a < 10 then a else if a < 100 then a1 else a2) == (if b < 10 then b else if b < 100 then b1 else b2)
    requires (if a < 10 then -1 else if a < 100 then al else am) == (if b < 10 then -1 else if b < 100 then bl else bm)
    requires wide ==> (if a < 100 then -1 else al) == (if b < 100 then -1 else bl)
    ensures if wide then a == b else (if a >= 100 then a1 else a) == (if b >= 100 then b1 else b)
  {
  }

  /**
   * Two origins share a table entry exactly when their surviving digits agree. At the
   * mobile node's width of 9 that is equality, so tables keyed by name are tables keyed by
   * origin. At the base node's width of 8, three-digit origins lose their last digit.
   */
  lemma NamesAgree(width: nat, a: byte, b: byte)
    requires width == BASE_NAME_LEN || width == MOBILE_NAME_LEN
    ensures NodeName(width, a) == NodeName(width, b) <==> Surviving(width, a) == Surviving(width, b)
    ensures width == MOBILE_NAME_LEN ==> (NodeName(width, a) == NodeName(width, b) <==> a == b)
  {
    if NodeName(width, a) == NodeName(width, b) {
      NodeNameDigits(width, a);
      NodeNameDigits(width, b);
      SameDecimals(width, a, b, NodeName(width, a));
    } else if Surviving(width, a) == Surviving(width, b) {
      SurvivingDecides(a, b);
    }
  }

  lemma SurvivingDecides(a: byte, b: byte)
    requires Surviving(BASE_NAME_LEN, a) == Surviving(BASE_NAME_LEN, b)
    ensures NodeName(BASE_NAME_LEN, a) == NodeName(BASE_NAME_LEN, b)
  {
    if a >= 100 && b >= 100 {
      assert a / 100 == a / 10 / 10 && b / 100 == b / 10 / 10;
      assert Text(a)[..7] == Text(b)[..7];
    } 
  }

  /** A 9-byte name compared on its first 8 bytes, as the base node would, still tells origins apart. */
  lemma EightByteCompare(a: byte, b: byte)
    ensures SamePrefix(NodeName(MOBILE_NAME_LEN, a), NodeName(MOBILE_NAME_LEN, b), BASE_NAME_LEN) <==> a == b
  {
    var na, nb := NodeName(MOBILE_NAME_LEN, a), NodeName(MOBILE_NAME_LEN, b);
    assert na[8] == 0 && nb[8] == 0;
    assert na == na[..8] + [0] && nb == nb[..8] + [0];
    NamesAgree(MOBILE_NAME_LEN, a, b);
  }

  /** The name fits a 9-byte field with its terminator. */
  lemma NameFits(origin: byte)
    ensures Text(origin) + Zeros(MOBILE_NAME_LEN - |Text(origin)|) == NodeName(MOBILE_NAME_LEN, origin)
    ensures NodeName(MOBILE_NAME_LEN, origin)[8] == 0
  {
  }
}
