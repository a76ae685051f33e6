/** The pin protocol with the companion computer: a 2-bit command on CMDA/CMDB
    and a 4-bit distance on CMD0..CMD3, least significant bit first, summed as
    integers from the 0/1 value of each pin. */
module Protocol {

  /** The integer a C `bool` pin reading contributes to a sum. */
  function Bit(b: bool): (n: int)
    ensures 0 <= n <= 1
    ensures n == 1 <==> b
  {
    if b then 1 else 0
  }

  /** digitalRead(CMDA) + digitalRead(CMDB) * 2 */
  function DecodeCommand(a: bool, b: bool): (c: int)
    ensures 0 <= c <= 3
    ensures c % 2 == Bit(a) && c / 2 == Bit(b)
  {
    Bit(a) + Bit(b) * 2
  }

  /** The pin levels the companion computer sets to send command c. */
  function EncodeCommand(c: int): (bits: (bool, bool))
    requires 0 <= c <= 3
    ensures DecodeCommand(bits.0, bits.1) == c
  {
    (c % 2 == 1, c / 2 == 1)
  }

  /** Distinct pin pairs give distinct commands. */
  lemma CommandRoundTrip(a: bool, b: bool)
    ensures EncodeCommand(DecodeCommand(a, b)) == (a, b)
  {
  }

  /** The levels of CMD0, CMD1, CMD2, CMD3. */
  datatype Nibble = Nibble(b0: bool, b1: bool, b2: bool, b3: bool)

  /** digitalRead(CMD0) + digitalRead(CMD1) * 2 + digitalRead(CMD2) * 4 + digitalRead(CMD3) * 8 */
  function DecodeDistance(n: Nibble): (d: int)
    ensures 0 <= d <= 15
    ensures d % 2 == Bit(n.b0) && d / 8 == Bit(n.b3)
  {
    Bit(n.b0) + Bit(n.b1) * 2 + Bit(n.b2) * 4 + Bit(n.b3) * 8
  }

  /** The pin levels the companion computer sets to send distance d. */
  function EncodeDistance(d: int): (n: Nibble)
    requires 0 <= d <= 15
    ensures DecodeDistance(n) == d
  {
    Nibble(d % 2 == 1, d / 2 % 2 == 1, d / 4 % 2 == 1, d / 8 == 1)
  }

  /** Distinct pin levels give distinct distances. */
  lemma DistanceRoundTrip(n: Nibble)
    ensures EncodeDistance(DecodeDistance(n)) == n
  {
  }
}
