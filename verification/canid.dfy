/**
 * The 29-bit extended CAN identifier of a J1939 frame (SAE J1939-21,
 * section 5.2): priority in bits 26 to 28, PGN in bits 8 to 25 and source
 * address in bits 0 to 7.
 */
module J1939Id {

  predicate IdFieldsInRange(priority: nat, pgn: nat, sourceAddress: nat) {
    priority < 8 && pgn < 0x4_0000 && sourceAddress < 0x100
  }

  /**
   * `priority << 26 | pgn << 8 | source_address`. The three fields occupy
   * disjoint bit ranges, so the bitwise or is the sum written here.
   */
  function CanId(priority: nat, pgn: nat, sourceAddress: nat): (id: nat)
    requires IdFieldsInRange(priority, pgn, sourceAddress)
    ensures id < 0x2000_0000
    ensures id / 0x400_0000 == priority
    ensures id / 0x100 % 0x4_0000 == pgn
    ensures id % 0x100 == sourceAddress
  {
    priority * 0x400_0000 + pgn * 0x100 + sourceAddress
  }

  /** Different field values give different identifiers. */
  lemma CanIdInjective(p1: nat, g1: nat, a1: nat, p2: nat, g2: nat, a2: nat)
    requires IdFieldsInRange(p1, g1, a1) && IdFieldsInRange(p2, g2, a2)
    requires CanId(p1, g1, a1) == CanId(p2, g2, a2)
    ensures p1 == p2 && g1 == g2 && a1 == a2
  {
  }

  /** Priority 3, PGN 61444 (EEC1), source address 0. */
  lemma CanIdEec1()
    ensures CanId(3, 61444, 0) == 0x0CF0_0400
  {
  }
}
