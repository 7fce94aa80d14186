/** The priority of an ICE candidate, packed into 32 bits with shifts and ors. */
module IcePriority {

  const MAX_TURN_SERVERS := 32

  // ------------------------------------------------------------ bit operations

  function Pow2(k: nat): (r: nat)
    ensures 1 <= r
  {
    if k == 0 then 1 else 2 * Pow2(k - 1)
  }

  function ShiftLeft(x: nat, k: nat): nat { x * Pow2(k) }

  /** Bit by bit: a bit of the result is set when it is set on either side. */
  function Or(a: nat, b: nat): nat
    decreases a + b
  {
    if a == 0 && b == 0 then 0
    else (if a % 2 == 1 || b % 2 == 1 then 1 else 0) + 2 * Or(a / 2, b / 2)
  }

  /** Where the operands have no bit in common, or is addition. */
  lemma {:induction false} OrOfShifted(x: nat, k: nat, low: nat)
    requires low < Pow2(k)
    ensures Or(ShiftLeft(x, k), low) == ShiftLeft(x, k) + low
    decreases k, x
  {
    if k == 0 {
      OrZero(x);
    } else {
      var y := ShiftLeft(x, k - 1);
      assert ShiftLeft(x, k) == 2 * y by {
        assert x * (2 * Pow2(k - 1)) == 2 * (x * Pow2(k - 1));
      }
      OrOfShifted(x, k - 1, low / 2);
      OrStep(y, low);
    }
  }

  lemma OrStep(y: nat, low: nat)
    requires Or(y, low / 2) == y + low / 2
    ensures Or(2 * y, low) == 2 * y + low
  {
  }

  lemma {:induction false} OrZero(x: nat)
    ensures Or(x, 0) == x
  {
    if x != 0 { OrZero(x / 2); }
  }

  lemma Pow2Values()
    ensures Pow2(8) == 0x100 && Pow2(24) == 0x1000000
  {
    assert Pow2(8) == 0x100;
    assert Pow2(12) == 0x1000;
    assert Pow2(16) == 0x10000;
    assert Pow2(20) == 0x100000;
  }

  lemma OrByte(x: nat, low: nat)
    requires low < 0x100
    ensures ShiftLeft(x, 8) == 0x100 * x && Or(ShiftLeft(x, 8), low) == 0x100 * x + low
  {
    Pow2Values();
    OrOfShifted(x, 8, low);
  }

  lemma OrThreeBytes(x: nat, low: nat)
    requires low < 0x1000000
    ensures Or(ShiftLeft(x, 24), low) == 0x1000000 * x + low
  {
    Pow2Values();
    OrOfShifted(x, 24, low);
  }

  lemma Packed(t: nat, l: nat, c: nat)
    requires l < 0x10000 && c < 0x100
    ensures Or(Or(ShiftLeft(t, 24), ShiftLeft(l, 8)), c) == 0x1000000 * t + 0x100 * l + c
  {
    OrByte(l, 0);
    OrThreeBytes(t, ShiftLeft(l, 8));
    var high := 0x10000 * t + l;
    OrByte(high, c);
    assert ShiftLeft(high, 8) == Or(ShiftLeft(t, 24), ShiftLeft(l, 8));
  }

  lemma Unpacked(t: nat, l: nat, c: nat, x: nat)
    requires l < 0x10000 && c < 0x100 && x == 0x1000000 * t + 0x100 * l + c
    ensures x / 0x1000000 == t && x / 0x100 % 0x10000 == l && x % 0x100 == c
  {
  }

  // --------------------------------------------------------------- candidates

  /** The fields that the priority reads; the address is represented by its
      precedence, and a candidate is relayed when it has a relay protocol. */
  datatype Candidate = Candidate(component: nat, addressPrecedence: nat, relayProtocol: string)

  datatype Preferences = Preferences(typ: nat, adapter: nat, relay: nat, adjust: bool)

  function LocalPreference(c: Candidate, p: Preferences): nat {
    var local := Or(ShiftLeft(p.adapter, 8), c.addressPrecedence) + p.relay;
    if p.adjust && c.relayProtocol == "" then local + MAX_TURN_SERVERS else local
  }

  function GetPriority(c: Candidate, p: Preferences): nat
    requires c.component <= 256
  {
    Or(Or(ShiftLeft(p.typ, 24), ShiftLeft(LocalPreference(c, p), 8)), 256 - c.component)
  }

  /** The component and preference ranges of section 4.1.2.1 of RFC 5245, and
      the check that the local preference leaves room for the adjustment. */
  predicate InRange(c: Candidate, p: Preferences) {
    && 1 <= c.component <= 256
    && c.addressPrecedence <= 255
    && p.typ <= 255
    && Or(ShiftLeft(p.adapter, 8), c.addressPrecedence) + p.relay + 32 < 0x10000
  }

  lemma LocalIsSum(c: Candidate, p: Preferences)
    requires InRange(c, p)
    ensures LocalPreference(c, p) < 0x10000
    ensures LocalPreference(c, p) ==
            256 * p.adapter + c.addressPrecedence + p.relay +
            if p.adjust && c.relayProtocol == "" then 32 else 0
  {
    OrByte(p.adapter, c.addressPrecedence);
  }

  /** The priority is the sum that section 4.1.2.1 of RFC 5245 prescribes; it
      fits 32 bits, and every term can be read back from it. */
  lemma PriorityIsSum(c: Candidate, p: Preferences)
    requires InRange(c, p)
    ensures GetPriority(c, p) == 0x1000000 * p.typ + 0x100 * LocalPreference(c, p) + (256 - c.component)
    ensures GetPriority(c, p) < 0x1_0000_0000
    ensures GetPriority(c, p) / 0x1000000 == p.typ
    ensures GetPriority(c, p) / 0x100 % 0x10000 == LocalPreference(c, p)
    ensures 256 - GetPriority(c, p) % 0x100 == c.component
  {
    LocalIsSum(c, p);
    var local := LocalPreference(c, p);
    Packed(p.typ, local, 256 - c.component);
    Unpacked(p.typ, local, 256 - c.component, GetPriority(c, p));
  }

  /** Priorities compare by type preference, then by local preference, and then
      the lower component wins. */
  lemma PriorityOrder(c: Candidate, p: Preferences, c': Candidate, p': Preferences)
    requires InRange(c, p) && InRange(c', p')
    ensures GetPriority(c, p) < GetPriority(c', p') <==>
            var l, l' := LocalPreference(c, p), LocalPreference(c', p');
            p.typ < p'.typ || (p.typ == p'.typ && (l < l' || (l == l' && c'.component < c.component)))
  {
    LocalIsSum(c, p);
    LocalIsSum(c', p');
    PriorityIsSum(c, p);
    PriorityIsSum(c', p');
  }

  /** With the adjustment on, a relayed candidate stays at or below a direct one
      in the 24 bits that section 7.1.2.1 of RFC 5245 carries over into the STUN
      priority, exactly when its extra relay preference is at most 32. */
  lemma RelayNotAboveDirect(relayed: Candidate, p: Preferences, direct: Candidate, q: Preferences)
    requires InRange(relayed, p) && InRange(direct, q)
    requires p.adjust && q.adjust && relayed.relayProtocol != "" && direct.relayProtocol == ""
    requires p.adapter == q.adapter && relayed.addressPrecedence == direct.addressPrecedence
    requires relayed.component == direct.component
    ensures GetPriority(relayed, p) % 0x1000000 <= GetPriority(direct, q) % 0x1000000 <==>
            p.relay <= q.relay + 32
  {
    LocalIsSum(relayed, p);
    LocalIsSum(direct, q);
    PriorityIsSum(relayed, p);
    PriorityIsSum(direct, q);
  }
}
