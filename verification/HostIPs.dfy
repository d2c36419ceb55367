/** The host address allocator: `findFreeIP` and `flattenIP` of ccvm/server.go.

    Addresses are unsigned 32-bit words; arithmetic on them is checked not to
    leave that range.  The source's masks and shifts are written as division and
    remainder by powers of 256.
 */
module HostIPs {
  import opened Wrappers

  newtype Word = w: int | 0 <= w < 0x1_0000_0000

  newtype Octet = o: int | 0 <= o < 256

  /** net.IP: the four bytes of an IPv4 address, or something that has none. */
  datatype IP = IPv4(a: Octet, b: Octet, c: Octet, d: Octet) | NotIPv4

  /** 127.0.0.0 with the low sixteen bits of the user id in the middle. */
  function MaskFor(uid: nat): (mask: Word)
    ensures HostMask(mask)
  {
    0x7f00_0000 + (uid % 0x1_0000) as Word * 256
  }

  predicate HostMask(mask: Word) {
    0x7f00_0000 <= mask <= 0x7fff_ff00 && mask % 256 == 0
  }

  /** The 254 addresses of the block, 1 to 254. */
  predicate InBlock(mask: Word, ip: Word)
    requires HostMask(mask)
  {
    mask + 1 <= ip < mask + 255
  }

  function FreeFrom(i: Word, end: Word, taken: set<Word>): Option<Word>
    decreases end as int - i as int
  {
    if i < end then
      (if i !in taken then Some(i) else FreeFrom(i + 1, end, taken))
    else None
  }

  function FreeIP(mask: Word, taken: set<Word>): Option<Word>
    requires HostMask(mask)
  {
    FreeFrom(mask + 1, mask + 255, taken)
  }

  ghost predicate LeastFree(lo: Word, end: Word, taken: set<Word>, r: Option<Word>) {
    match r
    case None => forall a: Word :: lo <= a < end ==> a in taken
    case Some(ip) => lo <= ip < end && ip !in taken && forall a: Word :: lo <= a < ip ==> a in taken
  }

  lemma {:induction false} FreeFromLeast(i: Word, end: Word, taken: set<Word>)
    requires i <= end
    ensures LeastFree(i, end, taken, FreeFrom(i, end, taken))
    decreases end as int - i as int
  {
    if i < end && i in taken {
      FreeFromLeast(i + 1, end, taken);
    }
  }

  /** The allocator returns the least free address of the block, and nothing
      exactly when every address of the block is taken. */
  lemma FreeIPLeast(mask: Word, taken: set<Word>)
    requires HostMask(mask)
    ensures var r := FreeIP(mask, taken);
            && (r.Some? ==> InBlock(mask, r.value) && r.value !in taken)
            && (r.Some? ==> forall a: Word :: InBlock(mask, a) && a !in taken ==> r.value <= a)
            && (r.None? <==> forall a: Word :: InBlock(mask, a) ==> a in taken)
  {
    FreeFromLeast(mask + 1, mask + 255, taken);
  }

  function Flatten(ip: IP): Option<Word> {
    match ip
    case NotIPv4 => None
    case IPv4(a, b, c, d) => Some(a as Word * 0x100_0000 + b as Word * 0x1_0000 + c as Word * 0x100 + d as Word)
  }

  function Split(i: Word): IP {
    IPv4((i / 0x100_0000) as Octet, (i / 0x1_0000 % 256) as Octet, (i / 0x100 % 256) as Octet, (i % 256) as Octet)
  }

  /** Splitting a word into bytes and flattening them are inverse to each other. */
  lemma FlattenSplit(i: Word)
    ensures Flatten(Split(i)) == Some(i)
  {
    assert i == i / 0x100 * 0x100 + i % 256;
    assert i / 0x100 == i / 0x1_0000 * 0x100 + i / 0x100 % 256;
    assert i / 0x1_0000 == i / 0x100_0000 * 0x100 + i / 0x1_0000 % 256;
  }

  lemma SplitFlatten(ip: IP)
    requires ip.IPv4?
    ensures Split(Flatten(ip).value) == ip
  {
    var i := Flatten(ip).value;
    assert i % 256 == ip.d as Word;
    assert i / 0x100 == ip.a as Word * 0x1_0000 + ip.b as Word * 0x100 + ip.c as Word;
    assert i / 0x1_0000 == ip.a as Word * 0x100 + ip.b as Word;
  }

  /** The block of a user: 127, the second and the first byte of the user id, and 1 to 254. */
  lemma UserBlock(uid: nat, ip: IP)
    requires ip.IPv4?
    ensures InBlock(MaskFor(uid), Flatten(ip).value) <==>
              ip.a == 127 && ip.b as int == uid / 256 % 256 && ip.c as int == uid % 256 && 1 <= ip.d <= 254
  {
    var low := uid % 0x1_0000;
    assert low == (uid / 256 % 256) * 256 + uid % 256;
    SplitFlatten(ip);
    Octets(ip, low);
  }

  lemma Octets(ip: IP, low: nat)
    requires ip.IPv4? && low < 0x1_0000
    ensures 0x7f00_0000 + low * 256 + 1 <= Flatten(ip).value as int < 0x7f00_0000 + low * 256 + 255 <==>
              ip.a == 127 && ip.b as int * 256 + ip.c as int == low && 1 <= ip.d <= 254
  {}

  method FindFreeIP(hostIPMask: Word, hostIPs: set<Word>) returns (r: Option<(IP, Word)>)
    requires HostMask(hostIPMask)
    ensures r.None? <==> FreeIP(hostIPMask, hostIPs).None?
    ensures r.Some? ==> FreeIP(hostIPMask, hostIPs) == Some(r.value.1) && Flatten(r.value.0) == Some(r.value.1)
  {
    var i := hostIPMask + 1;
    var maxIPs := i + 254;
    while i < maxIPs
      invariant i <= maxIPs
      invariant FreeFrom(i, maxIPs, hostIPs) == FreeIP(hostIPMask, hostIPs)
      decreases maxIPs as int - i as int
    {
      if i !in hostIPs {
        break;
      }
      i := i + 1;
    }
    if i == maxIPs {
      return None;
    }
    FlattenSplit(i);
    return Some((Split(i), i));
  }
}
