/** Script injection (Program.cs, `InjectScript`): repoint the game's script
    pointer at the custom buffer, then write the compiled script there. The
    memory model below says what the two writes do to the console's memory. */
module Injection {
  import opened Words
  import opened Config
  import opened Effects

  /** The two writes, pointer first, both through `console.Extension`. */
  function InjectScript(gametype: Gametype, scriptBuffer: seq<Byte>): seq<Effect> {
    [ WriteUInt32(gametype.defaults.pointerAddress, gametype.customs.bufferAddress),
      WriteBytes(gametype.customs.bufferAddress, scriptBuffer) ]
  }

  /** Console memory, one byte per address. */
  type Memory = int -> Byte

  /** A 32-bit value as the console stores it: big-endian, the PS3's order. */
  function Encode32(v: UInt32): (bs: seq<Byte>)
    ensures |bs| == 4
  {
    var v1 := v / 0x100;
    var v2 := v1 / 0x100;
    var v3 := v2 / 0x100;
    [ v3, (v2 % 0x100), (v1 % 0x100), (v % 0x100) ]
  }

  function Decode32(bs: seq<Byte>): int
    requires |bs| == 4
  {
    var hi: int := bs[0];
    ((hi * 0x100 + bs[1]) * 0x100 + bs[2]) * 0x100 + bs[3]
  }

  lemma Encode32RoundTrip(v: UInt32)
    ensures Decode32(Encode32(v)) == v
  {
  }

  /** `data` written at `address`; every other address keeps its byte. */
  function Store(mem: Memory, address: int, data: seq<Byte>): Memory {
    k => if address <= k < address + |data| then data[k - address] else mem(k)
  }

  /** The `n` bytes from `address` on. */
  function Fetch(mem: Memory, address: int, n: nat): (bs: seq<Byte>)
    ensures |bs| == n
  {
    seq(n, i => mem(address + i))
  }

  /** What one effect does to console memory. */
  function Apply(mem: Memory, e: Effect): Memory {
    match e
    case WriteUInt32(address, value) => Store(mem, address, Encode32(value))
    case WriteBytes(address, bytes) => Store(mem, address, bytes)
    case _ => mem
  }

  function ApplyAll(mem: Memory, trace: seq<Effect>): Memory
    decreases |trace|
  {
    if trace == [] then mem else ApplyAll(Apply(mem, trace[0]), trace[1..])
  }

  lemma {:induction false} ApplyAllAppend(mem: Memory, a: seq<Effect>, b: seq<Effect>)
    ensures ApplyAll(mem, a + b) == ApplyAll(ApplyAll(mem, a), b)
    decreases |a|
  {
    if a == [] {
      assert a + b == b;
    } else {
      assert (a + b)[1..] == a[1..] + b;
      ApplyAllAppend(Apply(mem, a[0]), a[1..], b);
    }
  }

  /** Effects other than the two writes leave console memory as it was. */
  lemma {:induction false} ApplyAllNoWrites(mem: Memory, trace: seq<Effect>)
    requires forall i :: 0 <= i < |trace| ==> !trace[i].IsWrite()
    ensures ApplyAll(mem, trace) == mem
    decreases |trace|
  {
    if trace != [] {
      ApplyAllNoWrites(mem, trace[1..]);
    }
  }

  /** After the injection the buffer holds the script, whatever the layout;
      the pointer slot holds the buffer's address when the four pointer bytes
      lie outside the buffer; and no byte outside those two regions changes. */
  lemma InjectInstallsScript(mem: Memory, gametype: Gametype, scriptBuffer: seq<Byte>)
    ensures var after := ApplyAll(mem, InjectScript(gametype, scriptBuffer));
            Fetch(after, gametype.customs.bufferAddress, |scriptBuffer|) == scriptBuffer
    ensures var p, b := gametype.defaults.pointerAddress, gametype.customs.bufferAddress;
            var after := ApplyAll(mem, InjectScript(gametype, scriptBuffer));
            (p + 4 <= b || b + |scriptBuffer| <= p) ==> Decode32(Fetch(after, p, 4)) == b
    ensures var p, b := gametype.defaults.pointerAddress, gametype.customs.bufferAddress;
            var after := ApplyAll(mem, InjectScript(gametype, scriptBuffer));
            forall k :: !(p <= k < p + 4) && !(b <= k < b + |scriptBuffer|) ==> after(k) == mem(k)
  {
    var p, b := gametype.defaults.pointerAddress, gametype.customs.bufferAddress;
    var trace := InjectScript(gametype, scriptBuffer);
    var mid := Store(mem, p, Encode32(b));
    var after := Store(mid, b, scriptBuffer);
    assert ApplyAll(mem, trace) == Apply(Apply(mem, trace[0]), trace[1]) by {
      assert trace[1..][1..] == [];
      assert ApplyAll(mem, trace) == ApplyAll(Apply(mem, trace[0]), trace[1..]);
      assert ApplyAll(Apply(mem, trace[0]), trace[1..]) == ApplyAll(Apply(Apply(mem, trace[0]), trace[1]), []);
    }
    assert Apply(Apply(mem, trace[0]), trace[1]) == after;
    if p + 4 <= b || b + |scriptBuffer| <= p {
      assert Fetch(after, p, 4) == Encode32(b);
      Encode32RoundTrip(b);
    }
  }
}
