/** Game ports from a fixed range (agent/internal/slots/slots.go) and the port settings the agent accepts
    (agent/internal/config/config.go). */
module Slots {
  import opened Common

  /** The first port from p on that nobody holds and the host can bind. */
  function LowestFree(p: int, hi: int, used: map<int, string>, busy: set<int>): (r: Option<int>)
    ensures r.Some? ==> p <= r.value <= hi && r.value !in used && r.value !in busy
    ensures r.Some? ==> forall q | p <= q < r.value :: q in used || q in busy
    ensures r.None? ==> forall q | p <= q <= hi :: q in used || q in busy
    decreases hi - p
  {
    if p > hi then None
    else if p in used || p in busy then LowestFree(p + 1, hi, used, busy)
    else Some(p)
  }

  class Allocator {
    const lo: int
    const hi: int
    var used: map<int, string>

    constructor (first: int, last: int)
      ensures lo == first && hi == last && used == map[]
    {
      lo, hi, used := first, last, map[];
    }

    /** The lowest free port. busy holds the ports the host refuses to bind, empty when there is no probe. */
    method Acquire(owner: string, busy: set<int>) returns (port: Option<int>)
      modifies this
      ensures port == LowestFree(lo, hi, old(used), busy)
      ensures used == if port.Some? then old(used)[port.value := owner] else old(used)
    {
      var p := lo;
      while p <= hi
        invariant used == old(used)
        invariant LowestFree(p, hi, used, busy) == LowestFree(lo, hi, used, busy)
        decreases hi - p
      {
        if p !in used && p !in busy {
          used := used[p := owner];
          return Some(p);
        }
        p := p + 1;
      }
      return None;
    }

    method Claim(port: int, owner: string) returns (ok: bool)
      modifies this
      ensures ok <==> lo <= port <= hi && port !in old(used)
      ensures used == if ok then old(used)[port := owner] else old(used)
    {
      if port < lo || port > hi || port in used {
        return false;
      }
      used := used[port := owner];
      return true;
    }

    method Release(port: int)
      modifies this
      ensures used == old(used) - {port}
    {
      used := used - {port};
    }

    function Total(): int {
      hi - lo + 1
    }

    function Free(): int
      reads this
    {
      Total() - |used|
    }
  }

  // ---------- Settings ----------

  /** Ports of the game range and how far above them the GOTV ports are. */
  datatype Ports = Ports(lo: int, hi: int, offset: int)

  datatype SettingError = BadRange | BadOffset | OffsetOverlaps | OffsetOutOfRange

  predicate RangeOk(lo: int, hi: int) {
    1024 <= lo <= hi <= 65535
  }

  predicate GamePort(c: Ports, p: int) {
    c.lo <= p <= c.hi
  }

  function GotvPort(c: Ports, p: int): int {
    p + c.offset
  }

  /** No GOTV port can be a game port, and every GOTV port is a port. */
  ghost predicate Accepted(c: Ports) {
    && RangeOk(c.lo, c.hi)
    && (forall p | GamePort(c, p) :: !GamePort(c, GotvPort(c, p)) && 1 <= GotvPort(c, p) <= 65535)
  }

  /** Reads the range and the offset. None is text that does not parse. No error exactly when the ports work. */
  method ReadPorts(range: Option<(int, int)>, offset: Option<int>) returns (c: Ports, errs: seq<SettingError>)
    ensures errs == [] <==> range.Some? && offset.Some? && Accepted(Ports(range.value.0, range.value.1, offset.value))
    ensures errs == [] ==> c == Ports(range.value.0, range.value.1, offset.value)
  {
    errs := [];
    var lo, hi := 0, 0;
    if range.None? || range.value.0 < 1024 || range.value.1 > 65535 || range.value.0 > range.value.1 {
      errs := errs + [BadRange];
    } else {
      lo, hi := range.value.0, range.value.1;
    }
    var shift := 0;
    if offset.None? {
      errs := errs + [BadOffset];
    } else {
      shift := offset.value;
      if shift <= hi - lo && shift >= -(hi - lo) {
        ghost var c0 := Ports(lo, hi, shift);
        assert GamePort(c0, if shift >= 0 then lo else hi) && GamePort(c0, GotvPort(c0, if shift >= 0 then lo else hi));
        errs := errs + [OffsetOverlaps];
      } else if hi + shift > 65535 || lo + shift < 1 {
        ghost var c0 := Ports(lo, hi, shift);
        assert GamePort(c0, lo) && GamePort(c0, hi);
        errs := errs + [OffsetOutOfRange];
      }
    }
    c := Ports(lo, hi, shift);
  }
}
