// Bandwidth shares of a network interface (internal/plugin/net_bw.go).
module NetBandwidth {
  import opened Listings
  import opened Naming
  import opened Resources
  import opened Udev

  const TWO_TO_THE_63 := 0x8000_0000_0000_0000

  // Go's int and uint on a 64-bit machine.
  type int64 = x: int | -TWO_TO_THE_63 <= x < TWO_TO_THE_63
  type uint64 = x: int | 0 <= x < 2 * TWO_TO_THE_63

  // int(mbpsPerShare)
  function ToInt(u: uint64): int64 {
    if u < TWO_TO_THE_63 then u else u - 2 * TWO_TO_THE_63
  }

  // The same bits: the numbers differ by a multiple of 2^64, and both fit.
  lemma ToIntKeepsBits(u: uint64)
    ensures ToInt(u) == u || ToInt(u) == u - 0x1_0000_0000_0000_0000
    ensures -0x8000_0000_0000_0000 <= ToInt(u) < 0x8000_0000_0000_0000
  {
  }

  function Abs(x: int): nat {
    if x < 0 then -x else x
  }

  // Division truncates toward zero.
  function Truncated(a: int, b: int): (q: int)
    requires b != 0
  {
    if (a < 0) == (b < 0) then Abs(a) / Abs(b) else -(Abs(a) / Abs(b))
  }

  // The one quotient that does not fit wraps around.
  function GoDiv(a: int64, b: int64): int64
    requires b != 0
  {
    if a == -TWO_TO_THE_63 && b == -1 then -TWO_TO_THE_63
    else
      QuotientFits(a, b);
      Truncated(a, b)
  }

  lemma QuotientFits(a: int64, b: int64)
    requires b != 0 && !(a == -TWO_TO_THE_63 && b == -1)
    ensures -TWO_TO_THE_63 <= Truncated(a, b) < TWO_TO_THE_63
  {
    QuotientAtMost(Abs(a), Abs(b));
    if Abs(a) == TWO_TO_THE_63 && b < 0 {
      HalfAtMost(TWO_TO_THE_63, Abs(b));
    }
  }

  lemma QuotientAtMost(a: nat, b: nat)
    requires 0 < b
    ensures 0 <= a / b <= a
  {
    DivBounds(a, b);
    if a / b > a {
      AtLeast(a / b, b);
    }
  }

  lemma HalfAtMost(a: nat, b: nat)
    requires 2 <= b && 0 < a
    ensures a / b < a
  {
    DivBounds(a, b);
    if a / b >= a {
      TwiceAtLeast(a / b, b);
    }
  }

  lemma AtLeast(q: nat, b: nat)
    requires 0 < b
    ensures q <= q * b
  {
    if q > 0 {
      AtLeastOne(b, q);
    }
  }

  lemma TwiceAtLeast(q: nat, b: nat)
    requires 2 <= b
    ensures 2 * q <= q * b
  {
    Multiply(q, 2, b);
  }

  lemma Multiply(q: nat, x: nat, y: nat)
    requires x <= y
    ensures q * x <= q * y
  {
    assert q * y == q * x + q * (y - x);
  }

  // A device without a match, a speed or a full share has no instances. The division
  // panics for a zero share size, the allocation for a capacity the runtime refuses.
  datatype Outcome = Instances(instances: seq<Instance>) | Panics

  function Shares(ifname: string, dev: Device, n: nat): seq<Instance> {
    seq(n, i requires 0 <= i => Bandwidth(ifname, i, dev))
  }

  // make([]T, 0, n) panics for a negative n and for one above the runtime's limit.
  predicate CapacityRefused(n: int64, maxCap: nat) {
    n < 0 || maxCap < n
  }

  method BandwidthInstances(
      dev: Device, matches: string -> bool, atoi: string -> Option<int64>, mbpsPerShare: uint64, maxCap: nat)
    returns (r: Outcome)
    ensures var speed := SpeedOf(dev, matches, atoi);
            && (r.Panics? <==> speed.Some? && PanicsFor(speed.value, mbpsPerShare, maxCap))
            && (r.Instances? ==>
                  r.instances ==
                  if speed.None? then [] else Shares(Interface(dev), dev, GoDiv(speed.value, ToInt(mbpsPerShare))))
    // Without the functions of the model: which devices have shares, and what each share is.
    ensures r != Instances([]) ==>
              && dev.subsystem == "net" && "INTERFACE" in dev.properties && dev.properties["INTERFACE"] != ""
              && matches(dev.properties["INTERFACE"])
              && "speed" in dev.sysattrs && dev.sysattrs["speed"] != "" && atoi(dev.sysattrs["speed"]).Some?
    ensures r.Instances? ==>
              forall i | 0 <= i < |r.instances| :: r.instances[i] == Bandwidth(dev.properties["INTERFACE"], i, dev)
  {
    SpeedOfIff(dev, matches, atoi);
    if dev.subsystem != "net" {
      return Instances([]);
    }
    var ifname := Interface(dev);
    if ifname == "" || !matches(ifname) {
      return Instances([]);
    }
    var speedString := if "speed" in dev.sysattrs then dev.sysattrs["speed"] else "";
    if speedString == "" {
      return Instances([]);
    }
    var speed := atoi(speedString);
    if speed.None? {
      return Instances([]);
    }
    if ToInt(mbpsPerShare) == 0 {
      return Panics;
    }
    var shares := GoDiv(speed.value, ToInt(mbpsPerShare));
    if shares == 0 {
      return Instances([]);
    }
    if CapacityRefused(shares, maxCap) {
      return Panics;
    }
    var instances := [];
    for i := 0 to shares
      invariant instances == Shares(ifname, dev, i)
    {
      instances := instances + [Bandwidth(ifname, i, dev)];
    }
    return Instances(instances);
  }

  predicate PanicsFor(speed: int64, mbpsPerShare: uint64, maxCap: nat) {
    ToInt(mbpsPerShare) == 0 || CapacityRefused(GoDiv(speed, ToInt(mbpsPerShare)), maxCap)
  }

  function Interface(dev: Device): string {
    if "INTERFACE" in dev.properties then dev.properties["INTERFACE"] else ""
  }

  // The speed that is divided into shares, if the device gets that far.
  function SpeedOf(dev: Device, matches: string -> bool, atoi: string -> Option<int64>): Option<int64> {
    if dev.subsystem == "net" && Interface(dev) != "" && matches(Interface(dev)) &&
       "speed" in dev.sysattrs && dev.sysattrs["speed"] != ""
    then atoi(dev.sysattrs["speed"])
    else None
  }

  // A device has a speed exactly if it is a net device with a name the matcher accepts and an
  // attribute that reads as a number.
  lemma SpeedOfIff(dev: Device, matches: string -> bool, atoi: string -> Option<int64>)
    ensures SpeedOf(dev, matches, atoi).Some? <==>
            && dev.subsystem == "net" && "INTERFACE" in dev.properties && dev.properties["INTERFACE"] != ""
            && matches(dev.properties["INTERFACE"])
            && "speed" in dev.sysattrs && dev.sysattrs["speed"] != "" && atoi(dev.sysattrs["speed"]).Some?
    ensures SpeedOf(dev, matches, atoi).Some? ==>
              && SpeedOf(dev, matches, atoi) == atoi(dev.sysattrs["speed"])
              && Interface(dev) == dev.properties["INTERFACE"]
  {
  }

  lemma DivBounds(a: nat, b: nat)
    requires 0 < b
    ensures 0 <= a / b && a / b * b <= a < a / b * b + b
  {
  }

  lemma OneMoreShare(q: int, size: int)
    ensures (q + 1) * size == q * size + size
  {
  }

  // Shares never oversubscribe the interface and leave less than one share over.
  lemma SharesFill(speed: int64, size: int64)
    requires 0 <= speed && 0 < size
    ensures 0 <= GoDiv(speed, size)
    ensures GoDiv(speed, size) * size <= speed < (GoDiv(speed, size) + 1) * size
  {
    DivBounds(speed, size);
    OneMoreShare(speed / size, size);
  }

  // In terms of the input: a share size of zero, a speed negative by a full share, or more
  // full shares than the runtime allocates. A share size of 2^63 or more is a negative
  // integer, so that there a full share of positive speed panics, and the least speed does
  // for a share size that reads as -1.
  lemma PanicsIff(speed: int64, mbpsPerShare: uint64, maxCap: nat)
    requires maxCap < TWO_TO_THE_63
    ensures PanicsFor(speed, mbpsPerShare, maxCap) <==>
            var size: int := ToInt(mbpsPerShare);
            || size == 0
            || (size > 0 && (speed <= -size || (maxCap + 1) * size <= speed))
            || (size < 0 && (-size <= speed || speed <= (maxCap + 1) * size || (size == -1 && speed == -TWO_TO_THE_63)))
  {
    var size := ToInt(mbpsPerShare);
    if size != 0 && !(speed == -TWO_TO_THE_63 && size == -1) {
      TruncatedReaches(speed, size, maxCap + 1);
      TruncatedNegative(speed, size);
    }
  }

  lemma TruncatedReaches(a: int, b: int, n: nat)
    requires b != 0 && 0 < n
    ensures n <= Truncated(a, b) <==> if b > 0 then n * b <= a else a <= n * b
  {
    ShareReached(Abs(a), Abs(b), n);
    SignMoves(n, b);
    AtLeastOne(n, Abs(b));
  }

  lemma TruncatedNegative(a: int, b: int)
    requires b != 0
    ensures Truncated(a, b) < 0 <==> if b > 0 then a <= -b else -b <= a
  {
    OneShareReached(Abs(a), Abs(b));
    NegativeQuotient(a, b, Abs(a) / Abs(b));
  }

  lemma OneShareReached(a: nat, b: nat)
    requires 0 < b
    ensures 0 <= a / b && (1 <= a / b <==> b <= a)
  {
    ShareReached(a, b, 1);
    DivBounds(a, b);
  }

  lemma NegativeQuotient(a: int, b: int, q: int)
    requires b != 0 && 0 <= q && (1 <= q <==> Abs(b) <= Abs(a))
    ensures (if (a < 0) == (b < 0) then q else -q) < 0 <==> if b > 0 then a <= -b else -b <= a
  {
  }

  lemma SignMoves(n: nat, size: int)
    ensures n * -size == -(n * size)
  {
  }

  // The quotient reaches n exactly when n full shares fit.
  lemma ShareReached(a: nat, b: nat, n: nat)
    requires 0 < b
    ensures n <= a / b <==> n * b <= a
  {
    DivBounds(a, b);
    var q := a / b;
    if n <= q {
      Multiply(b, n, q);
    } else {
      Multiply(b, q + 1, n);
      OneMoreShare(q, b);
    }
  }

  lemma AtLeastOne(q: int, size: int)
    requires 1 <= q && 0 < size
    ensures size <= q * size
  {
  }

  // The shares of all interfaces together have pairwise distinct ids.
  lemma ShareIdsDistinct(ifname: string, dev: Device, n: nat, ifname': string, dev': Device, n': nat, i: nat, j: nat)
    requires i < n && j < n'
    ensures InstanceId(Shares(ifname, dev, n)[i]) == InstanceId(Shares(ifname', dev', n')[j])
           <==> ifname == ifname' && i == j
  {
    BandwidthIdsDistinct(ifname, i, ifname', j);
  }
}
