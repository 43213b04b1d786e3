/** The null-modem devices of the VMs, numbered by the daemon where the configuration says `auto`. */
module Comport {
  import opened Options
  import opened Numbers

  /** A VM of the list: its configured port, the port it uses, and whether the daemon made that up. */
  datatype Port = Port(conf: Option<string>, inUse: Option<string>, made: bool)

  // ------------------------------------------------------------------- numbers

  /** `get_nmdm_number` of a string: all its digits, in order, as one number. */
  function Number(s: string): nat {
    if s == [] then 0
    else
      var before, c := Number(s[..|s| - 1]), s[|s| - 1];
      if IsDigit(c) then before * 10 + DigitValue(c) else before
  }

  function NumberOf(s: Option<string>): int {
    if s.None? then -1 else Number(s.value)
  }

  method GetNmdmNumber(s: Option<string>) returns (v: int)
    ensures v == NumberOf(s)
  {
    if s.None? {
      return -1;
    }
    v := 0;
    for i := 0 to |s.value|
      invariant v == Number(s.value[..i])
    {
      assert s.value[..i + 1][..i] == s.value[..i];
      if IsDigit(s.value[i]) {
        v := v * 10 + (s.value[i] as int - '0' as int);
      }
    }
    assert s.value[..|s.value|] == s.value;
  }

  function Device(n: nat): string {
    "/dev/nmdm" + Decimal(n) + "B"
  }

  lemma {:induction false} NumberAfter(s: string, n: nat)
    requires Number(s) == 0
    ensures Number(s + Decimal(n)) == n
    decreases n
  {
    var d := s + Decimal(n);
    if n < 10 {
      assert d[..|d| - 1] == s;
    } else {
      NumberAfter(s, n / 10);
      assert d[..|d| - 1] == s + Decimal(n / 10);
    }
  }

  lemma {:induction false} NumberSkips(s: string)
    requires forall c <- s :: !IsDigit(c)
    ensures Number(s) == 0
  {
    if s != [] {
      assert s[|s| - 1] in s;
      NumberSkips(s[..|s| - 1]);
    }
  }

  /** The number printed into a device name is the number read from it. */
  lemma DeviceNumber(n: nat)
    ensures Number(Device(n)) == n
  {
    NumberSkips("/dev/nmdm");
    NumberAfter("/dev/nmdm", n);
    var d := Device(n);
    assert d[..|d| - 1] == "/dev/nmdm" + Decimal(n);
  }

  // ---------------------------------------------------------------- assignment

  function Max(a: int, b: int): int {
    if a > b then a else b
  }

  /** The highest number among the ports of the list. */
  function Highest(ports: seq<Port>): (m: int)
    ensures m >= -1
    ensures forall p <- ports :: NumberOf(p.conf) <= m && NumberOf(p.inUse) <= m
  {
    if ports == [] then -1
    else
      var p, before := ports[|ports| - 1], Highest(ports[..|ports| - 1]);
      assert ports == ports[..|ports| - 1] + [p];
      Max(NumberOf(p.inUse), Max(NumberOf(p.conf), before))
  }

  function HighestName(names: seq<string>, m: int): (r: int)
    ensures r >= m
    ensures forall s <- names :: Number(s) <= r
  {
    if names == [] then m
    else
      var s := names[|names| - 1];
      assert names == names[..|names| - 1] + [s];
      Max(Number(s), HighestName(names[..|names| - 1], m))
  }

  /** The number for a new device: above all that are configured, in use or present, and not under the offset. */
  function Fresh(ports: seq<Port>, devices: seq<string>, offset: int): (n: nat)
    ensures n >= offset
    ensures forall p <- ports :: NumberOf(p.conf) < n && NumberOf(p.inUse) < n
    ensures forall s <- devices :: Number(s) < n
  {
    Max(HighestName(devices, Highest(ports)), offset - 1) + 1
  }

  function Lower(c: char): char {
    if 'A' <= c <= 'Z' then (c as int - 'A' as int + 'a' as int) as char else c
  }

  predicate IsAuto(s: string) {
    |s| == 4 && Lower(s[0]) == 'a' && Lower(s[1]) == 'u' && Lower(s[2]) == 't' && Lower(s[3]) == 'o'
  }

  /** What `/dev` holds, if it can be read, and whether the new device appears when it is looked at. */
  datatype System = System(devices: Option<seq<string>>, appears: bool)

  /** `assign_comport`. */
  function Assign(ports: seq<Port>, k: nat, offset: int, sys: System): (seq<Port>, bool)
    requires k < |ports|
  {
    var p := ports[k];
    if p.conf.None? || p.inUse.Some? then (ports, true)
    else if !IsAuto(p.conf.value) then (ports[k := p.(inUse := p.conf)], true)
    else if sys.devices.None? || !sys.appears then (ports, false)
    else
      var n := Fresh(ports, sys.devices.value, offset);
      (ports[k := p.(inUse := Some(Device(n)), made := true)], true)
  }

  // ----------------------------------------------------------------------- runs

  datatype Step =
    | Create(conf: Option<string>)
    | Remove(k: nat)
    | Configure(k: nat, conf: Option<string>)
    | Start(k: nat, sys: System)
    | Release(k: nat)

  /**
   What is assigned: nothing without a setting or to a machine that has a comport, the setting as it
   is, or where it is "auto" a device with a number that nobody has.
   */
  lemma AssignAnswers(ports: seq<Port>, k: nat, offset: int, sys: System)
    requires k < |ports|
    ensures var p, (ports', ok) := ports[k], Assign(ports, k, offset, sys);
      && |ports'| == |ports| && (forall i :: 0 <= i < |ports| && i != k ==> ports'[i] == ports[i])
      && ports'[k].conf == p.conf
      && if p.conf.None? || p.inUse.Some? then ok && ports'[k] == p
         else if !IsAuto(p.conf.value) then ok && ports'[k].inUse == p.conf && ports'[k].made == p.made
         else if sys.devices.None? || !sys.appears then !ok && ports'[k] == p
         else ok && ports'[k].made && GetsUnused(ports, sys.devices.value, offset, ports'[k].inUse)
  {
    if sys.devices.Some? {
      assert Unused(ports, sys.devices.value, Fresh(ports, sys.devices.value, offset));
    }
  }

  ghost predicate GetsUnused(ports: seq<Port>, devices: seq<string>, offset: int, inUse: Option<string>) {
    exists n: nat :: n >= offset && Unused(ports, devices, n) && inUse == Some(Device(n))
  }

  ghost predicate Unused(ports: seq<Port>, devices: seq<string>, n: nat) {
    && (forall p <- ports :: NumberOf(p.conf) < n && NumberOf(p.inUse) < n)
    && (forall d <- devices :: Number(d) < n)
  }

  function After(ports: seq<Port>, offset: int, s: Step): seq<Port> {
    match s
    case Create(conf) => [Port(conf, None, false)] + ports
    case Remove(k) => if k < |ports| then ports[..k] + ports[k + 1..] else ports
    case Configure(k, conf) => if k < |ports| then ports[k := ports[k].(conf := conf)] else ports
    case Start(k, sys) => if k < |ports| then Assign(ports, k, offset, sys).0 else ports
    case Release(k) => if k < |ports| then ports[k := ports[k].(inUse := None, made := false)] else ports
  }

  function Run(ports: seq<Port>, offset: int, steps: seq<Step>): seq<Port> {
    if steps == [] then ports else After(Run(ports, offset, steps[..|steps| - 1]), offset, steps[|steps| - 1])
  }

  /** Numbers that the daemon made up are at least the offset, and no two VMs share one. */
  ghost predicate Distinct(ports: seq<Port>, offset: int) {
    && (forall p <- ports :: p.made ==> p.inUse.Some? && Number(p.inUse.value) >= offset)
    && forall i, j :: 0 <= i < j < |ports| && ports[i].made && ports[j].made ==>
      NumberOf(ports[i].inUse) != NumberOf(ports[j].inUse)
  }

  lemma AssignDistinct(ports: seq<Port>, k: nat, offset: int, sys: System)
    requires Distinct(ports, offset) && k < |ports|
    ensures Distinct(Assign(ports, k, offset, sys).0, offset)
  {
    var p := ports[k];
    assert p in ports;
    if p.conf.Some? && p.inUse.None? && IsAuto(p.conf.value) && sys.devices.Some? && sys.appears {
      var n := Fresh(ports, sys.devices.value, offset);
      DeviceNumber(n);
      assert forall i :: 0 <= i < |ports| ==> ports[i] in ports && NumberOf(ports[i].inUse) < n;
    }
  }

  lemma StepDistinct(ports: seq<Port>, offset: int, s: Step)
    requires Distinct(ports, offset)
    ensures Distinct(After(ports, offset, s), offset)
  {
    match s
    case Start(k, sys) => if k < |ports| { AssignDistinct(ports, k, offset, sys); }
    case Configure(k, conf) => if k < |ports| { assert ports[k] in ports; }
    case _ =>
  }

  /** Along every run the numbers made up by the daemon stay distinct. */
  lemma {:induction false} RunDistinct(offset: int, steps: seq<Step>)
    ensures Distinct(Run([], offset, steps), offset)
  {
    if steps != [] {
      RunDistinct(offset, steps[..|steps| - 1]);
      StepDistinct(Run([], offset, steps[..|steps| - 1]), offset, steps[|steps| - 1]);
    }
  }

  // ---------------------------------------------------------------- as a program

  class Ports {
    var ports: seq<Port>
    const offset: int

    constructor (offset: int)
      ensures ports == [] && this.offset == offset
    {
      ports := [];
      this.offset := offset;
    }

    /** The first scan: every VM of the list. */
    method ScanPorts() returns (max: int)
      ensures max == Highest(ports)
    {
      max := -1;
      for i := 0 to |ports|
        invariant max == Highest(ports[..i])
      {
        assert ports[..i + 1][..i] == ports[..i];
        var n := GetNmdmNumber(ports[i].conf);
        max := Max(n, max);
        n := GetNmdmNumber(ports[i].inUse);
        max := Max(n, max);
      }
      assert ports[..|ports|] == ports;
    }

    /** The second scan: every device. */
    method ScanDevices(names: seq<string>, start: int) returns (max: int)
      ensures max == HighestName(names, start)
    {
      max := start;
      for i := 0 to |names|
        invariant max == HighestName(names[..i], start)
      {
        assert names[..i + 1][..i] == names[..i];
        var n := GetNmdmNumber(Some(names[i]));
        max := Max(n, max);
      }
      assert names[..|names|] == names;
    }

    /** `assign_comport`. */
    method AssignComport(k: nat, sys: System) returns (ok: bool)
      requires k < |ports|
      modifies this`ports
      ensures (ports, ok) == Assign(old(ports), k, offset, sys)
    {
      var p := ports[k];
      if p.conf.None? || p.inUse.Some? {
        return true;
      }
      if !IsAuto(p.conf.value) {
        ports := ports[k := p.(inUse := p.conf)];
        return true;
      }
      var max := ScanPorts();
      if sys.devices.None? {
        return false;
      }
      max := ScanDevices(sys.devices.value, max);
      if max < offset - 1 {
        max := offset - 1;
      }
      if !sys.appears {
        return false;
      }
      ports := ports[k := p.(inUse := Some(Device(max + 1)), made := true)];
      return true;
    }
  }
}
