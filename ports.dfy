/** Choosing the serial port the scanner is attached to. */
module Ports {
  import opened Wrappers

  /** USB vendor id the driver looks for. */
  const ScannerVendorId: int := 1529

  /** One enumerated serial port: its device name and, for USB adapters, its vendor id. */
  datatype PortInfo = PortInfo(device: string, vid: Option<int>)

  predicate IsScanner(p: PortInfo)
  {
    p.vid == Some(ScannerVendorId)
  }

  /** The device name of the first enumerated port that is the scanner. */
  function FirstScannerPort(ports: seq<PortInfo>): (r: Option<string>)
    ensures r.None? ==> forall i :: 0 <= i < |ports| ==> !IsScanner(ports[i])
    ensures r.Some? ==> exists i :: 0 <= i < |ports| && IsScanner(ports[i]) && ports[i].device == r.value
  {
    if ports == [] then None
    else if IsScanner(ports[0]) then Some(ports[0].device)
    else FirstScannerPort(ports[1..])
  }

  /** A device is chosen exactly when some port matches, and it is the earliest match. */
  lemma {:induction false} FirstScannerPortChoice(ports: seq<PortInfo>)
    ensures FirstScannerPort(ports).None? <==> forall i :: 0 <= i < |ports| ==> !IsScanner(ports[i])
    ensures FirstScannerPort(ports).Some? ==>
      exists i :: 0 <= i < |ports| && IsScanner(ports[i]) && ports[i].device == FirstScannerPort(ports).value &&
        forall j :: 0 <= j < i ==> !IsScanner(ports[j])
  {
    if ports != [] && !IsScanner(ports[0]) {
      FirstScannerPortChoice(ports[1..]);
      assert forall i :: 1 <= i < |ports| ==> ports[i] == ports[1..][i - 1];
      if FirstScannerPort(ports).Some? {
        var k :| 0 <= k < |ports[1..]| && IsScanner(ports[1..][k]) && ports[1..][k].device == FirstScannerPort(ports).value &&
          forall j :: 0 <= j < k ==> !IsScanner(ports[1..][j]);
        assert IsScanner(ports[k + 1]);
      }
    } else if ports != [] {
      assert IsScanner(ports[0]);
    }
  }

  /** Ports that are not the scanner can be skipped over without changing the choice. */
  lemma {:induction false} FirstScannerPortSkip(ports: seq<PortInfo>, k: nat)
    requires k <= |ports|
    requires forall j :: 0 <= j < k ==> !IsScanner(ports[j])
    ensures FirstScannerPort(ports) == FirstScannerPort(ports[k..])
  {
    if k > 0 {
      assert ports[1..][k - 1..] == ports[k..];
      FirstScannerPortSkip(ports[1..], k - 1);
    }
  }
}
