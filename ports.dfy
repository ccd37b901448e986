/**
 * `serialPorts`: keeps, in order, the candidate device paths that can be
 * opened, and ends the program when there are none. Whether a path opens
 * is the abstract predicate `opens`; the platform's candidate list is given.
 */
module Ports {

  /** What the scan ends in: a list of devices, or "No devices found..." and exit. */
  datatype Scan = Found(ports: seq<string>) | NoDevicesFound

  /** The candidates that open, in candidate order. */
  function Openable(candidates: seq<string>, opens: string -> bool): (r: seq<string>)
    ensures forall p :: p in r ==> p in candidates && opens(p)
  {
    if candidates == [] then []
    else if opens(candidates[0]) then [candidates[0]] + Openable(candidates[1..], opens)
    else Openable(candidates[1..], opens)
  }

  /** A path is kept exactly when it is a candidate that opens. */
  lemma {:induction false} OpenableMembers(candidates: seq<string>, opens: string -> bool, p: string)
    ensures p in Openable(candidates, opens) <==> p in candidates && opens(p)
  {
    if candidates != [] {
      OpenableMembers(candidates[1..], opens, p);
      assert candidates == [candidates[0]] + candidates[1..];
    }
  }

  /** Filtering distributes over concatenation, so the kept paths keep their relative order. */
  lemma {:induction false} OpenableAppend(a: seq<string>, b: seq<string>, opens: string -> bool)
    ensures Openable(a + b, opens) == Openable(a, opens) + Openable(b, opens)
  {
    if a == [] {
      assert a + b == b;
    } else {
      assert (a + b)[0] == a[0];
      assert (a + b)[1..] == a[1..] + b;
      OpenableAppend(a[1..], b, opens);
    }
  }

  /** Nothing is dropped when every candidate opens, and only then. */
  lemma {:induction false} OpenableAll(candidates: seq<string>, opens: string -> bool)
    ensures |Openable(candidates, opens)| <= |candidates|
    ensures Openable(candidates, opens) == candidates <==> forall i :: 0 <= i < |candidates| ==> opens(candidates[i])
  {
    if candidates != [] {
      OpenableAll(candidates[1..], opens);
      assert forall i :: 1 <= i < |candidates| ==> candidates[i] == candidates[1..][i - 1];
    }
  }

  /**
   * The scan as intended: try every candidate, then report the openable ones,
   * or no devices when none opened.
   */
  method SerialPorts(candidates: seq<string>, opens: string -> bool) returns (s: Scan)
    ensures s.NoDevicesFound? <==> forall i :: 0 <= i < |candidates| ==> !opens(candidates[i])
    ensures s.Found? ==> s.ports == Openable(candidates, opens) && s.ports != []
  {
    var result: seq<string> := [];
    var i := 0;
    while i < |candidates|
      invariant 0 <= i <= |candidates|
      invariant result == Openable(candidates[..i], opens)
    {
      OpenableAppend(candidates[..i], [candidates[i]], opens);
      assert candidates[..i + 1] == candidates[..i] + [candidates[i]];
      if opens(candidates[i]) {
        result := result + [candidates[i]];
      }
      i := i + 1;
    }
    assert candidates[..i] == candidates;
    if result == [] {
      forall j | 0 <= j < |candidates| ensures !opens(candidates[j]) {
        OpenableMembers(candidates, opens, candidates[j]);
      }
      s := NoDevicesFound;
    } else {
      OpenableMembers(candidates, opens, result[0]);
      s := Found(result);
    }
  }

  /**
   * The scan as the source's indentation makes it run: the "no devices" test
   * sits inside the loop, after each candidate.
   */
  function EarlyExitScan(candidates: seq<string>, opens: string -> bool): (r: Scan)
    ensures r.NoDevicesFound? ==> candidates != [] && !opens(candidates[0])
    ensures r.Found? ==> forall p :: p in r.ports ==> p in candidates && opens(p)
  {
    if candidates == [] then Found([])
    else if opens(candidates[0]) then Found(Openable(candidates, opens))
    else NoDevicesFound
  }

  method SerialPortsAsWritten(candidates: seq<string>, opens: string -> bool) returns (s: Scan)
    ensures s == EarlyExitScan(candidates, opens)
    ensures candidates == [] ==> s == Found([])
    ensures candidates != [] && !opens(candidates[0]) ==> s == NoDevicesFound
    ensures candidates != [] && opens(candidates[0]) ==> s == Found(Openable(candidates, opens))
  {
    var result: seq<string> := [];
    var i := 0;
    while i < |candidates|
      invariant 0 <= i <= |candidates|
      invariant result == Openable(candidates[..i], opens)
      invariant i > 0 ==> opens(candidates[0]) && result != []
    {
      OpenableAppend(candidates[..i], [candidates[i]], opens);
      assert candidates[..i + 1] == candidates[..i] + [candidates[i]];
      if opens(candidates[i]) {
        result := result + [candidates[i]];
      }
      if result == [] {
        return NoDevicesFound;
      }
      i := i + 1;
    }
    assert candidates[..i] == candidates;
    s := Found(result);
  }

  /**
   * The two scans part ways: with `COM1` absent and `COM3` present the
   * as-written scan reports no devices, and with no candidates at all it
   * returns an empty list instead of reporting no devices.
   */
  lemma EarlyExitMissesLaterPorts(opens: string -> bool)
    requires !opens("COM1") && opens("COM3")
    ensures EarlyExitScan(["COM1", "COM3"], opens) == NoDevicesFound
    ensures Openable(["COM1", "COM3"], opens) == ["COM3"]
    ensures EarlyExitScan([], opens) == Found([])
  {
    var candidates := ["COM1", "COM3"];
    assert candidates[1..] == ["COM3"];
    assert candidates[1..][1..] == [];
  }

  /** The two scans agree whenever the first candidate opens. */
  lemma EarlyExitAgreesWhenFirstOpens(candidates: seq<string>, opens: string -> bool)
    requires candidates != [] && opens(candidates[0])
    ensures EarlyExitScan(candidates, opens) == Found(Openable(candidates, opens))
    ensures Openable(candidates, opens) != []
  {
  }

  /** Decimal digits of a natural number, most significant first (`'%s' % n`). */
  function DecimalString(n: nat): (s: string)
    ensures |s| >= 1
    ensures forall i :: 0 <= i < |s| ==> '0' <= s[i] <= '9'
  {
    if n < 10 then [(48 + n) as char]
    else DecimalString(n / 10) + [(48 + n % 10) as char]
  }

  /** The value a string of decimal digits denotes. */
  function DecimalValue(s: string): nat
  {
    if s == [] then 0
    else
      var d := s[|s| - 1] as int - 48;
      DecimalValue(s[..|s| - 1]) * 10 + (if 0 <= d then d else 0)
  }

  lemma {:induction false} DecimalRoundTrip(n: nat)
    ensures DecimalValue(DecimalString(n)) == n
  {
    if n >= 10 {
      DecimalRoundTrip(n / 10);
      var s := DecimalString(n);
      assert s[..|s| - 1] == DecimalString(n / 10);
    }
  }

  /** The Windows candidate list: `COM1` to `COM256`. */
  function WindowsCandidates(): (r: seq<string>)
    ensures |r| == 256
    ensures forall i :: 0 <= i < |r| ==> |r[i]| >= 4 && r[i][..3] == "COM"
  {
    seq(256, i requires 0 <= i < 256 => "COM" + DecimalString(i + 1))
  }

  /** There are 256 Windows candidates, numbered from 1, and no two are alike. */
  lemma WindowsCandidatesDistinct()
    ensures |WindowsCandidates()| == 256
    ensures forall i :: 0 <= i < 256 ==> WindowsCandidates()[i] == "COM" + DecimalString(i + 1)
    ensures forall i, j :: 0 <= i < j < 256 ==> WindowsCandidates()[i] != WindowsCandidates()[j]
    ensures WindowsCandidates()[0] == "COM1" && WindowsCandidates()[255] == "COM256"
  {
    var c := WindowsCandidates();
    assert DecimalString(1) == "1";
    assert DecimalString(256) == DecimalString(25) + "6";
    assert DecimalString(25) == DecimalString(2) + "5";
    forall i, j | 0 <= i < j < 256 ensures c[i] != c[j] {
      if c[i] == c[j] {
        var a, b := DecimalString(i + 1), DecimalString(j + 1);
        assert a == c[i][3..] && b == c[j][3..];
        DecimalRoundTrip(i + 1);
        DecimalRoundTrip(j + 1);
      }
    }
  }
}
