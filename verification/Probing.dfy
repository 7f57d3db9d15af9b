/** A probe's report, restricted to what the card claims. */
module Probing {
  import opened Ordering
  import opened Attest

  const PASS := "pass"
  const FAIL := "fail"
  const UNKNOWN := "unknown"
  const MAX_DETAIL := 200
  const ELLIPSIS := "\U{E2}\U{80}\U{A6}"
  const SILENT := "the agent did not report this capability"
  const UNRECOGNISED := "the agent reported a status this marketplace does not recognise"

  predicate Recognised(status: string) { status == PASS || status == FAIL || status == UNKNOWN }

  function Truncate(s: string): string
  {
    if |s| <= MAX_DETAIL then s else s[..MAX_DETAIL] + ELLIPSIS
  }

  /** A detail of at most two hundred bytes is kept; a longer one is its first two hundred
      and an ellipsis. */
  lemma TruncateMeans(s: string, start: string, rest: string)
    requires s == start + rest && |start| == 200
    ensures Truncate(start) == start && Truncate(s) == if rest == "" then s else start + ELLIPSIS
  {
  }

  /** The first thing the agent reported about a capability. */
  ghost predicate FirstReport(got: seq<ProbeResult>, capability: string, i: int)
  {
    0 <= i < |got| && got[i].capability == capability && forall j :: 0 <= j < i ==> got[j].capability != capability
  }

  /** What is recorded for one claimed capability. */
  ghost predicate Records(got: seq<ProbeResult>, capability: string, r: ProbeResult)
  {
    && r.capability == capability && Recognised(r.status) && |r.detail| <= MAX_DETAIL + |ELLIPSIS|
    && ((forall x :: x in got ==> x.capability != capability) ==> r == ProbeResult(capability, UNKNOWN, SILENT))
    && (forall i :: FirstReport(got, capability, i) ==>
          r == if Recognised(got[i].status) then got[i].(detail := Truncate(got[i].detail))
               else ProbeResult(capability, UNKNOWN, UNRECOGNISED))
  }

  method Normalise(got: seq<ProbeResult>, claimed: seq<string>) returns (out: seq<ProbeResult>)
    ensures |out| == |claimed| && forall k :: 0 <= k < |out| ==> Records(got, claimed[k], out[k])
  {
    var byCapability: map<string, ProbeResult> := map[];
    for i := 0 to |got|
      invariant forall j :: 0 <= j < i ==> got[j].capability in byCapability
      invariant forall c :: c in byCapability ==> exists j :: FirstReport(got, c, j) && j < i && byCapability[c] == got[j]
    {
      if got[i].capability !in byCapability {
        assert FirstReport(got, got[i].capability, i);
        byCapability := byCapability[got[i].capability := got[i]];
      }
    }
    out := [];
    for k := 0 to |claimed|
      invariant |out| == k && forall m :: 0 <= m < k ==> Records(got, claimed[m], out[m])
    {
      var r := ProbeResult(claimed[k], UNKNOWN, SILENT);
      if claimed[k] in byCapability {
        r := byCapability[claimed[k]];
        if !Recognised(r.status) {
          r := ProbeResult(claimed[k], UNKNOWN, UNRECOGNISED);
        }
        if |r.detail| > MAX_DETAIL {
          r := r.(detail := r.detail[..MAX_DETAIL] + ELLIPSIS);
        }
        OnlyFirst(got, claimed[k]);
      } else {
        forall j | 0 <= j < |got| ensures got[j].capability != claimed[k] {
        }
      }
      out := out + [r];
    }
  }

  lemma OnlyFirst(got: seq<ProbeResult>, capability: string)
    ensures forall i, j :: FirstReport(got, capability, i) && FirstReport(got, capability, j) ==> i == j
  {
  }

  method Passed(results: seq<ProbeResult>) returns (ok: bool)
    ensures ok <==> results != [] && forall r :: r in results ==> r.status == PASS
  {
    if |results| == 0 {
      return false;
    }
    for i := 0 to |results|
      invariant forall j :: 0 <= j < i ==> results[j].status == PASS
    {
      if results[i].status != PASS {
        assert results[i] in results;
        return false;
      }
    }
    ok := true;
  }

  ghost predicate IsNormalised(got: seq<ProbeResult>, claimed: seq<string>, out: seq<ProbeResult>)
  {
    |out| == |claimed| && forall k :: 0 <= k < |out| ==> Records(got, claimed[k], out[k])
  }

  lemma {:induction false} SomeFirst(got: seq<ProbeResult>, capability: string) returns (i: int)
    requires exists x :: x in got && x.capability == capability
    ensures FirstReport(got, capability, i)
  {
    if got[0].capability == capability {
      i := 0;
    } else {
      assert exists x :: x in got[1..] && x.capability == capability by {
        var x :| x in got && x.capability == capability;
        assert got == [got[0]] + got[1..];
      }
      var k := SomeFirst(got[1..], capability);
      i := k + 1;
      forall j | 0 <= j < i ensures got[j].capability != capability {
        if j > 0 { assert got[j] == got[1..][j - 1]; }
      }
      assert got[i] == got[1..][k];
    }
  }

  /** What is recorded is settled by the capability alone. */
  lemma RecordIsDetermined(got: seq<ProbeResult>, capability: string, r: ProbeResult, s: ProbeResult)
    requires Records(got, capability, r) && Records(got, capability, s)
    ensures r == s
  {
    if exists x :: x in got && x.capability == capability {
      var i := SomeFirst(got, capability);
    }
  }

  ghost predicate HeardPass(got: seq<ProbeResult>, capability: string)
  {
    exists i :: FirstReport(got, capability, i) && got[i].status == PASS
  }

  lemma RecordPassesIffHeard(got: seq<ProbeResult>, capability: string, r: ProbeResult)
    requires Records(got, capability, r)
    ensures r.status == PASS <==> HeardPass(got, capability)
  {
    if exists x :: x in got && x.capability == capability {
      var i := SomeFirst(got, capability);
      OnlyFirst(got, capability);
    }
  }

  /** A probe passes exactly when the card claims something and the first word on every
      claimed capability was a pass: silence and later retractions do not count. */
  lemma PassesIffEveryClaimPasses(got: seq<ProbeResult>, claimed: seq<string>, out: seq<ProbeResult>)
    requires IsNormalised(got, claimed, out)
    ensures (out != [] && forall r :: r in out ==> r.status == PASS) <==>
              (claimed != [] && forall c :: c in claimed ==> HeardPass(got, c))
  {
    forall k | 0 <= k < |out| ensures out[k].status == PASS <==> HeardPass(got, claimed[k]) {
      RecordPassesIffHeard(got, claimed[k], out[k]);
    }
    hide HeardPass, Records;
    if forall r :: r in out ==> r.status == PASS {
      forall c | c in claimed ensures HeardPass(got, c) {
        var k :| 0 <= k < |claimed| && claimed[k] == c;
        assert out[k] in out;
      }
    } else {
      var k :| 0 <= k < |out| && out[k].status != PASS;
      assert claimed[k] in claimed;
    }
  }

  lemma {:induction false} NormalisedKeysDecide(got: seq<ProbeResult>, claimed: seq<string>, out: seq<ProbeResult>)
    requires IsNormalised(got, claimed, out)
    ensures KeysDecide(out, ResultKey)
  {
    forall i, j | 0 <= i < |out| && 0 <= j < |out| && ResultKey(out[i]) == ResultKey(out[j]) ensures out[i] == out[j] {
      RecordIsDetermined(got, claimed[i], out[i], out[j]);
    }
  }

  /** The signed bytes of a normalised report forget the order of its results. */
  lemma ResultOrderIsForgotten(at: string, probe: Probe, got: seq<ProbeResult>, claimed: seq<string>, other: seq<ProbeResult>)
    requires IsNormalised(got, claimed, probe.results) && multiset(other) == multiset(probe.results)
    ensures Encode(ProbeStatement(at, probe.(results := other))) == Encode(ProbeStatement(at, probe))
  {
    hide Layout, StableSort, IsNormalised;
    NormalisedKeysDecide(got, claimed, probe.results);
    SortForgetsOrder(probe.results, other, ResultKey);
  }
}
