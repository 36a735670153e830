/** Start-time reference from the SOFIA start scintillator: among the
    time-calibrated scintillator records of one event, those of the start
    detector read out by PMT 1 or PMT 2 are counted; when there are exactly
    two, the start time is the mean of their raw times, otherwise it is
    undefined (None stands for the source's NaN). */
module SofiaTStart {

  datatype Option<T> = None | Some(value: T)

  /** One time-calibrated scintillator record. */
  datatype SciTcalData = SciTcalData(detector: int, pmt: int, rawTimeNs: real)

  /** The raw time-of-flight parameter container; only the detector id of
      the start scintillator in cave C is used here. */
  datatype SciRawTofPar = SciRawTofPar(detIdCaveC: int)

  /** The start detector id used until the parameters are read. */
  const DefaultStartId := 1

  // ---------------------------------------------------------------------------
  // Specification
  // ---------------------------------------------------------------------------

  /** A record enters the start time: it belongs to the start detector and
      comes from PMT 1 or PMT 2. */
  predicate Qualifies(r: SciTcalData, startId: int)
  {
    r.detector == startId && (r.pmt == 1 || r.pmt == 2)
  }

  /** The qualifying records, in input order. */
  function Selected(records: seq<SciTcalData>, startId: int): (sel: seq<SciTcalData>)
    ensures |sel| <= |records|
    decreases |records|
  {
    if records == [] then []
    else
      var n := |records| - 1;
      var earlier := Selected(records[..n], startId);
      if Qualifies(records[n], startId) then earlier + [records[n]] else earlier
  }

  /** Sum of the raw times of `records`. */
  function SumTimes(records: seq<SciTcalData>): real
    decreases |records|
  {
    if records == [] then 0.0
    else SumTimes(records[..|records| - 1]) + records[|records| - 1].rawTimeNs
  }

  lemma SumTimesStep(records: seq<SciTcalData>, r: SciTcalData)
    ensures SumTimes(records + [r]) == SumTimes(records) + r.rawTimeNs
  {
    assert (records + [r])[..|records|] == records;
  }

  /** The start time of one event: undefined for an empty event, the mean raw
      time when exactly two records qualify, undefined otherwise. */
  function TStart(records: seq<SciTcalData>, startId: int): Option<real>
  {
    if records == [] then None
    else
      var sel := Selected(records, startId);
      if |sel| == 2 then Some(SumTimes(sel) / 2.0) else None
  }

  // ---------------------------------------------------------------------------
  // Properties
  // ---------------------------------------------------------------------------

  /** Selection distributes over concatenation. */
  lemma {:induction false} SelectedAppend(a: seq<SciTcalData>, b: seq<SciTcalData>, startId: int)
    ensures Selected(a + b, startId) == Selected(a, startId) + Selected(b, startId)
    decreases |b|
  {
    if b == [] {
      assert a + b == a;
    } else {
      var n := |b| - 1;
      assert (a + b)[..|a + b| - 1] == a + b[..n];
      assert (a + b)[|a + b| - 1] == b[n];
      SelectedAppend(a, b[..n], startId);
    }
  }

  /** The start time is defined exactly when two records qualify, and is then
      the mean of their raw times. Which PMTs they come from does not matter. */
  lemma TStartDefinedIffTwo(records: seq<SciTcalData>, startId: int)
    ensures TStart(records, startId).Some? <==> |Selected(records, startId)| == 2
    ensures TStart(records, startId).Some? ==>
              var sel := Selected(records, startId);
              TStart(records, startId).value == (sel[0].rawTimeNs + sel[1].rawTimeNs) / 2.0
  {
    var sel := Selected(records, startId);
    if |sel| == 2 {
      assert sel[..1][..0] == [];
      assert SumTimes(sel[..1]) == sel[0].rawTimeNs;
    }
  }

  /** Inserting a record that does not qualify, anywhere, leaves the start
      time unchanged (an empty event stays undefined, too). */
  lemma InsertNonQualifying(records: seq<SciTcalData>, k: int, r: SciTcalData, startId: int)
    requires 0 <= k <= |records|
    requires !Qualifies(r, startId)
    ensures TStart(records[..k] + [r] + records[k..], startId) == TStart(records, startId)
  {
    var longer := records[..k] + [r] + records[k..];
    SelectedAppend(records[..k] + [r], records[k..], startId);
    SelectedAppend(records[..k], [r], startId);
    SelectedAppend(records[..k], records[k..], startId);
    assert records[..k] + records[k..] == records;
    assert [r][..0] == [];
    assert Selected([r], startId) == [];
    if records == [] {
      assert Selected(longer, startId) == [];
    }
  }

  /** Removing a record that does not qualify leaves the start time unchanged. */
  lemma RemoveNonQualifying(records: seq<SciTcalData>, k: int, startId: int)
    requires 0 <= k < |records|
    requires !Qualifies(records[k], startId)
    ensures TStart(records[..k] + records[k + 1..], startId) == TStart(records, startId)
  {
    var shorter := records[..k] + records[k + 1..];
    assert shorter[..k] == records[..k];
    assert shorter[k..] == records[k + 1..];
    assert records == shorter[..k] + [records[k]] + shorter[k..];
    InsertNonQualifying(shorter, k, records[k], startId);
  }

  /** One more record at the end adds itself to the selection exactly when it
      qualifies. */
  lemma SelectedStep(records: seq<SciTcalData>, i: int, startId: int)
    requires 0 <= i < |records|
    ensures Selected(records[..i + 1], startId) ==
              if Qualifies(records[i], startId) then Selected(records[..i], startId) + [records[i]]
              else Selected(records[..i], startId)
  {
    assert records[..i + 1][..i] == records[..i];
  }

  /** A record is selected iff it is in the input and qualifies. */
  lemma {:induction false} SelectedMembers(records: seq<SciTcalData>, startId: int, r: SciTcalData)
    ensures r in Selected(records, startId) <==> r in records && Qualifies(r, startId)
    decreases |records|
  {
    if records != [] {
      var n := |records| - 1;
      SelectedMembers(records[..n], startId, r);
      SelectedStep(records, n, startId);
      assert records[..n + 1] == records;
      assert records == records[..n] + [records[n]];
    }
  }

  /** The positions of the qualifying records. */
  function QualifyingIndices(records: seq<SciTcalData>, startId: int): set<int>
  {
    set i | 0 <= i < |records| && Qualifies(records[i], startId)
  }

  /** The selection has one entry per qualifying position, so identical
      qualifying records each count. */
  lemma {:induction false} SelectedCount(records: seq<SciTcalData>, startId: int)
    ensures |Selected(records, startId)| == |QualifyingIndices(records, startId)|
    decreases |records|
  {
    if records == [] {
      assert QualifyingIndices(records, startId) == {};
    } else {
      var n := |records| - 1;
      SelectedCount(records[..n], startId);
      SelectedStep(records, n, startId);
      assert records[..n + 1] == records;
      var before := QualifyingIndices(records[..n], startId);
      assert n !in before;
      if Qualifies(records[n], startId) {
        assert QualifyingIndices(records, startId) == before + {n};
      } else {
        assert QualifyingIndices(records, startId) == before;
      }
    }
  }

  /** Two qualifying records are both selected. */
  lemma SelectedPair(a: SciTcalData, b: SciTcalData, startId: int)
    requires Qualifies(a, startId) && Qualifies(b, startId)
    ensures Selected([a, b], startId) == [a, b]
  {
    SelectedStep([a, b], 0, startId);
    SelectedStep([a, b], 1, startId);
    assert [a, b][..0] == [] && [a, b][..2] == [a, b];
  }

  /** Two PMT-1 records of the start detector still give a start time. */
  lemma TwoSamePmtRecords(t1: real, t2: real, startId: int)
    ensures TStart([SciTcalData(startId, 1, t1), SciTcalData(startId, 1, t2)], startId) == Some((t1 + t2) / 2.0)
  {
    var records := [SciTcalData(startId, 1, t1), SciTcalData(startId, 1, t2)];
    SelectedPair(records[0], records[1], startId);
    TStartDefinedIffTwo(records, startId);
  }

  /** Three qualifying records give no start time. */
  lemma ThreeRecordsUndefined(t1: real, t2: real, t3: real, startId: int)
    ensures TStart([SciTcalData(startId, 1, t1), SciTcalData(startId, 2, t2), SciTcalData(startId, 2, t3)], startId) == None
  {
    var records := [SciTcalData(startId, 1, t1), SciTcalData(startId, 2, t2), SciTcalData(startId, 2, t3)];
    assert records[..2] == [records[0], records[1]];
    assert records[..2][..1] == [records[0]];
    assert records[..2][..1][..0] == [];
    assert Selected(records[..2][..1], startId) == [records[0]];
    assert Selected(records[..2], startId) == [records[0], records[1]];
    assert |Selected(records, startId)| == 3;
  }

  // ---------------------------------------------------------------------------
  // The task
  // ---------------------------------------------------------------------------

  /** The event header shared by the tasks of one run; this model keeps only
      its start time. */
  class EventHeader {
    var tStart: Option<real>

    constructor (t: Option<real>)
      ensures tStart == t
    {
      tStart := t;
    }
  }

  /** The task that provides the start time. */
  class ProvideTStart {
    var startId: int

    constructor ()
      ensures startId == DefaultStartId
    {
      startId := DefaultStartId;
    }

    /** Takes the start detector id from the parameter container. */
    method SetParameter(par: SciRawTofPar)
      modifies this`startId
      ensures startId == par.detIdCaveC
    {
      startId := par.detIdCaveC;
    }

    /** Computes the start time of the event whose records are given. */
    method GetTStart(records: seq<SciTcalData>) returns (t: Option<real>)
      ensures t == TStart(records, startId)
    {
      if records == [] {
        return None;
      }
      var ts := 0.0;
      var ns := 0;
      var i := 0;
      while i < |records|
        invariant 0 <= i <= |records|
        invariant ns == |Selected(records[..i], startId)|
        invariant ts == SumTimes(Selected(records[..i], startId))
      {
        var sof := records[i];
        SelectedStep(records, i, startId);
        SumTimesStep(Selected(records[..i], startId), sof);
        if sof.detector == startId {
          if sof.pmt == 1 || sof.pmt == 2 {
            ts := ts + sof.rawTimeNs;
            ns := ns + 1;
          }
        }
        i := i + 1;
      }
      assert records[..|records|] == records;
      assert ns == |Selected(records, startId)| && ts == SumTimes(Selected(records, startId));
      if ns == 2 {
        t := Some(ts / 2.0);
      } else {
        t := None;
      }
    }

    /** A beam event is one with a defined start time. */
    method IsBeam(records: seq<SciTcalData>) returns (beam: bool)
      ensures beam <==> |Selected(records, startId)| == 2
    {
      var t := GetTStart(records);
      TStartDefinedIffTwo(records, startId);
      beam := t.Some?;
    }

    /** Writes the start time of the event into the event header. */
    method Exec(records: seq<SciTcalData>, header: EventHeader)
      modifies header`tStart
      ensures header.tStart == TStart(records, startId)
    {
      var t := GetTStart(records);
      header.tStart := t;
    }
  }
}
