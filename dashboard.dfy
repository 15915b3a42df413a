/**
 * The dashboard page's state: the active view, the scan shown in the analysis view, and
 * the history of scans made in this session, newest first.  The clock readings (a
 * millisecond timestamp and a formatted time of day) are parameters.
 */
module Dashboard {
  import opened Wrappers

  datatype View = Analysis | Worklist | Voice

  /** The analysis result reported by the upload panel. */
  datatype AnalysisResult = AnalysisResult(diagnosis: string, confidence: real)

  /** A history entry; worklist selections carry no time of day. */
  datatype Scan = Scan(id: int, diagnosis: string, confidence: real, timestamp: Option<string>, fullResult: AnalysisResult)

  datatype WorklistItem = WorklistItem(id: int, diagnosis: string, confidence: real)

  /** Ids, being creation times, never increase along the history. */
  predicate NewestFirst(scans: seq<Scan>)
  {
    forall i, j :: 0 <= i < j < |scans| ==> scans[i].id >= scans[j].id
  }

  class Page {
    var activeView: View
    var diagnosisResult: Option<Scan>
    var recentScans: seq<Scan>

    constructor ()
      ensures activeView == Analysis && diagnosisResult.None? && recentScans == []
    {
      activeView := Analysis;
      diagnosisResult := None;
      recentScans := [];
    }

    /**
     * `handleNewScan(result)`: a result becomes a new scan at the head of the history and
     * the selection; no result clears the selection and keeps the history.
     */
    method HandleNewScan(result: Option<AnalysisResult>, now: int, timeOfDay: string)
      modifies this
      ensures activeView == old(activeView)
      ensures result.None? ==> diagnosisResult.None? && recentScans == old(recentScans)
      ensures result.Some? ==>
        var scan := Scan(now, result.value.diagnosis, result.value.confidence, Some(timeOfDay), result.value);
        recentScans == [scan] + old(recentScans) && diagnosisResult == Some(scan)
      ensures NewestFirst(old(recentScans)) && (forall s :: s in old(recentScans) ==> s.id <= now)
        ==> NewestFirst(recentScans)
    {
      if result.Some? {
        var r := result.value;
        var newScan := Scan(now, r.diagnosis, r.confidence, Some(timeOfDay), r);
        recentScans := [newScan] + recentScans;
        diagnosisResult := Some(newScan);
      } else {
        diagnosisResult := None;
      }
    }

    /** The header navigation. */
    method SetActiveView(v: View)
      modifies this
      ensures activeView == v && diagnosisResult == old(diagnosisResult) && recentScans == old(recentScans)
    {
      activeView := v;
    }

    /** A history entry chosen in the sidebar becomes the selection. */
    method SelectScan(scan: Scan)
      modifies this
      ensures diagnosisResult == Some(scan) && activeView == old(activeView) && recentScans == old(recentScans)
    {
      diagnosisResult := Some(scan);
    }

    /** A worklist item chosen in the worklist view is opened in the analysis view. */
    method SelectWorklistItem(item: WorklistItem)
      modifies this
      ensures diagnosisResult == Some(WorklistScan(item))
      ensures activeView == Analysis && recentScans == old(recentScans)
    {
      diagnosisResult := Some(WorklistScan(item));
      activeView := Analysis;
    }
  }

  /** The selection made from a worklist item, whose full result holds only its diagnosis and confidence. */
  function WorklistScan(item: WorklistItem): (s: Scan)
    ensures s.id == item.id && s.diagnosis == item.diagnosis && s.confidence == item.confidence
    ensures s.fullResult == AnalysisResult(item.diagnosis, item.confidence) && s.timestamp.None?
  {
    Scan(item.id, item.diagnosis, item.confidence, None, AnalysisResult(item.diagnosis, item.confidence))
  }
}
