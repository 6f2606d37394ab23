/**
 * The data import page: uploading a file to the Excel or IFC endpoint,
 * polling an IFC job until it ends, and choosing components from the
 * result. Timers are replaced by events: each poll is one call.
 */
module DataImport {
  import opened Wrappers
  import opened Schema

  datatype ImportKind = Excel | Ifc

  // ---------------------------------------------------------------- selection

  /** `xs.filter(y => y !== x)` */
  function RemoveAll(xs: seq<string>, x: string): (r: seq<string>)
    ensures x !in r
    ensures forall y | y != x :: y in r <==> y in xs
    ensures |r| <= |xs|
  {
    if xs == [] then []
    else if xs[|xs| - 1] == x then RemoveAll(xs[..|xs| - 1], x)
    else RemoveAll(xs[..|xs| - 1], x) + [xs[|xs| - 1]]
  }

  /** Removing a value that does not occur changes nothing. */
  lemma {:induction false} RemoveAbsent(xs: seq<string>, x: string)
    requires x !in xs
    ensures RemoveAll(xs, x) == xs
  {
    if xs != [] {
      assert xs == xs[..|xs| - 1] + [xs[|xs| - 1]];
      RemoveAbsent(xs[..|xs| - 1], x);
    }
  }

  /** A list without repeated entries. */
  predicate NoDuplicates(xs: seq<string>) {
    forall i, j | 0 <= i < j < |xs| :: xs[i] != xs[j]
  }

  lemma {:induction false} RemoveKeepsNoDuplicates(xs: seq<string>, x: string)
    requires NoDuplicates(xs)
    ensures NoDuplicates(RemoveAll(xs, x))
  {
    if xs != [] {
      var init := xs[..|xs| - 1];
      var last := xs[|xs| - 1];
      RemoveKeepsNoDuplicates(init, x);
      if last != x {
        assert last !in init by {
          forall i | 0 <= i < |init| ensures init[i] != last { assert init[i] == xs[i]; }
        }
        assert last !in RemoveAll(init, x);
      }
    }
  }

  /** The checkbox of a component: a present id leaves (every copy of it), an absent one is appended. */
  function Toggle(xs: seq<string>, x: string): (r: seq<string>)
    ensures x in r <==> x !in xs
    ensures forall y | y != x :: y in r <==> y in xs
    ensures x !in xs ==> r == xs + [x]
  {
    if x in xs then RemoveAll(xs, x) else xs + [x]
  }

  /** Toggling twice restores the membership of the id, and the list itself when the id was absent. */
  lemma ToggleTwice(xs: seq<string>, x: string)
    ensures x in Toggle(Toggle(xs, x), x) <==> x in xs
    ensures x !in xs ==> Toggle(Toggle(xs, x), x) == xs
  {
    if x !in xs {
      RemoveAbsent(xs, x);
      assert RemoveAll(xs + [x], x) == RemoveAll(xs, x) by {
        assert (xs + [x])[..|xs|] == xs;
      }
    }
  }

  /** Toggling never creates a duplicate selection. */
  lemma ToggleKeepsNoDuplicates(xs: seq<string>, x: string)
    requires NoDuplicates(xs)
    ensures NoDuplicates(Toggle(xs, x))
  {
    if x in xs {
      RemoveKeepsNoDuplicates(xs, x);
    }
  }

  // ---------------------------------------------------------------- polling progress

  /** A poll that finds the job still running: `Math.min(prev + 10, 90)`. */
  function Advance(p: int): (r: int)
    ensures r <= 90
    ensures p <= 90 ==> p <= r
    ensures p <= 80 ==> r == p + 10
  {
    if p + 10 < 90 then p + 10 else 90
  }

  function AdvanceTimes(p: int, n: nat): int {
    if n == 0 then p else Advance(AdvanceTimes(p, n - 1))
  }

  /** After the start value 10, n running polls show min(10 + 10n, 90). */
  lemma {:induction false} AdvanceFromStart(n: nat)
    ensures AdvanceTimes(10, n) == if 10 + 10 * n < 90 then 10 + 10 * n else 90
  {
    if n > 0 {
      AdvanceFromStart(n - 1);
    }
  }

  // ---------------------------------------------------------------- the stale import type

  /**
   * The endpoint each upload goes to, as written: both upload cards set the
   * import type and call the upload handler in the same event, and the
   * handler still sees the type of the previous render.
   */
  function AsWrittenDispatch(initial: ImportKind, cards: seq<ImportKind>): (r: seq<ImportKind>)
    ensures |r| == |cards|
    ensures |cards| > 0 ==> r[0] == initial
    ensures forall i | 0 < i < |cards| :: r[i] == cards[i - 1]
  {
    if cards == [] then [] else [initial] + cards[..|cards| - 1]
  }

  /** The intended endpoint: the one of the card the file was dropped on, since each card has its own upload (DataImport.tsx:242, :351). */
  function IntendedDispatch(cards: seq<ImportKind>): (r: seq<ImportKind>)
    ensures |r| == |cards| && forall i | 0 <= i < |cards| :: r[i] == cards[i]
  {
    cards
  }

  /** The two agree only when the user never switches away from the initial card. */
  lemma {:induction false} StaleDispatchAgreement(initial: ImportKind, cards: seq<ImportKind>)
    ensures AsWrittenDispatch(initial, cards) == IntendedDispatch(cards) <==> forall i | 0 <= i < |cards| :: cards[i] == initial
  {
    var r := AsWrittenDispatch(initial, cards);
    if r == cards {
      forall i | 0 <= i < |cards| ensures cards[i] == initial {
        StaleDispatchPrefix(initial, cards, i);
      }
    }
    if forall i | 0 <= i < |cards| :: cards[i] == initial {
      forall i | 0 <= i < |cards| ensures r[i] == cards[i] {
        if i > 0 {
          assert r[i] == cards[i - 1];
        }
      }
    }
  }

  lemma {:induction false} StaleDispatchPrefix(initial: ImportKind, cards: seq<ImportKind>, i: nat)
    requires AsWrittenDispatch(initial, cards) == cards && i < |cards|
    ensures cards[i] == initial
  {
    if i > 0 {
      StaleDispatchPrefix(initial, cards, i - 1);
      assert AsWrittenDispatch(initial, cards)[i] == cards[i - 1];
    }
  }

  /** The first IFC file dropped on a fresh page goes to the Excel endpoint. */
  lemma FirstIfcUploadGoesToExcel()
    ensures AsWrittenDispatch(Excel, [Ifc]) == [Excel]
    ensures IntendedDispatch([Ifc]) == [Ifc]
  {
  }

  // ---------------------------------------------------------------- page state

  datatype ImportResults = ExcelResult(jobId: int, rows: seq<Row>) | IfcResult(job: ImportJob)

  datatype Upload = Upload(kind: ImportKind, file: string)

  /** What a poll of `GET /api/import/:jobId` yields: a job, the 404 message (which has no status), or a failed fetch. */
  datatype PollOutcome = JobFound(job: ImportJob) | NotFoundMessage | FetchFailed

  class ImportPage {
    var selectedFile: Option<string>
    var importType: ImportKind
    var progress: int
    var results: Option<ImportResults>
    var selected: seq<string>
    /** The jobs whose poll interval is running. */
    var polling: set<int>
    /** The uploads sent so far, in order. */
    var uploads: seq<Upload>

    predicate Valid()
      reads this
    {
      0 <= progress <= 100 && NoDuplicates(selected)
    }

    constructor ()
      ensures Valid()
      ensures selectedFile.None? && importType == Excel && progress == 0 && results.None?
      ensures selected == [] && polling == {} && uploads == []
    {
      selectedFile := None;
      importType := Excel;
      progress := 0;
      results := None;
      selected := [];
      polling := {};
      uploads := [];
    }

    /**
     * A file chosen on the `card` upload: the file is kept, results and
     * progress are reset, and the upload goes to the card's own endpoint
     * (the corrected dispatch; `AsWrittenDispatch` is the one as written).
     */
    method SelectFile(card: ImportKind, file: string)
      requires Valid()
      modifies this
      ensures Valid()
      ensures selectedFile == Some(file) && results.None? && progress == 0
      ensures importType == card
      ensures uploads == old(uploads) + [Upload(card, file)]
      ensures selected == old(selected) && polling == old(polling)
    {
      importType := card;
      selectedFile := Some(file);
      results := None;
      progress := 0;
      uploads := uploads + [Upload(card, file)];
    }

    method OnExcelSuccess(jobId: int, rows: seq<Row>)
      requires Valid()
      modifies this
      ensures Valid()
      ensures results == Some(ExcelResult(jobId, rows))
      ensures progress == old(progress) && polling == old(polling) && selected == old(selected)
      ensures selectedFile == old(selectedFile) && importType == old(importType) && uploads == old(uploads)
    {
      results := Some(ExcelResult(jobId, rows));
    }

    /** The IFC endpoint answered: polling of the job starts and progress shows 10. */
    method OnIfcStarted(jobId: int)
      requires Valid()
      modifies this
      ensures Valid()
      ensures polling == old(polling) + {jobId} && progress == 10
      ensures results == old(results) && selected == old(selected)
      ensures selectedFile == old(selectedFile) && importType == old(importType) && uploads == old(uploads)
    {
      polling := polling + {jobId};
      progress := 10;
    }

    /**
     * One tick of a job's poll interval. A completed job stops the polling,
     * shows 100 and becomes the results; a failed job or a failed fetch
     * stops the polling and leaves everything else; anything else,
     * including the 404 message, advances the progress.
     */
    method OnPoll(jobId: int, outcome: PollOutcome)
      requires Valid() && jobId in polling
      modifies this
      ensures Valid()
      ensures outcome.JobFound? && outcome.job.status == CompletedStatus ==>
                polling == old(polling) - {jobId} && progress == 100 && results == Some(IfcResult(outcome.job))
      ensures (outcome.JobFound? && outcome.job.status == FailedStatus) || outcome.FetchFailed? ==>
                polling == old(polling) - {jobId} && progress == old(progress) && results == old(results)
      ensures (outcome.JobFound? && outcome.job.status != CompletedStatus && outcome.job.status != FailedStatus) || outcome.NotFoundMessage? ==>
                polling == old(polling) && progress == Advance(old(progress)) && results == old(results)
      ensures selected == old(selected) && selectedFile == old(selectedFile) && importType == old(importType) && uploads == old(uploads)
    {
      match outcome
      case JobFound(job) =>
        if job.status == CompletedStatus {
          polling := polling - {jobId};
          progress := 100;
          results := Some(IfcResult(job));
        } else if job.status == FailedStatus {
          polling := polling - {jobId};
        } else {
          progress := Advance(progress);
        }
      case NotFoundMessage =>
        progress := Advance(progress);
      case FetchFailed =>
        polling := polling - {jobId};
    }

    method ToggleComponent(guid: string)
      requires Valid()
      modifies this
      ensures Valid()
      ensures selected == Toggle(old(selected), guid)
      ensures progress == old(progress) && results == old(results) && polling == old(polling)
      ensures selectedFile == old(selectedFile) && importType == old(importType) && uploads == old(uploads)
    {
      ToggleKeepsNoDuplicates(selected, guid);
      selected := Toggle(selected, guid);
    }

    /** The Import Selected button. */
    function ImportSelectedDisabled(): (disabled: bool)
      reads this
      ensures disabled <==> forall g :: g !in selected
    {
      assert |selected| > 0 ==> selected[0] in selected;
      |selected| == 0
    }
  }
}
