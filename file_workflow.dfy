/** The file workflow screen (src/app/components/FileWorkflowScreen.tsx):
    the list of files, the case-insensitive status filter over it, and the
    "View Timeline" selection that opens the timeline modal. The file
    status is a stored field of each record, not derived from anything. */
module FileWorkflow {
  import opened Common
  import FileTimeline

  /** `'On Time' | 'Delayed' | 'Critical'`. */
  datatype FileStatusTag = OnTime | Delayed | Critical

  /** The string the source stores for each status. */
  function StatusLabel(s: FileStatusTag): string
  {
    match s
    case OnTime => "On Time"
    case Delayed => "Delayed"
    case Critical => "Critical"
  }

  /** `FileData`. */
  datatype FileData = FileData(
    id: string,
    department: string,
    currentOfficer: string,
    daysPending: nat,
    status: FileStatusTag,
    subject: string,
    priority: Priority)

  /** `filesData`. */
  const FilesData: seq<FileData> := [
    FileData("FN-2024-001", "Revenue", "S. Kumar", 2, OnTime, "Land Registration Application", High),
    FileData("FN-2024-002", "Planning", "M. Priya", 1, OnTime, "Building Plan Approval", Medium),
    FileData("FN-2024-003", "Welfare", "R. Selvam", 6, Delayed, "Pension Disbursement", High),
    FileData("FN-2024-004", "Legal", "A. Lakshmi", 8, Critical, "Legal Opinion Request", High),
    FileData("FN-2024-005", "Admin", "V. Rajan", 3, OnTime, "Transfer Order Processing", Low),
    FileData("FN-2024-006", "Revenue", "S. Kumar", 1, OnTime, "Tax Assessment Review", Medium),
    FileData("FN-2024-007", "Planning", "M. Priya", 5, Delayed, "Road Development Clearance", High),
    FileData("FN-2024-008", "Welfare", "K. Anand", 2, OnTime, "Scholarship Application", Medium)
  ]

  /** `f.status.toLowerCase() === filterStatus.toLowerCase()`. */
  predicate StatusMatches(f: FileData, filterStatus: string)
  {
    Lower(StatusLabel(f.status)) == Lower(filterStatus)
  }

  /** `filteredFiles`: everything for `'all'`, otherwise the files whose
      status matches the filter, ignoring case. */
  function FilteredFiles(files: seq<FileData>, filterStatus: string): seq<FileData>
  {
    if filterStatus == "all" then files
    else Filter(files, (f: FileData) => StatusMatches(f, filterStatus))
  }

  /** The filter `'all'` shows the list unchanged. */
  lemma FilterAllUnchanged(files: seq<FileData>)
    ensures FilteredFiles(files, "all") == files
  {
  }

  /** Any other filter shows an order-preserving sub-list: exactly the files
      whose lower-cased status equals the lower-cased filter, no more than
      there are files. */
  lemma FilteredFilesExact(files: seq<FileData>, filterStatus: string)
    requires filterStatus != "all"
    ensures IsSubsequence(FilteredFiles(files, filterStatus), files)
    ensures forall f :: f in FilteredFiles(files, filterStatus) <==> f in files && StatusMatches(f, filterStatus)
    ensures |FilteredFiles(files, filterStatus)| <= |files|
  {
    var p := (f: FileData) => StatusMatches(f, filterStatus);
    FilterIsSubsequence(files, p);
    forall f | f in files && StatusMatches(f, filterStatus)
      ensures f in FilteredFiles(files, filterStatus)
    {
      FilterComplete(files, p, f);
    }
  }

  /** The lower-case form of each stored status. */
  lemma LowerStatusLabel(s: FileStatusTag)
    ensures s == OnTime ==> Lower(StatusLabel(s)) == "on time"
    ensures s == Delayed ==> Lower(StatusLabel(s)) == "delayed"
    ensures s == Critical ==> Lower(StatusLabel(s)) == "critical"
  {
    match s
    case OnTime => LowerByChars("On Time", "on time");
    case Delayed => LowerByChars("Delayed", "delayed");
    case Critical => LowerByChars("Critical", "critical");
  }

  /** The value each status button passes to `setFilterStatus`. */
  function ButtonFilter(s: FileStatusTag): string
  {
    match s
    case OnTime => "on time"
    case Delayed => "delayed"
    case Critical => "critical"
  }

  /** Each filter button selects exactly one status. */
  lemma ButtonMatchesStatus(f: FileData, s: FileStatusTag)
    ensures StatusMatches(f, ButtonFilter(s)) <==> f.status == s
  {
    LowerStatusLabel(f.status);
  }

  /** A status button shows the same list as filtering on the stored
      status itself. */
  lemma {:induction false} FilterByButton(files: seq<FileData>, s: FileStatusTag)
    ensures FilteredFiles(files, ButtonFilter(s)) == Filter(files, (f: FileData) => f.status == s)
    decreases |files|
  {
    if files != [] {
      FilterByButton(files[1..], s);
      ButtonMatchesStatus(files[0], s);
    }
  }

  /** A filter whose lower-case form is none of the three statuses shows
      nothing; `"All"`, not being exactly `"all"`, is such a filter. */
  lemma UnknownFilterShowsNothing(files: seq<FileData>, filterStatus: string)
    requires filterStatus != "all"
    requires Lower(filterStatus) != "on time" && Lower(filterStatus) != "delayed" && Lower(filterStatus) != "critical"
    ensures FilteredFiles(files, filterStatus) == []
  {
    var p := (f: FileData) => StatusMatches(f, filterStatus);
    forall i | 0 <= i < |files| ensures !p(files[i]) {
      LowerStatusLabel(files[i].status);
    }
    FilterNone(files, p);
  }

  /** The three status filters partition the list: their sizes add up to
      the number of files. */
  lemma {:induction false} StatusFiltersPartition(files: seq<FileData>)
    ensures |FilteredFiles(files, ButtonFilter(OnTime))| + |FilteredFiles(files, ButtonFilter(Delayed))|
          + |FilteredFiles(files, ButtonFilter(Critical))| == |files|
    decreases |files|
  {
    if files != [] {
      StatusFiltersPartition(files[1..]);
      ButtonMatchesStatus(files[0], OnTime);
      ButtonMatchesStatus(files[0], Delayed);
      ButtonMatchesStatus(files[0], Critical);
    }
  }

  /** `setSelectedFile(selectedFile === file.id ? null : file.id)`. */
  function ToggleSelection(selected: Option<string>, fileId: string): (r: Option<string>)
    ensures r.Some? <==> selected != Some(fileId)
    ensures r.Some? ==> r.value == fileId
  {
    if selected == Some(fileId) then None else Some(fileId)
  }

  /** Clicking the same file twice from nothing selected closes it again;
      clicking another file switches the selection to it. */
  lemma ToggleSelectionTwice(selected: Option<string>, fileId: string, other: string)
    requires selected == None || selected == Some(fileId)
    requires other != fileId
    ensures ToggleSelection(ToggleSelection(selected, fileId), fileId) == selected
    ensures ToggleSelection(Some(other), fileId) == Some(fileId)
  {
  }

  /** `{selectedFile && <FileTimeline fileId={selectedFile} ... />}`: the
      modal is open, on a file's timeline, when the selection is a non-empty
      string. */
  function OpenTimeline(selected: Option<string>): Option<seq<FileTimeline.TimelineEvent>>
  {
    if selected.Some? && selected.value != "" then Some(FileTimeline.TimelineFor(selected.value)) else None
  }

  /** Every file of the list can open the modal; those with no timeline
      entry (five of the eight, `FN-2024-002` among them) open it on the
      empty timeline, the others on their own events. */
  lemma ListedFilesOpenTimeline(f: FileData)
    requires f in FilesData
    ensures OpenTimeline(Some(f.id)).Some?
    ensures f.id !in FileTimeline.TimelineData ==> OpenTimeline(Some(f.id)) == Some([])
    ensures f.id in FileTimeline.TimelineData ==> OpenTimeline(Some(f.id)) == Some(FileTimeline.TimelineData[f.id])
    ensures f.id == "FN-2024-002" ==> OpenTimeline(Some(f.id)) == Some([])
  {
  }

  /** The list shows eight files: five on time, two delayed, one critical. */
  lemma FixtureCounts()
    ensures |FilesData| == 8
    ensures |FilteredFiles(FilesData, ButtonFilter(OnTime))| == 5
    ensures |FilteredFiles(FilesData, ButtonFilter(Delayed))| == 2
    ensures |FilteredFiles(FilesData, ButtonFilter(Critical))| == 1
  {
    FilterByButton(FilesData, OnTime);
    FilterByButton(FilesData, Delayed);
    FilterByButton(FilesData, Critical);
    FixtureOnTimeCount();
    FixtureDelayedCount();
    FixtureCriticalCount();
  }

  lemma FixtureOnTimeCount()
    ensures |Filter(FilesData, (f: FileData) => f.status == OnTime)| == 5
  {
  }

  lemma FixtureDelayedCount()
    ensures |Filter(FilesData, (f: FileData) => f.status == Delayed)| == 2
  {
  }

  lemma FixtureCriticalCount()
    ensures |Filter(FilesData, (f: FileData) => f.status == Critical)| == 1
  {
  }

  /** The screen's state: the open timeline and the active filter. */
  class FileWorkflowScreen {
    var selectedFile: Option<string>
    var filterStatus: string

    /** `useState<string | null>(null)`, `useState<string>('all')`. */
    constructor ()
      ensures selectedFile == None && filterStatus == "all"
    {
      selectedFile := None;
      filterStatus := "all";
    }

    /** The files the table shows ("Showing N files" is its length). */
    function Shown(): seq<FileData>
      reads this
    {
      FilteredFiles(FilesData, filterStatus)
    }

    /** A filter button; the selection is left alone. */
    method SetFilter(status: string)
      modifies this
      ensures filterStatus == status
      ensures selectedFile == old(selectedFile)
    {
      filterStatus := status;
    }

    /** A "View Timeline" button. */
    method ViewTimeline(fileId: string)
      modifies this
      ensures selectedFile == ToggleSelection(old(selectedFile), fileId)
      ensures filterStatus == old(filterStatus)
    {
      selectedFile := if selectedFile == Some(fileId) then None else Some(fileId);
    }

    /** The modal's close button. */
    method CloseTimeline()
      modifies this
      ensures selectedFile == None
      ensures filterStatus == old(filterStatus)
    {
      selectedFile := None;
    }
  }
}
