/** The citizen tracking portal (src/app/components/CitizenPortalScreen.tsx):
    a table of file records keyed by file id, and a search box whose
    handler upper-cases the typed id, looks it up and records either the
    record found or a not-found flag. Upper-casing is modelled on ASCII
    letters only. Each record's `progress` is a stored number, not
    computed from its stages. */
module CitizenPortal {
  import opened Common

  /** One processing stage of a record; `date` is optional. */
  datatype Stage = Stage(name: string, status: StageStatus, date: Option<string>)

  /** `FileStatus`. */
  datatype FileRecord = FileRecord(
    fileId: string,
    subject: string,
    currentStatus: string,
    department: string,
    currentOfficer: string,
    submittedDate: string,
    expectedCompletion: string,
    progress: int,
    stages: seq<Stage>)

  const Record001: FileRecord := FileRecord(
    "FN-2024-001", "Land Registration Application", "Under Review", "Revenue Department",
    "S. Kumar", "January 18, 2026", "January 25, 2026", 60,
    [ Stage("Application Received", Completed, Some("Jan 18")),
      Stage("Document Verification", Completed, Some("Jan 18")),
      Stage("Officer Review", Current, Some("Jan 20")),
      Stage("Department Approval", Pending, None),
      Stage("Completed", Pending, None) ])

  const Record005: FileRecord := FileRecord(
    "FN-2024-005", "Transfer Order Processing", "In Progress", "Admin Department",
    "V. Rajan", "January 19, 2026", "January 24, 2026", 40,
    [ Stage("Application Received", Completed, Some("Jan 19")),
      Stage("Initial Processing", Current, Some("Jan 20")),
      Stage("Verification", Pending, None),
      Stage("Final Approval", Pending, None),
      Stage("Completed", Pending, None) ])

  const Record008: FileRecord := FileRecord(
    "FN-2024-008", "Scholarship Application", "Under Processing", "Welfare Department",
    "K. Anand", "January 20, 2026", "January 27, 2026", 40,
    [ Stage("Application Received", Completed, Some("Jan 20")),
      Stage("Document Check", Current, Some("Jan 20")),
      Stage("Eligibility Verification", Pending, None),
      Stage("Approval", Pending, None),
      Stage("Completed", Pending, None) ])

  /** `mockFileData`. */
  const MockFileData: map<string, FileRecord> :=
    map["FN-2024-001" := Record001, "FN-2024-005" := Record005, "FN-2024-008" := Record008]

  /** Every record is filed under its own id. */
  lemma FixtureKeysMatch()
    ensures forall k :: k in MockFileData ==> MockFileData[k].fileId == k
  {
  }

  /** The result of `handleSearch` for a typed id: the record filed under
      the upper-cased id, if any. A record found carries that upper-cased
      id as its own. */
  function Lookup(searchId: string): (r: Option<FileRecord>)
    ensures r.Some? <==> Upper(searchId) in MockFileData
    ensures r.Some? ==> r.value.fileId == Upper(searchId)
  {
    FixtureKeysMatch();
    var key := Upper(searchId);
    if key in MockFileData then Some(MockFileData[key]) else None
  }

  /** Ids that differ only in the case of ASCII letters find the same
      record, or both find nothing. */
  lemma LookupIgnoresCase(s: string, t: string)
    requires SameIgnoringCase(s, t)
    ensures Lookup(s) == Lookup(t)
  {
    UpperSameIgnoringCase(s, t);
  }

  /** Searching for the upper-cased id is searching for the id. */
  lemma LookupUpperCased(s: string)
    ensures Lookup(Upper(s)) == Lookup(s)
  {
    UpperIdempotent(s);
  }

  /** Searching for an id finds what is filed under an upper-case key that
      agrees with it up to case. */
  lemma LookupByKey(searchId: string, key: string)
    requires SameIgnoringCase(searchId, key)
    requires forall i :: 0 <= i < |key| ==> UpperChar(key[i]) == key[i]
    ensures Lookup(searchId) == if key in MockFileData then Some(MockFileData[key]) else None
  {
    UpperFixed(key);
    UpperSameIgnoringCase(searchId, key);
  }

  /** The sample ids are found whatever the case they are typed in. */
  lemma FixtureLookups(searchId: string)
    ensures SameIgnoringCase(searchId, "FN-2024-001") ==> Lookup(searchId) == Some(Record001)
    ensures SameIgnoringCase(searchId, "FN-2024-005") ==> Lookup(searchId) == Some(Record005)
    ensures SameIgnoringCase(searchId, "FN-2024-008") ==> Lookup(searchId) == Some(Record008)
  {
    if SameIgnoringCase(searchId, "FN-2024-001") {
      LookupByKey(searchId, "FN-2024-001");
    }
    if SameIgnoringCase(searchId, "FN-2024-005") {
      LookupByKey(searchId, "FN-2024-005");
    }
    if SameIgnoringCase(searchId, "FN-2024-008") {
      LookupByKey(searchId, "FN-2024-008");
    }
  }

  /** An id of a listed file that has no portal record, `FN-2024-002`, is
      not found, whatever its case. */
  lemma FixtureLookupMissing(searchId: string)
    requires SameIgnoringCase(searchId, "FN-2024-002")
    ensures Lookup(searchId) == None
  {
    LookupByKey(searchId, "FN-2024-002");
  }

  /** The stage tags of a record, in order. */
  function StageTags(stages: seq<Stage>): seq<StageStatus>
  {
    Map(stages, (st: Stage) => st.status)
  }

  lemma Record001Tags()
    ensures StageTags(Record001.stages) == [Completed, Completed, Current, Pending, Pending]
  {
  }

  lemma Record005Tags()
    ensures StageTags(Record005.stages) == [Completed, Current, Pending, Pending, Pending]
  {
  }

  lemma Record008Tags()
    ensures StageTags(Record008.stages) == [Completed, Current, Pending, Pending, Pending]
  {
  }

  /** The two stage patterns of the records: completed stages, then
      exactly one current stage, then pending stages. */
  lemma StagePatternsWellFormed(tags: seq<StageStatus>)
    requires tags == [Completed, Completed, Current, Pending, Pending]
          || tags == [Completed, Current, Pending, Pending, Pending]
    ensures PhaseOrdered(tags)
    ensures CurrentCount(tags) == 1
  {
    ExactlyOneCurrent(tags);
  }

  /** Every record's stages are completed stages, then exactly one current
      stage, then pending stages. */
  lemma FixtureStagesWellFormed()
    ensures PhaseOrdered(StageTags(Record001.stages)) && CurrentCount(StageTags(Record001.stages)) == 1
    ensures PhaseOrdered(StageTags(Record005.stages)) && CurrentCount(StageTags(Record005.stages)) == 1
    ensures PhaseOrdered(StageTags(Record008.stages)) && CurrentCount(StageTags(Record008.stages)) == 1
  {
    Record001Tags();
    StagePatternsWellFormed(StageTags(Record001.stages));
    Record005Tags();
    StagePatternsWellFormed(StageTags(Record005.stages));
    Record008Tags();
    StagePatternsWellFormed(StageTags(Record008.stages));
  }

  /** The stored progress is not the share of completed stages: record
      `FN-2024-001` shows 60% with two of its five stages completed. */
  lemma ProgressIsStored()
    ensures |Filter(StageTags(Record001.stages), (t: StageStatus) => t == Completed)| == 2
    ensures |Record001.stages| == 5
    ensures Record001.progress != 100 * 2 / 5
  {
    Record001Tags();
    CompletedOfRecord001Tags();
  }

  lemma CompletedOfRecord001Tags()
    ensures |Filter([Completed, Completed, Current, Pending, Pending], (t: StageStatus) => t == Completed)| == 2
  {
  }

  /** The portal's state. */
  class CitizenPortalScreen {
    var searchId: string
    var fileStatus: Option<FileRecord>
    var notFound: bool

    /** `useState('')`, `useState<FileStatus | null>(null)`,
        `useState(false)`. */
    constructor ()
      ensures searchId == "" && fileStatus == None && !notFound
      ensures ShowsIntroduction()
    {
      searchId := "";
      fileStatus := None;
      notFound := false;
    }

    /** Nothing searched yet (or the last search has not been answered):
        the introductory cards are shown. */
    predicate ShowsIntroduction()
      reads this
    {
      fileStatus.None? && !notFound
    }

    /** The input's `onChange`: only the typed id changes. */
    method SetSearchId(text: string)
      modifies this
      ensures searchId == text
      ensures fileStatus == old(fileStatus) && notFound == old(notFound)
    {
      searchId := text;
    }

    /** `handleSearch`, run by the button and by the Enter key. */
    method HandleSearch()
      modifies this
      ensures searchId == old(searchId)
      ensures fileStatus == Lookup(searchId)
      ensures notFound <==> fileStatus.None?
      ensures !ShowsIntroduction()
    {
      var upperSearchId := Upper(searchId);
      if upperSearchId in MockFileData {
        fileStatus := Some(MockFileData[upperSearchId]);
        notFound := false;
      } else {
        fileStatus := None;
        notFound := true;
      }
    }
  }
}
