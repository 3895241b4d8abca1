/** The officer workload screen
    (src/app/components/OfficerWorkloadScreen.tsx): a fixed list of
    officers, the total of their active files, the number marked
    overloaded, the efficiency colour band, the active-files bar width and
    the redistribution notice. Each officer's workload label and efficiency
    are stored fields; nothing derives them from the file counts. */
module OfficerWorkload {
  import Common

  /** `'Low' | 'Medium' | 'High'`. */
  datatype Workload = Low | Medium | High

  /** `OfficerData`. `avgHandlingTime` is a JavaScript number, modelled as
      a `real`. */
  datatype Officer = Officer(
    id: string,
    name: string,
    department: string,
    activeFiles: nat,
    avgHandlingTime: real,
    workload: Workload,
    completedThisMonth: nat,
    efficiency: int)

  /** `officersData`. */
  const OfficersData: seq<Officer> := [
    Officer("OFF-001", "S. Kumar", "Revenue", 8, 2.8, Medium, 42, 95),
    Officer("OFF-002", "M. Priya", "Planning", 6, 3.1, Medium, 38, 91),
    Officer("OFF-003", "R. Selvam", "Welfare", 12, 4.5, High, 28, 76),
    Officer("OFF-004", "A. Lakshmi", "Legal", 15, 5.2, High, 22, 68),
    Officer("OFF-005", "V. Rajan", "Admin", 5, 2.3, Low, 45, 97),
    Officer("OFF-006", "K. Anand", "Welfare", 7, 3.4, Medium, 35, 88),
    Officer("OFF-007", "P. Meena", "Revenue", 4, 2.6, Low, 48, 96),
    Officer("OFF-008", "V. Ganesh", "Legal", 9, 4.8, High, 25, 72)
  ]

  /** The three colours of an efficiency score. */
  datatype Band = Emerald | Blue | Amber

  /** Bands from worst to best. */
  function BandRank(b: Band): nat
  {
    match b
    case Amber => 0
    case Blue => 1
    case Emerald => 2
  }

  /** `getEfficiencyColor`, and the same thresholds on the efficiency bar:
      90 and above, 75 to 89, below 75. */
  function EfficiencyBand(efficiency: int): (b: Band)
    ensures b == Emerald <==> efficiency >= 90
    ensures b == Blue <==> 75 <= efficiency < 90
    ensures b == Amber <==> efficiency < 75
  {
    if efficiency >= 90 then Emerald
    else if efficiency >= 75 then Blue
    else Amber
  }

  /** A higher score never gets a worse band. */
  lemma EfficiencyBandMonotone(e1: int, e2: int)
    requires e1 <= e2
    ensures BandRank(EfficiencyBand(e1)) <= BandRank(EfficiencyBand(e2))
  {
  }

  /** `officersData.reduce((sum, o) => sum + o.activeFiles, 0)`, folding from
      the left as `reduce` does. */
  function TotalActive(officers: seq<Officer>): nat
    decreases |officers|
  {
    if officers == [] then 0
    else TotalActive(officers[..|officers| - 1]) + officers[|officers| - 1].activeFiles
  }

  /** The sum of the active files taken from the front: a reference for the
      fold. */
  function SumFromFront(officers: seq<Officer>): nat
    decreases |officers|
  {
    if officers == [] then 0 else officers[0].activeFiles + SumFromFront(officers[1..])
  }

  /** The sum of a concatenation is the sum of the sums. */
  lemma {:induction false} SumFromFrontAppend(a: seq<Officer>, b: seq<Officer>)
    ensures SumFromFront(a + b) == SumFromFront(a) + SumFromFront(b)
    decreases |a|
  {
    if a == [] {
      assert a + b == b;
    } else {
      assert (a + b)[1..] == a[1..] + b;
      SumFromFrontAppend(a[1..], b);
    }
  }

  /** The left fold adds up every officer's active files. */
  lemma {:induction false} TotalActiveIsSum(officers: seq<Officer>)
    ensures TotalActive(officers) == SumFromFront(officers)
    decreases |officers|
  {
    if officers != [] {
      var front := officers[..|officers| - 1];
      var last := officers[|officers| - 1];
      TotalActiveIsSum(front);
      assert officers == front + [last];
      SumFromFrontAppend(front, [last]);
      assert [last][1..] == [];
    }
  }

  /** No officer has more active files than the total. */
  lemma {:induction false} TotalActiveAtLeastEach(officers: seq<Officer>, k: nat)
    requires k < |officers|
    ensures TotalActive(officers) >= officers[k].activeFiles
    decreases |officers|
  {
    if k < |officers| - 1 {
      var front := officers[..|officers| - 1];
      assert front[k] == officers[k];
      TotalActiveAtLeastEach(front, k);
    }
  }

  /** The "Total Active Files" card shows 66. */
  lemma FixtureTotalActive()
    ensures TotalActive(OfficersData) == 66
  {
    TotalActiveIsSum(OfficersData);
    FixtureSumFromFront();
  }

  lemma FixtureSumFromFront()
    ensures SumFromFront(OfficersData) == 66
  {
  }

  /** `officersData.filter(o => o.workload === 'High')`. */
  function Overloaded(officers: seq<Officer>): seq<Officer>
  {
    Common.Filter(officers, (o: Officer) => o.workload == High)
  }

  /** The "Overloaded Officers" card counts exactly the officers marked
      `High`, keeps their order, and never exceeds the number of officers. */
  lemma OverloadedExact(officers: seq<Officer>)
    ensures forall o :: o in Overloaded(officers) <==> o in officers && o.workload == High
    ensures Common.IsSubsequence(Overloaded(officers), officers)
    ensures |Overloaded(officers)| <= |officers|
  {
    var p := (o: Officer) => o.workload == High;
    Common.FilterIsSubsequence(officers, p);
    forall o | o in officers && o.workload == High
      ensures o in Overloaded(officers)
    {
      Common.FilterComplete(officers, p, o);
    }
  }

  /** The sample has three overloaded officers. */
  lemma FixtureOverloaded()
    ensures |Overloaded(OfficersData)| == 3
  {
  }

  /** The width, in percent, of an officer's active-files bar:
      `Math.min((activeFiles / 15) * 100, 100)`, computed exactly. */
  function BarWidth(activeFiles: nat): (w: real)
    ensures 0.0 <= w <= 100.0
    ensures w == 100.0 <==> activeFiles >= 15
  {
    var scaled := (activeFiles as real / 15.0) * 100.0;
    if scaled < 100.0 then scaled else 100.0
  }

  /** More active files never give a shorter bar, and below fifteen files
      the bar is proportional to the count. */
  lemma BarWidthMonotone(a: nat, b: nat)
    requires a <= b
    ensures BarWidth(a) <= BarWidth(b)
    ensures a < 15 ==> BarWidth(a) * 15.0 == a as real * 100.0
  {
  }

  /** `officer.workload === 'High'`: the "Consider redistributing files"
      notice is shown under the card. */
  predicate RedistributionNotice(o: Officer)
  {
    o.workload == High
  }

  /** The notice follows the stored label alone: it appears for exactly the
      overloaded officers, so in the sample for `OFF-003`, `OFF-004` and
      `OFF-008`. */
  lemma RedistributionNoticeRule(officers: seq<Officer>, o: Officer)
    requires o in officers
    ensures RedistributionNotice(o) <==> o in Overloaded(officers)
    ensures o in OfficersData ==> (RedistributionNotice(o) <==> o.id in {"OFF-003", "OFF-004", "OFF-008"})
  {
    OverloadedExact(officers);
  }

  /** The notice is not a rule of twelve or more active files: `OFF-008`
      gets it with nine. */
  lemma NoticeIgnoresFileCount()
    ensures RedistributionNotice(OfficersData[7]) && OfficersData[7].activeFiles < 12
  {
  }
}
