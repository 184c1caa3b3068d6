/**
 * The MOSEK backend's basis bookkeeping: the conversion between LPSolver
 * status values and MOSEK status keys, and the column and row status-key
 * vectors it keeps beside the MOSEK task.
 *
 * The task itself (bounds, objective, columns, the optimizer) lives inside
 * the MOSEK library; here a task is only its presence and its numbers of
 * variables and constraints.
 */
module Mosek {
  import opened LPSolver

  /** MSKstakeye: the keys with a name, and any other value a key variable can hold. */
  datatype StaKey = UNK | BAS | SUPBAS | LOW | UPR | FIX | INF | END | Other(code: int)

  /** convertFromMOSEK: each named key to its status, END for any other value. */
  function FromMosek(k: StaKey): Status {
    match k
    case BAS => BASIC
    case UPR => UPPER
    case LOW => LOWER
    case UNK => UNKNOWN
    case SUPBAS => SUPERBASIC
    case FIX => FIXED
    case INF => LPSolver.INF
    case END => LPSolver.END
    case Other(_) => LPSolver.END
  }

  /** convertToMOSEK: each status to its key; UNKNOWN and FREE share UNK. */
  function ToMosek(s: Status): StaKey {
    match s
    case BASIC => BAS
    case UPPER => UPR
    case LOWER => LOW
    case UNKNOWN => UNK
    case FREE => UNK
    case SUPERBASIC => SUPBAS
    case FIXED => FIX
    case INF => StaKey.INF
    case END => StaKey.END
  }

  /** The status a key written for s reads back as: s itself, except that FREE reads back as UNKNOWN. */
  function ReadBack(s: Status): Status {
    if s == FREE then UNKNOWN else s
  }

  /** Converting to a key and back gives the status again, except FREE, which comes back as UNKNOWN. */
  lemma ConvertRoundTrip(s: Status)
    ensures FromMosek(ToMosek(s)) == ReadBack(s)
    ensures s != FREE ==> FromMosek(ToMosek(s)) == s
  {
  }

  /** convertToMOSEK only produces named keys, and two statuses share a key only when they are UNKNOWN and FREE. */
  lemma ToMosekKeys(s: Status, t: Status)
    ensures !ToMosek(s).Other?
    ensures ToMosek(s) == ToMosek(t) ==> s == t || {s, t} == {UNKNOWN, FREE}
  {
  }

  /** Only FREE and UNKNOWN map to UNK, and UNK maps back to UNKNOWN; a key without a name maps to END. */
  lemma ConvertSpecialCases(s: Status, code: int)
    ensures ToMosek(s) == UNK <==> s == FREE || s == UNKNOWN
    ensures FromMosek(UNK) == UNKNOWN
    ensures FromMosek(Other(code)) == LPSolver.END
  {
  }

  /** Every status is the image of a key: convertFromMOSEK covers all statuses except FREE. */
  lemma FromMosekRange(s: Status)
    ensures s != FREE <==> exists k: StaKey :: FromMosek(k) == s
  {
    if s != FREE {
      assert FromMosek(ToMosek(s)) == s;
    }
  }

  class MosekSolver {
    /** Whether a task exists; a new backend has none. */
    var hasTask: bool
    /** MSK_getnumvar and MSK_getnumcon of the task: the variables and constraints appended to it. */
    var numVar: nat
    var numCon: nat
    var colStatus: seq<StaKey>
    var rowStatus: seq<StaKey>

    /** The task's variables and constraints each have a status key. */
    ghost predicate Valid()
      reads this`numVar, this`numCon, this`colStatus, this`rowStatus
    {
      numVar <= |colStatus| && numCon <= |rowStatus|
    }

    constructor ()
      ensures Valid() && !hasTask && numVar == 0 && numCon == 0 && colStatus == [] && rowStatus == []
    {
      hasTask, numVar, numCon := false, 0, 0;
      colStatus, rowStatus := [], [];
    }

    function GetNumberOfColumns(): int
      reads this`numVar
    {
      numVar
    }

    function GetNumberOfRows(): int
      reads this`numCon
    {
      numCon
    }

    /** getColumnStatus: the status of the column's key. */
    function GetColumnStatus(col: int): Status
      requires 0 <= col < |colStatus|
      reads this`colStatus
    {
      FromMosek(colStatus[col])
    }

    function GetRowStatus(row: int): Status
      requires 0 <= row < |rowStatus|
      reads this`rowStatus
    {
      FromMosek(rowStatus[row])
    }

    /** setColumnStatus stores the key of s, so reading it back gives s (UNKNOWN for FREE). */
    method SetColumnStatus(col: int, s: Status)
      requires 0 <= col < |colStatus|
      modifies this`colStatus
      ensures colStatus == old(colStatus)[col := ToMosek(s)]
      ensures GetColumnStatus(col) == ReadBack(s)
    {
      colStatus := colStatus[col := ToMosek(s)];
    }

    method SetRowStatus(row: int, s: Status)
      requires 0 <= row < |rowStatus|
      modifies this`rowStatus
      ensures rowStatus == old(rowStatus)[row := ToMosek(s)]
      ensures GetRowStatus(row) == ReadBack(s)
    {
      rowStatus := rowStatus[row := ToMosek(s)];
    }

    /** deleteLP: when there is a task, drop it and clear both key vectors; otherwise nothing changes. */
    method DeleteLP()
      modifies this
      ensures old(hasTask) ==> !hasTask && numVar == 0 && numCon == 0 && colStatus == [] && rowStatus == []
      ensures !old(hasTask) ==> (hasTask == old(hasTask) && numVar == old(numVar) && numCon == old(numCon)
                                 && colStatus == old(colStatus) && rowStatus == old(rowStatus))
      ensures old(Valid()) ==> Valid()
    {
      if hasTask {
        hasTask := false;
        numVar, numCon := 0, 0;
        colStatus, rowStatus := [], [];
      }
    }

    /**
     * createLP: delete the old problem and make a new empty task. Key
     * vectors are cleared only when there was a task to delete.
     */
    method CreateLP(nSource: int, nTarget: int)
      modifies this
      ensures hasTask && numVar == 0 && numCon == 0
      ensures old(hasTask) ==> colStatus == [] && rowStatus == []
      ensures !old(hasTask) ==> colStatus == old(colStatus) && rowStatus == old(rowStatus)
      ensures Valid()
    {
      DeleteLP();
      hasTask := true;
      numVar, numCon := 0, 0;
    }

    /** addColumns(n): n new task variables (only when there is a task) and n new LOW keys. */
    method AddColumns(n: int)
      requires n >= 0
      modifies this`numVar, this`colStatus
      ensures colStatus == old(colStatus) + seq(n, _ => LOW)
      ensures numVar == if hasTask then old(numVar) + n else old(numVar)
      ensures old(Valid()) ==> Valid()
    {
      if hasTask {
        numVar := numVar + n;
      }
      var i := 0;
      while i < n
        invariant 0 <= i <= n
        invariant colStatus == old(colStatus) + seq(i, _ => LOW)
        invariant numVar == if hasTask then old(numVar) + n else old(numVar)
      {
        colStatus := colStatus + [LOW];
        i := i + 1;
      }
    }

    /** addRows(n): n new task constraints (only when there is a task) and n new LOW keys, unlike the Lemon backend's BASIC. */
    method AddRows(n: int)
      requires n >= 0
      modifies this`numCon, this`rowStatus
      ensures rowStatus == old(rowStatus) + seq(n, _ => LOW)
      ensures numCon == if hasTask then old(numCon) + n else old(numCon)
      ensures old(Valid()) ==> Valid()
    {
      if hasTask {
        numCon := numCon + n;
      }
      var i := 0;
      while i < n
        invariant 0 <= i <= n
        invariant rowStatus == old(rowStatus) + seq(i, _ => LOW)
        invariant numCon == if hasTask then old(numCon) + n else old(numCon)
      {
        rowStatus := rowStatus + [LOW];
        i := i + 1;
      }
    }

    /** setupStandardBasis: the keys of the task's columns become LOW and those of its rows BAS; the rest are kept. */
    method SetupStandardBasis()
      requires Valid()
      modifies this`colStatus, this`rowStatus
      ensures |colStatus| == |old(colStatus)| && |rowStatus| == |old(rowStatus)|
      ensures forall i :: 0 <= i < |colStatus| ==> colStatus[i] == if i < numVar then LOW else old(colStatus)[i]
      ensures forall i :: 0 <= i < |rowStatus| ==> rowStatus[i] == if i < numCon then BAS else old(rowStatus)[i]
      ensures Valid()
    {
      var i := 0;
      while i < GetNumberOfColumns()
        invariant 0 <= i <= numVar
        invariant |colStatus| == |old(colStatus)| && rowStatus == old(rowStatus)
        invariant forall j :: 0 <= j < |colStatus| ==> colStatus[j] == if j < i then LOW else old(colStatus)[j]
      {
        colStatus := colStatus[i := LOW];
        i := i + 1;
      }
      i := 0;
      while i < GetNumberOfRows()
        invariant 0 <= i <= numCon
        invariant |colStatus| == |old(colStatus)| && |rowStatus| == |old(rowStatus)|
        invariant forall j :: 0 <= j < |colStatus| ==> colStatus[j] == if j < numVar then LOW else old(colStatus)[j]
        invariant forall j :: 0 <= j < |rowStatus| ==> rowStatus[j] == if j < i then BAS else old(rowStatus)[j]
      {
        rowStatus := rowStatus[i := BAS];
        i := i + 1;
      }
    }
  }
}
