/** ScanContext: the dense option table built from sparse, partly rejected descriptors. */
module ScanContext {
  import opened Options
  import opened PrintConstants
  import opened Decimal
  import opened ScanOptions

  const MAX_SCANNER_PARA_COUNT := 1000
  const SCAN_ERROR_NONE := 0
  const SCAN_ERROR_INVALID_PARAMETER := 401
  const SCAN_ERROR_GENERIC_FAILURE := 24300101
  const SCAN_VALUE_BOOL := 0
  const SCAN_VALUE_STR := 3

  datatype Constraint =
    | NoConstraint
    | Range(min: Int32, max: Int32, quant: Int32)
    | WordList(words: seq<Int32>)
    | StringList(strings: seq<string>)
    | Unsupported

  datatype ScanOptionDescriptor = ScanOptionDescriptor(
    title: string, description: string, optionType: nat, unit: nat, limits: Constraint)

  /** GetScanOptionDesc for one option; a failure carries the status it is converted to. */
  datatype Answer = Described(desc: ScanOptionDescriptor) | Failed(status: int)

  // ---------------------------------------------------------------------------------------
  // Specification
  // ---------------------------------------------------------------------------------------

  function CommaTerminated(items: seq<string>): string {
    if items == [] then "" else CommaTerminated(items[..|items| - 1]) + items[|items| - 1] + ","
  }

  function DropLast(s: string): string {
    if s == "" then "" else s[..|s| - 1]
  }

  function Words(words: seq<Int32>): seq<string> {
    seq(|words|, i requires 0 <= i < |words| => ToString(words[i]))
  }

  /** INT32_MIN / -1 */
  predicate Overflows(min: Int32, max: Int32, quant: Int32) {
    quant == -1 && (min == INT32_MIN || max == INT32_MIN)
  }

  /** SetRangeStrInParaTable: the published range, or "" for a descriptor that is rejected. */
  function RangeString(desc: ScanOptionDescriptor): string {
    match desc.limits
    case WordList(words) => DropLast(CommaTerminated(Words(words)))
    case StringList(strings) => DropLast(CommaTerminated(strings))
    case Range(min, max, quant) =>
      if Overflows(min, max, quant) then ""
      else ToString(PublishedMin(min, quant)) + ".." + ToString(PublishedMax(max, quant))
    case NoConstraint => if desc.optionType == SCAN_VALUE_BOOL then "yes,no" else ""
    case Unsupported => ""
  }

  predicate Accepts(answer: Answer) {
    answer.Described? && RangeString(answer.desc) != ""
  }

  /** The quantum remembered for an accepted option, if any. */
  function QuantumOf(desc: ScanOptionDescriptor): Option<int> {
    if desc.limits.Range? && desc.limits.quant != 0 then Some(desc.limits.quant) else None
  }

  function UnitNote(unit: nat): string {
    match unit
    case 1 => "(Physical unit is number of pixels)"
    case 2 => "(Physical unit is number of bits)"
    case 3 => "(Physical unit is millimeters)"
    case 4 => "(Physical unit is resolution in dots/inch)"
    case 5 => "(Physical unit is a percentage)"
    case 6 => "(Physical unit is micro seconds)"
    case _ => ""
  }

  /** The unit is named behind the description, for the units there are. */
  lemma UnitNoteIs(unit: nat)
    ensures UnitNote(1) == "(Physical unit is number of pixels)" && UnitNote(2) == "(Physical unit is number of bits)"
    ensures UnitNote(3) == "(Physical unit is millimeters)"
    ensures UnitNote(4) == "(Physical unit is resolution in dots/inch)"
    ensures UnitNote(5) == "(Physical unit is a percentage)" && UnitNote(6) == "(Physical unit is micro seconds)"
    ensures unit == 0 || unit > 6 ==> UnitNote(unit) == ""
  {
  }

  /** The accepted options among 1..n-1, in order: what the dense table stands for. */
  function Accepted(answer: nat -> Answer, n: nat): seq<nat> {
    if n <= 1 then []
    else if Accepts(answer(n - 1)) then Accepted(answer, n - 1) + [n - 1]
    else Accepted(answer, n - 1)
  }

  predicate NoFailure(answer: nat -> Answer, n: nat) {
    forall i | 1 <= i < n :: answer(i).Described?
  }

  lemma {:induction false} AcceptedIs(answer: nat -> Answer, n: nat)
    ensures forall i :: i in Accepted(answer, n) <==> 1 <= i < n && Accepts(answer(i))
    ensures forall j, k | 0 <= j < k < |Accepted(answer, n)| :: Accepted(answer, n)[j] < Accepted(answer, n)[k]
    ensures |Accepted(answer, n)| < (if n == 0 then 1 else n)
  {
    if n <= 1 {
    } else {
      var front := Accepted(answer, n - 1);
      AcceptedIs(answer, n - 1);
      assert forall j | 0 <= j < |front| :: front[j] in front;
    }
  }

  lemma {:induction false} CommaTerminatedEmptyIff(items: seq<string>)
    ensures DropLast(CommaTerminated(items)) == "" <==> items == [] || items == [""]
    ensures |CommaTerminated(items)| >= |items|
  {
    if items == [] {
    } else {
      var front, last := items[..|items| - 1], items[|items| - 1];
      CommaTerminatedEmptyIff(front);
      assert items == front + [last];
      assert CommaTerminated(items) == CommaTerminated(front) + last + ",";
      if |items| == 1 {
        assert front == [];
      }
    }
  }

  lemma ToStringNotEmpty(n: int)
    ensures ToString(n) != ""
  {
  }

  /** Which descriptors are rejected, said without building the string. */
  lemma {:induction false} AcceptsIff(desc: ScanOptionDescriptor)
    ensures RangeString(desc) != "" <==>
            match desc.limits
            case WordList(words) => words != []
            case StringList(strings) => strings != [] && strings != [""]
            case Range(min, max, quant) => !Overflows(min, max, quant)
            case NoConstraint => desc.optionType == SCAN_VALUE_BOOL
            case Unsupported => false
  {
    match desc.limits
    case WordList(words) =>
      CommaTerminatedEmptyIff(Words(words));
      if words != [] {
        ToStringNotEmpty(words[0]);
        assert Words(words)[0] != "";
      }
    case StringList(strings) => CommaTerminatedEmptyIff(strings);
    case Range(min, max, quant) =>
    case NoConstraint =>
    case Unsupported =>
  }

  /** INT32_MIN / -1 is the only quotient that would leave 32 bits, so what is published fits. */
  lemma PublishedBoundsFit(min: Int32, max: Int32, quant: Int32)
    ensures quant != 0 ==>
              (!Overflows(min, max, quant) <==>
               INT32_MIN <= PublishedMin(min, quant) <= INT32_MAX && INT32_MIN <= PublishedMax(max, quant) <= INT32_MAX)
  {
    if quant != 0 {
      QuotientFitsIff(min, quant);
      QuotientFitsIff(max, quant);
    }
  }

  // ---------------------------------------------------------------------------------------
  // The table
  // ---------------------------------------------------------------------------------------

  datatype Table = Table(
    titBuff: seq<string>,
    desBuff: seq<string>,
    rangesBuff: seq<string>,
    optionTypeBuff: seq<nat>,
    quantMap: map<int, int>,      // dense index to quantum
    indexMap: map<int, int>)      // dense index to the scanner's own index

  /** Entry k is that of the descriptor. */
  predicate Describes(t: Table, k: nat, desc: ScanOptionDescriptor) {
    && k < |t.titBuff| && |t.titBuff| == |t.desBuff| == |t.rangesBuff| == |t.optionTypeBuff|
    && t.titBuff[k] == desc.title
    && t.desBuff[k] == desc.description + UnitNote(desc.unit)
    && t.rangesBuff[k] == RangeString(desc)
    && t.optionTypeBuff[k] == desc.optionType
    && (if k in t.quantMap then QuantumOf(desc) == Some(t.quantMap[k]) else QuantumOf(desc) == None)
  }

  /** The table holds exactly the accepted options below n, densely; of rejected ones there is no trace. */
  ghost predicate Holds(t: Table, answer: nat -> Answer, n: nat) {
    var inner := Accepted(answer, n);
    && |t.titBuff| == |t.desBuff| == |t.rangesBuff| == |t.optionTypeBuff| == |inner|
    && (forall k :: k in t.indexMap <==> 0 <= k < |inner|)
    && (forall k | k in t.quantMap :: k in t.indexMap)
    && forall k | 0 <= k < |inner| :: Entry(t, answer, k, inner[k])
  }

  /** Dense index k stands for the scanner's option i. */
  ghost predicate Entry(t: Table, answer: nat -> Answer, k: nat, i: nat) {
    k in t.indexMap && t.indexMap[k] == i && answer(i).Described? && Describes(t, k, answer(i).desc)
  }

  /** An accepted descriptor at the end of a table. */
  function Appended(t: Table, desc: ScanOptionDescriptor, i: int): Table {
    var length := |t.titBuff|;
    Table(t.titBuff + [desc.title], t.desBuff + [desc.description + UnitNote(desc.unit)],
          t.rangesBuff + [RangeString(desc)], t.optionTypeBuff + [desc.optionType],
          if QuantumOf(desc).Some? then t.quantMap[length := QuantumOf(desc).value] else t.quantMap,
          t.indexMap[length := i])
  }

  lemma AppendKeepsEntry(t: Table, answer: nat -> Answer, k: nat, j: nat, desc: ScanOptionDescriptor, i: int)
    requires Entry(t, answer, k, j)
    ensures Entry(Appended(t, desc, i), answer, k, j)
  {
  }

  lemma AppendAddsEntry(t: Table, answer: nat -> Answer, i: nat)
    requires |t.titBuff| == |t.desBuff| == |t.rangesBuff| == |t.optionTypeBuff| && |t.titBuff| !in t.quantMap
    requires answer(i).Described?
    ensures Entry(Appended(t, answer(i).desc, i), answer, |t.titBuff|, i)
  {
  }

  /** One more option: appended if accepted, without a trace otherwise. */
  lemma {:induction false} HoldsStep(t: Table, answer: nat -> Answer, i: nat)
    requires i >= 1 && Holds(t, answer, i) && answer(i).Described?
    ensures Holds(if Accepts(answer(i)) then Appended(t, answer(i).desc, i) else t, answer, i + 1)
  {
    if Accepts(answer(i)) {
      var desc, inner, length := answer(i).desc, Accepted(answer, i), |t.titBuff|;
      AppendAddsEntry(t, answer, i);
      forall k | 0 <= k < length
        ensures Entry(Appended(t, desc, i), answer, k, inner[k])
      {
        AppendKeepsEntry(t, answer, k, inner[k], desc, i);
      }
    }
  }

  // ---------------------------------------------------------------------------------------
  // The table in place
  // ---------------------------------------------------------------------------------------

  class ScanParaTable {
    var titBuff: seq<string>
    var desBuff: seq<string>
    var rangesBuff: seq<string>
    var optionTypeBuff: seq<nat>
    var quantMap: map<int, int>
    var indexMap: map<int, int>
    var buffLength: int

    constructor ()
      ensures View() == Table([], [], [], [], map[], map[]) && buffLength == 0
    {
      titBuff, desBuff, rangesBuff, optionTypeBuff := [], [], [], [];
      quantMap, indexMap, buffLength := map[], map[], 0;
    }

    function View(): Table
      reads this
    {
      Table(titBuff, desBuff, rangesBuff, optionTypeBuff, quantMap, indexMap)
    }

    /** SetRangeStrInParaTable; only an accepted range leaves a quantum behind. */
    method SetRangeStr(desc: ScanOptionDescriptor, length: int) returns (rangeStr: string)
      modifies this`quantMap
      ensures rangeStr == RangeString(desc)
      ensures quantMap == if rangeStr != "" && QuantumOf(desc).Some?
                          then old(quantMap)[length := QuantumOf(desc).value] else old(quantMap)
    {
      rangeStr := "";
      match desc.limits
      case WordList(words) =>
        rangeStr := Joined(Words(words));
      case StringList(strings) =>
        rangeStr := Joined(strings);
      case Range(min, max, quant) =>
        var minValue, maxValue := min as int, max as int;
        if quant != 0 {
          if quant == -1 && (minValue == INT32_MIN || maxValue == INT32_MIN) {
            return "";
          }
          minValue := TruncatedQuotient(minValue, quant);
          maxValue := TruncatedQuotient(maxValue, quant);
          quantMap := quantMap[length := quant];
        }
        rangeStr := ToString(minValue) + ".." + ToString(maxValue);
      case NoConstraint =>
        if desc.optionType == SCAN_VALUE_BOOL {
          rangeStr := "yes,no";
        }
      case Unsupported =>
    }

    /** Items and commas are appended, the last comma is taken back. */
    static method Joined(items: seq<string>) returns (r: string)
      ensures r == DropLast(CommaTerminated(items))
    {
      r := "";
      var i := 0;
      while i < |items|
        invariant 0 <= i <= |items|
        invariant r == CommaTerminated(items[..i])
      {
        r := r + items[i] + ",";
        assert items[..i + 1][..i] == items[..i];
        i := i + 1;
      }
      assert items[..i] == items;
      if r != "" {
        r := r[..|r| - 1];
      }
    }

    /** An accepted descriptor is appended to all four lists; a rejected one changes nothing. */
    method SetParaTable(desc: ScanOptionDescriptor, length: int) returns (accepted: bool)
      modifies this`titBuff, this`desBuff, this`rangesBuff, this`optionTypeBuff, this`quantMap
      ensures accepted <==> RangeString(desc) != ""
      ensures !accepted ==> unchanged(this)
      ensures accepted ==>
                && titBuff == old(titBuff) + [desc.title]
                && desBuff == old(desBuff) + [desc.description + UnitNote(desc.unit)]
                && rangesBuff == old(rangesBuff) + [RangeString(desc)]
                && optionTypeBuff == old(optionTypeBuff) + [desc.optionType]
                && quantMap == if QuantumOf(desc).Some? then old(quantMap)[length := QuantumOf(desc).value]
                               else old(quantMap)
    {
      var rangeStr := SetRangeStr(desc, length);
      if rangeStr == "" {
        return false;
      }
      optionTypeBuff := optionTypeBuff + [desc.optionType];
      rangesBuff := rangesBuff + [rangeStr];
      titBuff := titBuff + [desc.title];
      var optionDesc := desc.description;
      if desc.unit != 0 {
        optionDesc := optionDesc + UnitNote(desc.unit);
      } else {
        assert optionDesc + UnitNote(0) == optionDesc;
      }
      desBuff := desBuff + [optionDesc];
      return true;
    }
  }

  /** The loop body for a described option: index and inner option are tied together only if it is accepted. */
  method AddOption(table: ScanParaTable, ghost answer: nat -> Answer, i: nat, length: int, desc: ScanOptionDescriptor)
    returns (accepted: bool)
    requires i >= 1 && Holds(table.View(), answer, i) && answer(i) == Described(desc) && length == |table.titBuff|
    modifies table
    ensures Holds(table.View(), answer, i + 1) && table.buffLength == old(table.buffLength)
    ensures |table.titBuff| == if accepted then length + 1 else length
  {
    HoldsStep(table.View(), answer, i);
    accepted := table.SetParaTable(desc, length);
    if accepted {
      if length !in table.indexMap {
        table.indexMap := table.indexMap[length := i];
      }
      assert table.View() == Appended(old(table.View()), desc, i);
    }
  }

  /**
   * GetScannerParameter: answer(i) is what the scan service says about option i. On success the table
   * holds exactly the accepted options; otherwise the status is that of the first option that failed.
   */
  method GetScannerParameter(hasClient: bool, count: int, answer: nat -> Answer, table: ScanParaTable)
    returns (status: int)
    requires Holds(table.View(), answer, 0) && table.buffLength == 0
    modifies table
    ensures !(0 < count <= 1000) ==> status == SCAN_ERROR_INVALID_PARAMETER && unchanged(table)
    ensures count == 1 ==> status == SCAN_ERROR_NONE
    ensures 1 < count <= 1000 && !hasClient ==> status == SCAN_ERROR_GENERIC_FAILURE
    ensures 0 < count <= 1000 && (hasClient || count == 1) ==>
              if NoFailure(answer, count) then
                status == SCAN_ERROR_NONE && Holds(table.View(), answer, count) &&
                table.buffLength == |Accepted(answer, count)|
              else
                table.buffLength == 0 &&
                exists f | 1 <= f < count :: NoFailure(answer, f) && answer(f) == Failed(status)
  {
    if count <= 0 || count > MAX_SCANNER_PARA_COUNT {
      return SCAN_ERROR_INVALID_PARAMETER;
    }
    var length := 0;
    var i := 1;
    assert Holds(table.View(), answer, 1);
    while i < count
      invariant 1 <= i <= count && (i > 1 ==> hasClient)
      invariant Holds(table.View(), answer, i) && length == |table.titBuff| && table.buffLength == 0
      invariant NoFailure(answer, i)
    {
      if !hasClient {
        return SCAN_ERROR_GENERIC_FAILURE;
      }
      var reply := answer(i);
      if reply.Failed? {
        assert answer(i) == Failed(reply.status);
        return reply.status;
      }
      var accepted := AddOption(table, answer, i, length, reply.desc);
      if accepted {
        length := length + 1;
      }
      i := i + 1;
    }
    table.buffLength := length;
    return SCAN_ERROR_NONE;
  }

  // ---------------------------------------------------------------------------------------
  // Looking options up
  // ---------------------------------------------------------------------------------------

  datatype ScanOptionValue = NumValue(n: int) | StrValue(s: string) | NoValue

  /** int32_t multiplication; outside 32 bits C++ promises nothing, here it wraps. */
  function Int32Product(a: int, b: int): Int32 {
    var wrapped := (a * b) % (UINT32_MAX + 1);
    if wrapped > INT32_MAX then wrapped - (UINT32_MAX + 1) else wrapped
  }

  class ScanContext {
    var innerScanParaTables: map<string, ScanParaTable?>

    constructor ()
      ensures innerScanParaTables == map[]
    {
      innerScanParaTables := map[];
    }

    method SetScanParaTable(scannerId: string, table: ScanParaTable)
      modifies this
      ensures innerScanParaTables == old(innerScanParaTables)[scannerId := table]
    {
      innerScanParaTables := innerScanParaTables[scannerId := table];
    }

    method ParaIndexConvert(option: int, deviceId: string) returns (inner: Option<int>)
      ensures deviceId !in innerScanParaTables || innerScanParaTables[deviceId] == null ==> inner == None
      ensures deviceId in innerScanParaTables && innerScanParaTables[deviceId] != null ==>
                var indexMap := innerScanParaTables[deviceId].indexMap;
                inner == if option in indexMap then Some(indexMap[option]) else None
    {
      if deviceId !in innerScanParaTables {
        return None;
      }
      var table := innerScanParaTables[deviceId];
      if table == null || option !in table.indexMap {
        return None;
      }
      return Some(table.indexMap[option]);
    }

    /** The status and value OptionValue prescribes for the device's table. */
    method GetOptionValueFromTable(deviceId: string, option: int, value: Option<string>)
      returns (status: int, optionValue: ScanOptionValue)
      requires deviceId in innerScanParaTables && innerScanParaTables[deviceId] != null ==>
                 innerScanParaTables[deviceId].buffLength <= |innerScanParaTables[deviceId].optionTypeBuff|
      ensures deviceId !in innerScanParaTables || innerScanParaTables[deviceId] == null ==>
                status == SCAN_ERROR_INVALID_PARAMETER
      ensures deviceId in innerScanParaTables && innerScanParaTables[deviceId] != null ==>
                var t := innerScanParaTables[deviceId];
                (status, optionValue) ==
                if value.None? || !(0 <= option < t.buffLength) then (SCAN_ERROR_INVALID_PARAMETER, NoValue)
                else OptionValue(t.optionTypeBuff[option],
                                 if option in t.quantMap then Some(t.quantMap[option]) else None, value.value)
    {
      status, optionValue := SCAN_ERROR_INVALID_PARAMETER, NoValue;
      if deviceId !in innerScanParaTables {
        return;
      }
      var table := innerScanParaTables[deviceId];
      if table == null || value.None? {
        return;
      }
      if option < 0 || option >= table.buffLength {
        return;
      }
      var optionType := table.optionTypeBuff[option];
      if optionType == SCAN_VALUE_STR {
        return SCAN_ERROR_NONE, StrValue(value.value);
      } else if optionType == SCAN_VALUE_BOOL {
        if value.value == "yes" {
          return SCAN_ERROR_NONE, NumValue(1);
        } else if value.value == "no" {
          return SCAN_ERROR_NONE, NumValue(0);
        }
        return;
      } else {
        var number := ParseInt32(value.value);
        if number.None? {
          return;
        }
        var numValue := number.value;
        if option in table.quantMap {
          numValue := Int32Product(numValue, table.quantMap[option]);
        }
        return SCAN_ERROR_NONE, NumValue(numValue);
      }
    }
  }

  /** What a value string means for an option of some type, with or without a quantum. */
  function OptionValue(optionType: nat, quantum: Option<int>, value: string): (int, ScanOptionValue) {
    if optionType == SCAN_VALUE_STR then (SCAN_ERROR_NONE, StrValue(value))
    else if optionType == SCAN_VALUE_BOOL then
      if value == "yes" then (SCAN_ERROR_NONE, NumValue(1))
      else if value == "no" then (SCAN_ERROR_NONE, NumValue(0))
      else (SCAN_ERROR_INVALID_PARAMETER, NoValue)
    else
      match ParseInt32(value)
      case None => (SCAN_ERROR_INVALID_PARAMETER, NoValue)
      case Some(n) => (SCAN_ERROR_NONE, NumValue(if quantum.Some? then Int32Product(n, quantum.value) else n))
  }

  /** The statuses and values as numbers: booleans by their words, strings as they are, numbers as they read. */
  lemma {:induction false} OptionValueIs(optionType: nat, quantum: Option<int>, value: string)
    ensures optionType == 3 ==> OptionValue(optionType, quantum, value) == (0, StrValue(value))
    ensures optionType == 0 ==>
              && OptionValue(optionType, quantum, "yes") == (0, NumValue(1))
              && OptionValue(optionType, quantum, "no") == (0, NumValue(0))
              && (value != "yes" && value != "no" ==> OptionValue(optionType, quantum, value) == (401, NoValue))
    ensures optionType != 0 && optionType != 3 && ParseInt32(value).None? ==>
              OptionValue(optionType, quantum, value) == (401, NoValue)
    ensures optionType != 0 && optionType != 3 && quantum.None? ==>
              forall n: Int32 :: OptionValue(optionType, quantum, ToString(n)) == (0, NumValue(n))
  {
    forall n: Int32
      ensures ParseInt32(ToString(n)) == Some(n)
    {
      ParsePrint(n);
    }
  }

  lemma Int32ProductExact(a: int, b: int)
    requires INT32_MIN <= a * b <= INT32_MAX
    ensures Int32Product(a, b) == a * b
  {
  }

  /** An option index converts exactly when the value look-up accepts it, and converts to an accepted option. */
  lemma {:induction false} IndexConvertsIff(
      table: Table, answer: nat -> Answer, count: nat, buffLength: int, option: int)
    requires Holds(table, answer, count) && buffLength == |Accepted(answer, count)|
    ensures option in table.indexMap <==> 0 <= option < buffLength
    ensures option in table.indexMap ==>
              var inner := table.indexMap[option];
              1 <= inner < count && Accepts(answer(inner)) &&
              forall other | other in table.indexMap && other < option :: table.indexMap[other] < inner
  {
    AcceptedIs(answer, count);
    var inner := Accepted(answer, count);
    if option in table.indexMap {
      assert inner[option] in inner && Entry(table, answer, option, inner[option]);
      forall other | other in table.indexMap && other < option
        ensures table.indexMap[other] < inner[option]
      {
        assert Entry(table, answer, other, inner[other]);
      }
    }
  }

  /**
   * From the published string to the value handed to the scanner: any number between the two published
   * bounds, printed, parsed and multiplied again, stays in the hull of zero and the device's bounds.
   */
  lemma {:induction false} PublishedValueRoundTrip(
      table: Table, answer: nat -> Answer, count: nat, option: nat, v: int)
    requires Holds(table, answer, count) && option < |table.titBuff|
    requires
      var inner := Accepted(answer, count);
      var desc := answer(inner[option]).desc;
      && desc.limits.Range? && desc.limits.quant != 0
      && desc.optionType != SCAN_VALUE_BOOL && desc.optionType != SCAN_VALUE_STR
      && Between(v, PublishedMin(desc.limits.min, desc.limits.quant), PublishedMax(desc.limits.max, desc.limits.quant))
    ensures option in table.quantMap
    ensures
      var range := answer(Accepted(answer, count)[option]).desc.limits;
      var (status, value) := OptionValue(table.optionTypeBuff[option], Some(table.quantMap[option]), ToString(v));
      status == SCAN_ERROR_NONE && value == NumValue(v * range.quant) && InHull(v * range.quant, range.min, range.max)
  {
    AcceptedIs(answer, count);
    var inner := Accepted(answer, count);
    assert inner[option] in inner;
    var desc := answer(inner[option]).desc;
    assert Entry(table, answer, option, inner[option]);
    var range := desc.limits;
    AcceptsIff(desc);
    PublishedBoundsFit(range.min, range.max, range.quant);
    PublishedValuesStayInHull(range.min, range.max, range.quant, v);
    ParsePrint(v);
    Int32ProductExact(v, range.quant);
  }
}
