/**
 * The mainboard node: the root of the hardware tree. It names itself from the
 * SMBIOS base board record, lets the user override that name through the
 * settings store, owns one Super I/O child per chip the LPC probe found, and
 * assembles the mainboard section of the diagnostic report.
 */
module Mainboard {
  import opened Wrappers
  import opened Identification

  // ------------------------------------------------------------------
  // Collaborators, reduced to what the mainboard uses of them
  // ------------------------------------------------------------------

  /**
   * The settings key of the mainboard's name: the string form of the
   * identifier "mainboard" extended by "name". That string format is not part
   * of this model, so the key is one fixed but otherwise arbitrary string.
   */
  const NameKey: string

  /** Environment.NewLine, the line terminator StringBuilder.AppendLine writes. */
  const NewLine: string

  /** The SMBIOS base board record; either string may be null. */
  datatype BaseBoardInformation = BaseBoardInformation(manufacturerName: Option<string>, productName: Option<string>)

  /** The parsed SMBIOS tables: the base board record (absent when there is none) and the decoder's report. */
  datatype SMBIOS = SMBIOS(board: Option<BaseBoardInformation>, report: string)

  /** One Super I/O chip found by the LPC probe, as an opaque handle. */
  datatype SuperIO = SuperIO(handle: nat)

  /** What the LPC I/O probe yields: the chips in detection order and the probe's report. */
  datatype LPCIO = LPCIO(superIO: seq<SuperIO>, report: string)

  /** The child node built for one chip, with the board classification it is given. */
  datatype SuperIOHardware = SuperIOHardware(superIO: SuperIO, manufacturer: Manufacturer, model: Model)

  /** A sensor of some hardware node (the mainboard has none). */
  type Sensor

  /** A hardware visitor; what its VisitHardware callback does is not part of this model. */
  class Visitor { }

  /** A call the mainboard makes into code outside this model. */
  datatype Call =
    | VisitHardware(visitor: Visitor, hardware: Mainboard)  // visitor.VisitHardware(hardware)
    | AcceptChild(child: SuperIOHardware, given: Visitor?)   // child.Accept(given)
    | CloseChild(child: SuperIOHardware)                     // child.Close()

  datatype Exception = ArgumentNullException(paramName: string)

  /** How a call ends: normally, after making the listed calls, or by throwing. */
  datatype Outcome = Completed(calls: seq<Call>) | Threw(exception: Exception)

  /** ISettings.GetValue: the stored value under the key, or the given default. */
  function Lookup(values: map<string, string>, key: string, default: string): string
  {
    if key in values then values[key] else default
  }

  /** The key/value settings store, shared by every hardware node. */
  class Settings {
    var values: map<string, string>

    constructor (values: map<string, string>)
      ensures this.values == values
    {
      this.values := values;
    }

    function GetValue(key: string, default: string): string
      reads this
    {
      Lookup(values, key, default)
    }

    method SetValue(key: string, value: string)
      modifies this
      ensures values == old(values)[key := value]
    {
      values := values[key := value];
    }
  }

  // ------------------------------------------------------------------
  // Default name
  // ------------------------------------------------------------------

  /** string.IsNullOrEmpty */
  predicate IsNullOrEmpty(s: Option<string>)
  {
    s.None? || s.value == ""
  }

  /** Whether a board record is present and carries a non-empty product name. */
  predicate HasProductName(board: Option<BaseBoardInformation>)
  {
    board.Some? && !IsNullOrEmpty(board.value.productName)
  }

  /** The board's manufacturer: Unknown when there is no board record. */
  function BoardManufacturer(board: Option<BaseBoardInformation>, id: Resolver): (manufacturer: Manufacturer)
    ensures board.None? ==> manufacturer == Manufacturer.Unknown
    ensures board.Some? ==> manufacturer == id.getManufacturer(board.value.manufacturerName)
  {
    if board.None? then Manufacturer.Unknown else id.getManufacturer(board.value.manufacturerName)
  }

  /** The board's model: Unknown when there is no board record. */
  function BoardModel(board: Option<BaseBoardInformation>, id: Resolver): (model: Model)
    ensures board.None? ==> model == Model.Unknown
    ensures board.Some? ==> model == id.getModel(board.value.productName)
  {
    if board.None? then Model.Unknown else id.getModel(board.value.productName)
  }

  predicate IsSuffix(suffix: string, s: string)
  {
    |suffix| <= |s| && s[|s| - |suffix|..] == suffix
  }

  /**
   * The name the mainboard shows when the user has not chosen one. It is never
   * empty, begins with the manufacturer's name whenever the manufacturer is
   * known, and ends with the product name whenever the board has one.
   */
  function DefaultName(board: Option<BaseBoardInformation>, id: Resolver): (name: string)
    ensures id.Valid() ==> name != ""
    ensures BoardManufacturer(board, id) != Manufacturer.Unknown ==>
              id.manufacturerString(BoardManufacturer(board, id)) <= name
    ensures HasProductName(board) ==> IsSuffix(board.value.productName.value, name)
  {
    var manufacturer := BoardManufacturer(board, id);
    if board.Some? then
      if !IsNullOrEmpty(board.value.productName) then
        if manufacturer == Manufacturer.Unknown then
          board.value.productName.value
        else
          id.manufacturerString(manufacturer) + " " + board.value.productName.value
      else
        id.manufacturerString(manufacturer)
    else
      id.manufacturerString(Manufacturer.Unknown)
  }

  /** The parts of the board's identity that are known, in display order. */
  function KnownParts(board: Option<BaseBoardInformation>, id: Resolver): seq<string>
  {
    var manufacturer := BoardManufacturer(board, id);
    (if manufacturer != Manufacturer.Unknown then [id.manufacturerString(manufacturer)] else [])
    + (if HasProductName(board) then [board.value.productName.value] else [])
  }

  /** The words separated by single spaces. */
  function JoinWords(words: seq<string>): string
  {
    if |words| == 0 then ""
    else if |words| == 1 then words[0]
    else words[0] + " " + JoinWords(words[1..])
  }

  /**
   * The default name is the known parts (manufacturer, product) joined by a
   * space, or "Unknown" when neither is known.
   */
  lemma DefaultNameJoinsKnownParts(board: Option<BaseBoardInformation>, id: Resolver)
    requires id.Valid()
    ensures var parts := KnownParts(board, id);
            DefaultName(board, id) == if parts == [] then "Unknown" else JoinWords(parts)
  {
  }

  /** The fallback chain, case by case. */
  lemma DefaultNameFallbacks(board: Option<BaseBoardInformation>, id: Resolver)
    requires id.Valid()
    ensures board.None? ==> DefaultName(board, id) == "Unknown"
    ensures board.Some? && IsNullOrEmpty(board.value.productName) ==>
              DefaultName(board, id) == id.manufacturerString(id.getManufacturer(board.value.manufacturerName))
    ensures HasProductName(board) && id.getManufacturer(board.value.manufacturerName) == Manufacturer.Unknown ==>
              DefaultName(board, id) == board.value.productName.value
    ensures HasProductName(board) && id.getManufacturer(board.value.manufacturerName) != Manufacturer.Unknown ==>
              DefaultName(board, id) ==
                id.manufacturerString(id.getManufacturer(board.value.manufacturerName)) + " " + board.value.productName.value
  {
  }

  // ------------------------------------------------------------------
  // User-overridable name
  // ------------------------------------------------------------------

  /** The name after the Name setter is given value: value itself, or the default for null or "". */
  function NameAfterSet(value: Option<string>, default: string): (name: string)
    ensures !IsNullOrEmpty(value) ==> name == value.value
    ensures IsNullOrEmpty(value) ==> name == default
    ensures default != "" ==> name != ""
  {
    if !IsNullOrEmpty(value) then value.value else default
  }

  /**
   * Setting the name to a non-empty current name keeps it; in particular,
   * setting the name to the result of an earlier set changes nothing. (An
   * empty name loaded from the settings is not kept: it becomes the default.)
   */
  lemma SetNameIdempotent(current: string, value: Option<string>, default: string)
    ensures current != "" ==> NameAfterSet(Some(current), default) == current
    ensures NameAfterSet(Some(NameAfterSet(value, default)), default) == NameAfterSet(value, default)
  {
  }

  // ------------------------------------------------------------------
  // Report
  // ------------------------------------------------------------------

  /** The strings concatenated in order. */
  function Concat(parts: seq<string>): string
  {
    if parts == [] then "" else parts[0] + Concat(parts[1..])
  }

  /** Every part of a concatenation sits, whole, between the parts before it and the parts after it. */
  lemma {:induction false} ConcatSection(parts: seq<string>, k: nat)
    requires k < |parts|
    ensures Concat(parts) == Concat(parts[..k]) + parts[k] + Concat(parts[k + 1..])
  {
    if k == 0 {
      assert parts[..0] == [];
    } else {
      ConcatSection(parts[1..], k - 1);
      assert parts[1..][..k - 1] == parts[..k][1..];
      assert parts[1..][k..] == parts[k + 1..];
    }
  }

  /** The title line and the blank line that open the report. */
  function ReportHeader(): string
  {
    "Mainboard" + NewLine + NewLine
  }

  /** The sections of the mainboard report in the order they are written. */
  function ReportSections(smbiosReport: string, lpcioReport: string, tamgReport: Option<string>): seq<string>
  {
    [ReportHeader(), smbiosReport, lpcioReport] + (if tamgReport.Some? then [tamgReport.value] else [])
  }

  /**
   * The layout of the report: the header first, then the SMBIOS report, then
   * the LPC I/O report, then, only when the TAMG table exists, its report.
   */
  lemma ReportLayout(smbiosReport: string, lpcioReport: string, tamgReport: Option<string>)
    ensures var report := Concat(ReportSections(smbiosReport, lpcioReport, tamgReport));
            var tail := if tamgReport.Some? then tamgReport.value else "";
            report == ReportHeader() + smbiosReport + lpcioReport + tail
  {
    var sections := ReportSections(smbiosReport, lpcioReport, tamgReport);
    ConcatSection(sections, 0);
    ConcatSection(sections[1..], 0);
    ConcatSection(sections[2..], 0);
    assert sections[1..][1..] == sections[2..];
    if tamgReport.Some? {
      ConcatSection(sections[3..], 0);
      assert sections[2..][1..] == sections[3..];
      assert sections[3..][1..] == [];
    } else {
      assert sections[2..][1..] == [];
    }
  }

  // ------------------------------------------------------------------
  // Visiting and closing children
  // ------------------------------------------------------------------

  predicate Distinct<T(==)>(s: seq<T>)
  {
    forall i, j :: 0 <= i < j < |s| ==> s[i] != s[j]
  }

  /** In a sequence without repetitions every element occurs exactly once. */
  lemma {:induction false} DistinctOccursOnce<T>(s: seq<T>, i: nat)
    requires Distinct(s) && i < |s|
    ensures multiset(s)[s[i]] == 1
  {
    assert s == [s[0]] + s[1..];
    if i == 0 {
      assert s[0] !in s[1..];
    } else {
      DistinctOccursOnce(s[1..], i - 1);
      assert s[0] != s[i];
    }
  }

  // ------------------------------------------------------------------
  // The mainboard node
  // ------------------------------------------------------------------

  class Mainboard {
    const smbios: SMBIOS
    const settings: Settings
    const lpcio: LPCIO
    /** The default name, computed once at construction. */
    const name: string
    const superIOHardware: array<SuperIOHardware>
    /** The board classification every child is built with (locals of the C# constructor, kept here). */
    const manufacturer: Manufacturer
    const model: Model
    var customName: string

    /** The children are the detected chips, in detection order, each with the board's classification. */
    ghost predicate Valid()
      reads superIOHardware
    {
      && superIOHardware.Length == |lpcio.superIO|
      && forall i :: 0 <= i < superIOHardware.Length ==>
           superIOHardware[i] == SuperIOHardware(lpcio.superIO[i], manufacturer, model)
    }

    /**
     * Computes the default name, starts from the name stored under NameKey if
     * there is one, and builds one child per detected chip, in detection order.
     * The LPC probe runs inside the C# constructor; here its result is a parameter.
     */
    constructor (smbios: SMBIOS, settings: Settings, lpcio: LPCIO, id: Resolver)
      ensures this.smbios == smbios && this.settings == settings && this.lpcio == lpcio
      ensures name == DefaultName(smbios.board, id)
      ensures customName == Lookup(settings.values, NameKey, name)
      ensures manufacturer == BoardManufacturer(smbios.board, id) && model == BoardModel(smbios.board, id)
      ensures fresh(superIOHardware)
      ensures Valid()
    {
      this.settings := settings;
      this.smbios := smbios;
      var manufacturer := BoardManufacturer(smbios.board, id);
      var model := BoardModel(smbios.board, id);
      this.manufacturer, this.model := manufacturer, model;
      var defaultName := DefaultName(smbios.board, id);
      name := defaultName;
      customName := settings.GetValue(NameKey, defaultName);
      this.lpcio := lpcio;
      var superIO := lpcio.superIO;
      var hardware := new SuperIOHardware[|superIO|];
      for i := 0 to |superIO|
        invariant forall k :: 0 <= k < i ==> hardware[k] == SuperIOHardware(superIO[k], manufacturer, model)
      {
        hardware[i] := SuperIOHardware(superIO[i], manufacturer, model);
      }
      superIOHardware := hardware;
    }

    /** The Name getter: the name last set, or the one loaded at construction. */
    function Name(): (current: string)
      reads this
      ensures current == customName
    {
      customName
    }

    /**
     * The Name setter: a non-empty value becomes the name, null or "" restores
     * the default; either way the resulting name is written under NameKey and
     * no other setting changes.
     */
    method SetName(value: Option<string>)
      modifies this`customName, settings
      ensures customName == NameAfterSet(value, name)
      ensures settings.values == old(settings.values)[NameKey := customName]
    {
      if !IsNullOrEmpty(value) {
        customName := value.value;
      } else {
        customName := name;
      }
      settings.SetValue(NameKey, customName);
    }

    /**
     * The children: the array itself, not a copy. While no caller has written
     * into it, it holds one child per detected chip, in detection order.
     */
    function SubHardware(): (children: array<SuperIOHardware>)
      requires Valid()
      reads superIOHardware
      ensures children == superIOHardware
      ensures children.Length == |lpcio.superIO|
      ensures forall i :: 0 <= i < children.Length ==> children[i].superIO == lpcio.superIO[i]
    {
      superIOHardware
    }

    /** The mainboard exposes no sensors. */
    function Sensors(): (sensors: seq<Sensor>)
      ensures |sensors| == 0
    {
      []
    }

    /** The mainboard is the root: it has no parent. */
    function Parent(): (parent: object?)
      ensures parent == null
    {
      null
    }

    /** Update does nothing. */
    method Update()
      ensures unchanged(this, settings)
    {
    }

    /**
     * The report: header, SMBIOS report, LPC I/O report and, when the ACPI
     * "TAMG" table is present, the Gigabyte TAMG decoder's report of it. The
     * table lookup and the decoder are parameters.
     */
    method GetReport(tamgTable: Option<seq<bv8>>, tamgDecode: seq<bv8> -> string) returns (report: string)
      ensures report == Concat(ReportSections(smbios.report, lpcio.report,
                                              if tamgTable.Some? then Some(tamgDecode(tamgTable.value)) else None))
    {
      report := "";
      report := report + "Mainboard" + NewLine;
      report := report + NewLine;
      report := report + smbios.report;
      report := report + lpcio.report;
      if tamgTable.Some? {
        report := report + tamgDecode(tamgTable.value);
      }
      ReportLayout(smbios.report, lpcio.report, if tamgTable.Some? then Some(tamgDecode(tamgTable.value)) else None);
    }

    /** A null visitor is refused; any other visitor is called back once, with this mainboard. */
    method Accept(visitor: Visitor?) returns (outcome: Outcome)
      ensures visitor == null ==> outcome == Threw(ArgumentNullException("visitor"))
      ensures visitor != null ==> outcome == Completed([VisitHardware(visitor, this)])
    {
      if visitor == null {
        return Threw(ArgumentNullException("visitor"));
      }
      outcome := Completed([VisitHardware(visitor, this)]);
    }

    /**
     * Hands the visitor to every child, in array order, and never to the
     * mainboard itself; distinct children are each visited exactly once.
     */
    method Traverse(visitor: Visitor?) returns (calls: seq<Call>)
      ensures |calls| == superIOHardware.Length
      ensures forall i :: 0 <= i < |calls| ==> calls[i] == AcceptChild(superIOHardware[i], visitor)
      ensures Distinct(superIOHardware[..]) ==> forall i :: 0 <= i < |calls| ==> multiset(calls)[calls[i]] == 1
    {
      calls := [];
      for i := 0 to superIOHardware.Length
        invariant |calls| == i
        invariant forall k :: 0 <= k < i ==> calls[k] == AcceptChild(superIOHardware[k], visitor)
      {
        calls := calls + [AcceptChild(superIOHardware[i], visitor)];
      }
      if Distinct(superIOHardware[..]) {
        forall i | 0 <= i < |calls|
          ensures multiset(calls)[calls[i]] == 1
        {
          DistinctOccursOnce(calls, i);
        }
      }
    }

    /** Closes every child, in array order; distinct children are each closed exactly once. */
    method Close() returns (calls: seq<Call>)
      ensures |calls| == superIOHardware.Length
      ensures forall i :: 0 <= i < |calls| ==> calls[i] == CloseChild(superIOHardware[i])
      ensures Distinct(superIOHardware[..]) ==> forall i :: 0 <= i < |calls| ==> multiset(calls)[calls[i]] == 1
    {
      calls := [];
      for i := 0 to superIOHardware.Length
        invariant |calls| == i
        invariant forall k :: 0 <= k < i ==> calls[k] == CloseChild(superIOHardware[k])
      {
        calls := calls + [CloseChild(superIOHardware[i])];
      }
      if Distinct(superIOHardware[..]) {
        forall i | 0 <= i < |calls|
          ensures multiset(calls)[calls[i]] == 1
        {
          DistinctOccursOnce(calls, i);
        }
      }
    }
  }

  /**
   * A name set on one mainboard is the name a mainboard constructed later
   * over the same settings starts with.
   */
  method NameSurvivesRestart(smbios: SMBIOS, settings: Settings, lpcio: LPCIO, id: Resolver, value: Option<string>)
    returns (before: Mainboard, after: Mainboard)
    modifies settings
    ensures before.Name() == NameAfterSet(value, DefaultName(smbios.board, id))
    ensures after.Name() == before.Name()
  {
    before := new Mainboard(smbios, settings, lpcio, id);
    before.SetName(value);
    after := new Mainboard(smbios, settings, lpcio, id);
  }
}
