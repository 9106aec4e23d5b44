# Mainboard node of the hardware tree

This project models the mainboard node of a hardware monitor in Dafny. The
mainboard is the root of the hardware tree. It does five things:

- It names itself from the SMBIOS base board record: manufacturer and product,
  falling back to the manufacturer alone, then to "Unknown".
- It lets the user override that name. The override is kept in a key/value
  settings store under one key. An empty or null name restores the default,
  and the default is what gets stored.
- It owns one Super I/O child per chip the LPC probe detected, in detection
  order.
- It dispatches a visitor to itself (`Accept`) or to its children (`Traverse`),
  and it closes its children (`Close`).
- It assembles its report: a header, the SMBIOS report, the LPC I/O report and,
  when the ACPI "TAMG" table exists, the Gigabyte TAMG report.

Files:

- `wrappers.dfy`: `Option`, which stands for a C# value that may be null.
- `identification.dfy`: the manufacturer and model enumerations, and the
  resolver. The resolver is `GetManufacturer`, `GetModel` and
  `Manufacturer.ToString()`, kept uninterpreted. The only constraints on it
  are that `Unknown` prints as `"Unknown"` and that no member prints as the
  empty string.
- `mainboard.dfy`: the `Mainboard` class and a `Settings` class that holds the
  store as a `map<string, string>`. The class keeps the `customName` field, the
  store and the child `array`. Pure functions give the default name, the name
  after a set, and the report's sections. Lemmas relate them.

Calls into code outside the model are returned by the methods that make them,
as a sequence of `Call` values:

- `visitor.VisitHardware(...)`
- `child.Accept(...)`
- `child.Close()`

So `Accept`, `Traverse` and `Close` are stated by what they call, in which
order, and how often. Some inputs come from outside the model and are
parameters:

- the LPC probe's result (the chips in detection order and the probe's report);
- the ACPI "TAMG" table;
- the TAMG decoder.

The settings key of the name (the string form of the identifier
`mainboard/name`) is the constant `NameKey`. The format of that identifier
string is not part of this model, so `NameKey` has no fixed value.
`Environment.NewLine` is the constant `NewLine` for the same reason.

The LPC I/O report is always appended. The `lpcio != null` guard at
Mainboard.cs:100 always holds, because the constructor assigns `lpcio` at
Mainboard.cs:63.

## Model

| member | source | states |
|---|---|---|
| `Mainboard.DefaultName` | Hardware/Mainboard/Mainboard.cs:32-56 | The default name is never empty. It starts with the manufacturer's name whenever the manufacturer is known, and ends with the product name whenever the board has a non-empty one. |
| `Mainboard.DefaultNameJoinsKnownParts` | Hardware/Mainboard/Mainboard.cs:32-56 | Against an independent definition: the default name is the known parts (manufacturer, product) joined by one space, or "Unknown" when neither is known. |
| `Mainboard.DefaultNameFallbacks` | Hardware/Mainboard/Mainboard.cs:38-56 | No board record gives exactly "Unknown". A null or empty product gives the manufacturer's string. A non-empty product gives the product alone when the manufacturer is Unknown, and otherwise manufacturer, space, product. |
| `Mainboard.BoardManufacturer` | Hardware/Mainboard/Mainboard.cs:32-34 | With no board record the manufacturer is Unknown; otherwise it is what the resolver makes of the board's manufacturer string. |
| `Mainboard.BoardModel` | Hardware/Mainboard/Mainboard.cs:36 | With no board record the model is Unknown; otherwise it is what the resolver makes of the board's product string. |
| `Mainboard.NameAfterSet` | Hardware/Mainboard/Mainboard.cs:75-80 | A non-empty value becomes the name. A null or empty value gives the default. The result is never empty when the default is not, so an empty string is never stored. |
| `Mainboard.NameSurvivesRestart` | Hardware/Mainboard/Mainboard.cs:58-83 | Construct a mainboard, set its name, then construct a second mainboard over the same settings: the second starts with the name the first was given. |
| `Mainboard.SetNameIdempotent` | Hardware/Mainboard/Mainboard.cs:75-80 | Setting the name to a non-empty current name keeps it, and setting it to the result of an earlier set changes nothing. A stored empty name loaded at construction is not kept: it becomes the default. |
| `Mainboard.Mainboard.constructor` | Hardware/Mainboard/Mainboard.cs:27-70 | The name starts as the stored value under `NameKey`, or the computed default when there is none. The child array is fresh and has exactly one entry per detected chip (`Valid`). Entry i is built from chip i with the board's manufacturer and model. |
| `Mainboard.Mainboard.Name` | Hardware/Mainboard/Mainboard.cs:74 | The getter returns the current `customName`: the name last set, or the one loaded at construction. |
| `Mainboard.Mainboard.SubHardware` | Hardware/Mainboard/Mainboard.cs:118 | Returns the child array itself. It has exactly as many entries as detected chips, and entry i belongs to chip i. |
| `Mainboard.Mainboard.SetName` | Hardware/Mainboard/Mainboard.cs:75-83 | The name becomes the value when it is non-empty, and the default otherwise. That name is written under `NameKey` and no other setting changes. |
| `Mainboard.ReportLayout` | Hardware/Mainboard/Mainboard.cs:94-111 | The joined sections are the header, then the SMBIOS report, then the LPC I/O report, then the TAMG report only when the table exists. Nothing is repeated or reordered. |
| `Mainboard.Mainboard.GetReport` | Hardware/Mainboard/Mainboard.cs:92-112 | The report it builds by appending equals the concatenation of its sections. The sections are the header ("Mainboard", a line break, a blank line), SMBIOS, LPC I/O, then TAMG when the table is present. |
| `Mainboard.Mainboard.Accept` | Hardware/Mainboard/Mainboard.cs:122-127 | A null visitor throws ArgumentNullException("visitor") and nothing is visited. Otherwise the visitor is called back exactly once, with this mainboard. |
| `Mainboard.Mainboard.Traverse` | Hardware/Mainboard/Mainboard.cs:129-133 | `Accept` is called on the children, one call per child, in array order. The visitor is never given the mainboard itself. Distinct children are each handed the visitor exactly once. |
| `Mainboard.Mainboard.Close` | Hardware/Mainboard/Mainboard.cs:135-141 | `Close` is called on the children, one call per child, in array order. Distinct children are each closed exactly once. |
| `Mainboard.Mainboard.Sensors` | Hardware/Mainboard/Mainboard.cs:120 | The mainboard exposes no sensors. |
| `Mainboard.Mainboard.Parent` | Hardware/Mainboard/Mainboard.cs:90 | The mainboard has no parent. |
| `Mainboard.Mainboard.Update` | Hardware/Mainboard/Mainboard.cs:114-116 | Update changes neither the mainboard nor the settings. |

## Left out

- SMBIOS table parsing is not part of this model. The board record and the SMBIOS report are given values.
- LPC chip probing (`new LPCIO()`) runs inside the constructor. It does port-level hardware I/O, so its result is a constructor parameter.
- `SuperIOHardware` internals are not part of this model. A child is the chip handle plus the manufacturer and model it was built with. Its back-reference to the mainboard is not modelled.
- `FirmwareTable.GetTable` and `GigabyteTAMG` are operating-system firmware access and a vendor table decoder. They are the parameters `tamgTable` and `tamgDecode` of `GetReport`.
- `Identification.GetManufacturer`, `Identification.GetModel` and the enumeration names are lookup tables that are not part of this model, so they stay uninterpreted.
- The string format of `Identifier` is not part of this model. The key is the abstract constant `NameKey`. The `Identifier` and `HardwareType` getters are constant tags and are not modelled further.
- How `ISettings` persists its values (to disk) is not part of this model. The store is a shared object holding a map, with get-with-default and set.
- `lmSensors` is never assigned in this class, so the branch of `Close` that closes it is dead and is not modelled.
- Mainboard.Mainboard.Close: whether closing twice is safe depends on the children's `Close`, which is not part of this model, so the model does not claim it.
- Mainboard.Mainboard.Traverse: the children's `Accept` is not part of this model. The model records that `Accept` is called on every child with the visitor it was given. It does not capture that a child refusing a null visitor would stop the loop at the first child.
- Mainboard.Mainboard.SubHardware: the array is returned, not copied, so a caller can overwrite entries. The length and order promise is stated under `Valid()`, which holds from construction until someone writes into the array.
- `SensorAdded` and `SensorRemoved` are event declarations that this class never raises.
