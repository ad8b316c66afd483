/** Resource bindings, their JSON form, and the stored contract. */
module Resources {

  import opened Outcomes

  const CGROUP_BACKEND := "cgroup-v2"
  const QUOTA_BACKEND := "project-quota"

  datatype Kind =
    | Generic | Cpu | Memory | MemoryHigh | Swap | Tmpfs | Storage
    | IoBandwidth | IoOperations | IoWeight | Inodes | Processes

  datatype Mode = AdmissionOnly | BestEffort | Required

  datatype Unit =
    | AdmissionUnit | LogicalCpu | Bytes | BytesPerSecond | ReadBytesPerSecond | WriteBytesPerSecond
    | OperationsPerSecond | ReadOperationsPerSecond | WriteOperationsPerSecond | Weight | InodeCount | ProcessCount

  datatype Binding = Binding(backend: Option<string>, kind: Kind, mode: Mode, unit: Unit, exec: bool) {
    predicate Enforced() { mode != AdmissionOnly }
    predicate IsRequired() { mode == Required }
  }

  const ADMISSION := Binding(None, Generic, AdmissionOnly, AdmissionUnit, false)

  predicate ValidKindUnit(kind: Kind, unit: Unit) {
    match kind
    case Generic => unit == AdmissionUnit
    case Cpu => unit == LogicalCpu
    case Memory | MemoryHigh | Swap | Tmpfs | Storage => unit == Bytes
    case IoBandwidth => unit == BytesPerSecond || unit == ReadBytesPerSecond || unit == WriteBytesPerSecond
    case IoOperations => unit == OperationsPerSecond || unit == ReadOperationsPerSecond
        || unit == WriteOperationsPerSecond
    case IoWeight => unit == Weight
    case Inodes => unit == InodeCount
    case Processes => unit == ProcessCount
  }

  predicate Lower(c: char) { 'a' <= c <= 'z' }

  predicate Digit(c: char) { '0' <= c <= '9' }

  predicate NameValid(name: string) {
    0 < |name| <= 64 && Lower(name[0])
    && forall i :: 1 <= i < |name| ==> Lower(name[i]) || Digit(name[i]) || name[i] in "_.:-"
  }

  predicate CodeValid(code: string) {
    0 < |code| <= 64 && Lower(code[0])
    && forall i :: 1 <= i < |code| ==> Lower(code[i]) || Digit(code[i]) || code[i] == '-'
  }

  ghost const LETTERS := "abcdefghijklmnopqrstuvwxyz"
  ghost const DIGITS := "0123456789"

  ghost predicate Spelled(s: string, others: string) {
    0 < |s| < 65 && s[0] in LETTERS && forall c :: c in s ==> c in LETTERS || c in DIGITS || c in others
  }

  /** A name or code begins with a small letter and has at most 64 characters, which are small letters, digits and a few
      marks. */
  lemma NamesAndCodes(s: string)
    ensures NameValid(s) <==> Spelled(s, "_.:-")
    ensures CodeValid(s) <==> Spelled(s, "-")
  {
    forall c
      ensures Lower(c) <==> c in LETTERS
      ensures Digit(c) <==> c in DIGITS
    {
      LettersAndDigits(c);
    }
    assert forall i :: 0 <= i < |s| ==> s[i] in s;
  }

  lemma LettersAndDigits(c: char)
    ensures Lower(c) <==> c in LETTERS
    ensures Digit(c) <==> c in DIGITS
  {
    if Lower(c) {
      assert c == LETTERS[c as int - 'a' as int];
    }
    if Digit(c) {
      assert c == DIGITS[c as int - '0' as int];
    }
  }

  /** A binding the configuration loader can produce. */
  predicate ValidBinding(binding: Binding) {
    && ValidKindUnit(binding.kind, binding.unit)
    && (binding.mode == AdmissionOnly <==> binding.backend.None?)
    && (binding.backend.Some? ==> NameValid(binding.backend.value))
    && (binding.exec ==> binding.kind == Tmpfs)
  }

  // ---------------------------------------------------------------- JSON form

  datatype Json = Null | Bool(b: bool) | Number(n: nat) | Text(s: string) | Array(items: seq<Json>)
      | Object(fields: map<string, Json>)

  function KindText(kind: Kind): string {
    match kind
    case Generic => "generic"
    case Cpu => "cpu"
    case Memory => "memory"
    case MemoryHigh => "memory-high"
    case Swap => "swap"
    case Tmpfs => "tmpfs"
    case Storage => "storage"
    case IoBandwidth => "io-bandwidth"
    case IoOperations => "io-operations"
    case IoWeight => "io-weight"
    case Inodes => "inodes"
    case Processes => "processes"
  }

  function KindOf(text: string): Option<Kind> {
    if text == "generic" then Some(Generic)
    else if text == "cpu" then Some(Cpu)
    else if text == "memory" then Some(Memory)
    else if text == "memory-high" then Some(MemoryHigh)
    else if text == "swap" then Some(Swap)
    else if text == "tmpfs" then Some(Tmpfs)
    else if text == "storage" then Some(Storage)
    else if text == "io-bandwidth" then Some(IoBandwidth)
    else if text == "io-operations" then Some(IoOperations)
    else if text == "io-weight" then Some(IoWeight)
    else if text == "inodes" then Some(Inodes)
    else if text == "processes" then Some(Processes)
    else None
  }

  function UnitText(unit: Unit): string {
    match unit
    case AdmissionUnit => "admission-unit"
    case LogicalCpu => "logical-cpu"
    case Bytes => "bytes"
    case BytesPerSecond => "bytes-per-second"
    case ReadBytesPerSecond => "read-bytes-per-second"
    case WriteBytesPerSecond => "write-bytes-per-second"
    case OperationsPerSecond => "operations-per-second"
    case ReadOperationsPerSecond => "read-operations-per-second"
    case WriteOperationsPerSecond => "write-operations-per-second"
    case Weight => "weight"
    case InodeCount => "inodes"
    case ProcessCount => "processes"
  }

  function RateUnitOf(text: string): Option<Unit> {
    if text == "bytes-per-second" then Some(BytesPerSecond)
    else if text == "read-bytes-per-second" then Some(ReadBytesPerSecond)
    else if text == "write-bytes-per-second" then Some(WriteBytesPerSecond)
    else if text == "operations-per-second" then Some(OperationsPerSecond)
    else if text == "read-operations-per-second" then Some(ReadOperationsPerSecond)
    else if text == "write-operations-per-second" then Some(WriteOperationsPerSecond)
    else None
  }

  function UnitOf(text: string): Option<Unit> {
    if text == "admission-unit" then Some(AdmissionUnit)
    else if text == "logical-cpu" then Some(LogicalCpu)
    else if text == "bytes" then Some(Bytes)
    else if text == "weight" then Some(Weight)
    else if text == "inodes" then Some(InodeCount)
    else if text == "processes" then Some(ProcessCount)
    else RateUnitOf(text)
  }

  function ModeText(mode: Mode): string {
    match mode
    case AdmissionOnly => "admission-only"
    case BestEffort => "best-effort"
    case Required => "required"
  }

  function ModeOf(text: string): Option<Mode> {
    if text == "admission-only" then Some(AdmissionOnly)
    else if text == "best-effort" then Some(BestEffort)
    else if text == "required" then Some(Required)
    else None
  }

  lemma KindRoundTrip(kind: Kind)
    ensures KindOf(KindText(kind)) == Some(kind)
  {
  }

  lemma RateUnitRoundTrip(unit: Unit)
    ensures RateUnitOf(UnitText(unit)) == Some(unit) || RateUnitOf(UnitText(unit)) == None
    ensures unit in {BytesPerSecond, ReadBytesPerSecond, WriteBytesPerSecond,
                     OperationsPerSecond, ReadOperationsPerSecond, WriteOperationsPerSecond}
            ==> RateUnitOf(UnitText(unit)) == Some(unit)
  {
  }

  lemma UnitRoundTrip(unit: Unit)
    ensures UnitOf(UnitText(unit)) == Some(unit)
  {
    RateUnitRoundTrip(unit);
  }

  lemma KindSpelling(text: string)
    ensures KindOf(text).Some? ==> KindText(KindOf(text).value) == text
  {
  }

  lemma RateUnitSpelling(text: string)
    ensures RateUnitOf(text).Some? ==> UnitText(RateUnitOf(text).value) == text
  {
  }

  lemma UnitSpelling(text: string)
    ensures UnitOf(text).Some? ==> UnitText(UnitOf(text).value) == text
  {
    RateUnitSpelling(text);
  }

  /** How each kind, unit and mode is spelled. */
  lemma KindsSpelled(kind: Kind)
    ensures KindText(kind) == "generic" <==> kind == Generic
    ensures KindText(kind) == "cpu" <==> kind == Cpu
    ensures KindText(kind) == "memory" <==> kind == Memory
    ensures KindText(kind) == "memory-high" <==> kind == MemoryHigh
    ensures KindText(kind) == "swap" <==> kind == Swap
    ensures KindText(kind) == "tmpfs" <==> kind == Tmpfs
    ensures KindText(kind) == "storage" <==> kind == Storage
    ensures KindText(kind) == "io-bandwidth" <==> kind == IoBandwidth
    ensures KindText(kind) == "io-operations" <==> kind == IoOperations
    ensures KindText(kind) == "io-weight" <==> kind == IoWeight
    ensures KindText(kind) == "inodes" <==> kind == Inodes
    ensures KindText(kind) == "processes" <==> kind == Processes
  {
    KindRoundTrip(kind);
  }

  lemma UnitsSpelled(unit: Unit)
    ensures UnitText(unit) == "admission-unit" <==> unit == AdmissionUnit
    ensures UnitText(unit) == "logical-cpu" <==> unit == LogicalCpu
    ensures UnitText(unit) == "bytes" <==> unit == Bytes
    ensures UnitText(unit) == "weight" <==> unit == Weight
    ensures UnitText(unit) == "inodes" <==> unit == InodeCount
    ensures UnitText(unit) == "processes" <==> unit == ProcessCount
  {
    UnitRoundTrip(unit);
  }

  lemma RatesSpelled(unit: Unit)
    ensures UnitText(unit) == "bytes-per-second" <==> unit == BytesPerSecond
    ensures UnitText(unit) == "read-bytes-per-second" <==> unit == ReadBytesPerSecond
    ensures UnitText(unit) == "write-bytes-per-second" <==> unit == WriteBytesPerSecond
    ensures UnitText(unit) == "operations-per-second" <==> unit == OperationsPerSecond
    ensures UnitText(unit) == "read-operations-per-second" <==> unit == ReadOperationsPerSecond
    ensures UnitText(unit) == "write-operations-per-second" <==> unit == WriteOperationsPerSecond
  {
    UnitRoundTrip(unit);
  }

  lemma ModesSpelled(mode: Mode)
    ensures ModeText(mode) == "admission-only" <==> mode == AdmissionOnly
    ensures ModeText(mode) == "best-effort" <==> mode == BestEffort
    ensures ModeText(mode) == "required" <==> mode == Required
  {
    assert ModeOf(ModeText(mode)) == Some(mode);
  }

  /** Bytes measure five kinds, and every other unit belongs to one. */
  lemma UnitsOfKinds(kind: Kind, unit: Unit)
    ensures ValidKindUnit(kind, unit) <==>
              match unit
              case AdmissionUnit => kind == Generic
              case LogicalCpu => kind == Cpu
              case Bytes => kind in {Memory, MemoryHigh, Swap, Tmpfs, Storage}
              case BytesPerSecond => kind == IoBandwidth
              case ReadBytesPerSecond => kind == IoBandwidth
              case WriteBytesPerSecond => kind == IoBandwidth
              case OperationsPerSecond => kind == IoOperations
              case ReadOperationsPerSecond => kind == IoOperations
              case WriteOperationsPerSecond => kind == IoOperations
              case Weight => kind == IoWeight
              case InodeCount => kind == Inodes
              case ProcessCount => kind == Processes
  {
  }

  /** `Binding::to_value`: `exec` is written only when it is set. */
  function ToValue(binding: Binding): Json {
    var value := map[
      "backend" := if binding.backend.Some? then Text(binding.backend.value) else Null,
      "kind" := Text(KindText(binding.kind)),
      "mode" := Text(ModeText(binding.mode)),
      "unit" := Text(UnitText(binding.unit))];
    Object(if binding.exec then value["exec" := Bool(true)] else value)
  }

  /** One entry of `parse_bindings`; any defect refuses it. */
  function ParseBinding(raw: Json): Option<Binding> {
    if !raw.Object? then None
    else
      var fields := raw.fields;
      if !({"backend", "kind", "mode", "unit"} <= fields.Keys <= {"backend", "kind", "mode", "unit", "exec"}) then None
      else if !fields["kind"].Text? || !fields["unit"].Text? || !fields["mode"].Text? then None
      else
        var kind, unit, mode := KindOf(fields["kind"].s), UnitOf(fields["unit"].s), ModeOf(fields["mode"].s);
        var backend := fields["backend"];
        if kind.None? || unit.None? || mode.None? || !ValidKindUnit(kind.value, unit.value) then None
        else if !(backend.Null? || (backend.Text? && NameValid(backend.s))) then None
        else if (mode.value == AdmissionOnly) != backend.Null? then None
        else if "exec" in fields && !(fields["exec"].Bool? && kind.value == Tmpfs) then None
        else
          Some(Binding(if backend.Null? then None else Some(backend.s), kind.value, mode.value, unit.value,
                       "exec" in fields && fields["exec"].b))
  }

  /** Printing a valid binding and parsing it back gives the same binding. */
  lemma BindingRoundTrip(binding: Binding)
    requires ValidBinding(binding)
    ensures ParseBinding(ToValue(binding)) == Some(binding)
  {
    KindRoundTrip(binding.kind);
    UnitRoundTrip(binding.unit);
    var fields := ToValue(binding).fields;
    assert fields.Keys == {"backend", "kind", "mode", "unit"}
        || fields.Keys == {"backend", "kind", "mode", "unit", "exec"};
  }

  /** Whatever parses is a valid binding, and printing it gives the same object back except that a
      written `exec: false` is dropped. */
  lemma ParsedBindingIsCanonical(raw: Json)
    requires ParseBinding(raw).Some?
    ensures ValidBinding(ParseBinding(raw).value)
    ensures var printed := ToValue(ParseBinding(raw).value);
            raw == printed || raw == Object(printed.fields["exec" := Bool(false)])
  {
    var fields := raw.fields;
    KindSpelling(fields["kind"].s);
    UnitSpelling(fields["unit"].s);
    var printed := ToValue(ParseBinding(raw).value).fields;
    if "exec" in fields && !fields["exec"].b {
      assert fields == printed["exec" := Bool(false)];
    } else {
      assert fields == printed;
    }
  }

  ghost predicate EntriesParse(bindings: map<string, Json>) {
    forall name :: name in bindings ==> NameValid(name) && ParseBinding(bindings[name]).Some?
  }

  ghost predicate Parses(value: Option<Json>) {
    value.Some? ==> value.value.Object? && EntriesParse(value.value.fields)
  }

  ghost function ParsedBindings(value: Option<Json>): map<string, Binding>
    requires Parses(value)
  {
    if value.None? then map[] else map name | name in value.value.fields :: ParseBinding(value.value.fields[name]).value
  }

  /** `parse_bindings`: every entry must be well formed, and nothing else is accepted. */
  method ParseBindings(value: Option<Json>) returns (parsed: Result<map<string, Binding>>)
    ensures parsed.Ok? <==> Parses(value)
    ensures parsed.Ok? ==> parsed.value == ParsedBindings(value)
  {
    if value.None? {
      return Ok(map[]);
    }
    if !value.value.Object? {
      return Err("broker-config-invalid");
    }
    var bindings := value.value.fields;
    var selected: map<string, Binding> := map[];
    var remaining := bindings.Keys;
    while remaining != {}
      invariant remaining <= bindings.Keys && selected.Keys == bindings.Keys - remaining
      invariant forall name :: name in selected ==>
                  NameValid(name) && ParseBinding(bindings[name]) == Some(selected[name])
      decreases remaining
    {
      var name :| name in remaining;
      var binding := ParseBinding(bindings[name]);
      if !NameValid(name) || binding.None? {
        return Err("broker-config-invalid");
      }
      remaining := remaining - {name};
      selected := selected[name := binding.value];
    }
    return Ok(selected);
  }

  function BindingsValue(bindings: map<string, Binding>): Json {
    Object(map name | name in bindings :: ToValue(bindings[name]))
  }

  /** `parse_bindings(bindings_value(b)) == b` for every configuration of valid bindings. */
  lemma BindingsRoundTrip(bindings: map<string, Binding>)
    requires forall name :: name in bindings ==> NameValid(name) && ValidBinding(bindings[name])
    ensures Parses(Some(BindingsValue(bindings))) && ParsedBindings(Some(BindingsValue(bindings))) == bindings
  {
    forall name | name in bindings
      ensures ParseBinding(ToValue(bindings[name])) == Some(bindings[name])
    {
      BindingRoundTrip(bindings[name]);
    }
  }

  // ---------------------------------------------------------------- backend state

  /** One backend's retained allocation. `resources` is kept sorted; only which names it holds matters here. */
  datatype BackendState = BackendState(handle: Json, resources: seq<string>, finished: bool, cancelled: bool)

  predicate Distinct(names: seq<string>) {
    forall i, j :: 0 <= i < j < |names| ==> names[i] != names[j]
  }

  /** Names in the order `sort` leaves them. */
  predicate Sorted(names: seq<string>) {
    forall i, j :: 0 <= i < j < |names| ==> !Precedes(names[j], names[i])
  }

  predicate Precedes(a: string, b: string) {
    b != "" && (a == "" || a[0] < b[0] || (a[0] == b[0] && Precedes(a[1..], b[1..])))
  }

  function StateRecordValue(record: BackendState): Json {
    Object(map[
      "handle" := record.handle,
      "resources" := Array(seq(|record.resources|,
                               i requires 0 <= i < |record.resources| => Text(record.resources[i]))),
      "finished" := Bool(record.finished),
      "cancelled" := Bool(record.cancelled)])
  }

  function StateValue(state: map<string, BackendState>): Json {
    Object(map backend | backend in state :: StateRecordValue(state[backend]))
  }

  predicate Texts(items: seq<Json>) {
    forall i :: 0 <= i < |items| ==> items[i].Text? && NameValid(items[i].s)
  }

  function Names(items: seq<Json>): seq<string>
    requires Texts(items)
  {
    seq(|items|, i requires 0 <= i < |items| => items[i].s)
  }

  /** Insert into a sorted list. */
  function Insert(name: string, sorted: seq<string>): seq<string> {
    if sorted == [] || Precedes(name, sorted[0]) then [name] + sorted else [sorted[0]] + Insert(name, sorted[1..])
  }

  function Sort(names: seq<string>): seq<string> {
    if names == [] then [] else Insert(names[|names| - 1], Sort(names[..|names| - 1]))
  }

  lemma {:induction false} PrecedesIsTotal(a: string, b: string)
    ensures Precedes(a, b) || Precedes(b, a) || a == b
    ensures !(Precedes(a, b) && Precedes(b, a))
    decreases |a|
  {
    if a != "" && b != "" && a[0] == b[0] {
      PrecedesIsTotal(a[1..], b[1..]);
      assert a == [a[0]] + a[1..] && b == [b[0]] + b[1..];
    }
  }

  lemma {:induction false} PrecedesIsTransitive(a: string, b: string, c: string)
    requires !Precedes(b, a) && !Precedes(c, b)
    ensures !Precedes(c, a)
    decreases |a|
  {
    if a != "" && b != "" && c != "" && a[0] == b[0] == c[0] {
      PrecedesIsTransitive(a[1..], b[1..], c[1..]);
    }
  }

  lemma {:induction false} InsertKeeps(name: string, sorted: seq<string>)
    ensures multiset(Insert(name, sorted)) == multiset(sorted) + multiset{name}
  {
    if sorted != [] && !Precedes(name, sorted[0]) {
      InsertKeeps(name, sorted[1..]);
      assert sorted == [sorted[0]] + sorted[1..];
    }
  }

  lemma InsertedAfter(first: string, name: string, rest: seq<string>)
    requires !Precedes(name, first) && forall i :: 0 <= i < |rest| ==> !Precedes(rest[i], first)
    ensures forall i :: 0 <= i < |Insert(name, rest)| ==> !Precedes(Insert(name, rest)[i], first)
  {
    var inserted := Insert(name, rest);
    InsertKeeps(name, rest);
    forall i | 0 <= i < |inserted|
      ensures !Precedes(inserted[i], first)
    {
      assert inserted[i] in multiset(inserted);
      assert inserted[i] == name || inserted[i] in rest;
    }
  }

  lemma {:induction false} InsertSorts(name: string, sorted: seq<string>)
    requires Sorted(sorted)
    ensures Sorted(Insert(name, sorted))
  {
    if sorted == [] {
    } else if Precedes(name, sorted[0]) {
      PrecedesIsTotal(name, sorted[0]);
      forall i | 0 <= i < |sorted|
        ensures !Precedes(sorted[i], name)
      {
        if i > 0 {
          PrecedesIsTransitive(name, sorted[0], sorted[i]);
        }
      }
      ConsSorted(name, sorted);
    } else {
      InsertSorts(name, sorted[1..]);
      InsertedAfter(sorted[0], name, sorted[1..]);
      ConsSorted(sorted[0], Insert(name, sorted[1..]));
    }
  }

  lemma ConsSorted(first: string, rest: seq<string>)
    requires Sorted(rest) && forall i :: 0 <= i < |rest| ==> !Precedes(rest[i], first)
    ensures Sorted([first] + rest)
  {
  }

  /** `sort` orders the names and keeps each exactly as often. */
  lemma {:induction false} SortSorts(names: seq<string>)
    ensures Sorted(Sort(names)) && multiset(Sort(names)) == multiset(names)
  {
    if names != [] {
      var rest, last := names[..|names| - 1], names[|names| - 1];
      assert names == rest + [last];
      SortSorts(rest);
      InsertSorts(last, Sort(rest));
      InsertKeeps(last, Sort(rest));
    }
  }

  /** Inserting a name that belongs at the end of a sorted list appends it. */
  lemma {:induction false} InsertLast(name: string, sorted: seq<string>)
    requires forall i :: 0 <= i < |sorted| ==> !Precedes(name, sorted[i])
    ensures Insert(name, sorted) == sorted + [name]
  {
    if sorted != [] {
      InsertLast(name, sorted[1..]);
    }
  }

  /** Sorting leaves a sorted list as it is. */
  lemma {:induction false} SortIsStable(names: seq<string>)
    requires Sorted(names)
    ensures Sort(names) == names
  {
    if names != [] {
      var rest := names[..|names| - 1];
      SortIsStable(rest);
      InsertLast(names[|names| - 1], rest);
    }
  }

  const RECORD_KEYS := {"cancelled", "finished", "handle", "resources"}

  function ParseStateRecord(raw: Json): Option<BackendState> {
    if !raw.Object? || raw.fields.Keys != RECORD_KEYS then None
    else
      var fields := raw.fields;
      if !fields["handle"].Object? || !fields["resources"].Array? || !Texts(fields["resources"].items) then None
      else
        var names := Sort(Names(fields["resources"].items));
        if names == [] || !Distinct(names) || !fields["finished"].Bool? || !fields["cancelled"].Bool? then None
        else Some(BackendState(fields["handle"], names, fields["finished"].b, fields["cancelled"].b))
  }

  lemma StateRecordRoundTrip(record: BackendState)
    requires ValidRecord(record)
    ensures ParseStateRecord(StateRecordValue(record)) == Some(record)
  {
    var fields := StateRecordValue(record).fields;
    assert fields.Keys == RECORD_KEYS;
    var items := fields["resources"].items;
    assert Texts(items);
    assert Names(items) == record.resources;
    SortIsStable(record.resources);
  }

  /** Whatever parses is a valid record: the handle and flags as written and the same names, sorted. */
  lemma ParsedRecordIsValid(raw: Json)
    requires ParseStateRecord(raw).Some?
    ensures ValidRecord(ParseStateRecord(raw).value)
    ensures multiset(ParseStateRecord(raw).value.resources) == multiset(Names(raw.fields["resources"].items))
  {
    var items := raw.fields["resources"].items;
    var names := Sort(Names(items));
    SortSorts(Names(items));
    forall name | name in names
      ensures NameValid(name)
    {
      assert name in multiset(names);
      assert name in Names(items);
    }
  }

  ghost predicate StateParses(value: Json) {
    value.Object? && forall backend :: backend in value.fields ==>
        NameValid(backend) && ParseStateRecord(value.fields[backend]).Some?
  }

  ghost function ParsedState(value: Json): map<string, BackendState>
    requires StateParses(value)
  {
    map backend | backend in value.fields :: ParseStateRecord(value.fields[backend]).value
  }

  ghost predicate Unshared(state: map<string, BackendState>) {
    forall a, b, name :: a in state && b in state && a != b && name in state[a].resources ==>
        name !in state[b].resources
  }

  /** `parse_backend_state`: refuse any malformed record and any resource claimed by two backends. */
  method ParseBackendState(value: Json) returns (parsed: Option<map<string, BackendState>>)
    ensures parsed.Some? <==> StateParses(value) && Unshared(ParsedState(value))
    ensures parsed.Some? ==> parsed.value == ParsedState(value)
  {
    if !value.Object? {
      return None;
    }
    var fields := value.fields;
    var selected: map<string, BackendState> := map[];
    var claimed: set<string> := {};
    var remaining := fields.Keys;
    while remaining != {}
      invariant remaining <= fields.Keys && selected.Keys == fields.Keys - remaining
      invariant forall backend :: backend in selected ==>
                  NameValid(backend) && ParseStateRecord(fields[backend]) == Some(selected[backend])
      invariant Unshared(selected)
      invariant forall name :: name in claimed <==> exists backend ::
                backend in selected && name in selected[backend].resources
      decreases remaining
    {
      var backend :| backend in remaining;
      var record := ParseStateRecord(fields[backend]);
      if !NameValid(backend) || record.None? {
        return None;
      }
      if exists name :: name in record.value.resources && name in claimed {
        ghost var name :| name in record.value.resources && name in claimed;
        ghost var other :| other in selected && name in selected[other].resources;
        assert StateParses(value) ==>
            name in ParsedState(value)[backend].resources && name in ParsedState(value)[other].resources;
        return None;
      }
      ghost var before := selected;
      remaining := remaining - {backend};
      selected := selected[backend := record.value];
      claimed := claimed + set name | name in record.value.resources;
      ClaimsGrow(before, backend, record.value, claimed);
    }
    assert selected == ParsedState(value);
    return Some(selected);
  }

  lemma ClaimsGrow(before: map<string, BackendState>, backend: string, record: BackendState, claimed: set<string>)
    requires backend !in before && Unshared(before)
    requires forall name :: name in record.resources ==> forall other :: other in before ==>
              name !in before[other].resources
    requires forall name :: name in claimed <==>
               name in record.resources || exists other :: other in before && name in before[other].resources
    ensures var after := before[backend := record];
            Unshared(after) && forall name :: name in claimed <==> exists other ::
                other in after && name in after[other].resources
  {
    var after := before[backend := record];
    forall name
      ensures name in claimed <==> exists other :: other in after && name in after[other].resources
    {
      if name in record.resources {
        assert backend in after && name in after[backend].resources;
      } else if name in claimed {
        var other :| other in before && name in before[other].resources;
        assert other in after && name in after[other].resources;
      }
    }
  }

  ghost predicate ValidRecord(record: BackendState) {
    && record.handle.Object?
    && record.resources != [] && Sorted(record.resources)
    && (forall i, j :: 0 <= i < j < |record.resources| ==> record.resources[i] != record.resources[j])
    && forall name :: name in record.resources ==> NameValid(name)
  }

  ghost predicate ValidState(state: map<string, BackendState>) {
    Unshared(state) && forall backend :: backend in state ==> NameValid(backend) && ValidRecord(state[backend])
  }

  /** `parse_backend_state(backend_state_value(s)) == s` for every valid state. */
  lemma StateRoundTrip(state: map<string, BackendState>)
    requires ValidState(state)
    ensures StateParses(StateValue(state)) && ParsedState(StateValue(state)) == state
  {
    var fields := StateValue(state).fields;
    forall backend | backend in state
      ensures ParseStateRecord(fields[backend]) == Some(state[backend])
    {
      StateRecordRoundTrip(state[backend]);
    }
    assert fields.Keys == state.Keys;
  }

  // ---------------------------------------------------------------- contract and capability

  /** The binding of each requested resource, or plain admission when it has none. */
  function BindingFor(bindings: map<string, Binding>, name: string): Binding {
    if name in bindings then bindings[name] else ADMISSION
  }

  /** The enforced scratch provider a binding asks for. */
  predicate Scratch(binding: Binding, kind: Kind) {
    binding.Enforced() && binding.kind == kind
  }

  /** No run may combine persistent storage and tmpfs scratch. */
  predicate OneScratchProvider(contract: map<string, Binding>) {
    !(exists a, b :: a in contract && b in contract && Scratch(contract[a], Storage) && Scratch(contract[b], Tmpfs))
  }

  function ContractOf(resources: set<string>, bindings: map<string, Binding>): map<string, Binding> {
    map name | name in resources :: BindingFor(bindings, name)
  }

  predicate AnyScratch(binding: Binding) {
    binding.Enforced() && (binding.kind == Storage || binding.kind == Tmpfs)
  }

  ghost function ScratchKinds(contract: map<string, Binding>): set<Kind> {
    set name | name in contract && AnyScratch(contract[name]) :: contract[name].kind
  }

  lemma TwoScratchKinds(contract: map<string, Binding>)
    ensures |ScratchKinds(contract)| > 1 <==> !OneScratchProvider(contract)
  {
    var kinds := ScratchKinds(contract);
    assert kinds <= {Storage, Tmpfs};
    if OneScratchProvider(contract) {
      assert kinds <= {Storage} || kinds <= {Tmpfs};
      SubsetSize(kinds, if kinds <= {Storage} then {Storage} else {Tmpfs});
    } else {
      var a, b :| a in contract && b in contract && Scratch(contract[a], Storage) && Scratch(contract[b], Tmpfs);
      assert contract[a].kind in kinds && contract[b].kind in kinds;
      assert kinds == {Storage, Tmpfs};
    }
  }

  lemma ScratchKindsGrow(contract: map<string, Binding>, name: string, binding: Binding)
    requires name !in contract
    ensures ScratchKinds(contract[name := binding])
            == if AnyScratch(binding) then ScratchKinds(contract) + {binding.kind} else ScratchKinds(contract)
  {
    var more := contract[name := binding];
    assert forall other :: other in contract ==> more[other] == contract[other];
    forall kind | kind in ScratchKinds(contract)
      ensures kind in ScratchKinds(more)
    {
      var other :| other in contract && AnyScratch(contract[other]) && contract[other].kind == kind;
      assert other in more && AnyScratch(more[other]);
    }
    assert AnyScratch(binding) ==> more[name].kind in ScratchKinds(more);
  }

  /** `resource_contract`: the stored bindings of one run's request. */
  method ResourceContract(resources: map<string, nat>, bindings: map<string, Binding>) returns (contract: Result<Json>)
    ensures contract.Ok? <==> OneScratchProvider(ContractOf(resources.Keys, bindings))
    ensures contract.Ok? ==> contract.value == BindingsValue(ContractOf(resources.Keys, bindings))
  {
    var selected: map<string, Binding> := map[];
    var scratch: set<Kind> := {};
    var remaining := resources.Keys;
    while remaining != {}
      invariant remaining <= resources.Keys && selected.Keys == resources.Keys - remaining
      invariant forall name :: name in selected ==> selected[name] == BindingFor(bindings, name)
      invariant scratch == ScratchKinds(selected)
      decreases remaining
    {
      var name :| name in remaining;
      var binding := BindingFor(bindings, name);
      ScratchKindsGrow(selected, name, binding);
      remaining := remaining - {name};
      if AnyScratch(binding) {
        scratch := scratch + {binding.kind};
      }
      selected := selected[name := binding];
    }
    assert selected == ContractOf(resources.Keys, bindings);
    TwoScratchKinds(selected);
    if |scratch| > 1 {
      return Err("broker-submission-invalid");
    }
    return Ok(BindingsValue(selected));
  }

  lemma SubsetSize<T>(a: set<T>, b: set<T>)
    requires a <= b
    ensures |a| <= |b|
  {
    assert b == a + (b - a);
  }

  /** The stored contract of any valid configuration parses back to the bindings it records. */
  lemma ContractRoundTrip(resources: set<string>, bindings: map<string, Binding>)
    requires forall name :: name in resources ==> NameValid(name)
    requires forall name :: name in bindings ==> ValidBinding(bindings[name])
    ensures var value := Some(BindingsValue(ContractOf(resources, bindings)));
            Parses(value) && ParsedBindings(value) == ContractOf(resources, bindings)
  {
    BindingsRoundTrip(ContractOf(resources, bindings));
  }

  datatype Capability = Capability(available: bool, kinds: set<Kind>, units: set<Unit>, operations: set<string>,
                                   reason: Option<string>)

  const OPERATIONS := {"prepare", "attach", "usage", "finish", "cancel", "cleanup"}

  /** `capability_issue`: why a backend cannot serve this binding. */
  function CapabilityIssue(binding: Binding, capability: Option<Capability>): (issue: Option<string>)
    ensures issue.None? <==> capability.Some? && capability.value.available && binding.kind in capability.value.kinds
                             && binding.unit in capability.value.units && OPERATIONS <= capability.value.operations
  {
    if capability.None? then Some("backend-unavailable")
    else
      var backend := capability.value;
      if !backend.available then
        if backend.reason.Some? && CodeValid(backend.reason.value) then backend.reason else Some("backend-unavailable")
      else if binding.kind !in backend.kinds then Some("kind-unsupported")
      else if binding.unit !in backend.units then Some("unit-unsupported")
      else if OPERATIONS <= backend.operations then None
      else Some("lifecycle-unsupported")
  }

  lemma CapabilityIssueIsCode(binding: Binding, capability: Option<Capability>)
    ensures CapabilityIssue(binding, capability).Some? ==> CodeValid(CapabilityIssue(binding, capability).value)
  {
    assert CodeValid("backend-unavailable");
    assert CodeValid("kind-unsupported");
    assert CodeValid("unit-unsupported");
    assert CodeValid("lifecycle-unsupported");
  }
}
