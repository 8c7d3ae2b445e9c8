// The macro variable store: fixed-range tables, the local scope stack with
// its pointer list, the modal levels, the common ranges, the system map and
// the interface that resolves an ID through them. Pointers of the source
// are indices (`TableRef`, modal indices) into the owning sequences.
module MacroVariable {
  import opened MacroValues

  /** Local and modal tables hold #0..#33. */
  const ScopeBegin: ushort := 0
  const ScopeEnd: ushort := 33

  /** The interface builds its local store with variable_level_max = 5. */
  const VariableLevelMax: nat := 5

  /** One fixed-range table of macro variables #beginId..#endId. */
  datatype Variable = Variable(beginId: ushort, endId: ushort, slots: seq<real>)
  {
    ghost predicate Valid() {
      beginId <= endId && |slots| == endId - beginId + 1
    }

    /** InquiryVariableID: in range exactly when the ID has a slot. */
    predicate Inquiry(id: ushort)
      ensures Valid() ==> (Inquiry(id) <==> 0 <= id - beginId < |slots|)
    {
      beginId <= id <= endId
    }

    /** ReadVariable: the slot's value exactly for IDs in range. */
    function Read(id: ushort): (r: Option<real>)
      requires Valid()
      ensures r.Some? <==> Inquiry(id)
    {
      if Inquiry(id) then Some(slots[id - beginId]) else None
    }

    /** WriteVariable: #0 is read-only whatever the range; an in-range write
        changes only that slot; an out-of-range one is refused unchanged. */
    function Write(id: ushort, value: real): (r: Answer<Variable>)
      requires Valid()
      ensures r.Thrown? <==> id == 0
      ensures r.Thrown? ==> r.fault == ReadOnlyVariable
      ensures r.Answer? ==> (r.ok <==> Inquiry(id))
      ensures r.Answer? && !r.ok ==> r.state == this
      ensures r.Answer? ==> r.state.Valid() && r.state.beginId == beginId && r.state.endId == endId
      ensures r.Answer? && r.ok ==> r.state.Read(id) == Some(value)
      ensures r.Answer? ==> forall k: ushort :: k != id ==> r.state.Read(k) == Read(k)
    {
      if id == 0 then Thrown(ReadOnlyVariable)
      else if Inquiry(id) then Answer(true, this.(slots := slots[id - beginId := value]))
      else Answer(false, this)
    }
  }

  /** A table of #0..#33, the shape of every local and modal scope. */
  ghost predicate IsScopeTable(t: Variable) {
    t.Valid() && t.beginId == ScopeBegin && t.endId == ScopeEnd
  }

  /** Two valid tables over the same range that answer every read alike are
      the same table. */
  lemma {:induction false} TableExtensionality(a: Variable, b: Variable)
    requires a.Valid() && b.Valid() && a.beginId == b.beginId && a.endId == b.endId
    requires forall k: ushort :: a.Read(k) == b.Read(k)
    ensures a == b
  {
    forall i | 0 <= i < |a.slots|
      ensures a.slots[i] == b.slots[i]
    {
      var k: ushort := a.beginId + i;
      assert a.Read(k) == b.Read(k);
    }
  }

  /** The constructor Variable(begin, end): out_of_range when end < begin,
      otherwise one sentinel slot per ID of the range. */
  method NewVariable(beginId: ushort, endId: ushort) returns (r: Option<Variable>)
    ensures r.None? <==> endId < beginId
    ensures r.Some? ==> r.value.Valid() && r.value.beginId == beginId && r.value.endId == endId
    ensures r.Some? ==> |r.value.slots| == endId - beginId + 1
    ensures r.Some? ==> forall i :: 0 <= i < |r.value.slots| ==> r.value.slots[i] == NullValue
    ensures r.Some? ==> forall k: ushort :: beginId <= k <= endId ==> r.value.Read(k) == Some(NullValue)
  {
    if endId < beginId {
      return None;
    }
    var slots: seq<real> := [];
    var id: int := beginId;
    while id <= endId
      invariant beginId <= id <= endId + 1
      invariant |slots| == id - beginId
      invariant forall i :: 0 <= i < |slots| ==> slots[i] == NullValue
    {
      slots := slots + [NullValue];
      id := id + 1;
    }
    return Some(Variable(beginId, endId, slots));
  }

  // ---------------------------------------------------------------------
  // The constructor loop as written runs an `unsigned short` counter while
  // it is <= end. When end is 65535 the guard can never fail, because the
  // counter wraps from 65535 to 0.

  /** `++iter` on an unsigned short. */
  function NextCounter(counter: ushort): (r: ushort)
    ensures counter < 0xFFFF ==> r == counter + 1
    ensures counter == 0xFFFF ==> r == 0
  {
    (counter + 1) % 0x1_0000
  }

  /** The constructor loop as written, run for at most `steps` iterations:
      Some(n) when it exits after pushing n more slots, None while it is
      still running. */
  function ConstructorLoopAsWritten(counter: ushort, endId: ushort, steps: nat): Option<nat>
    decreases steps
  {
    if !(counter <= endId) then Some(0)
    else if steps == 0 then None
    else match ConstructorLoopAsWritten(NextCounter(counter), endId, steps - 1)
      case None => None
      case Some(n) => Some(n + 1)
  }

  /** With end = 65535 the loop as written never exits, however many
      iterations are granted. */
  lemma {:induction false} ConstructorLoopNeverExitsAtTopId(counter: ushort, steps: nat)
    ensures ConstructorLoopAsWritten(counter, 0xFFFF, steps).None?
    decreases steps
  {
    if steps > 0 {
      ConstructorLoopNeverExitsAtTopId(NextCounter(counter), steps - 1);
    }
  }

  /** Below 65535 the loop as written exits after pushing end-begin+1 slots. */
  lemma {:induction false} ConstructorLoopBelowTopId(counter: ushort, endId: ushort)
    requires counter <= endId < 0xFFFF
    ensures ConstructorLoopAsWritten(counter, endId, endId - counter + 1) == Some(endId - counter + 1)
    decreases endId - counter
  {
    if counter < endId {
      ConstructorLoopBelowTopId(counter + 1, endId);
    }
  }

  // ---------------------------------------------------------------------
  // Scopes seeded from a macro call's argument map.

  /** The scope table a call with `arguments` starts with: the first write,
      to the smallest key, throws when that key is 0; keys above 33 are
      refused and ignored; every other slot holds the sentinel. */
  function Seeded(arguments: map<ushort, real>): (r: Option<Variable>)
    ensures r.None? <==> 0 in arguments
    ensures r.Some? ==> IsScopeTable(r.value)
    ensures r.Some? ==> forall k: ushort :: 0 < k <= ScopeEnd ==>
      r.value.Read(k) == Some(if k in arguments then arguments[k] else NullValue)
    ensures r.Some? ==> r.value.Read(0) == Some(NullValue)
  {
    if 0 in arguments then None
    else Some(Variable(ScopeBegin, ScopeEnd, SeedSlots(arguments, 0x1_0000)))
  }

  /** The 34 slots after the argument keys below `bound` were written. */
  function SeedSlots(arguments: map<ushort, real>, bound: int): (r: seq<real>)
    ensures |r| == ScopeEnd as int + 1
  {
    seq(ScopeEnd as int + 1, i requires 0 <= i <= ScopeEnd as int =>
      if i < bound && (i as ushort) in arguments then arguments[i as ushort] else NullValue)
  }

  /** The argument loop of CreateModalLevel / CreateVariable: a fresh #0..#33
      table written key by key in ascending order. */
  method SeedTable(arguments: map<ushort, real>) returns (r: Option<Variable>)
    ensures r == Seeded(arguments)
  {
    var created := NewVariable(ScopeBegin, ScopeEnd);
    var table := created.value;
    assert table.slots == SeedSlots(arguments, 0);
    var key: int := 0;
    while key < 0x1_0000
      invariant 0 <= key <= 0x1_0000
      invariant key > 0 ==> 0 !in arguments
      invariant table == Variable(ScopeBegin, ScopeEnd, SeedSlots(arguments, key))
    {
      if (key as ushort) in arguments {
        var written := table.Write(key as ushort, arguments[key as ushort]);
        if written.Thrown? {
          return None;
        }
        table := written.state;
      }
      assert table.slots == SeedSlots(arguments, key + 1);
      key := key + 1;
    }
    return Some(table);
  }

  // ---------------------------------------------------------------------
  // Namespaces.

  /** A scope pointer: into the owned local tables or into the modal tables. */
  datatype TableRef = LocalTable(index: nat) | ModalTable(index: nat)

  /** LocalVariable: the owned tables and the pointer list `variable_list`
      whose top is the current scope. */
  datatype LocalVariable = LocalVariable(tables: seq<Variable>, scopes: seq<TableRef>)

  /** ModalVariableLevel: the created modal tables and the "next" and
      "previous" stacks of indices into them. */
  datatype ModalVariableLevel = ModalVariableLevel(tables: seq<Variable>, next: seq<nat>, previous: seq<nat>)
  {
    /** NextModalCall: a modal level is waiting exactly when one can be
        entered. */
    predicate NextModalCall()
      ensures NextModalCall() <==> Enter().Some?
    {
      |next| > 0
    }

    /** CreateModalLevel after seeding: the table and a pointer to it. */
    function Create(table: Variable): (r: ModalVariableLevel)
      ensures |r.tables| == |tables| + 1 && r.tables[|tables|] == table
      ensures r.next == next + [|tables|] && r.previous == previous
    {
      ModalVariableLevel(tables + [table], next + [|tables|], previous)
    }

    /** DeleteModalLevel: refused when no table exists; otherwise pops the
        newest table and the top of "next". */
    function Delete(): (r: Option<ModalVariableLevel>)
      requires |tables| > 0 ==> |next| > 0
      ensures r.None? <==> |tables| == 0
      ensures r.Some? ==> r.value.tables == tables[..|tables| - 1]
      ensures r.Some? ==> r.value.next == next[..|next| - 1] && r.value.previous == previous
    {
      if |tables| == 0 then None
      else Some(ModalVariableLevel(tables[..|tables| - 1], next[..|next| - 1], previous))
    }

    /** EnterModalLevel: the top of "next" moves onto "previous". */
    function Enter(): (r: Option<ModalVariableLevel>)
      ensures r.None? <==> |next| == 0
      ensures r.Some? ==> r.value.tables == tables
      ensures r.Some? ==> r.value.next + [next[|next| - 1]] == next
      ensures r.Some? ==> r.value.previous == previous + [next[|next| - 1]]
    {
      if |next| == 0 then None
      else Some(ModalVariableLevel(tables, next[..|next| - 1], previous + [next[|next| - 1]]))
    }

    /** ExitModalLevel: the top of "previous" moves back onto "next". */
    function Exit(): (r: Option<ModalVariableLevel>)
      ensures r.None? <==> |previous| == 0
      ensures r.Some? ==> r.value.tables == tables
      ensures r.Some? ==> r.value.previous + [previous[|previous| - 1]] == previous
      ensures r.Some? ==> r.value.next == next + [previous[|previous| - 1]]
    {
      if |previous| == 0 then None
      else Some(ModalVariableLevel(tables, next + [previous[|previous| - 1]], previous[..|previous| - 1]))
    }
  }

  /** Entering a modal level and leaving it again restores both stacks. */
  lemma {:induction false} ModalEnterThenExit(m: ModalVariableLevel)
    requires m.NextModalCall()
    ensures m.Enter().Some? && m.Enter().value.Exit() == Some(m)
  {
    var e := m.Enter().value;
    assert e.previous[..|e.previous| - 1] == m.previous;
    assert e.next + [e.previous[|e.previous| - 1]] == m.next;
  }

  /** Leaving a modal level and entering it again restores both stacks. */
  lemma {:induction false} ModalExitThenEnter(m: ModalVariableLevel)
    requires |m.previous| > 0
    ensures m.Exit().Some? && m.Exit().value.Enter() == Some(m)
  {
    var e := m.Exit().value;
    assert e.next[..|e.next| - 1] == m.next;
    assert e.previous + [e.next[|e.next| - 1]] == m.previous;
  }

  /** CommonVariable: a lower and a higher range, the lower checked first. */
  datatype CommonVariable = CommonVariable(lower: Variable, higher: Variable)
  {
    ghost predicate Valid() {
      lower.Valid() && higher.Valid()
    }

    predicate Inquiry(id: ushort) {
      lower.Inquiry(id) || higher.Inquiry(id)
    }

    function Read(id: ushort): (r: Option<real>)
      requires Valid()
      ensures r.Some? <==> Inquiry(id)
      ensures lower.Inquiry(id) ==> r == lower.Read(id)
      ensures !lower.Inquiry(id) ==> r == higher.Read(id)
    {
      if lower.Inquiry(id) then lower.Read(id)
      else if higher.Inquiry(id) then higher.Read(id)
      else None
    }

    function Write(id: ushort, value: real): (r: Answer<CommonVariable>)
      requires Valid()
      ensures !Inquiry(id) ==> r == Answer(false, this)
      ensures r.Answer? ==> r.state.Valid()
      ensures r.Answer? && r.ok ==> r.state.Read(id) == Some(value)
      ensures r.Answer? ==> forall k: ushort :: k != id ==> r.state.Read(k) == Read(k)
      ensures r.Thrown? ==> id == 0
    {
      if lower.Inquiry(id) then
        match lower.Write(id, value)
        case Thrown(f) => Thrown(f)
        case Answer(ok, t) => Answer(ok, this.(lower := t))
      else if higher.Inquiry(id) then
        match higher.Write(id, value)
        case Thrown(f) => Thrown(f)
        case Answer(ok, t) => Answer(ok, this.(higher := t))
      else Answer(false, this)
    }
  }

  /** The interface's common store: #100..#199 and #500..#999. */
  ghost predicate IsInterfaceCommon(c: CommonVariable) {
    c.Valid()
    && c.lower.beginId == 100 && c.lower.endId == 199
    && c.higher.beginId == 500 && c.higher.endId == 999
  }

  /** Common variables are exactly #100..#199 and #500..#999. */
  lemma CommonOwnsExactly(c: CommonVariable, id: ushort)
    requires IsInterfaceCommon(c)
    ensures c.Read(id).Some? <==> (100 <= id <= 199 || 500 <= id <= 999)
  {
  }

  /** SystemVariable: controller fields seen as three typed tables; a value
      is read from the first table holding the ID. */
  datatype SystemVariable = SystemVariable(
    unsignedShorts: map<ushort, ushort>,
    ints: map<ushort, int>,
    doubles: map<ushort, real>)
  {
    /** InquiryVariableID as written: the double table is not consulted. */
    predicate InquiryAsWritten(id: ushort)
      ensures id in doubles && id !in unsignedShorts && id !in ints ==> !InquiryAsWritten(id)
    {
      id in unsignedShorts || id in ints
    }

    /** InquiryVariableID as intended: any table holding the ID. */
    predicate Inquiry(id: ushort)
      ensures Inquiry(id) <==> InquiryAsWritten(id) || id in doubles
    {
      id in unsignedShorts || id in ints || id in doubles
    }

    function Read(id: ushort): (r: Option<real>)
      ensures r.Some? <==> Inquiry(id)
      ensures id in unsignedShorts ==> r == Some(unsignedShorts[id] as real)
      ensures id !in unsignedShorts && id in ints ==> r == Some(ints[id] as real)
    {
      if id in unsignedShorts then Some(unsignedShorts[id] as real)
      else if id in ints then Some(ints[id] as real)
      else if id in doubles then Some(doubles[id])
      else None
    }

    /** A write converts to the field's type: unsigned short, or an unsigned
        32-bit value stored into an int; an unrepresentable value is a
        cast fault. */
    function Write(id: ushort, value: real): (r: Answer<SystemVariable>)
      ensures r.Thrown? ==> r.fault == CastOutOfRange
      ensures r.Answer? ==> (r.ok <==> Inquiry(id))
      ensures !Inquiry(id) ==> r == Answer(false, this)
      ensures r.Answer? && r.ok && id !in unsignedShorts && id !in ints ==> r.state.Read(id) == Some(value)
      ensures r.Answer? && r.ok && id in unsignedShorts ==>
        r.state.Read(id) == Some(Truncate(value) as real)
      ensures r.Answer? ==> forall k: ushort :: k != id ==> r.state.Read(k) == Read(k)
    {
      if id in unsignedShorts then
        match ToUnsignedShort(value)
        case None => Thrown(CastOutOfRange)
        case Some(u) => Answer(true, this.(unsignedShorts := unsignedShorts[id := u]))
      else if id in ints then
        match ToUnsigned(value)
        case None => Thrown(CastOutOfRange)
        case Some(u) => Answer(true, this.(ints := ints[id := AsSigned(u)]))
      else if id in doubles then
        Answer(true, this.(doubles := doubles[id := value]))
      else Answer(false, this)
    }
  }

  /** An ID held only in the double table is readable, yet the written
      inquiry denies it. */
  lemma InquiryAsWrittenMissesDoubles(s: SystemVariable, id: ushort)
    requires id in s.doubles && id !in s.unsignedShorts && id !in s.ints
    ensures s.Read(id).Some? && !s.InquiryAsWritten(id)
  {
  }

  /** The corrected inquiry agrees with what can be read. */
  lemma InquiryMatchesRead(s: SystemVariable, id: ushort)
    ensures s.Inquiry(id) <==> s.Read(id).Some?
  {
  }

  // ---------------------------------------------------------------------
  // The whole store behind MacroVariableInterface.

  datatype Store = Store(
    local: LocalVariable,
    common: CommonVariable,
    system: SystemVariable,
    modal: ModalVariableLevel)

  /** TotalLevelMax = variable_level_max + 1. */
  function TotalLevelMax(): (r: nat)
    ensures r == 6
  {
    VariableLevelMax + 1
  }

  /** LocalVariable::TotalLevel: owned local tables. */
  function LocalTotalLevel(s: Store): (r: nat)
    ensures Valid(s) ==> 1 <= r <= TotalLevelMax()
  {
    |s.local.tables|
  }

  /** ModalVariableLevel::TotalLevel: created modal tables. */
  function ModalTotalLevel(s: Store): (r: nat)
    ensures Valid(s) ==> LocalTotalLevel(s) + r <= TotalLevelMax()
  {
    |s.modal.tables|
  }

  /** CurrentLevel: pointer entries, modal aliases included. */
  function CurrentLevel(s: Store): (r: nat)
    ensures Valid(s) ==> 1 <= r && LocalTotalLevel(s) + |s.modal.previous| <= r
  {
    |s.local.scopes|
  }

  ghost predicate RefInRange(s: Store, r: TableRef) {
    match r
    case LocalTable(i) => i < |s.local.tables|
    case ModalTable(j) => j < |s.modal.tables|
  }

  ghost predicate Valid(s: Store) {
    && |s.local.tables| >= 1
    && |s.local.scopes| >= |s.local.tables| + |s.modal.previous|
    && s.local.scopes[0] == LocalTable(0)
    && (forall k :: 0 <= k < |s.local.tables| ==> IsScopeTable(s.local.tables[k]))
    && (forall k :: 0 <= k < |s.modal.tables| ==> IsScopeTable(s.modal.tables[k]))
    && (forall k :: 0 <= k < |s.local.scopes| ==> RefInRange(s, s.local.scopes[k]))
    && (forall k :: 0 <= k < |s.modal.next| ==> s.modal.next[k] < |s.modal.tables|)
    && (forall k :: 0 <= k < |s.modal.previous| ==> s.modal.previous[k] < |s.modal.tables|)
    && |s.local.tables| + |s.modal.tables| <= TotalLevelMax()
    && IsInterfaceCommon(s.common)
  }

  /** The store as the interface constructor leaves it: one local base
      scope, the pointer to it, empty modal stacks, fresh common tables. */
  function InitialStore(system: SystemVariable): (s: Store)
    ensures Valid(s)
    ensures CurrentLevel(s) == 1 && LocalTotalLevel(s) == 1 && ModalTotalLevel(s) == 0
    ensures forall id: ushort :: id <= ScopeEnd || 100 <= id <= 199 || 500 <= id <= 999 ==>
      Read(s, id) == Some(NullValue)
  {
    var base := Variable(ScopeBegin, ScopeEnd, seq(ScopeEnd as int + 1, _ => NullValue));
    Store(
      LocalVariable([base], [LocalTable(0)]),
      CommonVariable(Variable(100, 199, seq(100, _ => NullValue)), Variable(500, 999, seq(500, _ => NullValue))),
      system,
      ModalVariableLevel([], [], []))
  }

  /** The table a pointer designates. */
  function Deref(s: Store, r: TableRef): (t: Variable)
    requires Valid(s) && RefInRange(s, r)
    ensures IsScopeTable(t)
  {
    match r
    case LocalTable(i) => s.local.tables[i]
    case ModalTable(j) => s.modal.tables[j]
  }

  /** The current scope: the top of variable_list. */
  function CurrentScope(s: Store): (t: Variable)
    requires Valid(s)
    ensures IsScopeTable(t)
  {
    Deref(s, s.local.scopes[|s.local.scopes| - 1])
  }

  /** MacroVariableInterface::ReadVariable: Local (current scope), then
      Common, then System. */
  function Read(s: Store, id: ushort): (r: Option<real>)
    requires Valid(s)
    ensures id <= ScopeEnd ==> r == CurrentScope(s).Read(id)
    ensures ScopeEnd < id ==> r == (if s.common.Inquiry(id) then s.common.Read(id) else s.system.Read(id))
  {
    var scope := CurrentScope(s);
    if scope.Inquiry(id) then scope.Read(id)
    else if s.common.Inquiry(id) then s.common.Read(id)
    else s.system.Read(id)
  }

  /** Replaces the table a pointer designates. */
  function ReplaceTable(s: Store, r: TableRef, t: Variable): (s': Store)
    requires Valid(s) && RefInRange(s, r) && IsScopeTable(t)
    ensures Valid(s')
    ensures s'.local.scopes == s.local.scopes && s'.modal.next == s.modal.next
    ensures s'.modal.previous == s.modal.previous && s'.common == s.common && s'.system == s.system
    ensures |s'.local.tables| == |s.local.tables| && |s'.modal.tables| == |s.modal.tables|
    ensures Deref(s', r) == t
  {
    match r
    case LocalTable(i) => s.(local := s.local.(tables := s.local.tables[i := t]))
    case ModalTable(j) => s.(modal := s.modal.(tables := s.modal.tables[j := t]))
  }

  /** MacroVariableInterface::WriteVariable: the first namespace that owns
      the ID takes the value; #0 throws from the local table. */
  function Write(s: Store, id: ushort, value: real): (r: Answer<Store>)
    requires Valid(s)
    ensures r.Answer? ==> Valid(r.state)
    ensures id == 0 <==> r == Thrown(ReadOnlyVariable)
    ensures r.Answer? ==> CurrentLevel(r.state) == CurrentLevel(s)
    ensures r.Answer? && !r.ok ==> r.state == s
  {
    var top := s.local.scopes[|s.local.scopes| - 1];
    var scope := Deref(s, top);
    if id == 0 then Thrown(ReadOnlyVariable)
    else if scope.Inquiry(id) then
      match scope.Write(id, value)
      case Thrown(f) => Thrown(f)
      case Answer(ok, t) => Answer(ok, ReplaceTable(s, top, t))
    else if s.common.Inquiry(id) then
      match s.common.Write(id, value)
      case Thrown(f) => Thrown(f)
      case Answer(ok, c) => Answer(ok, s.(common := c))
    else
      match s.system.Write(id, value)
      case Thrown(f) => Thrown(f)
      case Answer(ok, y) => Answer(ok, s.(system := y))
  }

  /** A local or common write is read back unchanged; a system write is
      read back after its type conversion. */
  lemma {:induction false} ReadAfterWrite(s: Store, id: ushort, value: real)
    requires Valid(s)
    requires Write(s, id, value).Answer? && Write(s, id, value).ok
    ensures id <= ScopeEnd || s.common.Inquiry(id) || (id !in s.system.unsignedShorts && id !in s.system.ints)
      ==> Read(Write(s, id, value).state, id) == Some(value)
    ensures ScopeEnd < id && !s.common.Inquiry(id) && id in s.system.unsignedShorts
      ==> Read(Write(s, id, value).state, id) == Some(Truncate(value) as real)
  {
    var s' := Write(s, id, value).state;
    var top := s.local.scopes[|s.local.scopes| - 1];
    assert s'.local.scopes == s.local.scopes;
    if CurrentScope(s).Inquiry(id) {
      assert CurrentScope(s') == CurrentScope(s).Write(id, value).state;
    } else if s.common.Inquiry(id) {
      assert s'.local == s.local && s'.modal == s.modal;
    } else {
      assert s'.local == s.local && s'.modal == s.modal && s'.common == s.common;
    }
  }

  /** A write changes what no other ID reads. */
  lemma {:induction false} WriteLeavesOtherIds(s: Store, id: ushort, value: real, other: ushort)
    requires Valid(s) && Write(s, id, value).Answer? && other != id
    ensures Read(Write(s, id, value).state, other) == Read(s, other)
  {
    var s' := Write(s, id, value).state;
    var top := s.local.scopes[|s.local.scopes| - 1];
    if CurrentScope(s).Inquiry(id) {
      assert CurrentScope(s') == CurrentScope(s).Write(id, value).state;
      assert s'.common == s.common && s'.system == s.system;
    } else if s.common.Inquiry(id) {
      assert s'.local == s.local && s'.modal == s.modal && s'.system == s.system;
    } else {
      assert s'.local == s.local && s'.modal == s.modal && s'.common == s.common;
    }
  }

  /** Which namespace answers: #0..#33 always the current scope, #100..#199
      and #500..#999 always the common store, every other ID the system. */
  lemma {:induction false} ResolutionOrder(s: Store, id: ushort)
    requires Valid(s)
    ensures id <= ScopeEnd ==> Read(s, id) == CurrentScope(s).Read(id) && Read(s, id).Some?
    ensures (100 <= id <= 199 || 500 <= id <= 999) ==> Read(s, id) == s.common.Read(id) && Read(s, id).Some?
    ensures ScopeEnd < id && !(100 <= id <= 199 || 500 <= id <= 999) ==> Read(s, id) == s.system.Read(id)
  {
    CommonOwnsExactly(s.common, id);
  }

  /** A write to a local or common ID other than #0 always succeeds. */
  lemma OwnedWriteSucceeds(s: Store, id: ushort, value: real)
    requires Valid(s)
    requires 0 < id <= ScopeEnd || 100 <= id <= 199 || 500 <= id <= 999
    ensures Write(s, id, value).Answer? && Write(s, id, value).ok
  {
    CommonOwnsExactly(s.common, id);
  }

  // ---------------------------------------------------------------------
  // Level bookkeeping.

  /** Whether the owned local and modal tables together reached the bound. */
  predicate AtLevelLimit(s: Store) {
    LocalTotalLevel(s) + ModalTotalLevel(s) == TotalLevelMax()
  }

  /** EnterLevel: refused at the shared bound; otherwise a fresh seeded
      table becomes the current scope. */
  function EnterLevel(s: Store, arguments: map<ushort, real>): (r: Answer<Store>)
    requires Valid(s)
    ensures AtLevelLimit(s) ==> r == Answer(false, s)
    ensures !AtLevelLimit(s) ==> (r.Thrown? <==> 0 in arguments)
    ensures r.Answer? ==> Valid(r.state)
    ensures r.Answer? && r.ok ==>
      && LocalTotalLevel(r.state) == LocalTotalLevel(s) + 1
      && CurrentLevel(r.state) == CurrentLevel(s) + 1
      && CurrentScope(r.state) == Seeded(arguments).value
  {
    if AtLevelLimit(s) then Answer(false, s)
    else match Seeded(arguments)
      case None => Thrown(ReadOnlyVariable)
      case Some(t) =>
        Answer(true, s.(local := LocalVariable(s.local.tables + [t], s.local.scopes + [LocalTable(|s.local.tables|)])))
  }

  /** ExitLevel pops an owned table together with the top pointer; the
      remaining pointers must not still designate that table. */
  ghost predicate ExitLevelDefined(s: Store) {
    |s.local.tables| <= 1
    || forall k :: 0 <= k < |s.local.scopes| - 1 ==> s.local.scopes[k] != LocalTable(|s.local.tables| - 1)
  }

  /** LocalVariable::ExitLevel: the base scope is never popped. */
  function ExitLevel(s: Store): (r: Answer<Store>)
    requires Valid(s) && ExitLevelDefined(s)
    ensures r.Answer?
    ensures r.ok <==> LocalTotalLevel(s) > 1
    ensures !r.ok ==> r.state == s
    ensures Valid(r.state)
    ensures r.ok ==> LocalTotalLevel(r.state) == LocalTotalLevel(s) - 1 && CurrentLevel(r.state) == CurrentLevel(s) - 1
  {
    if |s.local.tables| == 1 then Answer(false, s)
    else
      var s' := s.(local := LocalVariable(s.local.tables[..|s.local.tables| - 1], s.local.scopes[..|s.local.scopes| - 1]));
      Answer(true, s')
  }

  /** Entering a level and leaving it again restores the store. */
  lemma {:induction false} EnterLevelThenExit(s: Store, arguments: map<ushort, real>)
    requires Valid(s) && EnterLevel(s, arguments).Answer? && EnterLevel(s, arguments).ok
    ensures ExitLevelDefined(EnterLevel(s, arguments).state)
    ensures ExitLevel(EnterLevel(s, arguments).state) == Answer(true, s)
  {
    var e := EnterLevel(s, arguments).state;
    var n := |s.local.tables|;
    forall k | 0 <= k < |e.local.scopes| - 1
      ensures e.local.scopes[k] != LocalTable(n)
    {
      assert e.local.scopes[k] == s.local.scopes[k];
      assert RefInRange(s, s.local.scopes[k]);
    }
    assert e.local.tables[..n] == s.local.tables;
    assert e.local.scopes[..|e.local.scopes| - 1] == s.local.scopes;
  }

  /** CreateModalLevel: refused at the shared bound; otherwise a seeded
      modal table becomes the next one to enter. */
  function CreateModalLevel(s: Store, arguments: map<ushort, real>): (r: Answer<Store>)
    requires Valid(s)
    ensures AtLevelLimit(s) ==> r == Answer(false, s)
    ensures !AtLevelLimit(s) ==> (r.Thrown? <==> 0 in arguments)
    ensures r.Answer? ==> Valid(r.state)
    ensures r.Answer? && r.ok ==>
      && ModalTotalLevel(r.state) == ModalTotalLevel(s) + 1
      && r.state.modal.NextModalCall() && r.state.local == s.local
  {
    if AtLevelLimit(s) then Answer(false, s)
    else match Seeded(arguments)
      case None => Thrown(ReadOnlyVariable)
      case Some(t) =>
        var s' := s.(modal := s.modal.Create(t));
        Answer(true, s')
  }

  /** DeleteModalLevel pops the newest modal table and the top of "next";
      "next" must be non-empty and no remaining pointer may designate the
      popped table. */
  ghost predicate DeleteModalLevelDefined(s: Store) {
    var n := |s.modal.tables|;
    n == 0
    || (|s.modal.next| > 0
        && (forall k :: 0 <= k < |s.modal.next| - 1 ==> s.modal.next[k] != n - 1)
        && (forall k :: 0 <= k < |s.modal.previous| ==> s.modal.previous[k] != n - 1)
        && (forall k :: 0 <= k < |s.local.scopes| ==> s.local.scopes[k] != ModalTable(n - 1)))
  }

  function DeleteModalLevel(s: Store): (r: Answer<Store>)
    requires Valid(s) && DeleteModalLevelDefined(s)
    ensures r.Answer?
    ensures r.ok <==> ModalTotalLevel(s) > 0
    ensures !r.ok ==> r.state == s
    ensures Valid(r.state)
    ensures r.ok ==> ModalTotalLevel(r.state) == ModalTotalLevel(s) - 1 && r.state.local == s.local
  {
    match s.modal.Delete()
    case None => Answer(false, s)
    case Some(m) =>
      var s' := s.(modal := m);
      Answer(true, s')
  }

  /** Creating a modal level and deleting it again restores the store. */
  lemma {:induction false} CreateThenDeleteModalLevel(s: Store, arguments: map<ushort, real>)
    requires Valid(s) && CreateModalLevel(s, arguments).Answer? && CreateModalLevel(s, arguments).ok
    ensures DeleteModalLevelDefined(CreateModalLevel(s, arguments).state)
    ensures DeleteModalLevel(CreateModalLevel(s, arguments).state) == Answer(true, s)
  {
    var c := CreateModalLevel(s, arguments).state;
    var n := |s.modal.tables|;
    assert c.modal.next[..|c.modal.next| - 1] == s.modal.next;
    assert c.modal.tables[..n] == s.modal.tables;
    forall r <- c.local.scopes
      ensures r != ModalTable(n)
    {
      assert RefInRange(s, r);
    }
  }

  /** MacroVariableInterface::EnterModalLevel: the next modal table becomes
      the current scope and moves onto "previous". Reading the top of an
      empty "next" stack is undefined, hence the precondition. */
  function EnterModalLevel(s: Store): (r: Answer<Store>)
    requires Valid(s) && s.modal.NextModalCall()
    ensures r.Answer? && r.ok && Valid(r.state)
    ensures CurrentLevel(r.state) == CurrentLevel(s) + 1
    ensures CurrentScope(r.state) == s.modal.tables[s.modal.next[|s.modal.next| - 1]]
    ensures r.state.local.tables == s.local.tables && r.state.modal.tables == s.modal.tables
  {
    var j := s.modal.next[|s.modal.next| - 1];
    var s' := s.(local := s.local.(scopes := s.local.scopes + [ModalTable(j)]), modal := s.modal.Enter().value);
    Answer(true, s')
  }

  /** MacroVariableInterface::ExitModalLevel: the modal stacks move back
      first; the pointer is popped only if more than the base remains, so
      a `false` can follow a modal move. */
  function ExitModalLevel(s: Store): (r: Answer<Store>)
    requires Valid(s)
    ensures r.Answer? && Valid(r.state)
    ensures |s.modal.previous| == 0 ==> r == Answer(false, s)
    ensures r.ok <==> |s.modal.previous| > 0
    ensures r.ok ==> CurrentLevel(r.state) == CurrentLevel(s) - 1
  {
    match s.modal.Exit()
    case None => Answer(false, s)
    case Some(m) =>
      if |s.local.scopes| == 1 then Answer(false, s.(modal := m))
      else
        var s' := s.(local := s.local.(scopes := s.local.scopes[..|s.local.scopes| - 1]), modal := m);
        Answer(true, s')
  }

  /** Entering the next modal level and leaving it restores the store. */
  lemma {:induction false} EnterModalThenExit(s: Store)
    requires Valid(s) && s.modal.NextModalCall()
    ensures ExitModalLevel(EnterModalLevel(s).state) == Answer(true, s)
  {
    var e := EnterModalLevel(s).state;
    ModalEnterThenExit(s.modal);
    assert e.local.scopes[..|e.local.scopes| - 1] == s.local.scopes;
  }

  /** A value written inside an entered modal level lands in that modal
      table, where it stays after leaving the level. */
  lemma {:induction false} ModalWriteIsShared(s: Store, id: ushort, value: real)
    requires Valid(s) && s.modal.NextModalCall() && 0 < id <= ScopeEnd
    ensures
      var e := EnterModalLevel(s).state;
      var w := Write(e, id, value);
      var j := s.modal.next[|s.modal.next| - 1];
      w.Answer? && w.ok && w.state.modal.tables[j].Read(id) == Some(value)
      && ExitModalLevel(w.state).ok && ExitModalLevel(w.state).state.modal.tables[j].Read(id) == Some(value)
  {
    var e := EnterModalLevel(s).state;
    var j := s.modal.next[|s.modal.next| - 1];
    assert Deref(e, ModalTable(j)) == CurrentScope(e);
    var w := Write(e, id, value);
    assert w.state.modal.tables[j] == CurrentScope(e).Write(id, value).state;
  }

  /** The pointer list is never shorter than the owned local tables, so
      the base scope pointer survives every pop. */
  lemma CurrentLevelCoversLocalLevels(s: Store)
    requires Valid(s)
    ensures CurrentLevel(s) >= LocalTotalLevel(s) >= 1
    ensures LocalTotalLevel(s) + ModalTotalLevel(s) <= TotalLevelMax()
  {
  }
}
