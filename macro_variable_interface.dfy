// MacroVariableInterface as an object: its four members are fields that
// the methods update in place, each method proved against the store
// functions of MacroVariable.
module VariableInterface {
  import opened MacroValues
  import opened MacroVariable

  class MacroVariableInterface {
    var local: LocalVariable
    var common: CommonVariable
    var system: SystemVariable
    var modal: ModalVariableLevel

    function State(): Store
      reads this
    {
      Store(local, common, system, modal)
    }

    ghost predicate Valid()
      reads this
    {
      MacroVariable.Valid(State())
    }

    /** Local store with one base scope and its pointer, common tables for
        #100..#199 and #500..#999, the given system fields, no modal level. */
    constructor(systemFields: SystemVariable)
      ensures Valid()
      ensures State() == InitialStore(systemFields)
    {
      var base := NewVariable(ScopeBegin, ScopeEnd);
      var lower := NewVariable(100, 199);
      var higher := NewVariable(500, 999);
      local := LocalVariable([base.value], [LocalTable(0)]);
      common := CommonVariable(lower.value, higher.value);
      system := systemFields;
      modal := ModalVariableLevel([], [], []);
      new;
      assert base.value.slots == seq(ScopeEnd as int + 1, _ => NullValue);
      assert lower.value.slots == seq(100, _ => NullValue);
      assert higher.value.slots == seq(500, _ => NullValue);
    }

    /** CurrentLevel: pointer entries including modal aliases. */
    function CurrentLevel(): (n: nat)
      reads this
      requires Valid()
      ensures n >= |local.tables| >= 1
    {
      |local.scopes|
    }

    /** ReadVariable(id, value): on success `result` is the value found;
        otherwise it is the caller's `value`, untouched. */
    method ReadVariable(id: ushort, value: real) returns (found: bool, result: real)
      requires Valid()
      ensures found <==> Read(State(), id).Some?
      ensures found ==> result == Read(State(), id).value
      ensures !found ==> result == value
    {
      var top := local.scopes[|local.scopes| - 1];
      var scope := if top.LocalTable? then local.tables[top.index] else modal.tables[top.index];
      var r: Option<real>;
      if scope.Inquiry(id) {
        r := scope.Read(id);
      } else if common.Inquiry(id) {
        r := common.Read(id);
      } else {
        r := system.Read(id);
      }
      if r.Some? {
        return true, r.value;
      }
      return false, value;
    }

    /** WriteVariable: the first namespace owning the ID takes the value. */
    method WriteVariable(id: ushort, value: real) returns (r: Outcome)
      requires Valid()
      modifies this
      ensures Valid()
      ensures r == OutcomeOf(Write(old(State()), id, value))
      ensures Write(old(State()), id, value).Answer? ==> State() == Write(old(State()), id, value).state
      ensures Write(old(State()), id, value).Thrown? ==> State() == old(State())
    {
      if id == 0 {
        return Raised(ReadOnlyVariable);
      }
      var top := local.scopes[|local.scopes| - 1];
      var scope := if top.LocalTable? then local.tables[top.index] else modal.tables[top.index];
      if scope.Inquiry(id) {
        var written := scope.Write(id, value);
        if top.LocalTable? {
          local := local.(tables := local.tables[top.index := written.state]);
        } else {
          modal := modal.(tables := modal.tables[top.index := written.state]);
        }
        return Returned(true);
      } else if common.Inquiry(id) {
        var written := common.Write(id, value);
        common := written.state;
        return Returned(true);
      }
      var written := system.Write(id, value);
      if written.Thrown? {
        return Raised(written.fault);
      }
      system := written.state;
      return Returned(written.ok);
    }

    /** EnterLevel: refused at the shared level bound, else a seeded table
        is pushed together with a pointer to it. */
    method EnterLevel(arguments: map<ushort, real>) returns (r: Outcome)
      requires Valid()
      modifies this
      ensures Valid()
      ensures r == OutcomeOf(MacroVariable.EnterLevel(old(State()), arguments))
      ensures r == Returned(true) ==> State() == MacroVariable.EnterLevel(old(State()), arguments).state
      ensures r != Returned(true) ==> State() == old(State())
    {
      if |local.tables| + |modal.tables| == TotalLevelMax() {
        return Returned(false);
      }
      var seeded := SeedTable(arguments);
      if seeded.None? {
        return Raised(ReadOnlyVariable);
      }
      local := LocalVariable(local.tables + [seeded.value], local.scopes + [LocalTable(|local.tables|)]);
      return Returned(true);
    }

    /** ExitLevel: the base scope is never popped. */
    method ExitLevel() returns (ok: bool)
      requires Valid() && ExitLevelDefined(State())
      modifies this
      ensures Valid()
      ensures ok == MacroVariable.ExitLevel(old(State())).ok
      ensures State() == MacroVariable.ExitLevel(old(State())).state
    {
      if |local.tables| == 1 {
        return false;
      }
      local := LocalVariable(local.tables[..|local.tables| - 1], local.scopes[..|local.scopes| - 1]);
      return true;
    }

    /** CreateModalLevel: refused at the shared level bound, else a seeded
        modal table is pushed and becomes the next one to enter. */
    method CreateModalLevel(arguments: map<ushort, real>) returns (r: Outcome)
      requires Valid()
      modifies this
      ensures Valid()
      ensures r == OutcomeOf(MacroVariable.CreateModalLevel(old(State()), arguments))
      ensures r == Returned(true) ==> State() == MacroVariable.CreateModalLevel(old(State()), arguments).state
      ensures r != Returned(true) ==> State() == old(State())
    {
      if |local.tables| + |modal.tables| == TotalLevelMax() {
        return Returned(false);
      }
      var seeded := SeedTable(arguments);
      if seeded.None? {
        return Raised(ReadOnlyVariable);
      }
      modal := ModalVariableLevel(modal.tables + [seeded.value], modal.next + [|modal.tables|], modal.previous);
      return Returned(true);
    }

    /** DeleteModalLevel: refused when no modal table exists. */
    method DeleteModalLevel() returns (ok: bool)
      requires Valid() && DeleteModalLevelDefined(State())
      modifies this
      ensures Valid()
      ensures ok == MacroVariable.DeleteModalLevel(old(State())).ok
      ensures State() == MacroVariable.DeleteModalLevel(old(State())).state
    {
      if |modal.tables| == 0 {
        return false;
      }
      modal := ModalVariableLevel(modal.tables[..|modal.tables| - 1], modal.next[..|modal.next| - 1], modal.previous);
      return true;
    }

    /** EnterModalLevel: the next modal table becomes the current scope. */
    method EnterModalLevel() returns (ok: bool)
      requires Valid() && modal.NextModalCall()
      modifies this
      ensures Valid() && ok
      ensures State() == MacroVariable.EnterModalLevel(old(State())).state
    {
      var j := modal.next[|modal.next| - 1];
      local := local.(scopes := local.scopes + [ModalTable(j)]);
      modal := ModalVariableLevel(modal.tables, modal.next[..|modal.next| - 1], modal.previous + [j]);
      return true;
    }

    /** ExitModalLevel: the modal stacks move back, then the pointer is
        popped unless only the base remains. */
    method ExitModalLevel() returns (ok: bool)
      requires Valid()
      modifies this
      ensures Valid()
      ensures ok == MacroVariable.ExitModalLevel(old(State())).ok
      ensures State() == MacroVariable.ExitModalLevel(old(State())).state
    {
      if |modal.previous| == 0 {
        return false;
      }
      var j := modal.previous[|modal.previous| - 1];
      modal := ModalVariableLevel(modal.tables, modal.next + [j], modal.previous[..|modal.previous| - 1]);
      if |local.scopes| == 1 {
        return false;
      }
      local := local.(scopes := local.scopes[..|local.scopes| - 1]);
      return true;
    }
  }
}
