/**
  The editor's undoable edits: the `Add` action that pushes a component onto
  the project's model and pops it again, and the project that sends each
  action through an undo history.

  The history (`undo::History`, an external crate) is modelled as a linear
  log of actions with a cursor: the actions before the cursor are applied,
  the ones from the cursor on can be redone, and applying a new action drops
  those before appending it. This is an assumption about that crate, not a
  model of its code.
 */
module Editor {
  import opened Model

  /** What an `Add` adds: a component with its name and (field, type) pairs. */
  datatype ModelAction = Component(name: string, content: seq<(string, string)>)

  datatype Add = Add(action: ModelAction)

  /** What `Action::apply` and `Action::undo` report. */
  datatype ActionResult = Ok | Err(message: string)

  /** The component an action pushes. */
  function Pushed(a: Add): ComponentSpec
  {
    ComponentSpec(a.action.name, a.action.content)
  }

  /** The model after the action has been applied: its component at the end. */
  function ApplyAdd(a: Add, m: BevyModel): BevyModel
  {
    m.(components := m.components + [Pushed(a)])
  }

  /** The model after the action has been undone: the last component popped, if there is one. */
  function UndoAdd(a: Add, m: BevyModel): BevyModel
  {
    if m.components == [] then m else m.(components := m.components[..|m.components| - 1])
  }

  /**
    `Add::apply`: exactly one component, the action's, is appended at the
    end; every other part of the model is left as it was; it never fails.
   */
  method AddApply(a: Add, s: BevyModel) returns (t: BevyModel, r: ActionResult)
    ensures |t.components| == |s.components| + 1
    ensures t.components[..|s.components|] == s.components
    ensures t.components[|s.components|] == ComponentSpec(a.action.name, a.action.content)
    ensures t.plugins == s.plugins && t.startupSystems == s.startupSystems && t.systems == s.systems
    ensures t.bevySettings == s.bevySettings && t.meta == s.meta && t.examples == s.examples
    ensures r == Ok
  {
    match a.action
    case Component(x, y) =>
      t := s.(components := s.components + [ComponentSpec(x, y)]);
    r := Ok;
  }

  /**
    `Add::undo`: the last component is removed and nothing else changes; an
    empty component list is left alone; it never fails.
   */
  method AddUndo(a: Add, s: BevyModel) returns (t: BevyModel, r: ActionResult)
    ensures s.components == [] ==> t == s
    ensures s.components != [] ==> t.components + [s.components[|s.components| - 1]] == s.components
    ensures t.plugins == s.plugins && t.startupSystems == s.startupSystems && t.systems == s.systems
    ensures t.bevySettings == s.bevySettings && t.meta == s.meta && t.examples == s.examples
    ensures r == Ok
  {
    t := s;
    if |t.components| > 0 {
      t := t.(components := t.components[..|t.components| - 1]);
    }
    r := Ok;
  }

  /** The action methods compute the model the specification functions give. */
  lemma AddApplyMatches(a: Add, s: BevyModel, t: BevyModel)
    requires |t.components| == |s.components| + 1
    requires t.components[..|s.components|] == s.components
    requires t.components[|s.components|] == ComponentSpec(a.action.name, a.action.content)
    requires t.plugins == s.plugins && t.startupSystems == s.startupSystems && t.systems == s.systems
    requires t.bevySettings == s.bevySettings && t.meta == s.meta && t.examples == s.examples
    ensures t == ApplyAdd(a, s)
  {
    assert t.components == s.components + [Pushed(a)];
  }

  lemma AddUndoMatches(a: Add, s: BevyModel, t: BevyModel)
    requires s.components == [] ==> t == s
    requires s.components != [] ==> t.components + [s.components[|s.components| - 1]] == s.components
    requires t.plugins == s.plugins && t.startupSystems == s.startupSystems && t.systems == s.systems
    requires t.bevySettings == s.bevySettings && t.meta == s.meta && t.examples == s.examples
    ensures t == UndoAdd(a, s)
  {
    if s.components != [] {
      var n := |s.components|;
      assert t.components == (t.components + [s.components[n - 1]])[..n - 1];
    }
  }

  /** Undoing an action right after applying it gives back the model it started from. */
  lemma AddRoundTrip(a: Add, m: BevyModel)
    ensures UndoAdd(a, ApplyAdd(a, m)) == m
  {
    assert (m.components + [Pushed(a)])[..|m.components|] == m.components;
  }

  // The history, as values: the model, the log and the cursor.

  datatype ProjectState = ProjectState(model: BevyModel, entries: seq<Add>, cursor: nat)

  /** The actions of `adds` applied to `m` one after the other. */
  function Replay(m: BevyModel, adds: seq<Add>): BevyModel
    decreases |adds|
  {
    if adds == [] then m else ApplyAdd(adds[|adds| - 1], Replay(m, adds[..|adds| - 1]))
  }

  /** Replaying actions only appends their components, in order, and touches nothing else. */
  lemma {:induction false} ReplayAppends(m: BevyModel, adds: seq<Add>)
    ensures Replay(m, adds).components == m.components + seq(|adds|, i requires 0 <= i < |adds| => Pushed(adds[i]))
    ensures Replay(m, adds) == m.(components := Replay(m, adds).components)
  {
    if adds != [] {
      var n := |adds|;
      ReplayAppends(m, adds[..n - 1]);
      assert seq(n, i requires 0 <= i < n => Pushed(adds[i]))
        == seq(n - 1, i requires 0 <= i < n - 1 => Pushed(adds[..n - 1][i])) + [Pushed(adds[n - 1])];
    }
  }

  /** The model is the base with the log's applied actions replayed on it. */
  ghost predicate Consistent(base: BevyModel, p: ProjectState)
  {
    p.cursor <= |p.entries| && p.model == Replay(base, p.entries[..p.cursor])
  }

  /** `History::apply`: apply the action, drop the redo tail, append the action. */
  function ApplyStep(p: ProjectState, a: Add): ProjectState
    requires p.cursor <= |p.entries|
  {
    ProjectState(ApplyAdd(a, p.model), p.entries[..p.cursor] + [a], p.cursor + 1)
  }

  /** `History::undo`: when something is applied, undo the action before the cursor. */
  function UndoStep(p: ProjectState): ProjectState
    requires p.cursor <= |p.entries|
  {
    if p.cursor == 0 then p else ProjectState(UndoAdd(p.entries[p.cursor - 1], p.model), p.entries, p.cursor - 1)
  }

  /** `History::redo`: when something can be redone, apply the action at the cursor again. */
  function RedoStep(p: ProjectState): ProjectState
    requires p.cursor <= |p.entries|
  {
    if p.cursor == |p.entries| then p else ProjectState(ApplyAdd(p.entries[p.cursor], p.model), p.entries, p.cursor + 1)
  }

  lemma ApplyKeeps(base: BevyModel, p: ProjectState, a: Add)
    requires Consistent(base, p)
    ensures Consistent(base, ApplyStep(p, a))
  {
    var q := ApplyStep(p, a);
    assert q.entries[..q.cursor] == p.entries[..p.cursor] + [a];
    assert (p.entries[..p.cursor] + [a])[..p.cursor] == p.entries[..p.cursor];
  }

  lemma UndoKeeps(base: BevyModel, p: ProjectState)
    requires Consistent(base, p)
    ensures Consistent(base, UndoStep(p))
  {
    if p.cursor > 0 {
      var done := p.entries[..p.cursor];
      assert done[..p.cursor - 1] == p.entries[..p.cursor - 1];
      assert done[p.cursor - 1] == p.entries[p.cursor - 1];
      AddRoundTrip(p.entries[p.cursor - 1], Replay(base, p.entries[..p.cursor - 1]));
    }
  }

  lemma RedoKeeps(base: BevyModel, p: ProjectState)
    requires Consistent(base, p)
    ensures Consistent(base, RedoStep(p))
  {
    if p.cursor < |p.entries| {
      var done := p.entries[..p.cursor + 1];
      assert done[..p.cursor] == p.entries[..p.cursor];
    }
  }

  /** Applying makes redo impossible: the log ends at the new action. */
  lemma ApplyDropsRedo(p: ProjectState, a: Add)
    requires p.cursor <= |p.entries|
    ensures var q := ApplyStep(p, a);
      q.cursor == |q.entries| && q.entries[q.cursor - 1] == a && RedoStep(q) == q
      && q.entries[..p.cursor] == p.entries[..p.cursor]
  {
    var q := ApplyStep(p, a);
    assert q.entries[..p.cursor] == p.entries[..p.cursor];
  }

  /** The actions of `adds` applied one after the other. */
  function ApplyAll(p: ProjectState, adds: seq<Add>): (q: ProjectState)
    requires p.cursor <= |p.entries|
    ensures q.cursor <= |q.entries|
    decreases |adds|
  {
    if adds == [] then p else ApplyStep(ApplyAll(p, adds[..|adds| - 1]), adds[|adds| - 1])
  }

  /** `k` undos in a row. */
  function UndoN(p: ProjectState, k: nat): (q: ProjectState)
    requires p.cursor <= |p.entries|
    ensures q.entries == p.entries && q.cursor <= p.cursor
  {
    if k == 0 then p else UndoStep(UndoN(p, k - 1))
  }

  /** `k` redos in a row. */
  function RedoN(p: ProjectState, k: nat): (q: ProjectState)
    requires p.cursor <= |p.entries|
    ensures q.entries == p.entries && p.cursor <= q.cursor <= |q.entries|
  {
    if k == 0 then p else RedoStep(RedoN(p, k - 1))
  }

  /**
    After applying `adds`, the applied part of the log is what was applied
    before followed by `adds`, nothing can be redone, and the model is the
    old one with `adds` replayed on it.
   */
  lemma {:induction false} ApplyAllState(p: ProjectState, adds: seq<Add>)
    requires p.cursor <= |p.entries| && adds != []
    ensures ApplyAll(p, adds) == ProjectState(Replay(p.model, adds), p.entries[..p.cursor] + adds, p.cursor + |adds|)
  {
    var n := |adds|;
    if n > 1 {
      ApplyAllState(p, adds[..n - 1]);
      var e := p.entries[..p.cursor] + adds[..n - 1];
      assert e[..|e|] == e;
      assert e + [adds[n - 1]] == p.entries[..p.cursor] + adds;
    } else {
      assert adds[..0] == [];
      assert [adds[0]] == adds;
    }
  }

  /** Each undo after applying `adds` takes back the last of them still applied. */
  lemma {:induction false} UndoBack(m: BevyModel, done: seq<Add>, adds: seq<Add>, k: nat)
    requires k <= |adds|
    ensures UndoN(ProjectState(Replay(m, adds), done + adds, |done| + |adds|), k)
         == ProjectState(Replay(m, adds[..|adds| - k]), done + adds, |done| + |adds| - k)
  {
    if k == 0 {
      assert adds[..|adds|] == adds;
    } else {
      UndoBack(m, done, adds, k - 1);
      var j := |adds| - k;
      var prefix := adds[..j + 1];
      assert prefix[..j] == adds[..j];
      assert (done + adds)[|done| + j] == adds[j];
      AddRoundTrip(adds[j], Replay(m, adds[..j]));
    }
  }

  /** Each redo from the start of `adds` applies the next of them again. */
  lemma {:induction false} RedoForward(m: BevyModel, done: seq<Add>, adds: seq<Add>, k: nat)
    requires k <= |adds|
    ensures RedoN(ProjectState(m, done + adds, |done|), k) == ProjectState(Replay(m, adds[..k]), done + adds, |done| + k)
  {
    if k == 0 {
      assert adds[..0] == [];
    } else {
      RedoForward(m, done, adds, k - 1);
      assert adds[..k][..k - 1] == adds[..k - 1];
      assert (done + adds)[|done| + k - 1] == adds[k - 1];
    }
  }

  /**
    N applies followed by N undos give back the model and the cursor, and
    N redos then give back exactly the state after the applies, the
    components in their original order.
   */
  lemma UndoRedoRoundTrip(p: ProjectState, adds: seq<Add>)
    requires p.cursor <= |p.entries|
    ensures var q := ApplyAll(p, adds);
      var u := UndoN(q, |adds|);
      u.model == p.model && u.cursor == p.cursor && RedoN(u, |adds|) == q
  {
    if adds != [] {
      ApplyAllState(p, adds);
      var done := p.entries[..p.cursor];
      UndoBack(p.model, done, adds, |adds|);
      assert adds[..0] == [];
      RedoForward(p.model, done, adds, |adds|);
      assert adds[..|adds|] == adds;
    }
  }

  /** The component lists along the way: the applies push the actions' components, the undos pop them all. */
  lemma ComponentsRoundTrip(p: ProjectState, adds: seq<Add>)
    requires p.cursor <= |p.entries|
    ensures ApplyAll(p, adds).model.components
         == p.model.components + seq(|adds|, i requires 0 <= i < |adds| => Pushed(adds[i]))
    ensures UndoN(ApplyAll(p, adds), |adds|).model.components == p.model.components
  {
    UndoRedoRoundTrip(p, adds);
    if adds != [] {
      ApplyAllState(p, adds);
    }
    ReplayAppends(p.model, adds);
  }

  /** The editor's project: the model being edited and the history of actions applied to it. */
  class ProjectModel {
    var model: BevyModel
    var entries: seq<Add>
    var cursor: nat
    /** The model before the first action of the log. */
    ghost var base: BevyModel

    ghost predicate Valid()
      reads this
    {
      Consistent(base, State())
    }

    function State(): ProjectState
      reads this
    {
      ProjectState(model, entries, cursor)
    }

    /** `History::can_undo`. */
    function CanUndo(): bool
      reads this
    {
      cursor > 0
    }

    /** `History::can_redo`. */
    function CanRedo(): bool
      reads this
    {
      cursor < |entries|
    }

    /** A project over `model0` with an empty history. */
    constructor (model0: BevyModel)
      ensures Valid() && State() == ProjectState(model0, [], 0) && base == model0
    {
      model := model0;
      entries := [];
      cursor := 0;
      base := model0;
    }

    /** `ProjectModel::apply`: the history applies the action to the model and records it. */
    method Apply(a: Add)
      requires Valid()
      modifies this
      ensures Valid() && base == old(base)
      ensures State() == ApplyStep(old(State()), a)
    {
      var t, r := AddApply(a, model);
      AddApplyMatches(a, model, t);
      if r == Ok {
        ghost var was := State();
        model := t;
        entries := entries[..cursor] + [a];
        cursor := cursor + 1;
        ApplyKeeps(base, was, a);
      }
    }

    /** `ProjectModel::undo`: when something is applied, the history undoes the last applied action. */
    method Undo()
      requires Valid()
      modifies this
      ensures Valid() && base == old(base)
      ensures State() == UndoStep(old(State()))
    {
      if cursor > 0 {
        ghost var was := State();
        var t, r := AddUndo(entries[cursor - 1], model);
        AddUndoMatches(entries[cursor - 1], model, t);
        if r == Ok {
          model := t;
          cursor := cursor - 1;
        }
        UndoKeeps(base, was);
      }
    }

    /** `ProjectModel::redo`: when something can be redone, the history applies it again. */
    method Redo()
      requires Valid()
      modifies this
      ensures Valid() && base == old(base)
      ensures State() == RedoStep(old(State()))
    {
      if cursor < |entries| {
        ghost var was := State();
        var t, r := AddApply(entries[cursor], model);
        AddApplyMatches(entries[cursor], model, t);
        if r == Ok {
          model := t;
          cursor := cursor + 1;
        }
        RedoKeeps(base, was);
      }
    }

    /**
      The Edit menu: Redo is enabled only when something can be redone and
      Undo only when something can be undone, in that order; a click on an
      enabled button runs one history step and nothing else happens.
     */
    method EditMenu(redoClicked: bool, undoClicked: bool)
      requires Valid()
      modifies this
      ensures Valid() && base == old(base)
      ensures redoClicked && old(CanRedo()) ==> entries == old(entries) && cursor == old(cursor) + (if undoClicked then 0 else 1)
      ensures !redoClicked && !undoClicked ==> State() == old(State())
      ensures !(redoClicked && old(CanRedo())) && !(undoClicked && old(CanUndo())) ==> State() == old(State())
      ensures var afterRedo := if redoClicked then RedoStep(old(State())) else old(State());
        State() == if undoClicked then UndoStep(afterRedo) else afterRedo
    {
      if CanRedo() && redoClicked {
        Redo();
      }
      if CanUndo() && undoClicked {
        Undo();
      }
    }
  }

  /** The model `setup_non_send` starts from: the application bevy_test with nothing in it. */
  function SetupModel(): BevyModel
  {
    BevyModel([], [], [], [], Settings([], []), Meta("bevy_test", App), [])
  }

  /** The action `setup_non_send` applies: the component Test1 without fields. */
  function SetupAction(): Add
  {
    Add(Component("Test1", []))
  }

  /**
    `setup_non_send`: the project over the empty bevy_test application, with
    the Test1 component added through the history.
   */
  method SetupNonSend() returns (target: ProjectModel)
    ensures fresh(target) && target.Valid()
    ensures target.model == SetupModel().(components := [ComponentSpec("Test1", [])])
    ensures target.entries == [SetupAction()] && target.cursor == 1
  {
    target := new ProjectModel(SetupModel());
    target.Apply(SetupAction());
  }

  /**
    After setup the history holds one applied action: Undo is enabled and
    takes the model back to the empty application, Redo is not, and after
    the undo a redo brings Test1 back.
   */
  lemma SetupHistory()
    ensures var p := ProjectState(SetupModel().(components := [ComponentSpec("Test1", [])]), [SetupAction()], 1);
      p.cursor > 0 && p.cursor == |p.entries|
      && UndoStep(p) == ProjectState(SetupModel(), [SetupAction()], 0)
      && RedoStep(UndoStep(p)) == p
  {
    var p := ProjectState(SetupModel().(components := [ComponentSpec("Test1", [])]), [SetupAction()], 1);
    assert [ComponentSpec("Test1", [])][..0] == [];
    assert [] + [Pushed(SetupAction())] == [ComponentSpec("Test1", [])];
  }
}
