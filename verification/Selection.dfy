/** The UI's selection of plan rows: internal/server/static/app.js. */
module Selection {
  import opened Wrappers
  import opened Model
  import opened PlanSubset

  const SEPARATOR := '\U{1F}'

  /** The value of a row's checkbox. */
  function PlanRowKey(row: PlanRow): string {
    row.table + [SEPARATOR] + (row.idColumn + [SEPARATOR] + (row.id + [SEPARATOR] +
    (row.oldServerID + [SEPARATOR] + row.newServerID)))
  }

  function Keys(rows: seq<PlanRow>): set<string> {
    set row <- rows :: PlanRowKey(row)
  }

  /** The page's variables. */
  datatype View = View(plan: Option<MigrationPlan>, planID: string, keys: set<string>)

  const NO_PLAN := View(None, "", {})

  /** What the user and the server do to the page. */
  datatype Input =
    | Receive(plan: MigrationPlan)
    | Rerender
    | Toggle(key: string, checked: bool)
    | SelectAll(checked: bool)
    | Drop

  /** Shows a plan: one with a new id is selected whole, otherwise the selection is kept
      as far as its rows are still there. */
  function Show(view: View, plan: MigrationPlan): View {
    if view.planID != plan.id then View(Some(plan), plan.id, Keys(plan.rows))
    else View(Some(plan), view.planID, Keys(plan.rows) * view.keys)
  }

  function Redraw(view: View): View {
    if view.plan.None? then NO_PLAN else Show(view, view.plan.value)
  }

  function Rows(view: View): seq<PlanRow> {
    if view.plan.None? then [] else view.plan.value.rows
  }

  function After(view: View, input: Input): View {
    match input
    case Receive(plan) => Show(view, plan)
    case Rerender => Redraw(view)
    case Toggle(key, checked) => Redraw(view.(keys := if checked then view.keys + {key} else view.keys - {key}))
    case SelectAll(checked) => Redraw(view.(keys := if checked then Keys(Rows(view)) else {}))
    case Drop => NO_PLAN
  }

  function Play(view: View, inputs: seq<Input>): View
    decreases |inputs|
  {
    if inputs == [] then view else After(Play(view, inputs[..|inputs| - 1]), inputs[|inputs| - 1])
  }

  function Chosen(rows: seq<PlanRow>, keys: set<string>): seq<PlanRow> {
    if rows == [] then []
    else
      var front := Chosen(rows[..|rows| - 1], keys);
      if PlanRowKey(rows[|rows| - 1]) in keys then front + [rows[|rows| - 1]] else front
  }

  /** What is sent to the server. */
  function SelectedPlan(view: View): Option<MigrationPlan> {
    match view.plan
    case None => None
    case Some(plan) => Some(plan.(rows := Chosen(plan.rows, view.keys)))
  }

  // -------------------------------------------------------------- sub-lists

  /** `a` is `b` with some elements left out. */
  ghost predicate Sublist(a: seq<PlanRow>, b: seq<PlanRow>) {
    exists places: seq<nat> :: PlacesOf(a, b, places)
  }

  predicate PlacesOf(a: seq<PlanRow>, b: seq<PlanRow>, places: seq<nat>) {
    && |places| == |a|
    && (forall i | 0 <= i < |a| :: places[i] < |b| && b[places[i]] == a[i])
    && (forall i, j | 0 <= i < j < |a| :: places[i] < places[j])
  }

  lemma {:induction false} ChosenPlaces(rows: seq<PlanRow>, keys: set<string>) returns (places: seq<nat>)
    ensures PlacesOf(Chosen(rows, keys), rows, places)
    ensures forall row: PlanRow :: row in Chosen(rows, keys) <==> row in rows && PlanRowKey(row) in keys
    decreases |rows|
  {
    if rows == [] {
      places := [];
    } else {
      var n := |rows| - 1;
      assert rows == rows[..n] + [rows[n]];
      places := ChosenPlaces(rows[..n], keys);
      forall i | 0 <= i < |places| ensures places[i] < n && rows[places[i]] == Chosen(rows[..n], keys)[i] {
        assert rows[..n][places[i]] == rows[places[i]];
      }
      if PlanRowKey(rows[n]) in keys {
        places := places + [n];
      }
    }
  }

  lemma SublistKeepsDistinct(a: seq<PlanRow>, b: seq<PlanRow>, places: seq<nat>)
    requires PlacesOf(a, b, places) && NoDuplicates(b)
    ensures NoDuplicates(a)
  {
    forall i, j | 0 <= i < j < |a| ensures a[i] != a[j] {
      assert b[places[i]] != b[places[j]];
    }
  }

  /** The page only ever has keys of the shown plan's rows selected. */
  predicate Tidy(view: View) {
    match view.plan
    case None => view == NO_PLAN
    case Some(plan) => view.planID == plan.id && view.keys <= Keys(plan.rows)
  }

  lemma {:induction false} PlayIsTidy(inputs: seq<Input>)
    ensures Tidy(Play(NO_PLAN, inputs))
    decreases |inputs|
  {
    if inputs != [] {
      PlayIsTidy(inputs[..|inputs| - 1]);
    }
  }

  // -------------------------------------------------------------- main results

  /** After any inputs, the plan to be sent is the shown plan with some rows left out, in
      order; and if it has rows and the shown plan is a well-formed dry-run, the server's
      subset check accepts it. */
  lemma SelectionIsSubmittable(inputs: seq<Input>)
    requires Play(NO_PLAN, inputs).plan.Some?
    ensures var view := Play(NO_PLAN, inputs);
      var plan, sent := view.plan.value, SelectedPlan(view).value;
      && sent == plan.(rows := sent.rows)
      && Sublist(sent.rows, plan.rows)
      && (sent.rows != [] && WellFormedRows(plan.rows) ==> IsSubset(plan, sent))
  {
    var view := Play(NO_PLAN, inputs);
    var plan := view.plan.value;
    var places := ChosenPlaces(plan.rows, view.keys);
    if WellFormedRows(plan.rows) {
      forall i, j | 0 <= i < j < |plan.rows| ensures plan.rows[i] != plan.rows[j] {
        assert IdentityOf(plan.rows[i]) != IdentityOf(plan.rows[j]);
      }
      SublistKeepsDistinct(Chosen(plan.rows, view.keys), plan.rows, places);
    }
  }

  lemma {:induction false} ChosenAllOrNone(rows: seq<PlanRow>, keys: set<string>)
    ensures Keys(rows) <= keys ==> Chosen(rows, keys) == rows
    ensures keys == {} ==> Chosen(rows, keys) == []
    decreases |rows|
  {
    if rows != [] {
      var n := |rows| - 1;
      assert rows == rows[..n] + [rows[n]];
      forall key <- Keys(rows[..n]) ensures key in Keys(rows) {
        var row :| row in rows[..n] && PlanRowKey(row) == key;
        assert row in rows;
      }
      assert PlanRowKey(rows[n]) in Keys(rows);
      ChosenAllOrNone(rows[..n], keys);
    }
  }

  /** A plan that arrives with a new id would be sent whole; one with the id of the plan
      selected before, with exactly the rows whose boxes were checked. */
  lemma ReceivedPlanIsSelected(view: View, plan: MigrationPlan)
    ensures var sent := SelectedPlan(After(view, Receive(plan)));
      && sent.Some?
      && (plan.id != view.planID ==> sent.value == plan)
      && (plan.id == view.planID ==>
          && sent.value == plan.(rows := sent.value.rows)
          && forall row: PlanRow :: row in sent.value.rows <==> row in plan.rows && PlanRowKey(row) in view.keys)
  {
    var after := After(view, Receive(plan));
    ChosenAllOrNone(plan.rows, after.keys);
    var places := ChosenPlaces(plan.rows, after.keys);
    forall row <- plan.rows ensures PlanRowKey(row) in Keys(plan.rows) {
    }
  }

  /** After any inputs, selecting all sends the whole plan and selecting none no row. */
  lemma SelectAllSelectsAll(inputs: seq<Input>)
    requires Play(NO_PLAN, inputs).plan.Some?
    ensures var view := Play(NO_PLAN, inputs);
      && SelectedPlan(After(view, SelectAll(true))) == view.plan
      && SelectedPlan(After(view, SelectAll(false))) == Some(view.plan.value.(rows := []))
  {
    var view := Play(NO_PLAN, inputs);
    PlayIsTidy(inputs);
    ChosenAllOrNone(view.plan.value.rows, After(view, SelectAll(true)).keys);
    ChosenAllOrNone(view.plan.value.rows, After(view, SelectAll(false)).keys);
  }

  lemma FirstSeparator(a: string, x: string)
    requires SEPARATOR !in a
    ensures var s := a + [SEPARATOR] + x;
      s[|a|] == SEPARATOR && s[..|a|] == a && s[|a| + 1..] == x && forall i | 0 <= i < |a| :: s[i] != SEPARATOR
  {
    forall i | 0 <= i < |a| ensures a[i] != SEPARATOR {
      assert a[i] in a;
    }
  }

  lemma JoinTells(a: string, x: string, b: string, y: string)
    requires SEPARATOR !in a && SEPARATOR !in b && a + [SEPARATOR] + x == b + [SEPARATOR] + y
    ensures a == b && x == y
  {
    FirstSeparator(a, x);
    FirstSeparator(b, y);
    assert |a| == |b|;
  }

  // -------------------------------------------------------------- the page itself

  class PlanSelection {
    var currentPlan: Option<MigrationPlan>
    var selectedPlanID: string
    var selectedPlanRows: set<string>

    constructor ()
      ensures State() == NO_PLAN
    {
      currentPlan, selectedPlanID, selectedPlanRows := None, "", {};
    }

    function State(): View
      reads this
    {
      View(currentPlan, selectedPlanID, selectedPlanRows)
    }

    method RenderNoPlan()
      modifies this
      ensures State() == After(old(State()), Drop)
    {
      currentPlan, selectedPlanID, selectedPlanRows := None, "", {};
    }

    method SyncSelectionForPlan(rows: seq<PlanRow>)
      requires currentPlan.Some? && rows == currentPlan.value.rows
      modifies this`selectedPlanID, this`selectedPlanRows
      ensures State() == Show(old(State()), currentPlan.value)
    {
      var rowKeys := set row <- rows :: PlanRowKey(row);
      if selectedPlanID != currentPlan.value.id {
        selectedPlanID, selectedPlanRows := currentPlan.value.id, rowKeys;
        return;
      }
      selectedPlanRows := set key <- rowKeys | key in selectedPlanRows;
    }

    /** Renders a plan just received, or the current one again. */
    method RenderPlan(plan: Option<MigrationPlan>)
      modifies this
      ensures State() == if plan.None? then NO_PLAN else Show(old(State()), plan.value)
    {
      currentPlan := plan;
      if currentPlan.None? {
        RenderNoPlan();
        return;
      }
      SyncSelectionForPlan(currentPlan.value.rows);
    }

    method ChangeCheckbox(key: string, checked: bool)
      modifies this
      ensures State() == After(old(State()), Toggle(key, checked))
    {
      if checked {
        selectedPlanRows := selectedPlanRows + {key};
      } else {
        selectedPlanRows := selectedPlanRows - {key};
      }
      RenderPlan(currentPlan);
    }

    method ChangeSelectAll(checked: bool)
      modifies this
      ensures State() == After(old(State()), SelectAll(checked))
    {
      var rows := if currentPlan.None? then [] else currentPlan.value.rows;
      selectedPlanRows := if checked then set row <- rows :: PlanRowKey(row) else {};
      RenderPlan(currentPlan);
    }

    /** The filter over the current rows. */
    method SelectedRows() returns (selected: seq<PlanRow>)
      ensures selected == Chosen(Rows(State()), selectedPlanRows)
    {
      var rows := if currentPlan.None? then [] else currentPlan.value.rows;
      selected := [];
      for i := 0 to |rows|
        invariant selected == Chosen(rows[..i], selectedPlanRows)
      {
        assert rows[..i + 1][..i] == rows[..i];
        if PlanRowKey(rows[i]) in selectedPlanRows {
          selected := selected + [rows[i]];
        }
      }
      assert rows[..|rows|] == rows;
    }

    method PlanToSend() returns (plan: Option<MigrationPlan>)
      ensures plan == SelectedPlan(State())
    {
      if currentPlan.None? {
        return None;
      }
      var rows := SelectedRows();
      return Some(currentPlan.value.(rows := rows));
    }
  }
}
