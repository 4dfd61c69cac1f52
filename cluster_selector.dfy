/** The cluster label-selector editor of the application creation form: a list of
    `labelName=labelValue` entries kept in the form control's `active` record, edited in
    place, validated into an error list, summarised, and rebuilt from a template's
    `matchLabels`. */
module ClusterSelector {
  import opened Js

  /** One row of `clusterLabelsList`. Removed rows stay in the list with `validValue` false. */
  datatype LabelEntry = LabelEntry(id: int, labelName: string, labelValue: string, validValue: bool)

  /** `control.active`: the mode checkbox, the rows, and the id the next added row gets. */
  datatype Selector = Selector(mode: bool, clusterLabelsList: seq<LabelEntry>, clusterLabelsListID: int)

  /** The row the editor starts with: id 0, empty, not yet valid. */
  const BlankEntry := LabelEntry(0, "", "", false)

  /** Row ids are row indices and the next id is the row count: what lets removal and
      editing address a row by its id. */
  predicate IdsMatchIndices(s: Selector) {
    && s.clusterLabelsListID == |s.clusterLabelsList|
    && forall i :: 0 <= i < |s.clusterLabelsList| ==> s.clusterLabelsList[i].id == i
  }

  // ---------------------------------------------------------------------------
  // The edits, as functions of the selector

  /** The `active` record the component's constructor leaves (`None` is unset). */
  function Initialized(active: Option<Selector>, showData: seq<LabelEntry>): (r: Option<Selector>)
    ensures active.Some? ==> r == active
    ensures active.None? ==> r.Some? && r.value.mode
    ensures active.None? && showData == [] ==> r.value.clusterLabelsList == [BlankEntry] && IdsMatchIndices(r.value)
    ensures active.None? && showData != [] ==>
      r.value.clusterLabelsList == showData && r.value.clusterLabelsListID == |showData|
  {
    if active.Some? then active
    else if showData == [] then Some(Selector(true, [BlankEntry], 1))
    else Some(Selector(true, showData, |showData|))
  }

  /** `addLabelToList` in selected mode: one empty valid row with the next id is appended. */
  function WithNewLabel(s: Selector): (r: Selector)
    ensures |r.clusterLabelsList| == |s.clusterLabelsList| + 1
    ensures r.clusterLabelsList[..|s.clusterLabelsList|] == s.clusterLabelsList
    ensures r.clusterLabelsList[|s.clusterLabelsList|] == LabelEntry(s.clusterLabelsListID, "", "", true)
    ensures r.clusterLabelsListID == s.clusterLabelsListID + 1 && r.mode == s.mode
    ensures IdsMatchIndices(s) ==> IdsMatchIndices(r)
  {
    s.(clusterLabelsList := s.clusterLabelsList + [LabelEntry(s.clusterLabelsListID, "", "", true)],
       clusterLabelsListID := s.clusterLabelsListID + 1)
  }

  /** `removeLabelFromList`: the row at index `i` is marked not valid; nothing else changes. */
  function SoftRemoved(s: Selector, i: int): (r: Selector)
    requires 0 <= i < |s.clusterLabelsList|
    ensures |r.clusterLabelsList| == |s.clusterLabelsList|
    ensures forall j :: 0 <= j < |s.clusterLabelsList| && j != i ==> r.clusterLabelsList[j] == s.clusterLabelsList[j]
    ensures r.clusterLabelsList[i] == s.clusterLabelsList[i].(validValue := false)
    ensures r.mode == s.mode && r.clusterLabelsListID == s.clusterLabelsListID
    ensures IdsMatchIndices(s) ==> IdsMatchIndices(r)
  {
    s.(clusterLabelsList := s.clusterLabelsList[i := s.clusterLabelsList[i].(validValue := false)])
  }

  /** `handleChange` with a target name: the row at index `i`, when there is one, gets the
      new name or value (any other target name changes neither) and becomes valid. */
  function Edited(s: Selector, targetName: string, value: string, i: int): (r: Selector)
    ensures !(0 <= i < |s.clusterLabelsList|) ==> r == s
    ensures 0 <= i < |s.clusterLabelsList| ==>
      && |r.clusterLabelsList| == |s.clusterLabelsList|
      && (forall j :: 0 <= j < |s.clusterLabelsList| && j != i ==> r.clusterLabelsList[j] == s.clusterLabelsList[j])
      && r.clusterLabelsList[i].id == s.clusterLabelsList[i].id
      && r.clusterLabelsList[i].validValue
      && r.clusterLabelsList[i].labelName == (if targetName == "labelName" then value else s.clusterLabelsList[i].labelName)
      && r.clusterLabelsList[i].labelValue == (if targetName == "labelValue" then value else s.clusterLabelsList[i].labelValue)
    ensures r.mode == s.mode && r.clusterLabelsListID == s.clusterLabelsListID
    ensures IdsMatchIndices(s) ==> IdsMatchIndices(r)
  {
    if 0 <= i < |s.clusterLabelsList| then
      var e := s.clusterLabelsList[i];
      var e' := if targetName == "labelName" then e.(labelName := value)
                else if targetName == "labelValue" then e.(labelValue := value)
                else e;
      s.(clusterLabelsList := s.clusterLabelsList[i := e'.(validValue := true)])
    else s
  }

  /** `if (targetName)`: the target name is present and not the empty string. */
  predicate HasTargetName(targetName: Option<string>) {
    targetName.Some? && targetName.value != ""
  }

  /** A row added in selected mode can be removed by its id, and only that row is affected. */
  lemma AddedRowRemovableById(s: Selector)
    requires IdsMatchIndices(s)
    ensures var a := WithNewLabel(s);
      var id := s.clusterLabelsListID;
      && 0 <= id < |a.clusterLabelsList|
      && a.clusterLabelsList[id].id == id
      && SoftRemoved(a, id).clusterLabelsList == s.clusterLabelsList + [LabelEntry(id, "", "", false)]
  {
    var a := WithNewLabel(s);
    var r := SoftRemoved(a, s.clusterLabelsListID);
    assert r.clusterLabelsList[..|s.clusterLabelsList|] == s.clusterLabelsList;
    assert r.clusterLabelsList == r.clusterLabelsList[..|s.clusterLabelsList|] + [r.clusterLabelsList[|s.clusterLabelsList|]];
  }

  // ---------------------------------------------------------------------------
  // Validation

  /** The message keys the validator hands to the translation lookup. */
  datatype MessageKey = MissingLabel | MissingValue | DuplicateLabel

  function KeyText(k: MessageKey): string {
    match k
    case MissingLabel => "creation.missing.clusterSelector.label"
    case MissingValue => "creation.missing.clusterSelector.value"
    case DuplicateLabel => "creation.duplicate.clusterSelector.label"
  }

  /** The element an exception points at: the labels section of the control, or a row. */
  datatype Target = LabelsSection(controlId: string) | LabelRow(id: int)

  /** The `controlId` string of an exception. */
  function TargetText(t: Target): string {
    match t
    case LabelsSection(controlId) => "clusterSelector-labels-section-" + controlId
    case LabelRow(id) => "labelName-" + DecimalString(id)
  }

  /** An entry of the form's exception list, all at row 1 with type `error`; `args` are
      the arguments of the message. */
  datatype Exception = Exception(key: MessageKey, args: seq<string>, target: Target)

  predicate IsDuplicateError(x: Exception) {
    x.key == DuplicateLabel
  }

  /** A row is checked for empty fields when it is valid or is the first row (id 0). */
  predicate IsChecked(e: LabelEntry) {
    e.validValue || e.id == 0
  }

  /** The names of the rows, as the validator's `labelNameSet` collects them. */
  function NamesSeen(list: seq<LabelEntry>): set<string> {
    if list == [] then {} else NamesSeen(list[..|list| - 1]) + {list[|list| - 1].labelName}
  }

  lemma {:induction false} NamesSeenMembers(list: seq<LabelEntry>, x: string)
    ensures x in NamesSeen(list) <==> exists i :: 0 <= i < |list| && list[i].labelName == x
  {
    if list != [] {
      var p := list[..|list| - 1];
      NamesSeenMembers(p, x);
      if x in NamesSeen(p) {
        var i :| 0 <= i < |p| && p[i].labelName == x;
        assert list[i] == p[i];
      }
      if exists i :: 0 <= i < |list| && list[i].labelName == x {
        var i :| 0 <= i < |list| && list[i].labelName == x;
        if i < |p| { assert p[i] == list[i]; }
      }
    }
  }

  predicate NamesDistinct(list: seq<LabelEntry>) {
    forall i, j :: 0 <= i < j < |list| ==> list[i].labelName != list[j].labelName
  }

  /** The errors one row adds, given the names of the rows before it. */
  function RowErrors(e: LabelEntry, seen: set<string>): seq<Exception> {
    (if IsChecked(e) && e.labelName == "" then [Exception(MissingLabel, [], LabelRow(e.id))] else [])
    + (if IsChecked(e) && e.labelValue == "" then [Exception(MissingValue, [], LabelRow(e.id))] else [])
    + (if e.labelName in seen then [Exception(DuplicateLabel, [e.labelName], LabelRow(e.id))] else [])
  }

  /** The per-row errors of a list, in row order. */
  function ListErrors(list: seq<LabelEntry>): seq<Exception> {
    if list == [] then []
    else
      var p := list[..|list| - 1];
      ListErrors(p) + RowErrors(list[|list| - 1], NamesSeen(p))
  }

  lemma ListErrorsStep(list: seq<LabelEntry>, i: int)
    requires 0 <= i < |list|
    ensures ListErrors(list[..i + 1]) == ListErrors(list[..i]) + RowErrors(list[i], NamesSeen(list[..i]))
    ensures NamesSeen(list[..i + 1]) == NamesSeen(list[..i]) + {list[i].labelName}
  {
    assert list[..i + 1][..i] == list[..i];
  }

  /** The exceptions `validation` pushes: none unless the mode is on; then one for an
      empty list and the per-row errors. */
  function ValidationErrors(active: Option<Selector>, controlId: string): seq<Exception> {
    if active.Some? && active.value.mode then
      (if active.value.clusterLabelsList == []
       then [Exception(MissingValue, [], LabelsSection(controlId))]
       else [])
      + ListErrors(active.value.clusterLabelsList)
    else []
  }

  predicate FieldsFilled(list: seq<LabelEntry>) {
    forall i :: 0 <= i < |list| && IsChecked(list[i]) ==> list[i].labelName != "" && list[i].labelValue != ""
  }

  /** The rows produce no error exactly when every checked row has a name and a value and
      no name repeats (removed rows included). */
  lemma {:induction false} ListErrorsEmptyIff(list: seq<LabelEntry>)
    ensures ListErrors(list) == [] <==> FieldsFilled(list) && NamesDistinct(list)
  {
    if list != [] {
      var p := list[..|list| - 1];
      var e := list[|list| - 1];
      ListErrorsEmptyIff(p);
      NamesSeenMembers(p, e.labelName);
      if NamesDistinct(list) {
        forall k | 0 <= k < |p| ensures p[k].labelName != e.labelName {
          assert list[k] == p[k];
        }
        assert NamesDistinct(p) by {
          forall a, b | 0 <= a < b < |p| ensures p[a].labelName != p[b].labelName {
            assert list[a] == p[a] && list[b] == p[b];
          }
        }
      }
      if NamesDistinct(p) && e.labelName !in NamesSeen(p) {
        assert NamesDistinct(list) by {
          forall a, b | 0 <= a < b < |list| ensures list[a].labelName != list[b].labelName {
            assert list[a] == p[a];
            if b < |p| { assert list[b] == p[b]; }
          }
        }
      }
      if FieldsFilled(list) {
        assert FieldsFilled(p) by {
          forall i | 0 <= i < |p| && IsChecked(p[i]) ensures p[i].labelName != "" && p[i].labelValue != "" {
            assert p[i] == list[i];
          }
        }
      }
      if FieldsFilled(p) && (IsChecked(e) ==> e.labelName != "" && e.labelValue != "") {
        assert FieldsFilled(list) by {
          forall i | 0 <= i < |list| && IsChecked(list[i]) ensures list[i].labelName != "" && list[i].labelValue != "" {
            if i < |p| { assert list[i] == p[i]; }
          }
        }
      }
    }
  }

  /** One duplicate error per row whose name already appeared: their number is the row
      count minus the number of distinct names. */
  lemma {:induction false} DuplicateErrorCount(list: seq<LabelEntry>)
    ensures CountWhere(ListErrors(list), IsDuplicateError) == |list| - |NamesSeen(list)|
  {
    if list == [] {
    } else {
      var p := list[..|list| - 1];
      var e := list[|list| - 1];
      var seen := NamesSeen(p);
      DuplicateErrorCount(p);
      CountWhereAppend(ListErrors(p), RowErrors(e, seen), IsDuplicateError);
      RowDuplicateCount(e, seen);
    }
  }

  lemma RowDuplicateCount(e: LabelEntry, seen: set<string>)
    ensures CountWhere(RowErrors(e, seen), IsDuplicateError) == if e.labelName in seen then 1 else 0
  {
    var a: seq<Exception> := if IsChecked(e) && e.labelName == "" then [Exception(MissingLabel, [], LabelRow(e.id))] else [];
    var b: seq<Exception> := if IsChecked(e) && e.labelValue == "" then [Exception(MissingValue, [], LabelRow(e.id))] else [];
    var c: seq<Exception> := if e.labelName in seen then [Exception(DuplicateLabel, [e.labelName], LabelRow(e.id))] else [];
    assert RowErrors(e, seen) == a + b + c;
    CountWhereAppend(a, b, IsDuplicateError);
    CountWhereAppend(a + b, c, IsDuplicateError);
    assert CountWhere(a, IsDuplicateError) == 0 by {
      if a != [] { assert a[..0] == []; }
    }
    assert CountWhere(b, IsDuplicateError) == 0 by {
      if b != [] { assert b[..0] == []; }
    }
    assert CountWhere(c, IsDuplicateError) == (if e.labelName in seen then 1 else 0) by {
      if c != [] { assert c[..0] == []; }
    }
  }

  /** The checks `validation` makes on one row: an empty name or value of a checked
      row, and a name already seen. */
  method CheckRow(e: LabelEntry, labelNameSet: set<string>) returns (rowErrors: seq<Exception>)
    ensures rowErrors == RowErrors(e, labelNameSet)
  {
    var invalidLabel := (e.validValue || e.id == 0) && e.labelName == "";
    var invalidValue := (e.validValue || e.id == 0) && e.labelValue == "";
    rowErrors := [];
    if invalidLabel {
      rowErrors := rowErrors + [Exception(MissingLabel, [], LabelRow(e.id))];
    }
    if invalidValue {
      rowErrors := rowErrors + [Exception(MissingValue, [], LabelRow(e.id))];
    }
    if e.labelName in labelNameSet {
      rowErrors := rowErrors + [Exception(DuplicateLabel, [e.labelName], LabelRow(e.id))];
    }
  }

  /** The row checks of `validation`: the per-row errors appended to `start`, with the
      names seen so far kept in a set. */
  method AppendRowErrors(list: seq<LabelEntry>, start: seq<Exception>) returns (r: seq<Exception>)
    ensures r == start + ListErrors(list)
  {
    r := start;
    var labelNameSet: set<string> := {};
    var i := 0;
    while i < |list|
      invariant 0 <= i <= |list|
      invariant labelNameSet == NamesSeen(list[..i])
      invariant r == start + ListErrors(list[..i])
    {
      var e := list[i];
      var rowErrors := CheckRow(e, labelNameSet);
      ListErrorsStep(list, i);
      ghost var done := ListErrors(list[..i]);
      assert ListErrors(list[..i + 1]) == done + rowErrors;
      r := r + rowErrors;
      assert r == start + (done + rowErrors);
      labelNameSet := labelNameSet + {e.labelName};
      i := i + 1;
    }
    assert list[..i] == list;
  }

  // ---------------------------------------------------------------------------
  // Summary

  /** `name=value` for every row with a non-empty name and value, in row order;
      `validValue` is not consulted. */
  function SummaryPairs(list: seq<LabelEntry>): seq<string> {
    if list == [] then []
    else
      var e := list[|list| - 1];
      SummaryPairs(list[..|list| - 1]) + (if e.labelName != "" && e.labelValue != "" then [e.labelName + "=" + e.labelValue] else [])
  }

  /** Soft removal does not hide a row from the summary. */
  lemma {:induction false} SummaryIgnoresRemoval(s: Selector, i: int)
    requires 0 <= i < |s.clusterLabelsList|
    ensures SummaryPairs(SoftRemoved(s, i).clusterLabelsList) == SummaryPairs(s.clusterLabelsList)
  {
    SummaryPairsSameFields(SoftRemoved(s, i).clusterLabelsList, s.clusterLabelsList);
  }

  lemma {:induction false} SummaryPairsSameFields(a: seq<LabelEntry>, b: seq<LabelEntry>)
    requires |a| == |b|
    requires forall j :: 0 <= j < |a| ==> a[j].labelName == b[j].labelName && a[j].labelValue == b[j].labelValue
    ensures SummaryPairs(a) == SummaryPairs(b)
  {
    if a != [] {
      SummaryPairsSameFields(a[..|a| - 1], b[..|b| - 1]);
    }
  }

  /** The `{term, desc}` item `summary` returns. */
  datatype SummaryItem = SummaryItem(term: string, desc: string)

  // ---------------------------------------------------------------------------
  // Rebuilding the selector from a template

  /** A `matchLabels` object as found in the template, before the synchronised wrappers
      are stripped. */
  datatype RawLabels = RawLabels(entries: seq<(string, Scalar)>)

  /** The lookups `reverse` makes in the template object: whether `Placement` is truthy,
      `Placement[0].spec.clusterSelector.matchLabels`, the `local-cluster` label of the
      placement rule's selector, and the placement rule's `clusterSelector.matchLabels` and
      `clusterLabels.matchLabels` (`None` where the path is absent). */
  datatype Template = Template(
    placement: bool,
    placementMatchLabels: Option<RawLabels>,
    localCluster: Scalar,
    ruleSelectorMatchLabels: Option<RawLabels>,
    ruleClusterLabelsMatchLabels: Option<RawLabels>)

  /** `removeVs`, an external helper: the plain `{name: value}` entries, in order, or
      `None` for a falsy result. */
  type RemoveVs = RawLabels -> Option<seq<(string, string)>>

  /** The `matchLabels` `reverse` picks: the placement's (an empty object by default);
      nothing when the rule selects `local-cluster`; else the selector's, else the
      cluster labels'. */
  function PickMatchLabels(t: Template): (r: Option<RawLabels>)
    ensures t.placement && t.placementMatchLabels.Some? ==> r == t.placementMatchLabels
    ensures t.placement && t.placementMatchLabels.None? ==> r == Some(RawLabels([]))
    ensures !t.placement && Truthy(t.localCluster) ==> r.None?
    ensures !t.placement && !Truthy(t.localCluster) && t.ruleSelectorMatchLabels.Some? ==>
      r == t.ruleSelectorMatchLabels
    ensures !t.placement && !Truthy(t.localCluster) && t.ruleSelectorMatchLabels.None? ==>
      r == t.ruleClusterLabelsMatchLabels
    ensures r.None? <==>
      !t.placement && (Truthy(t.localCluster) || (t.ruleSelectorMatchLabels.None? && t.ruleClusterLabelsMatchLabels.None?))
  {
    if t.placement then Some(t.placementMatchLabels.GetOr(RawLabels([])))
    else if Truthy(t.localCluster) then None
    else if t.ruleSelectorMatchLabels.Some? then t.ruleSelectorMatchLabels
    else t.ruleClusterLabelsMatchLabels
  }

  /** The rows built from a label map: ids 0..n-1 in entry order, all valid. */
  function RowsOf(m: seq<(string, string)>): (r: seq<LabelEntry>)
    ensures |r| == |m|
    ensures forall i :: 0 <= i < |m| ==> r[i] == LabelEntry(i, m[i].0, m[i].1, true)
  {
    if m == [] then [] else RowsOf(m[..|m| - 1]) + [LabelEntry(|m| - 1, m[|m| - 1].0, m[|m| - 1].1, true)]
  }

  /** `Object.entries(m)` rendered as `name=value`. */
  function Rendered(m: seq<(string, string)>): seq<string> {
    if m == [] then [] else Rendered(m[..|m| - 1]) + [m[|m| - 1].0 + "=" + m[|m| - 1].1]
  }

  /** The `active` record `reverse` sets on an unset control (`None`: it stays unset). */
  function Reversed(t: Template, removeVs: RemoveVs): Option<Selector> {
    match PickMatchLabels(t)
    case None => Some(Selector(false, [BlankEntry], 1))
    case Some(raw) =>
      match removeVs(raw)
      case None => None
      case Some(m) => Some(Selector(true, RowsOf(m), |m|))
  }

  /** A selector rebuilt from a label map keeps ids equal to indices, summarises back to
      that map's `name=value` pairs when no name or value is empty, and then validates
      without error when the names are distinct (as an object's keys are). */
  lemma ReverseRoundTrip(m: seq<(string, string)>)
    ensures IdsMatchIndices(Selector(true, RowsOf(m), |m|))
    ensures NonEmptyEntries(m) ==> SummaryPairs(RowsOf(m)) == Rendered(m)
    ensures NonEmptyEntries(m) && KeysAreDistinct(m) ==> ListErrors(RowsOf(m)) == []
  {
    if NonEmptyEntries(m) {
      SummaryOfRows(m);
      if KeysAreDistinct(m) {
        RowsValidate(m);
      }
    }
  }

  predicate NonEmptyEntries(m: seq<(string, string)>) {
    forall i :: 0 <= i < |m| ==> m[i].0 != "" && m[i].1 != ""
  }

  predicate KeysAreDistinct(m: seq<(string, string)>) {
    forall i, j :: 0 <= i < j < |m| ==> m[i].0 != m[j].0
  }

  lemma RowsValidate(m: seq<(string, string)>)
    requires NonEmptyEntries(m) && KeysAreDistinct(m)
    ensures ListErrors(RowsOf(m)) == []
  {
    var rows := RowsOf(m);
    assert FieldsFilled(rows);
    assert NamesDistinct(rows);
    ListErrorsEmptyIff(rows);
  }

  lemma {:induction false} SummaryOfRows(m: seq<(string, string)>)
    requires NonEmptyEntries(m)
    ensures SummaryPairs(RowsOf(m)) == Rendered(m)
  {
    if m != [] {
      var p := m[..|m| - 1];
      SummaryOfRows(p);
      assert RowsOf(m)[..|m| - 1] == RowsOf(p);
    }
  }

  // ---------------------------------------------------------------------------
  // The form control

  /** The form control the editor works on. `showData` holds the rows of an existing
      placement rule (empty when there is none); `controlType` is the control's `type`. */
  class Control {
    var active: Option<Selector>
    const showData: seq<LabelEntry>
    const controlType: string

    constructor (active: Option<Selector>, showData: seq<LabelEntry>, controlType: string)
      ensures this.active == active && this.showData == showData && this.controlType == controlType
    {
      this.active := active;
      this.showData := showData;
      this.controlType := controlType;
    }

    /** The component's constructor: an unset `active` becomes a blank editor, or the
        rows of the existing rule. */
    method InitSelector()
      modifies this`active
      ensures active == Initialized(old(active), showData)
    {
      if active.None? {
        if showData == [] {
          active := Some(Selector(true, [BlankEntry], 1));
        } else {
          active := Some(Selector(true, showData, |showData|));
        }
      }
    }

    predicate ModeSelected()
      reads this
    {
      active.Some? && active.value.mode
    }

    /** Fields and buttons are disabled when an existing rule is shown or the mode is off. */
    predicate IsReadOnly()
      reads this
    {
      |showData| > 0 || !ModeSelected()
    }

    /** `addLabelToList`; it reaches into `active` only when asked to add. */
    method AddLabelToList(modeSelected: bool)
      requires modeSelected ==> active.Some?
      modifies this`active
      ensures active == if modeSelected then Some(WithNewLabel(old(active).value)) else old(active)
    {
      if modeSelected {
        var a := active.value;
        active := Some(a.(clusterLabelsList := a.clusterLabelsList + [LabelEntry(a.clusterLabelsListID, "", "", true)],
                          clusterLabelsListID := a.clusterLabelsListID + 1));
      }
    }

    /** The add button's click: adds a row exactly when the editor is not read-only. */
    method AddButtonClick()
      modifies this`active
      ensures old(IsReadOnly()) ==> active == old(active)
      ensures !old(IsReadOnly()) ==> active == Some(WithNewLabel(old(active).value))
    {
      AddLabelToList(!IsReadOnly());
    }

    /** `addLabelKeyPress` (`activation`: a click or the Enter key): it passes no mode,
        so it never adds a row. */
    method AddLabelKeyPress(activation: bool)
      modifies this`active
      ensures active == old(active)
    {
      if activation {
        AddLabelToList(false);
      }
    }

    /** `removeLabelFromList`: unless read-only, the row at index `itemId` is soft-removed. */
    method RemoveLabelFromList(itemId: int, isReadOnly: bool)
      requires !isReadOnly ==> active.Some? && 0 <= itemId < |active.value.clusterLabelsList|
      modifies this`active
      ensures active == if isReadOnly then old(active) else Some(SoftRemoved(old(active).value, itemId))
    {
      if !isReadOnly {
        var a := active.value;
        var e := a.clusterLabelsList[itemId];
        active := Some(a.(clusterLabelsList := a.clusterLabelsList[itemId := e.(validValue := false)]));
      }
    }

    /** `removeLabelKeyPress`: the target's id is used as the index and read-only mode is
        not checked. */
    method RemoveLabelKeyPress(activation: bool, targetId: int)
      requires activation ==> active.Some? && 0 <= targetId < |active.value.clusterLabelsList|
      modifies this`active
      ensures active == if activation then Some(SoftRemoved(old(active).value, targetId)) else old(active)
    {
      if activation {
        RemoveLabelFromList(targetId, false);
      }
    }

    /** `handleChange`: with a truthy target name, edits the row at index `targetID` if it
        exists; a missing or empty target name changes nothing. */
    method HandleChange(value: string, targetName: Option<string>, targetID: int)
      requires HasTargetName(targetName) ==> active.Some?
      modifies this`active
      ensures !HasTargetName(targetName) ==> active == old(active)
      ensures HasTargetName(targetName) ==> active == Some(Edited(old(active).value, targetName.value, value, targetID))
    {
      if targetName.Some? && targetName.value != "" {
        var a := active.value;
        var list := a.clusterLabelsList;
        if 0 <= targetID < |list| {
          var e := list[targetID];
          if targetName.value == "labelName" {
            e := e.(labelName := value);
          } else if targetName.value == "labelValue" {
            e := e.(labelValue := value);
          }
          e := e.(validValue := true);
          active := Some(a.(clusterLabelsList := list[targetID := e]));
        }
      }
    }

    /** `handleMode`: the checkbox value becomes the mode when `active` exists. */
    method HandleMode(checked: bool)
      modifies this`active
      ensures old(active).None? ==> active == None
      ensures old(active).Some? ==> active == Some(old(active).value.(mode := checked))
    {
      if active.Some? {
        active := Some(active.value.(mode := checked));
      }
    }

    /** `validation`: appends the selector's errors to the exceptions received. */
    method Validation(exceptions: seq<Exception>, controlId: string) returns (r: seq<Exception>)
      ensures r == exceptions + ValidationErrors(active, controlId)
    {
      r := exceptions;
      if active.Some? && active.value.mode {
        var list := active.value.clusterLabelsList;
        if |list| == 0 {
          r := r + [Exception(MissingValue, [], LabelsSection(controlId))];
        }
        r := AppendRowErrors(list, r);
      }
    }

    predicate SummaryEnabled()
      reads this
    {
      active.Some? && controlType != "hidden" && active.value.mode
    }

    /** `summarize`: appends the `name=value` pairs when the mode is on and the control is
        not hidden. */
    method Summarize(summary: seq<string>) returns (r: seq<string>)
      ensures r == summary + (if SummaryEnabled() then SummaryPairs(active.value.clusterLabelsList) else [])
    {
      r := summary;
      if SummaryEnabled() {
        var list := active.value.clusterLabelsList;
        var i := 0;
        while i < |list|
          invariant 0 <= i <= |list|
          invariant r == summary + SummaryPairs(list[..i])
        {
          if list[i].labelName != "" && list[i].labelValue != "" {
            r := r + [list[i].labelName + "=" + list[i].labelValue];
          }
          assert list[..i + 1][..i] == list[..i];
          i := i + 1;
        }
        assert list[..i] == list;
      }
    }

    /** `summary`: one `Selector labels` item whose description joins the pairs with
        `, `, or nothing (`undefined`) when the summary is disabled. */
    method Summary() returns (r: Option<SummaryItem>)
      ensures r.Some? <==> SummaryEnabled()
      ensures r.Some? ==> r.value == SummaryItem("Selector labels", Join(SummaryPairs(active.value.clusterLabelsList), ", "))
    {
      if !SummaryEnabled() {
        return None;
      }
      var labels := Summarize([]);
      assert labels == SummaryPairs(active.value.clusterLabelsList);
      return Some(SummaryItem("Selector labels", Join(labels, ", ")));
    }

    /** `reverse`: on an unset control, rebuilds `active` from the template. */
    method Reverse(t: Template, removeVs: RemoveVs)
      modifies this`active
      ensures old(active).Some? ==> active == old(active)
      ensures old(active).None? ==> active == Reversed(t, removeVs)
    {
      if active.None? {
        var matchLabels: Option<RawLabels> := None;
        if t.placement {
          matchLabels := Some(t.placementMatchLabels.GetOr(RawLabels([])));
        } else if !Truthy(t.localCluster) {
          matchLabels := t.ruleSelectorMatchLabels;
          if matchLabels.None? {
            matchLabels := t.ruleClusterLabelsMatchLabels;
          }
        }
        if matchLabels.Some? {
          var stripped := removeVs(matchLabels.value);
          if stripped.Some? {
            var m := stripped.value;
            var rows: seq<LabelEntry> := [];
            var id := 0;
            while id < |m|
              invariant 0 <= id <= |m|
              invariant rows == RowsOf(m[..id])
            {
              rows := rows + [LabelEntry(id, m[id].0, m[id].1, true)];
              assert m[..id + 1][..id] == m[..id];
              id := id + 1;
            }
            assert m[..id] == m;
            active := Some(Selector(true, rows, |rows|));
          }
        } else {
          active := Some(Selector(false, [BlankEntry], 1));
        }
      }
    }
  }
}
