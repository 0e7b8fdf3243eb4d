/**
 * The special-operations page: the table of bulk operations, the per-operation
 * input values, the rule that keeps an Execute button disabled, and the
 * loading/result state of a run together with the message it ends with.
 */
module SpecialOperations {
  import opened Wrappers
  import opened Types
  import Text

  datatype InputType = SelectInput | TextInput | NumberInput

  /** One declared input of an operation; a missing `required` is false. */
  datatype OperationInput = OperationInput(
    inputType: InputType,
    name: string,
    caption: string,
    options: Option<seq<string>>,
    required: bool)

  /** An operation as the page lists it; what `execute` calls on the backend is not part of it. */
  datatype Operation = Operation(
    id: string,
    title: string,
    description: string,
    inputs: Option<seq<OperationInput>>)

  const GroupBySoundtrackId := "group-by-soundtrack"

  const WeaponTypeInput := OperationInput(SelectInput, "weaponType", "Weapon Type", Some(WeaponTypeValues()), true)

  const DeleteByWeapon := Operation("delete-by-weapon", "Delete All by Weapon Type",
    "Remove all human beings with specified weapon type", Some([WeaponTypeInput]))
  const DeleteOneByWeapon := Operation("delete-one-by-weapon", "Delete One by Weapon Type",
    "Remove one human being with specified weapon type", Some([WeaponTypeInput]))
  const GroupBySoundtrack := Operation(GroupBySoundtrackId, "Group by Soundtrack",
    "Count human beings grouped by soundtrack name", None)
  const UpdateMood := Operation("update-mood", "Update All Moods to Sadness",
    "Set mood to SADNESS for all human beings", None)
  const AssignCars := Operation("assign-cars", "Assign Cars to Heroes",
    "Give red Lada Kalina to all heroes without cars", None)

  /** The operations, in the order the page shows them. */
  const Operations: seq<Operation> := [DeleteByWeapon, DeleteOneByWeapon, GroupBySoundtrack, UpdateMood, AssignCars]

  /** Ids are non-empty and distinct; only the two deletions take an input, a required weapon type. */
  lemma OperationsTableShape()
    ensures forall i :: 0 <= i < |Operations| ==> Operations[i].id != ""
    ensures forall i, j :: 0 <= i < j < |Operations| ==> Operations[i].id != Operations[j].id
    ensures forall i :: 0 <= i < |Operations| ==>
      (Operations[i].inputs.Some? <==> i < 2)
    ensures forall i :: 0 <= i < 2 ==> Operations[i].inputs == Some([WeaponTypeInput])
    ensures WeaponTypeInput.required && WeaponTypeInput.options == Some(WeaponTypeValues())
  {
  }

  /** Every choice of the weapon-type select names a weapon type, and every weapon type is a choice. */
  lemma WeaponTypeChoices(choice: string, w: WeaponType)
    ensures choice in WeaponTypeInput.options.value ==> ParseWeaponType(choice).Some?
    ensures WeaponTypeName(w) in WeaponTypeInput.options.value
  {
  }

  /** `operationData`: the input values typed so far, by operation id and then by input name. */
  type OperationData = map<string, map<string, string>>

  /** The values typed so far for an operation, or none when nothing was typed. */
  function InputsOf(data: OperationData, opId: string): map<string, string> {
    if opId in data then data[opId] else map[]
  }

  /** `!value`: an input counts as missing when it has no entry or holds the empty string. */
  predicate Missing(values: map<string, string>, name: string) {
    name !in values || values[name] == ""
  }

  /** `isOperationDisabled`: an operation with inputs waits for all of its required ones. */
  predicate IsOperationDisabled(op: Operation, data: OperationData) {
    op.inputs.Some? &&
    exists i :: 0 <= i < |op.inputs.value| &&
      op.inputs.value[i].required && Missing(InputsOf(data, op.id), op.inputs.value[i].name)
  }

  /** The state after `handleInputChange(opId, field, value)`. */
  function WithInput(data: OperationData, opId: string, field: string, value: string): (data': OperationData)
    ensures data'.Keys == data.Keys + {opId}
    ensures data'[opId].Keys == InputsOf(data, opId).Keys + {field}
    ensures data'[opId][field] == value
    ensures forall f :: f in InputsOf(data, opId) && f != field ==> data'[opId][f] == InputsOf(data, opId)[f]
    ensures forall o :: o in data && o != opId ==> data'[o] == data[o]
  {
    data[opId := InputsOf(data, opId)[field := value]]
  }

  /** Typing into one operation's inputs does not change whether another is disabled. */
  lemma InputChangeIsLocal(data: OperationData, op: Operation, opId: string, field: string, value: string)
    requires op.id != opId
    ensures IsOperationDisabled(op, WithInput(data, opId, field, value)) == IsOperationDisabled(op, data)
  {
    assert InputsOf(WithInput(data, opId, field, value), op.id) == InputsOf(data, op.id);
  }

  /**
   * After typing `value` into `field` of `op`, `op` is disabled exactly when some
   * required input is still missing: the edited one when `value` is empty, or another.
   */
  lemma DisabledAfterInputChange(data: OperationData, op: Operation, field: string, value: string)
    requires op.inputs.Some?
    ensures var ins := op.inputs.value;
      IsOperationDisabled(op, WithInput(data, op.id, field, value))
      <==> exists i :: 0 <= i < |ins| && ins[i].required &&
             if ins[i].name == field then value == "" else Missing(InputsOf(data, op.id), ins[i].name)
  {
    var ins := op.inputs.value;
    var after := InputsOf(WithInput(data, op.id, field, value), op.id);
    forall i | 0 <= i < |ins|
      ensures Missing(after, ins[i].name)
          <==> if ins[i].name == field then value == "" else Missing(InputsOf(data, op.id), ins[i].name)
    {
    }
  }

  /** Delete-by-weapon starts disabled, a chosen weapon type enables it, the placeholder disables it again. */
  lemma WeaponTypeSelectionScenario()
    ensures IsOperationDisabled(DeleteByWeapon, map[])
    ensures !IsOperationDisabled(DeleteByWeapon, WithInput(map[], "delete-by-weapon", "weaponType", "KNIFE"))
    ensures IsOperationDisabled(DeleteByWeapon,
      WithInput(WithInput(map[], "delete-by-weapon", "weaponType", "KNIFE"), "delete-by-weapon", "weaponType", ""))
    ensures forall data :: !IsOperationDisabled(GroupBySoundtrack, data)
  {
    assert DeleteByWeapon.inputs.value[0] == WeaponTypeInput;
    DisabledAfterInputChange(map[], DeleteByWeapon, "weaponType", "KNIFE");
    DisabledAfterInputChange(WithInput(map[], "delete-by-weapon", "weaponType", "KNIFE"),
                             DeleteByWeapon, "weaponType", "");
  }

  /** `!!loading`: an operation id counts as running unless it is the empty string. */
  predicate Running(loading: Option<string>) {
    loading.Some? && loading.value != ""
  }

  /** An Execute button is disabled while any operation runs, or while its own inputs are incomplete. */
  predicate ExecuteDisabled(loading: Option<string>, op: Operation, data: OperationData) {
    Running(loading) || IsOperationDisabled(op, data)
  }

  /** While any listed operation runs, no Execute button can be pressed. */
  lemma RunningLocksEveryButton(running: Operation, op: Operation, data: OperationData)
    requires running in Operations
    ensures ExecuteDisabled(Some(running.id), op, data)
  {
    OperationsTableShape();
  }

  /** What execute receives: the typed values for an operation that declares inputs, else nothing. */
  function ExecuteArgument(op: Operation, data: OperationData): (arg: Option<map<string, string>>)
    ensures arg.Some? <==> op.inputs.Some? && op.id in data
    ensures arg.Some? ==> arg.value == data[op.id]
  {
    if op.inputs.Some? && op.id in data then Some(data[op.id]) else None
  }

  /** What `operation.execute(data)` settled with: a value (a grouping, or nothing), or the `message` of the error it rejected with. */
  datatype Outcome =
    | Resolved(grouping: Option<seq<(string, int)>>)
    | Rejected(message: string)

  datatype ResultKind = Success | Failure

  /** The `result` banner. */
  datatype Banner = Banner(kind: ResultKind, message: string)

  /** One grouping entry: `${soundtrack}: ${count} human beings`. */
  function EntryLine(soundtrack: string, count: int): string {
    soundtrack + ": " + Text.IntDecimal(count) + " human beings"
  }

  function GroupingLines(entries: seq<(string, int)>): (lines: seq<string>)
    ensures |lines| == |entries|
    ensures forall i :: 0 <= i < |entries| ==> lines[i] == EntryLine(entries[i].0, entries[i].1)
  {
    if |entries| == 0 then [] else [EntryLine(entries[0].0, entries[0].1)] + GroupingLines(entries[1..])
  }

  function GroupingHeader(): string { "Grouping completed:" }

  function GroupingMessage(entries: seq<(string, int)>): string {
    GroupingHeader() + "\n" + Text.Join(GroupingLines(entries), "\n")
  }

  function SuccessMessage(title: string): string {
    title + " completed successfully!"
  }

  function ErrorMessage(title: string, message: string): string {
    "Error during " + title + ": " + message
  }

  /** The message `Object.entries(undefined)` throws with. */
  const EntriesOfUndefined := "Cannot convert undefined or null to object"

  /** The banner a run ends with. */
  function ResultBanner(op: Operation, outcome: Outcome): (b: Banner)
    ensures b.kind == Failure <==> outcome.Rejected? || (op.id == GroupBySoundtrackId && outcome.grouping.None?)
    ensures outcome.Rejected? ==> b.message == ErrorMessage(op.title, outcome.message)
    ensures outcome.Resolved? && op.id != GroupBySoundtrackId ==> b.message == SuccessMessage(op.title)
    ensures outcome.Resolved? && op.id == GroupBySoundtrackId && outcome.grouping.Some?
            ==> b.message == GroupingMessage(outcome.grouping.value)
  {
    match outcome
    case Rejected(message) => Banner(Failure, ErrorMessage(op.title, message))
    case Resolved(grouping) =>
      if op.id == GroupBySoundtrackId then
        if grouping.Some? then Banner(Success, GroupingMessage(grouping.value))
        else Banner(Failure, ErrorMessage(op.title, EntriesOfUndefined))
      else Banner(Success, SuccessMessage(op.title))
  }

  /** The error text names the operation and ends with the rejection's `message`, unchanged. */
  lemma ErrorMessageCarriesCause(title: string, message: string)
    ensures var m := ErrorMessage(title, message);
      var prefix := "Error during " + title + ": ";
      |prefix| <= |m| && m[..|prefix|] == prefix && m[|prefix|..] == message
  {
  }

  lemma EntryLineHasNoNewline(soundtrack: string, count: int)
    requires '\n' !in soundtrack
    ensures '\n' !in EntryLine(soundtrack, count)
  {
    Text.IntDecimalCharacters(count);
    assert '\n' !in ": " && '\n' !in " human beings";
  }

  lemma {:induction false} GroupingLinesHaveNoNewline(entries: seq<(string, int)>)
    requires forall i :: 0 <= i < |entries| ==> '\n' !in entries[i].0
    ensures forall i :: 0 <= i < |entries| ==> '\n' !in GroupingLines(entries)[i]
  {
    if |entries| > 0 {
      EntryLineHasNoNewline(entries[0].0, entries[0].1);
      GroupingLinesHaveNoNewline(entries[1..]);
    }
  }

  lemma HeaderHasNoNewline()
    ensures '\n' !in GroupingHeader()
  {
  }

  /**
   * The grouping message splits back into the header and one line per entry, in
   * entry order, provided no soundtrack name contains a newline; with no entries
   * it is the header and a newline.
   */
  lemma GroupingMessageLines(entries: seq<(string, int)>)
    requires forall i :: 0 <= i < |entries| ==> '\n' !in entries[i].0
    ensures |entries| == 0 ==> GroupingMessage(entries) == GroupingHeader() + "\n"
    ensures |entries| > 0 ==> Text.Split(GroupingMessage(entries), '\n') == [GroupingHeader()] + GroupingLines(entries)
  {
    if |entries| > 0 {
      var lines := GroupingLines(entries);
      GroupingLinesHaveNoNewline(entries);
      HeaderHasNoNewline();
      SplitLines(GroupingHeader(), lines);
      assert GroupingMessage(entries) == GroupingHeader() + ['\n'] + Text.Join(lines, ['\n']);
    }
  }

  /** SplitAfterHeader for newlines, stated over an arbitrary header so the solver does not unfold Split along a literal. */
  lemma SplitLines(header: string, lines: seq<string>)
    requires '\n' !in header && |lines| >= 1
    requires forall i :: 0 <= i < |lines| ==> '\n' !in lines[i]
    ensures Text.Split(header + ['\n'] + Text.Join(lines, ['\n']), '\n') == [header] + lines
  {
    Text.SplitAfterHeader(header, lines, '\n');
  }

  /** Two soundtracks, three and one records: the header, then one line each, in order. */
  lemma GroupingScenario()
    ensures GroupingMessage([("Imagine", 3), ("Bohemian Rhapsody", 1)])
         == "Grouping completed:\n" + "Imagine: 3 human beings" + "\n" + "Bohemian Rhapsody: 1 human beings"
  {
    var entries := [("Imagine", 3), ("Bohemian Rhapsody", 1)];
    assert Text.IntDecimal(3) == "3";
    assert Text.IntDecimal(1) == "1";
    assert entries[1..] == [("Bohemian Rhapsody", 1)];
    assert EntryLine("Imagine", 3) == "Imagine: 3 human beings";
    assert EntryLine("Bohemian Rhapsody", 1) == "Bohemian Rhapsody: 1 human beings";
    var lines := GroupingLines(entries);
    assert lines == ["Imagine: 3 human beings", "Bohemian Rhapsody: 1 human beings"];
    assert lines[1..] == ["Bohemian Rhapsody: 1 human beings"];
  }

  /** The page's state. */
  class SpecialOperationsPage {
    var loading: Option<string>
    var result: Option<Banner>
    var operationData: OperationData

    constructor ()
      ensures loading == None && result == None && operationData == map[]
    {
      loading := None;
      result := None;
      operationData := map[];
    }

    /** `handleInputChange`: sets one input of one operation. */
    method HandleInputChange(opId: string, field: string, value: string)
      modifies this`operationData
      ensures operationData == WithInput(old(operationData), opId, field, value)
    {
      operationData := WithInput(operationData, opId, field, value);
    }

    /** `executeOperation` up to the `await`: marks the run and returns the argument for `execute`. */
    method BeginExecute(op: Operation) returns (arg: Option<map<string, string>>)
      modifies this`loading, this`result
      ensures loading == Some(op.id) && result == None
      ensures arg == ExecuteArgument(op, operationData)
    {
      loading := Some(op.id);
      result := None;
      arg := ExecuteArgument(op, operationData);
    }

    /** `executeOperation` after the `await`: the banner, and `loading` cleared on either outcome. */
    method FinishExecute(op: Operation, outcome: Outcome)
      modifies this`loading, this`result
      ensures loading == None
      ensures result == Some(ResultBanner(op, outcome))
    {
      result := Some(ResultBanner(op, outcome));
      loading := None;
    }

    predicate ExecuteButtonDisabled(op: Operation)
      reads this
    {
      ExecuteDisabled(loading, op, operationData)
    }
  }

  /** A run of delete-by-weapon from a fresh page, as callers see it through the contracts. */
  method DeleteByWeaponRun(outcome: Outcome)
  {
    var page := new SpecialOperationsPage();
    assert page.ExecuteButtonDisabled(DeleteByWeapon) by {
      assert DeleteByWeapon.inputs.value[0] == WeaponTypeInput;
    }
    page.HandleInputChange("delete-by-weapon", "weaponType", "HAMMER");
    WeaponTypeSelectionScenario();
    assert WithInput(map[], "delete-by-weapon", "weaponType", "HAMMER")["delete-by-weapon"]["weaponType"] == "HAMMER";
    var arg := page.BeginExecute(DeleteByWeapon);
    assert arg == Some(map["weaponType" := "HAMMER"]);
    RunningLocksEveryButton(DeleteByWeapon, GroupBySoundtrack, page.operationData);
    assert page.ExecuteButtonDisabled(GroupBySoundtrack);
    page.FinishExecute(DeleteByWeapon, outcome);
    assert page.loading == None;
    assert outcome.Resolved? ==> page.result == Some(Banner(Success, SuccessMessage("Delete All by Weapon Type")));
  }
}
