/**
 * The choice tables of the Ticket model (status, priority, support level)
 * and the label lookup `dict(TABLE).get(code, code)` that the views use to
 * turn a stored code into its display label.
 */
module Choices {
  import opened Wrappers

  /** One `(code, label)` pair of a Django choices list. */
  datatype Choice = Choice(code: string, display: string)

  const StatusChoices: seq<Choice> := [
    Choice("A", "Aberto"),
    Choice("EA", "Em Análise"),
    Choice("EE", "Em Execução"),
    Choice("C", "Concluído"),
    Choice("F", "Fechado"),
    Choice("R", "Reaberto")
  ]

  const PriorityChoices: seq<Choice> := [
    Choice("N", "Novo"),
    Choice("B", "Baixa"),
    Choice("MB", "Muito Baixa"),
    Choice("M", "Média"),
    Choice("A", "Alta"),
    Choice("MA", "Muito Alta")
  ]

  const LevelChoices: seq<Choice> := [
    Choice("N1", "N1"),
    Choice("N2", "N2"),
    Choice("N3", "N3")
  ]

  /** Field defaults of the Ticket model. */
  const DefaultStatus: string := "A"
  /** The priority default is the label "Novo", not the code "N". */
  const DefaultPriority: string := "Novo"

  /** Status codes used by the workflow. */
  const Open: string := "A"
  const Completed: string := "C"
  const Closed: string := "F"
  const Reopened: string := "R"

  predicate IsCode(table: seq<Choice>, key: string) {
    exists i :: 0 <= i < |table| && table[i].code == key
  }

  /** The codes of each table, in table order, without their labels. */
  const StatusCodes: seq<string> := ["A", "EA", "EE", "C", "F", "R"]
  const PriorityCodes: seq<string> := ["N", "B", "MB", "M", "A", "MA"]
  const LevelCodes: seq<string> := ["N1", "N2", "N3"]

  predicate IsStatusCode(key: string) { key in StatusCodes }
  predicate IsPriorityCode(key: string) { key in PriorityCodes }
  predicate IsLevelCode(key: string) { key in LevelCodes }

  /** The code lists are exactly the codes the tables pair with labels. */
  lemma CodeListsMatchTables()
    ensures forall key :: IsStatusCode(key) <==> IsCode(StatusChoices, key)
    ensures forall key :: IsPriorityCode(key) <==> IsCode(PriorityChoices, key)
    ensures forall key :: IsLevelCode(key) <==> IsCode(LevelChoices, key)
  {
    assert forall i :: 0 <= i < |StatusChoices| ==> StatusChoices[i].code == StatusCodes[i];
    assert forall i :: 0 <= i < |PriorityChoices| ==> PriorityChoices[i].code == PriorityCodes[i];
    assert forall i :: 0 <= i < |LevelChoices| ==> LevelChoices[i].code == LevelCodes[i];
  }

  /** No code occurs twice in the table. */
  predicate DistinctCodes(table: seq<Choice>) {
    forall i, j :: 0 <= i < j < |table| ==> table[i].code != table[j].code
  }

  /**
   * `dict(table).get(key, key)`: the label of the last pair whose code is
   * `key` (a later pair overrides an earlier one in `dict`), or `key`
   * itself when no pair has that code.
   */
  function Lookup(table: seq<Choice>, key: string): string
  {
    if table == [] then key
    else if table[|table| - 1].code == key then table[|table| - 1].display
    else Lookup(table[..|table| - 1], key)
  }

  /**
   * The label of a status, priority or level code as the views print it:
   * the table's label for a code, the raw value otherwise. Each agrees with
   * `Lookup` on its table for every key (`StatusLabelMatchesTable` and its two siblings).
   */
  function StatusLabel(key: string): string {
    if key == "A" then "Aberto"
    else if key == "EA" then "Em Análise"
    else if key == "EE" then "Em Execução"
    else if key == "C" then "Concluído"
    else if key == "F" then "Fechado"
    else if key == "R" then "Reaberto"
    else key
  }

  function PriorityLabel(key: string): string {
    if key == "N" then "Novo"
    else if key == "B" then "Baixa"
    else if key == "MB" then "Muito Baixa"
    else if key == "M" then "Média"
    else if key == "A" then "Alta"
    else if key == "MA" then "Muito Alta"
    else key
  }

  function LevelLabel(key: string): string {
    if key == "N1" then "N1"
    else if key == "N2" then "N2"
    else if key == "N3" then "N3"
    else key
  }

  /**
   * How the optional level is rendered inside an f-string: a missing value
   * (`None`) prints as "None", a present one as its label or raw code.
   */
  function LevelDisplay(key: Option<string>): string
  {
    match key
    case None => "None"
    case Some(k) => LevelLabel(k)
  }

  lemma {:induction false} LookupOfCode(table: seq<Choice>, i: nat)
    requires DistinctCodes(table) && i < |table|
    ensures Lookup(table, table[i].code) == table[i].display
  {
    var n := |table| - 1;
    if i < n {
      assert table[n].code != table[i].code;
      var init := table[..n];
      assert DistinctCodes(init) by {
        forall a, b | 0 <= a < b < |init| ensures init[a].code != init[b].code {
          assert init[a] == table[a] && init[b] == table[b];
        }
      }
      assert init[i] == table[i];
      LookupOfCode(init, i);
    }
  }

  lemma {:induction false} LookupOfNonCode(table: seq<Choice>, key: string)
    requires !IsCode(table, key)
    ensures Lookup(table, key) == key
  {
    if table != [] {
      var n := |table| - 1;
      assert table[n].code != key;
      var init := table[..n];
      assert !IsCode(init, key) by {
        forall i | 0 <= i < |init| ensures init[i].code != key {
          assert init[i] == table[i];
        }
      }
      LookupOfNonCode(init, key);
    }
  }

  /** All three tables have pairwise-distinct codes. */
  lemma TablesHaveDistinctCodes()
    ensures DistinctCodes(StatusChoices)
    ensures DistinctCodes(PriorityChoices)
    ensures DistinctCodes(LevelChoices)
  {
  }

  /**
   * Every code of a table maps to exactly one label: the one it is paired
   * with, whatever position it has.
   */
  lemma EachCodeHasOneLabel(table: seq<Choice>, i: nat, j: nat)
    requires DistinctCodes(table) && i < |table| && j < |table|
    requires table[i].code == table[j].code
    ensures i == j && table[i].display == table[j].display
    ensures Lookup(table, table[i].code) == table[i].display
  {
    LookupOfCode(table, i);
  }

  /**
   * The defaults: status "A" is a status code labelled "Aberto"; priority
   * "Novo" is not a priority code, so its label lookup falls back to the
   * raw value "Novo".
   */
  lemma DefaultsAndLabels()
    ensures IsStatusCode(DefaultStatus) && Lookup(StatusChoices, DefaultStatus) == "Aberto"
    ensures !IsPriorityCode(DefaultPriority)
    ensures Lookup(PriorityChoices, DefaultPriority) == "Novo"
  {
    assert StatusChoices[0].code == DefaultStatus;
    TablesHaveDistinctCodes();
    LookupOfCode(StatusChoices, 0);
    LookupOfNonCode(PriorityChoices, DefaultPriority);
  }

  /** A table's label function is `dict(table).get(key, key)`, for every key. */
  lemma {:induction false} LabelOfTable(table: seq<Choice>, labelOf: string -> string, key: string)
    requires DistinctCodes(table)
    requires forall i :: 0 <= i < |table| ==> labelOf(table[i].code) == table[i].display
    requires !IsCode(table, key) ==> labelOf(key) == key
    ensures labelOf(key) == Lookup(table, key)
  {
    if IsCode(table, key) {
      var i :| 0 <= i < |table| && table[i].code == key;
      LookupOfCode(table, i);
    } else {
      LookupOfNonCode(table, key);
    }
  }

  /** Each label function is the label lookup of its table. */
  lemma StatusLabelMatchesTable(key: string)
    ensures StatusLabel(key) == Lookup(StatusChoices, key)
  {
    TablesHaveDistinctCodes();
    CodeListsMatchTables();
    LabelOfTable(StatusChoices, StatusLabel, key);
  }

  lemma PriorityLabelMatchesTable(key: string)
    ensures PriorityLabel(key) == Lookup(PriorityChoices, key)
  {
    TablesHaveDistinctCodes();
    CodeListsMatchTables();
    LabelOfTable(PriorityChoices, PriorityLabel, key);
  }

  lemma LevelLabelMatchesTable(key: string)
    ensures LevelLabel(key) == Lookup(LevelChoices, key)
  {
    TablesHaveDistinctCodes();
    CodeListsMatchTables();
    LabelOfTable(LevelChoices, LevelLabel, key);
  }
}
