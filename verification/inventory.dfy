/** The worktree inventory as an absence proof: "no workspace on this branch" is
    only ever concluded from a complete, strictly decoded list. */
module Inventory {
  import opened Options

  /** A JSON value; objects keep their fields by name. */
  datatype Json = Null | Boolean(b: bool) | Number | Text(text: string) | List(items: seq<Json>) | Object(fields: map<string, Json>)

  /** One decoded row; no branch marks a worktree that affirms it has none. */
  datatype Entry = Entry(branch: Option<string>, path: string)

  /** A flag: absent, or a value that must be a boolean. */
  datatype Flag = Malformed | Missing | Flag(b: bool)

  function Field(row: Json, name: string): Option<Json>
    requires row.Object?
  {
    if name in row.fields then Some(row.fields[name]) else None
  }

  /** decodeInventoryFlag. */
  function DecodeFlag(raw: Option<Json>): Flag {
    if raw.None? then Missing else if raw.value.Boolean? then Flag(raw.value.b) else Malformed
  }

  predicate Affirmed(f: Flag) {
    f.Flag? && f.b
  }

  /** One iteration of decodeWorktreeInventory's loop. */
  function DecodeRow(row: Json): Option<Entry> {
    if !row.Object? then None
    else
      var detached, bare := DecodeFlag(Field(row, "is_detached")), DecodeFlag(Field(row, "is_bare"));
      var branch, path := Field(row, "branch"), Field(row, "path");
      var branchless := Affirmed(detached) || Affirmed(bare);
      if detached.Malformed? || bare.Malformed? || (Affirmed(detached) && Affirmed(bare)) then None
      else if path.None? || !path.value.Text? || path.value.text == "" then None
      else if branch.None? then if branchless then Some(Entry(None, path.value.text)) else None
      else if branch.value.Null? then
        if branchless || (detached.Missing? && bare.Missing?) then Some(Entry(None, path.value.text)) else None
      else if !branch.value.Text? || branch.value.text == "" || branchless then None
      else Some(Entry(Some(branch.value.text), path.value.text))
  }

  /** The inventory decodes: it is a list, and every row of it does. */
  predicate Decodes(raw: Option<Json>) {
    raw.Some? && raw.value.List? && forall i :: 0 <= i < |raw.value.items| ==> DecodeRow(raw.value.items[i]).Some?
  }

  method DecodeInventory(raw: Option<Json>) returns (entries: Option<seq<Entry>>)
    ensures entries.Some? <==> Decodes(raw)
    ensures entries.Some? ==> |entries.value| == |raw.value.items|
    ensures entries.Some? ==> forall i :: 0 <= i < |entries.value| ==> DecodeRow(raw.value.items[i]) == Some(entries.value[i])
  {
    if raw.None? || !raw.value.List? { return None; }
    var rows := raw.value.items;
    var out: seq<Entry> := [];
    for i := 0 to |rows|
      invariant |out| == i && forall j :: 0 <= j < i ==> DecodeRow(rows[j]) == Some(out[j])
    {
      var entry := DecodeRow(rows[i]);
      if entry.None? { return None; }
      out := out + [entry.value];
    }
    entries := Some(out);
  }

  /** A row of the workspace list: its id, empty when absent, and checkout path. */
  datatype Workspace = Workspace(id: string, checkout: string)

  datatype Found = Unknown | NoBranch | Branch(path: string, ws: string)

  /** FindWorkspaceByBranch, given both inventories; the second one is read only
      when the first names the branch, and None is a failed read. */
  method FindByBranch(raw: Option<Json>, workspaces: Option<seq<Workspace>>, branch: string) returns (found: Found)
    ensures found.NoBranch? <==> Decodes(raw) && !NamesBranch(raw.value.items, branch)
    ensures found.Unknown? <==> !Decodes(raw) || (NamesBranch(raw.value.items, branch) && workspaces.None?)
    ensures found.Branch? ==>
      (exists i :: IsFirst(raw.value.items, branch, i) && Located(raw.value.items[i], branch, found.path))
    ensures found.Branch? ==>
      if found.ws != "" then exists k :: IsAt(workspaces.value, found.path, k) && workspaces.value[k].id == found.ws
      else forall w :: w in workspaces.value ==> w.id == "" || w.checkout != found.path
  {
    var entries := DecodeInventory(raw);
    if entries.None? { return Unknown; }
    var rows := raw.value.items;
    var path := "";
    var i := 0;
    while i < |entries.value| && path == ""
      invariant i <= |rows|
      invariant path == "" ==> forall j :: 0 <= j < i ==> !Names(rows[j], branch)
      invariant path != "" ==> i > 0 && IsFirst(rows, branch, i - 1) && Located(rows[i - 1], branch, path)
    {
      NamesIsDecoded(rows[i], branch);
      RowDecodesExactly(rows[i]);
      if entries.value[i].branch == Some(branch) { path := entries.value[i].path; }
      i := i + 1;
    }
    if path == "" { return NoBranch; }
    assert NamesBranch(rows, branch);
    if workspaces.None? { return Unknown; }
    for k := 0 to |workspaces.value|
      invariant forall w :: w in workspaces.value[..k] ==> w.id == "" || w.checkout != path
      invariant forall j :: 0 <= j < k ==> workspaces.value[j].id == "" || workspaces.value[j].checkout != path
    {
      var w := workspaces.value[k];
      if w.id != "" && w.checkout == path {
        assert IsAt(workspaces.value, path, k);
        return Branch(path, w.id);
      }
      assert workspaces.value[..k + 1] == workspaces.value[..k] + [w];
    }
    assert workspaces.value[..|workspaces.value|] == workspaces.value;
    found := Branch(path, "");
  }

  /** The first workspace with an id that is checked out there. */
  predicate IsAt(workspaces: seq<Workspace>, path: string, k: int) {
    0 <= k < |workspaces| && workspaces[k].id != "" && workspaces[k].checkout == path &&
    forall j :: 0 <= j < k ==> workspaces[j].id == "" || workspaces[j].checkout != path
  }

  /** The row, whatever else is wrong with it, says it is on this branch. */
  predicate Names(row: Json, branch: string) {
    row.Object? && Field(row, "branch") == Some(Text(branch))
  }

  ghost predicate NamesBranch(rows: seq<Json>, branch: string) {
    exists i :: 0 <= i < |rows| && Names(rows[i], branch)
  }

  predicate Located(row: Json, branch: string, path: string) {
    Names(row, branch) && Field(row, "path") == Some(Text(path)) && path != ""
  }

  predicate IsFirst(rows: seq<Json>, branch: string, i: int) {
    0 <= i < |rows| && Names(rows[i], branch) && forall j :: 0 <= j < i ==> !Names(rows[j], branch)
  }

  /** Decoding neither hides nor invents the branch a row names. */
  lemma NamesIsDecoded(row: Json, branch: string)
    requires DecodeRow(row).Some?
    ensures Names(row, branch) <==> DecodeRow(row).value.branch == Some(branch)
    ensures DecodeRow(row).value.path != ""
  {
  }

  /** The flag is there and is not a boolean. */
  predicate BadFlag(row: Json, name: string)
    requires row.Object?
  {
    name in row.fields && !row.fields[name].Boolean?
  }

  predicate Says(row: Json, name: string, b: bool)
    requires row.Object?
  {
    name in row.fields && row.fields[name] == Boolean(b)
  }

  predicate Branchless(row: Json)
    requires row.Object?
  {
    Says(row, "is_detached", true) || Says(row, "is_bare", true)
  }

  /** What the row says of its branch is consistent: named and not branchless; left out
      and branchless; or null and branchless, or null and with neither flag there. */
  predicate BranchFits(row: Json)
    requires row.Object?
  {
    if "branch" !in row.fields then Branchless(row)
    else if row.fields["branch"] == Null then
      Branchless(row) || ("is_detached" !in row.fields && "is_bare" !in row.fields)
    else row.fields["branch"].Text? && row.fields["branch"].text != "" && !Branchless(row)
  }

  /** A row decodes exactly when it is an object with a nonempty path, flags that are
      booleans and not both true, and a branch that fits them; and it decodes to that
      path and that branch. */
  lemma RowDecodesExactly(row: Json)
    ensures DecodeRow(row).Some? <==>
      row.Object? && "path" in row.fields && row.fields["path"].Text? && row.fields["path"].text != "" &&
      !BadFlag(row, "is_detached") && !BadFlag(row, "is_bare") &&
      !(Says(row, "is_detached", true) && Says(row, "is_bare", true)) && BranchFits(row)
    ensures DecodeRow(row).Some? ==>
      var e := DecodeRow(row).value;
      e.path == row.fields["path"].text &&
      e.branch == if "branch" in row.fields && row.fields["branch"].Text? then Some(row.fields["branch"].text) else None
  {
  }

  /** What a row must say for its worktree to count as having no branch: that it
      is detached or bare, and not both, or a null branch with no flag at all. */
  lemma BranchlessOnlyWhenAffirmed(row: Json)
    requires DecodeRow(row).Some?
    ensures DecodeRow(row).value.branch.None? <==>
      Affirmed(DecodeFlag(Field(row, "is_detached"))) != Affirmed(DecodeFlag(Field(row, "is_bare"))) ||
      (Field(row, "branch") == Some(Null) && Field(row, "is_detached").None? && Field(row, "is_bare").None?)
  {
  }
}
