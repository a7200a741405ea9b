/** Which columns a merge matches on (`cols_to_check`) and which it overwrites
    (`cols_to_update`): the defaults taken from the DataFrame's column types, and the
    extension of the update columns with every loaded column left unclassified. */
module Columns {
  import opened Seqs
  import opened Tables

  /** What `select_dtypes(include=['float','int'])` selects. */
  predicate IsNumeric(col: Column)
  {
    col.numeric
  }

  /** What `select_dtypes(exclude=['float','int'])` selects. */
  predicate IsText(col: Column)
  {
    !col.numeric
  }

  /** `data.select_dtypes(include=['float','int']).columns`, in DataFrame order. */
  function NumericColumns(data: DataFrame): (names: seq<string>)
    ensures forall c :: c in names <==> exists col :: col in data && col.name == c && col.numeric
    ensures IsSubsequence(names, ColumnNames(data))
  {
    var selected := Filter(IsNumeric, data);
    MapFilterSubsequence(ColumnName, IsNumeric, data);
    assert forall i :: 0 <= i < |selected| ==> selected[i] in selected;
    ColumnNames(selected)
  }

  /** `data.select_dtypes(exclude=['float','int']).columns`, in DataFrame order. */
  function NonNumericColumns(data: DataFrame): (names: seq<string>)
    ensures forall c :: c in names <==> exists col :: col in data && col.name == c && !col.numeric
    ensures IsSubsequence(names, ColumnNames(data))
  {
    var selected := Filter(IsText, data);
    MapFilterSubsequence(ColumnName, IsText, data);
    assert forall i :: 0 <= i < |selected| ==> selected[i] in selected;
    ColumnNames(selected)
  }

  /** The match columns: the caller's `cols_to_check` when non-empty, otherwise every
      non-numeric column. They come out empty exactly when the caller gave none and
      every column is numeric, which is the case the merge loader rejects. */
  function KeyColumns(data: DataFrame, colsToCheck: seq<string>): (keys: seq<string>)
    ensures |colsToCheck| > 0 ==> keys == colsToCheck
    ensures |colsToCheck| == 0 ==> keys == NonNumericColumns(data)
    ensures keys == [] <==> colsToCheck == [] && forall col :: col in data ==> col.numeric
  {
    if |colsToCheck| > 0 then colsToCheck
    else
      var keys := NonNumericColumns(data);
      assert keys == [] ==> forall col :: col in data ==> col.numeric by {
        if keys == [] {
          forall col | col in data ensures col.numeric {
            assert col.numeric || col.name in keys;
          }
        }
      }
      keys
  }

  /** The update columns before extension: the caller's `cols_to_update` when non-empty,
      otherwise every numeric column. */
  function UpdateColumns(data: DataFrame, colsToUpdate: seq<string>): (updates: seq<string>)
    ensures |colsToUpdate| > 0 ==> updates == colsToUpdate
    ensures |colsToUpdate| == 0 ==> updates == NumericColumns(data)
  {
    if |colsToUpdate| > 0 then colsToUpdate else NumericColumns(data)
  }

  /** With no columns given, every DataFrame column is a key or an update column, and
      with distinct column names none is both. */
  lemma DefaultsPartitionColumns(data: DataFrame)
    ensures forall c :: c in ColumnNames(data) <==>
      c in KeyColumns(data, []) || c in UpdateColumns(data, [])
    ensures NoDuplicates(ColumnNames(data)) ==>
      forall c :: c in KeyColumns(data, []) ==> c !in UpdateColumns(data, [])
  {
    var names := ColumnNames(data);
    forall c | c in names ensures c in KeyColumns(data, []) || c in UpdateColumns(data, []) {
      var i :| 0 <= i < |data| && names[i] == c;
      assert data[i] in data;
    }
    forall c | c in KeyColumns(data, []) || c in UpdateColumns(data, []) ensures c in names {
      var col :| col in data && col.name == c;
      var i :| 0 <= i < |data| && data[i] == col;
      assert names[i] == c;
    }
    if NoDuplicates(names) {
      forall c | c in KeyColumns(data, []) ensures c !in UpdateColumns(data, []) {
        forall i, j | 0 <= i < |data| && 0 <= j < |data| && data[i].name == c && data[j].name == c
          ensures data[i].numeric == data[j].numeric
        {
          assert names[i] == names[j];
        }
      }
    }
  }

  /** `[col for col in all_fields if col not in cols_to_check + cols_to_update]`. */
  function Unclassified(allFields: seq<string>, keys: seq<string>, updates: seq<string>): (rest: seq<string>)
    ensures forall c :: c in rest <==> c in allFields && c !in keys && c !in updates
    ensures IsSubsequence(rest, allFields)
  {
    Filter(NotIn(keys + updates), allFields)
  }

  /** `cols_to_update += Unclassified(...)`: the update columns keep their order and come
      first; after them come the loaded columns that were neither keys nor update
      columns, in loading order; afterwards every loaded column is a key or an update
      column. */
  function ExtendedUpdates(allFields: seq<string>, keys: seq<string>, updates: seq<string>): (extended: seq<string>)
    ensures updates <= extended
    ensures forall c :: c in allFields ==> c in keys || c in extended
    ensures forall c :: c in extended[|updates|..] ==> c in allFields && c !in keys && c !in updates
    ensures IsSubsequence(extended[|updates|..], allFields)
  {
    var added := Unclassified(allFields, keys, updates);
    assert (updates + added)[|updates|..] == added;
    updates + added
  }

  /** With distinct loaded columns, the appended columns are distinct too. */
  lemma AppendedColumnsDistinct(allFields: seq<string>, keys: seq<string>, updates: seq<string>)
    requires NoDuplicates(allFields)
    ensures NoDuplicates(ExtendedUpdates(allFields, keys, updates)[|updates|..])
  {
    FilterNoDuplicates(NotIn(keys + updates), allFields);
    assert ExtendedUpdates(allFields, keys, updates)[|updates|..] == Unclassified(allFields, keys, updates);
  }

  /** Extending a second time adds nothing. */
  lemma ExtendIdempotent(allFields: seq<string>, keys: seq<string>, updates: seq<string>)
    ensures ExtendedUpdates(allFields, keys, ExtendedUpdates(allFields, keys, updates))
         == ExtendedUpdates(allFields, keys, updates)
  {
    var extended := ExtendedUpdates(allFields, keys, updates);
    FilterRejectsAll(NotIn(keys + extended), allFields);
    assert extended + [] == extended;
  }

  /** The `UPDATE SET` list is empty exactly when no update columns were given or
      defaulted and every loaded column is a key. */
  lemma UpdateListEmptyIff(allFields: seq<string>, keys: seq<string>, updates: seq<string>)
    ensures ExtendedUpdates(allFields, keys, updates) == [] <==>
      updates == [] && forall c :: c in allFields ==> c in keys
  {
    var extended := ExtendedUpdates(allFields, keys, updates);
    if updates == [] && forall c :: c in allFields ==> c in keys {
      FilterRejectsAll(NotIn(keys + updates), allFields);
    }
  }
}
