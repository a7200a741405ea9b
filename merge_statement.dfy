/** The SQL text of a merge: the `ON` conjuncts, the `UPDATE SET` list, the
    transaction-wrapped `MERGE` script and the `DROP TABLE` of the staging table, with
    decoders that read the column lists back out of the text. */
module MergeStatement {
  import opened Wrappers
  import opened Seqs
  import opened Text
  import opened Tables

  /** Letters, digits and `_`: the characters the round trips allow in a column name. */
  predicate IsIdentifierChar(ch: char)
  {
    ('a' <= ch <= 'z') || ('A' <= ch <= 'Z') || ('0' <= ch <= '9') || ch == '_'
  }

  predicate IsIdentifier(s: string)
  {
    |s| > 0 && forall i :: 0 <= i < |s| ==> IsIdentifierChar(s[i])
  }

  predicate AllIdentifiers(names: seq<string>)
  {
    forall i :: 0 <= i < |names| ==> IsIdentifier(names[i])
  }

  predicate FieldsAreIdentifiers(schema: Schema)
  {
    forall i :: 0 <= i < |schema| ==> IsIdentifier(schema[i].name)
  }

  /** `f"target.{col} = source.{col}"`. */
  function Equality(col: string): string
  {
    "target." + col + " = source." + col
  }

  /** One equality per column, in column order. */
  function Equalities(cols: seq<string>): (eqs: seq<string>)
  {
    seq(|cols|, i requires 0 <= i < |cols| => Equality(cols[i]))
  }

  /** Reads the column back out of `target.<col> = source.<col>`. */
  function ParseEquality(s: string): Option<string>
  {
    if |s| >= 17 && (|s| - 17) % 2 == 0 then
      var col := s[7..7 + (|s| - 17) / 2];
      if s == Equality(col) then Some(col) else None
    else None
  }

  function ParseEqualities(pieces: seq<string>): Option<seq<string>>
    decreases |pieces|
  {
    if pieces == [] then Some([])
    else
      var col := ParseEquality(pieces[0]);
      var cols := ParseEqualities(pieces[1..]);
      if col.Some? && cols.Some? then Some([col.value] + cols.value) else None
  }

  /** Every equality names exactly one column, and it can be read back. */
  lemma ParseEqualityRoundTrip(col: string)
    ensures ParseEquality(Equality(col)) == Some(col)
  {
    var s := Equality(col);
    assert |s| == 17 + 2 * |col|;
    assert s[7..7 + |col|] == col;
  }

  lemma {:induction false} ParseEqualitiesRoundTrip(cols: seq<string>)
    ensures ParseEqualities(Equalities(cols)) == Some(cols)
    decreases |cols|
  {
    if cols != [] {
      ParseEqualityRoundTrip(cols[0]);
      ParseEqualitiesRoundTrip(cols[1..]);
      assert Equalities(cols)[1..] == Equalities(cols[1..]);
      assert cols == [cols[0]] + cols[1..];
    }
  }

  /** An equality over an identifier has no line break and no comma. */
  lemma EqualityHasNoSeparator(col: string)
    requires IsIdentifier(col)
    ensures '\n' !in Equality(col) && ',' !in Equality(col)
  {
    assert forall ch :: ch in col ==> IsIdentifierChar(ch);
  }

  lemma EqualitiesHaveNoSeparator(cols: seq<string>)
    requires AllIdentifiers(cols)
    ensures forall i :: 0 <= i < |cols| ==>
      '\n' !in Equalities(cols)[i] && ',' !in Equalities(cols)[i]
  {
    forall i | 0 <= i < |cols|
      ensures '\n' !in Equalities(cols)[i] && ',' !in Equalities(cols)[i]
    {
      EqualityHasNoSeparator(cols[i]);
    }
  }

  /** The condition `field.mode == "REPEATED"`. */
  predicate IsRepeated(f: Field)
  {
    f.mode == Repeated
  }

  /** `repeated_fields`: the names of the staging-schema fields in REPEATED mode, in
      schema order. */
  function RepeatedFields(stagingSchema: Schema): (names: seq<string>)
    ensures forall c :: c in names <==> exists f :: f in stagingSchema && f.name == c && f.mode == Repeated
    ensures IsSubsequence(names, FieldNames(stagingSchema))
  {
    var repeated := Filter(IsRepeated, stagingSchema);
    MapFilterSubsequence(FieldName, IsRepeated, stagingSchema);
    assert forall i :: 0 <= i < |repeated| ==> repeated[i] in repeated;
    FieldNames(repeated)
  }

  /** The columns the `ON` clause compares: every key column, in key order, then every
      REPEATED staging field that is not a key, in schema order. */
  function MatchColumns(keys: seq<string>, stagingSchema: Schema): (cols: seq<string>)
    ensures keys <= cols
    ensures forall c :: c in cols[|keys|..] <==> c in RepeatedFields(stagingSchema) && c !in keys
    ensures IsSubsequence(cols[|keys|..], RepeatedFields(stagingSchema))
  {
    var extra := RepeatedNonKeys(keys, stagingSchema);
    assert (keys + extra)[|keys|..] == extra;
    keys + extra
  }

  /** `[col for col in repeated_fields if col not in cols_to_check]`. */
  function RepeatedNonKeys(keys: seq<string>, stagingSchema: Schema): seq<string>
  {
    Filter(NotIn(keys), RepeatedFields(stagingSchema))
  }

  /** `on_clause`: the equalities of the match columns joined by a line break and `AND `.
      It opens with the comparison of the first key. */
  function OnClause(keys: seq<string>, stagingSchema: Schema): (onClause: string)
    ensures keys != [] ==> Equality(keys[0]) <= onClause
  {
    Join("\nAND ", Equalities(MatchColumns(keys, stagingSchema)))
  }

  /** The `UPDATE SET` list: one equality per update column, joined by `, `. It is
      empty exactly when there is no update column. */
  function SetList(updates: seq<string>): (setList: string)
    ensures setList == "" <==> updates == []
  {
    Join(", ", Equalities(updates))
  }

  /** The script up to the `ON` clause: a block, a transaction, the MERGE into the
      destination from its staging table. */
  function MergeHead(target: TableRef): string
  {
    "\n    BEGIN"
    + "\n        BEGIN TRANSACTION;"
    + "\n            MERGE INTO `" + Path(target) + "` AS target"
    + "\n            USING `" + Path(StagingTable(target)) + "` AS source"
    + "\n            ON "
  }

  const MatchedLine: string := "            WHEN MATCHED THEN"
  const UpdateSetLine: string := "            UPDATE SET"
  const SetListIndent: string := "                "

  /** Between the `ON` clause and the `UPDATE SET` list. */
  const MergeMiddle: string :=
    "\n" + MatchedLine
    + "\n" + UpdateSetLine
    + "\n" + SetListIndent

  /** After the `UPDATE SET` list: insert unmatched rows whole, commit, and roll back on error. */
  const MergeTail: string :=
    "\n            WHEN NOT MATCHED THEN"
    + "\n                INSERT ROW"
    + "\n                ;"
    + "\n        COMMIT TRANSACTION;"
    + "\n        "
    + "\n        EXCEPTION WHEN ERROR THEN"
    + "\n            SELECT @@error.message;"
    + "\n            ROLLBACK TRANSACTION;"
    + "\n    END;"

  /** `merge_query`: one block that opens a transaction and merges into `target`, and
      that ends by committing, or rolling back on error. */
  function MergeQuery(target: TableRef, keys: seq<string>, updates: seq<string>, stagingSchema: Schema)
    : (script: string)
    ensures MergeHead(target) <= script
    ensures |script| >= |MergeHead(target)| + |MergeTail|
    ensures script[|script| - |MergeTail|..] == MergeTail
  {
    ScriptFrame(target, OnClause(keys, stagingSchema), SetList(updates));
    MergeHead(target) + OnClause(keys, stagingSchema) + MergeMiddle + SetList(updates) + MergeTail
  }

  /** The equalities of two column lists, one after the other. */
  lemma EqualitiesAppend(a: seq<string>, b: seq<string>)
    ensures Equalities(a + b) == Equalities(a) + Equalities(b)
  {
  }

  /** The merge text as the loader assembles it: `repeated_fields` from the staging
      schema, `on_clause_parts` built with `+=` (keys first, then the REPEATED fields that
      are not keys), joined into the `ON` clause and interpolated with the `UPDATE SET`
      list into the script. The result is exactly `MergeQuery`. */
  method BuildMergeQuery(target: TableRef, keys: seq<string>, updates: seq<string>, tempTableSchema: Schema)
    returns (mergeQuery: string)
    ensures mergeQuery == MergeQuery(target, keys, updates, tempTableSchema)
  {
    var repeatedFields := RepeatedFields(tempTableSchema);
    var onClauseParts := Equalities(keys);
    onClauseParts := onClauseParts + Equalities(Filter(NotIn(keys), repeatedFields));
    EqualitiesAppend(keys, Filter(NotIn(keys), repeatedFields));
    var onClause := Join("\nAND ", onClauseParts);
    mergeQuery := MergeHead(target) + onClause + MergeMiddle + SetList(updates) + MergeTail;
  }

  /** The query that drops the staging table. */
  function DropQuery(target: TableRef): string
  {
    "DROP TABLE `" + Path(StagingTable(target)) + "`;"
  }

  /** The drop names the staging table `<table>_temptable` of `target`, and is never
      the statement that would drop `target` itself. */
  lemma DropQueryTargetsStaging(target: TableRef)
    ensures DropQuery(target) == "DROP TABLE `" + Path(target) + "_temptable`;"
    ensures DropQuery(target) != "DROP TABLE `" + Path(target) + "`;"
  {
    assert |DropQuery(target)| == |"DROP TABLE `" + Path(target) + "`;"| + |"_temptable"|;
  }

  /** A merge script is never a drop statement: the first starts with a line break,
      the second with `DROP`. */
  lemma MergeQueryIsNotDrop(target: TableRef, keys: seq<string>, updates: seq<string>, stagingSchema: Schema,
                            dropped: TableRef)
    ensures MergeQuery(target, keys, updates, stagingSchema) != DropQuery(dropped)
  {
    var script := MergeQuery(target, keys, updates, stagingSchema);
    assert script[0] == MergeHead(target)[0] == '\n';
    assert DropQuery(dropped)[0] == 'D';
  }

  /** Reads the match columns back out of an `ON` clause. */
  function DecodeOnClause(onClause: string): Option<seq<string>>
  {
    match Unjoin('\n', "AND ", onClause)
    case Some(pieces) => ParseEqualities(pieces)
    case None => None
  }

  /** Reads the update columns back out of an `UPDATE SET` list. */
  function DecodeSetList(setList: string): Option<seq<string>>
  {
    if setList == "" then Some([])
    else
      match Unjoin(',', " ", setList)
      case Some(pieces) => ParseEqualities(pieces)
      case None => None
  }

  /** Reads a merge script for `target`: checks the fixed text before the `ON` clause and
      after the `UPDATE SET` list, and between them the `WHEN MATCHED` / `UPDATE SET`
      lines; returns the match columns and the update columns. */
  function DecodeMerge(target: TableRef, script: string): Option<(seq<string>, seq<string>)>
  {
    var head := MergeHead(target);
    if head <= script && |script| >= |head| + |MergeTail| && script[|script| - |MergeTail|..] == MergeTail then
      DecodeBody(script[|head|..|script| - |MergeTail|])
    else None
  }

  /** Reads back the text between the fixed head and tail: the `ON` clause lines, the
      two fixed lines, and the indented `UPDATE SET` list. */
  function DecodeBody(body: string): Option<(seq<string>, seq<string>)>
  {
    var lines := Split('\n', body);
    if |lines| >= 4
      && lines[|lines| - 3] == MatchedLine
      && lines[|lines| - 2] == UpdateSetLine
      && SetListIndent <= lines[|lines| - 1]
    then
      var onPieces := StripAfterFirst("AND ", lines[..|lines| - 3]);
      var updates := DecodeSetList(lines[|lines| - 1][16..]);
      if onPieces.Some? && updates.Some? then
        match ParseEqualities(onPieces.value)
        case Some(matchCols) => Some((matchCols, updates.value))
        case None => None
      else None
    else None
  }

  /** The `ON` clause has one line per match column: the first key's equality, then
      `AND ` and the equality of each further key and of each REPEATED non-key field. */
  lemma OnClauseLines(keys: seq<string>, stagingSchema: Schema)
    requires keys != [] && AllIdentifiers(keys) && FieldsAreIdentifiers(stagingSchema)
    ensures var cols := MatchColumns(keys, stagingSchema);
      Split('\n', OnClause(keys, stagingSchema))
        == [Equality(keys[0])] + Prefixed("AND ", Equalities(cols[1..]))
  {
    var cols := MatchColumns(keys, stagingSchema);
    MatchColumnsAreIdentifiers(keys, stagingSchema);
    EqualitiesHaveNoSeparator(cols);
    assert "\nAND " == ['\n'] + "AND ";
    SplitJoin('\n', "AND ", Equalities(cols));
    assert Equalities(cols)[1..] == Equalities(cols[1..]);
  }

  /** With identifier keys and identifier field names, every match column is an identifier. */
  lemma MatchColumnsAreIdentifiers(keys: seq<string>, stagingSchema: Schema)
    requires AllIdentifiers(keys) && FieldsAreIdentifiers(stagingSchema)
    ensures AllIdentifiers(MatchColumns(keys, stagingSchema))
  {
    var cols := MatchColumns(keys, stagingSchema);
    forall i | 0 <= i < |cols| ensures IsIdentifier(cols[i]) {
      if i >= |keys| {
        assert cols[i] in cols[|keys|..];
        var f :| f in stagingSchema && f.name == cols[i] && f.mode == Repeated;
      }
    }
  }

  /** Round trip of the `ON` clause: it names exactly the match columns, in order. */
  lemma OnClauseRoundTrip(keys: seq<string>, stagingSchema: Schema)
    requires keys != [] && AllIdentifiers(keys) && FieldsAreIdentifiers(stagingSchema)
    ensures DecodeOnClause(OnClause(keys, stagingSchema)) == Some(MatchColumns(keys, stagingSchema))
  {
    var cols := MatchColumns(keys, stagingSchema);
    MatchColumnsAreIdentifiers(keys, stagingSchema);
    EqualitiesHaveNoSeparator(cols);
    assert "\nAND " == ['\n'] + "AND ";
    UnjoinJoin('\n', "AND ", Equalities(cols));
    ParseEqualitiesRoundTrip(cols);
  }

  /** Round trip of the `UPDATE SET` list: it names exactly the update columns, in order. */
  lemma SetListRoundTrip(updates: seq<string>)
    requires AllIdentifiers(updates)
    ensures DecodeSetList(SetList(updates)) == Some(updates)
  {
    if updates != [] {
      EqualitiesHaveNoSeparator(updates);
      assert ", " == [','] + " ";
      UnjoinJoin(',', " ", Equalities(updates));
      ParseEqualitiesRoundTrip(updates);
      assert |Equality(updates[0])| > 0;
      assert SetList(updates) != "" by {
        JoinStartsWithFirst(", ", Equalities(updates));
      }
    }
  }

  /** A join of at least one piece starts with the first piece. */
  lemma JoinStartsWithFirst(sep: string, parts: seq<string>)
    requires |parts| >= 1
    ensures parts[0] <= Join(sep, parts)
  {
  }

  /** Three separator-free lines after a text, each behind a line break. */
  lemma {:induction false} SplitThreeLines(a: string, l1: string, l2: string, l3: string)
    requires '\n' !in l1 && '\n' !in l2 && '\n' !in l3
    ensures Split('\n', a + ['\n'] + (l1 + ['\n'] + (l2 + ['\n'] + l3))) == Split('\n', a) + [l1, l2, l3]
  {
    SplitAppend('\n', a, l1 + ['\n'] + (l2 + ['\n'] + l3));
    SplitAppend('\n', l1, l2 + ['\n'] + l3);
    SplitAppend('\n', l2, l3);
    SplitNoSeparator('\n', l1);
    SplitNoSeparator('\n', l2);
    SplitNoSeparator('\n', l3);
  }

  /** Regrouping a concatenation of three line breaks and the text around them. */
  lemma RegroupLines(a: string, l1: string, l2: string, l3: string, b: string)
    ensures a + (['\n'] + l1 + ['\n'] + l2 + ['\n'] + l3) + b
         == a + ['\n'] + (l1 + ['\n'] + (l2 + ['\n'] + (l3 + b)))
  {
  }

  /** The fixed lines between the `ON` clause and the `UPDATE SET` list hold no line break. */
  lemma FixedLinesUnbroken()
    ensures '\n' !in MatchedLine && '\n' !in UpdateSetLine && '\n' !in SetListIndent
    ensures MergeMiddle == ['\n'] + MatchedLine + ['\n'] + UpdateSetLine + ['\n'] + SetListIndent
  {
  }

  /** The lines between the `ON` clause's first line and the end of the `UPDATE SET` line. */
  lemma MiddleLines(onClause: string, setList: string)
    requires '\n' !in setList
    ensures Split('\n', onClause + MergeMiddle + setList)
         == Split('\n', onClause) + [MatchedLine, UpdateSetLine, SetListIndent + setList]
  {
    FixedLinesUnbroken();
    RegroupLines(onClause, MatchedLine, UpdateSetLine, SetListIndent, setList);
    SplitThreeLines(onClause, MatchedLine, UpdateSetLine, SetListIndent + setList);
  }

  /** The fixed head and tail of a script can be cut off again. */
  lemma ScriptFrame(target: TableRef, onClause: string, setList: string)
    ensures var script := MergeHead(target) + onClause + MergeMiddle + setList + MergeTail;
      && MergeHead(target) <= script
      && |script| >= |MergeHead(target)| + |MergeTail|
      && script[|script| - |MergeTail|..] == MergeTail
      && script[|MergeHead(target)|..|script| - |MergeTail|] == onClause + MergeMiddle + setList
  {
    var head := MergeHead(target);
    var script := head + onClause + MergeMiddle + setList + MergeTail;
    assert script == head + (onClause + MergeMiddle + setList) + MergeTail;
  }

  /** The lines between the fixed head and tail of a script: the `ON` clause lines,
      which strip back to the match equalities, then the two fixed lines, then the
      indented `UPDATE SET` list. */
  lemma MiddleDecodes(onClause: string, setList: string, cols: seq<string>)
    requires cols != []
    requires Split('\n', onClause) == [Equality(cols[0])] + Prefixed("AND ", Equalities(cols[1..]))
    requires '\n' !in setList
    ensures var lines := Split('\n', onClause + MergeMiddle + setList);
      && |lines| >= 4
      && lines[|lines| - 3] == MatchedLine
      && lines[|lines| - 2] == UpdateSetLine
      && SetListIndent <= lines[|lines| - 1]
      && lines[|lines| - 1][16..] == setList
      && StripAfterFirst("AND ", lines[..|lines| - 3]) == Some(Equalities(cols))
  {
    MiddleLines(onClause, setList);
    var lines := Split('\n', onClause + MergeMiddle + setList);
    var eqs := Equalities(cols);
    assert lines[..|lines| - 3] == [eqs[0]] + Prefixed("AND ", eqs[1..]) by {
      assert Equalities(cols[1..]) == eqs[1..];
    }
    StripAfterFirstPrefixed("AND ", eqs);
  }

  /** Reading back the text between head and tail, when its `ON` clause lines and
      `UPDATE SET` list decode to the given columns, gives those columns. */
  lemma DecodeAssembledBody(onClause: string, setList: string, cols: seq<string>, updates: seq<string>)
    requires cols != [] && AllIdentifiers(cols)
    requires Split('\n', onClause) == [Equality(cols[0])] + Prefixed("AND ", Equalities(cols[1..]))
    requires '\n' !in setList && DecodeSetList(setList) == Some(updates)
    ensures DecodeBody(onClause + MergeMiddle + setList) == Some((cols, updates))
  {
    var lines := Split('\n', onClause + MergeMiddle + setList);
    MiddleDecodes(onClause, setList, cols);
    ParseEqualitiesRoundTrip(cols);
    var onPieces := StripAfterFirst("AND ", lines[..|lines| - 3]);
    assert onPieces == Some(Equalities(cols));
    assert ParseEqualities(onPieces.value) == Some(cols);
    assert DecodeSetList(lines[|lines| - 1][16..]) == Some(updates);
  }

  /** Reading back a script whose `ON` clause lines and `UPDATE SET` list decode to the
      given columns gives those columns. */
  lemma DecodeAssembledScript(target: TableRef, onClause: string, setList: string,
                              cols: seq<string>, updates: seq<string>)
    requires cols != [] && AllIdentifiers(cols)
    requires Split('\n', onClause) == [Equality(cols[0])] + Prefixed("AND ", Equalities(cols[1..]))
    requires '\n' !in setList && DecodeSetList(setList) == Some(updates)
    ensures DecodeMerge(target, MergeHead(target) + onClause + MergeMiddle + setList + MergeTail)
         == Some((cols, updates))
  {
    ScriptFrame(target, onClause, setList);
    DecodeAssembledBody(onClause, setList, cols, updates);
  }

  /** Round trip of the whole script: reading it back gives the match columns (keys,
      then REPEATED non-key fields) and the update columns, exactly and in order, and
      the fixed text around them names `target` and its staging table. */
  lemma MergeQueryRoundTrip(target: TableRef, keys: seq<string>, updates: seq<string>, stagingSchema: Schema)
    requires keys != [] && AllIdentifiers(keys) && AllIdentifiers(updates)
    requires FieldsAreIdentifiers(stagingSchema)
    ensures DecodeMerge(target, MergeQuery(target, keys, updates, stagingSchema))
         == Some((MatchColumns(keys, stagingSchema), updates))
  {
    var setList := SetList(updates);
    EqualitiesHaveNoSeparator(updates);
    JoinAvoids('\n', ", ", Equalities(updates));
    SetListRoundTrip(updates);
    OnClauseLines(keys, stagingSchema);
    MatchColumnsAreIdentifiers(keys, stagingSchema);
    DecodeAssembledScript(target, OnClause(keys, stagingSchema), setList, MatchColumns(keys, stagingSchema), updates);
  }
}
