/**
 * The request builders of the document store (`DatabaseManager`): the filtered
 * listing query, the column-whitelisted insert and the row-to-dictionary mapper,
 * together with the columns of the `documents` table they refer to. What is
 * modelled is the SQL text and the parameter list handed to SQLite; SQLite
 * itself is not part of this model.
 */
module DbManager {

  import opened Wrappers
  import opened PyValues
  import opened SqlText

  /** A statement as handed to `cursor.execute`: its text and its positional parameters. */
  datatype Request = Request(sql: string, params: seq<Value>)

  // ---------------------------------------------------------------------------
  // The `documents` table
  // ---------------------------------------------------------------------------

  /** The 49 columns declared by `CREATE TABLE documents`. */
  predicate IsDocumentsColumn(name: string)
  {
    name == "id" || name == "category" || name == "creation_year"
    || name == "document_number" || name == "issuing_agency" || name == "title"
    || name == "document_date" || name == "registration_date" || name == "security_level"
    || name == "confidentiality_period" || name == "is_original" || name == "copies_count"
    || name == "copy_number" || name == "page_count" || name == "remarks"
    || name == "attachment_path" || name == "mark_color" || name == "mark_content"
    || name == "mark_date" || name == "receive_category" || name == "receive_serial_number"
    || name == "receive_number" || name == "receive_source" || name == "handle_status"
    || name == "main_recipient" || name == "abstract" || name == "draft_opinion"
    || name == "leader_instruction" || name == "distribution_record" || name == "urge_record"
    || name == "handle_result" || name == "issue_code" || name == "cc_agency"
    || name == "attachment_description" || name == "drafter" || name == "approver"
    || name == "retention_period" || name == "archive_category" || name == "item_number"
    || name == "archive_number" || name == "material_category" || name == "material_number"
    || name == "destruction_batch" || name == "destruction_number" || name == "destruction_copies"
    || name == "destruction_copy_number" || name == "original_appraisal" || name == "created_at"
    || name == "updated_at"
  }

  /** The columns declared NOT NULL without a default: every row must supply them. */
  predicate IsRequiredColumn(name: string)
  {
    name == "category" || name == "title" || name == "security_level"
  }

  /**
   * `_is_valid_column`: membership in the whitelist of 46 insertable column
   * names. The list is flat in the source; here it is split by the sections of
   * the table so that facts about the names can be proved section by section.
   */
  predicate IsValidColumn(name: string)
  {
    RegistrationColumn(name) || HandlingColumn(name) || MarkColumn(name) || ReceiveColumn(name)
    || IssueColumn(name) || ArchiveColumn(name) || MaterialColumn(name) || DestructionColumn(name)
  }

  /** The registration columns every kind of document shares. */
  predicate RegistrationColumn(name: string)
  {
    name == "category" || name == "creation_year" || name == "document_number"
    || name == "issuing_agency" || name == "title" || name == "document_date"
    || name == "registration_date"
  }

  /** The classification, copy and attachment columns every kind of document shares. */
  predicate HandlingColumn(name: string)
  {
    name == "security_level" || name == "confidentiality_period" || name == "is_original"
    || name == "copies_count" || name == "copy_number" || name == "page_count"
    || name == "remarks" || name == "attachment_path"
  }

  /** The marking columns. */
  predicate MarkColumn(name: string)
  {
    name == "mark_color" || name == "mark_content" || name == "mark_date"
  }

  /** The columns of received documents. */
  predicate ReceiveColumn(name: string)
  {
    name == "receive_category" || name == "receive_serial_number" || name == "receive_number"
    || name == "receive_source" || name == "handle_status" || name == "main_recipient"
    || name == "abstract" || name == "draft_opinion" || name == "leader_instruction"
    || name == "distribution_record" || name == "urge_record" || name == "handle_result"
  }

  /** The columns of issued documents. */
  predicate IssueColumn(name: string)
  {
    name == "issue_code" || name == "cc_agency" || name == "attachment_description"
    || name == "drafter" || name == "approver"
  }

  /** The columns of archived documents. */
  predicate ArchiveColumn(name: string)
  {
    name == "retention_period" || name == "archive_category" || name == "item_number"
    || name == "archive_number"
  }

  /** The columns of reference material. */
  predicate MaterialColumn(name: string)
  {
    name == "material_category" || name == "material_number"
  }

  /** The columns of destruction records. */
  predicate DestructionColumn(name: string)
  {
    name == "destruction_batch" || name == "destruction_number" || name == "destruction_copies"
    || name == "destruction_copy_number" || name == "original_appraisal"
  }

  /**
   * A column of the table that the store does not fill itself: neither the key
   * `id` nor one of the two timestamps.
   */
  predicate IsDataColumn(name: string)
  {
    IsDocumentsColumn(name) && name != "id" && name != "created_at" && name != "updated_at"
  }

  /** A registration column is a data column of the table, and its name holds no `?`. */
  lemma RegistrationColumnFacts(name: string)
    requires RegistrationColumn(name)
    ensures IsDataColumn(name) && '?' !in name
  {
  }

  /** A classification, copy and attachment column is a data column of the table, and its name holds no `?`. */
  lemma HandlingColumnFacts(name: string)
    requires HandlingColumn(name)
    ensures IsDataColumn(name) && '?' !in name
  {
  }

  /** A marking column is a data column of the table, and its name holds no `?`. */
  lemma MarkColumnFacts(name: string)
    requires MarkColumn(name)
    ensures IsDataColumn(name) && '?' !in name
  {
  }

  /** A received-document column is a data column of the table, and its name holds no `?`. */
  lemma ReceiveColumnFacts(name: string)
    requires ReceiveColumn(name)
    ensures IsDataColumn(name) && '?' !in name
  {
  }

  /** A issued-document column is a data column of the table, and its name holds no `?`. */
  lemma IssueColumnFacts(name: string)
    requires IssueColumn(name)
    ensures IsDataColumn(name) && '?' !in name
  {
  }

  /** A archive column is a data column of the table, and its name holds no `?`. */
  lemma ArchiveColumnFacts(name: string)
    requires ArchiveColumn(name)
    ensures IsDataColumn(name) && '?' !in name
  {
  }

  /** A material column is a data column of the table, and its name holds no `?`. */
  lemma MaterialColumnFacts(name: string)
    requires MaterialColumn(name)
    ensures IsDataColumn(name) && '?' !in name
  {
  }

  /** A destruction column is a data column of the table, and its name holds no `?`. */
  lemma DestructionColumnFacts(name: string)
    requires DestructionColumn(name)
    ensures IsDataColumn(name) && '?' !in name
  {
  }

  /** Every whitelisted name is a data column of the table and holds no `?`. */
  lemma ValidColumnFacts(name: string)
    requires IsValidColumn(name)
    ensures IsDataColumn(name) && '?' !in name
  {
    if RegistrationColumn(name) {
      RegistrationColumnFacts(name);
    } else if HandlingColumn(name) {
      HandlingColumnFacts(name);
    } else if MarkColumn(name) {
      MarkColumnFacts(name);
    } else if ReceiveColumn(name) {
      ReceiveColumnFacts(name);
    } else if IssueColumn(name) {
      IssueColumnFacts(name);
    } else if ArchiveColumn(name) {
      ArchiveColumnFacts(name);
    } else if MaterialColumn(name) {
      MaterialColumnFacts(name);
    } else {
      DestructionColumnFacts(name);
    }
  }

  /**
   * The whitelist is exactly the table's columns minus the ones the store fills
   * itself: the key `id` and the two timestamps. Unknown names are rejected.
   */
  lemma WhitelistIsDataColumns(name: string)
    ensures IsValidColumn(name) <==> IsDataColumn(name)
  {
    if IsValidColumn(name) {
      ValidColumnFacts(name);
    }
  }

  /** Every NOT NULL column without default can be supplied through the whitelist. */
  lemma RequiredColumnsAreWhitelisted(name: string)
    requires IsRequiredColumn(name)
    ensures IsValidColumn(name) && IsDocumentsColumn(name)
  {
  }

  // ---------------------------------------------------------------------------
  // dict_factory
  // ---------------------------------------------------------------------------

  /** Position `i` holds the last occurrence of its name among the first `n` names. */
  predicate LastBefore(names: seq<string>, i: int, n: int)
    requires 0 <= i < n <= |names|
  {
    forall j :: i < j < n ==> names[j] != names[i]
  }

  /**
   * `dict_factory`: the row as a dictionary keyed by the column names of the
   * cursor description. A name that occurs twice keeps the value of its last
   * occurrence.
   */
  method DictFactory(description: seq<string>, row: seq<Value>) returns (d: map<string, Value>)
    requires |description| <= |row|
    ensures forall name :: name in d <==> name in description
    ensures forall i :: 0 <= i < |description| && LastBefore(description, i, |description|) ==>
      d[description[i]] == row[i]
  {
    d := map[];
    var idx := 0;
    while idx < |description|
      invariant 0 <= idx <= |description|
      invariant forall name :: name in d <==> name in description[..idx]
      invariant forall i :: 0 <= i < idx && LastBefore(description, i, idx) ==>
        description[i] in d && d[description[i]] == row[i]
    {
      assert description[..idx + 1] == description[..idx] + [description[idx]];
      d := d[description[idx] := row[idx]];
      forall i | 0 <= i < idx + 1 && LastBefore(description, i, idx + 1)
        ensures description[i] in d && d[description[i]] == row[i]
      {
        if i < idx {
          assert description[idx] != description[i];
          assert LastBefore(description, i, idx);
        }
      }
      idx := idx + 1;
    }
    assert description[..idx] == description;
  }

  // ---------------------------------------------------------------------------
  // get_all_documents
  // ---------------------------------------------------------------------------

  const SelectAllDocuments: string := "SELECT * FROM documents WHERE 1=1"
  const CategoryFilter: string := " AND category = ?"
  const SecurityLevelFilter: string := " AND security_level = ?"
  const NewestFirst: string := " ORDER BY created_at DESC"

  /** Python truthiness of an optional string: neither `None` nor empty. */
  predicate Truthy(s: Option<string>)
  {
    s.Some? && s.value != ""
  }

  /**
   * `get_all_documents`: the listing query, narrowed by each filter argument
   * that is truthy, newest first. The filter values travel as parameters, one
   * per `?` marker, the category before the security level.
   */
  method GetAllDocuments(category: Option<string>, securityLevel: Option<string>) returns (req: Request)
    ensures StartsWith(req.sql, SelectAllDocuments) && EndsWith(req.sql, NewestFirst)
    ensures Contains(req.sql, CategoryFilter) <==> Truthy(category)
    ensures Contains(req.sql, SecurityLevelFilter) <==> Truthy(securityLevel)
    ensures |req.params| == (if Truthy(category) then 1 else 0) + (if Truthy(securityLevel) then 1 else 0)
    ensures Truthy(category) ==> req.params[0] == PyStr(category.value)
    ensures Truthy(securityLevel) ==> req.params[|req.params| - 1] == PyStr(securityLevel.value)
    ensures req.sql == SelectAllDocuments + (if Truthy(category) then CategoryFilter else "")
      + (if Truthy(securityLevel) then SecurityLevelFilter else "") + NewestFirst
    ensures Placeholders(req.sql) == |req.params|
  {
    var query := SelectAllDocuments;
    var params: seq<Value> := [];
    if Truthy(category) {
      query := query + CategoryFilter;
      params := params + [PyStr(category.value)];
    }
    if Truthy(securityLevel) {
      query := query + SecurityLevelFilter;
      params := params + [PyStr(securityLevel.value)];
    }
    query := query + NewestFirst;
    req := Request(query, params);

    ghost var categoryPart := if Truthy(category) then CategoryFilter else "";
    ghost var levelPart := if Truthy(securityLevel) then SecurityLevelFilter else "";
    assert query == SelectAllDocuments + categoryPart + levelPart + NewestFirst;
    ListingQueryShape(categoryPart, levelPart);
  }

  /** What the listing query assembled from its optional clauses looks like. */
  lemma ListingQueryShape(categoryPart: string, levelPart: string)
    requires categoryPart == CategoryFilter || categoryPart == ""
    requires levelPart == SecurityLevelFilter || levelPart == ""
    ensures var query := SelectAllDocuments + categoryPart + levelPart + NewestFirst;
      && StartsWith(query, SelectAllDocuments) && EndsWith(query, NewestFirst)
      && (Contains(query, CategoryFilter) <==> categoryPart != "")
      && (Contains(query, SecurityLevelFilter) <==> levelPart != "")
      && Placeholders(query) == (if categoryPart == "" then 0 else 1) + (if levelPart == "" then 0 else 1)
  {
    Framed(SelectAllDocuments, categoryPart + levelPart, NewestFirst);
    assert SelectAllDocuments + categoryPart + levelPart + NewestFirst ==
      SelectAllDocuments + (categoryPart + levelPart) + NewestFirst;
    CategoryClausePresence(categoryPart, levelPart);
    LevelClausePresence(categoryPart, levelPart);
    ListingQueryMarkers(categoryPart, levelPart);
  }

  /** The listing query holds one `?` per appended clause. */
  lemma ListingQueryMarkers(categoryPart: string, levelPart: string)
    requires categoryPart == CategoryFilter || categoryPart == ""
    requires levelPart == SecurityLevelFilter || levelPart == ""
    ensures Placeholders(SelectAllDocuments + categoryPart + levelPart + NewestFirst) ==
      (if categoryPart == "" then 0 else 1) + (if levelPart == "" then 0 else 1)
  {
    FixedFragmentsHaveNoMarker();
    CategoryClauseHasOneMarker();
    LevelClauseHasOneMarker();
    assert Placeholders("") == 0;
    PlaceholdersOfFragments(SelectAllDocuments, categoryPart, levelPart, NewestFirst);
  }

  /** The category clause occurs in the listing query exactly when it was appended. */
  lemma CategoryClausePresence(categoryPart: string, levelPart: string)
    requires categoryPart == CategoryFilter || categoryPart == ""
    requires levelPart == SecurityLevelFilter || levelPart == ""
    ensures Contains(SelectAllDocuments + categoryPart + levelPart + NewestFirst, CategoryFilter) <==>
      categoryPart != ""
  {
    var query := SelectAllDocuments + categoryPart + levelPart + NewestFirst;
    if categoryPart != "" {
      assert query == SelectAllDocuments + CategoryFilter + (levelPart + NewestFirst);
      ContainsMiddle(SelectAllDocuments, CategoryFilter, levelPart + NewestFirst);
    } else {
      // Of all the fragments, only the category clause spells a lower-case `g`.
      assert 'g' !in SelectAllDocuments && 'g' !in levelPart && 'g' !in NewestFirst;
      assert 'g' !in query;
      if Contains(query, CategoryFilter) {
        assert 'g' in CategoryFilter;
        ContainsChar(query, CategoryFilter, 'g');
      }
    }
  }

  /** The security-level clause occurs in the listing query exactly when it was appended. */
  lemma LevelClausePresence(categoryPart: string, levelPart: string)
    requires categoryPart == CategoryFilter || categoryPart == ""
    requires levelPart == SecurityLevelFilter || levelPart == ""
    ensures Contains(SelectAllDocuments + categoryPart + levelPart + NewestFirst, SecurityLevelFilter) <==>
      levelPart != ""
  {
    var query := SelectAllDocuments + categoryPart + levelPart + NewestFirst;
    if levelPart != "" {
      ContainsMiddle(SelectAllDocuments + categoryPart, SecurityLevelFilter, NewestFirst);
    } else {
      // Of all the fragments, only the security-level clause spells a lower-case `v`.
      assert 'v' !in SelectAllDocuments && 'v' !in categoryPart && 'v' !in NewestFirst;
      assert 'v' !in query;
      if Contains(query, SecurityLevelFilter) {
        assert 'v' in SecurityLevelFilter;
        ContainsChar(query, SecurityLevelFilter, 'v');
      }
    }
  }

  /** The fixed fragments of the listing query hold no `?`. */
  lemma FixedFragmentsHaveNoMarker()
    ensures Placeholders(SelectAllDocuments) == 0 && Placeholders(NewestFirst) == 0
  {
    assert '?' !in SelectAllDocuments && '?' !in NewestFirst;
  }

  /** The category clause holds one `?`. */
  lemma CategoryClauseHasOneMarker()
    ensures Placeholders(CategoryFilter) == 1
  {
    assert CategoryFilter == " AND category = " + ['?'];
    OneMarker(" AND category = ", '?');
  }

  /** The security-level clause holds one `?`. */
  lemma LevelClauseHasOneMarker()
    ensures Placeholders(SecurityLevelFilter) == 1
  {
    assert SecurityLevelFilter == " AND security_level = " + ['?'];
    OneMarker(" AND security_level = ", '?');
  }

  /** The markers of a statement assembled from four fragments are those of the fragments. */
  lemma {:induction false} PlaceholdersOfFragments(a: string, b: string, c: string, d: string)
    ensures Placeholders(a + b + c + d) == Placeholders(a) + Placeholders(b) + Placeholders(c) + Placeholders(d)
  {
    CountAppend(a, b, '?');
    CountAppend(a + b, c, '?');
    CountAppend(a + b + c, d, '?');
  }

  // ---------------------------------------------------------------------------
  // add_document
  // ---------------------------------------------------------------------------

  /**
   * Python's `hasattr(self, '_get_column_name')` on a `DatabaseManager`: the
   * class defines no member of that name, so the answer is always no.
   */
  const HasGetColumnName: bool := false

  /** The guard of the insert loop for one key, given whether the helper attribute exists. */
  predicate Keeps(helperDefined: bool, key: string)
  {
    helperDefined && IsValidColumn(key)
  }

  /** The items of the input dictionary that pass the guard, in dictionary order. */
  function KeptItems(data: seq<(string, Value)>, helperDefined: bool): seq<(string, Value)>
  {
    if data == [] then []
    else
      var last := data[|data| - 1];
      KeptItems(data[..|data| - 1], helperDefined) + (if Keeps(helperDefined, last.0) then [last] else [])
  }

  /** The column names of a list of items. */
  function ColumnsOf(items: seq<(string, Value)>): (columns: seq<string>)
    ensures |columns| == |items| && forall i :: 0 <= i < |items| ==> columns[i] == items[i].0
  {
    seq(|items|, i requires 0 <= i < |items| => items[i].0)
  }

  /** The values of a list of items. */
  function ValuesOf(items: seq<(string, Value)>): (values: seq<Value>)
    ensures |values| == |items| && forall i :: 0 <= i < |items| ==> values[i] == items[i].1
  {
    seq(|items|, i requires 0 <= i < |items| => items[i].1)
  }

  /** `n` parameter markers. */
  function Markers(n: nat): (markers: seq<string>)
    ensures |markers| == n && forall i :: 0 <= i < n ==> markers[i] == "?"
  {
    seq(n, _ => "?")
  }

  /** An item is kept exactly when it is in the input and passes the guard. */
  lemma {:induction false} KeptItemsMembers(data: seq<(string, Value)>, helperDefined: bool)
    ensures forall item :: item in KeptItems(data, helperDefined) <==>
      item in data && Keeps(helperDefined, item.0)
  {
    if data != [] {
      var init := data[..|data| - 1];
      KeptItemsMembers(init, helperDefined);
      assert data == init + [data[|data| - 1]];
    }
  }

  /** Without the helper attribute nothing is kept, whatever the input. */
  lemma {:induction false} KeptItemsWithoutHelper(data: seq<(string, Value)>)
    ensures KeptItems(data, false) == []
  {
    if data != [] {
      KeptItemsWithoutHelper(data[..|data| - 1]);
    }
  }

  /** With the helper attribute, an all-whitelisted input is kept whole and in order. */
  lemma {:induction false} KeptItemsOfWhitelisted(data: seq<(string, Value)>)
    requires forall i :: 0 <= i < |data| ==> IsValidColumn(data[i].0)
    ensures KeptItems(data, true) == data
  {
    if data != [] {
      var init := data[..|data| - 1];
      KeptItemsOfWhitelisted(init);
      assert data == init + [data[|data| - 1]];
    }
  }

  /**
   * The loop of `add_document`: walks the input dictionary in order and, for
   * each key that passes the guard, appends the key, its value and a `?`.
   */
  method CollectColumns(data: seq<(string, Value)>, helperDefined: bool)
    returns (columns: seq<string>, values: seq<Value>, placeholders: seq<string>)
    ensures columns == ColumnsOf(KeptItems(data, helperDefined))
    ensures values == ValuesOf(KeptItems(data, helperDefined))
    ensures placeholders == Markers(|values|)
    ensures |columns| == |values| == |placeholders|
    ensures forall i :: 0 <= i < |columns| ==> IsValidColumn(columns[i])
  {
    columns, values, placeholders := [], [], [];
    var k := 0;
    while k < |data|
      invariant 0 <= k <= |data|
      invariant columns == ColumnsOf(KeptItems(data[..k], helperDefined))
      invariant values == ValuesOf(KeptItems(data[..k], helperDefined))
      invariant placeholders == Markers(|values|)
    {
      var (key, value) := data[k];
      ghost var kept := KeptItems(data[..k], helperDefined);
      assert data[..k + 1][..k] == data[..k];
      if helperDefined && IsValidColumn(key) {
        assert KeptItems(data[..k + 1], helperDefined) == kept + [(key, value)];
        assert ColumnsOf(kept + [(key, value)]) == columns + [key];
        assert ValuesOf(kept + [(key, value)]) == values + [value];
        columns := columns + [key];
        values := values + [value];
        placeholders := placeholders + ["?"];
      } else {
        assert KeptItems(data[..k + 1], helperDefined) == kept;
      }
      k := k + 1;
    }
    assert data[..k] == data;
    KeptItemsMembers(data, helperDefined);
    forall i | 0 <= i < |columns| ensures IsValidColumn(columns[i]) {
      assert KeptItems(data, helperDefined)[i] in KeptItems(data, helperDefined);
    }
  }

  /** The statement text of `add_document` for the collected columns and markers. */
  function InsertStatement(columns: seq<string>, placeholders: seq<string>): string
  {
    "INSERT INTO documents (" + Join(", ", columns) + ") VALUES (" + Join(", ", placeholders) + ")"
  }

  /**
   * An insert statement over column names free of `?` holds exactly one marker
   * per placeholder.
   */
  lemma InsertStatementMarkers(columns: seq<string>, placeholders: seq<string>)
    requires forall i :: 0 <= i < |columns| ==> '?' !in columns[i]
    requires forall i :: 0 <= i < |placeholders| ==> placeholders[i] == "?"
    ensures Placeholders(InsertStatement(columns, placeholders)) == |placeholders|
  {
    var head, middle, tail := "INSERT INTO documents (", ") VALUES (", ")";
    InsertFragmentsHaveNoMarker();
    JoinWithout(", ", columns, '?');
    JoinedMarkers(placeholders);
    PlaceholdersOfFragments(head, Join(", ", columns), middle, Join(", ", placeholders));
    CountAppend(head + Join(", ", columns) + middle + Join(", ", placeholders), tail, '?');
  }

  /** The fixed text of the insert statement and the list separator carry no `?`. */
  lemma InsertFragmentsHaveNoMarker()
    ensures '?' !in ", "
    ensures '?' !in "INSERT INTO documents (" && '?' !in ") VALUES (" && '?' !in ")"
  {
  }

  /** A comma-separated list of `?` placeholders holds one marker per placeholder. */
  lemma JoinedMarkers(placeholders: seq<string>)
    requires forall i :: 0 <= i < |placeholders| ==> placeholders[i] == "?"
    ensures Placeholders(Join(", ", placeholders)) == |placeholders|
  {
    forall i | 0 <= i < |placeholders| ensures Count(placeholders[i], '?') == 1 {
      OneMarker("", '?');
      assert "" + ['?'] == placeholders[i];
    }
    assert '?' !in ", ";
    CountJoinMarkers(", ", placeholders, '?');
  }

  /**
   * `add_document` as written: the guard asks for a `_get_column_name`
   * attribute that the class never defines, so no column is kept and the
   * statement is the same for every input.
   */
  method AddDocument(data: seq<(string, Value)>) returns (req: Request)
    ensures req == Request("INSERT INTO documents () VALUES ()", [])
  {
    var columns, values, placeholders := CollectColumns(data, HasGetColumnName);
    KeptItemsWithoutHelper(data);
    req := Request(InsertStatement(columns, placeholders), values);
  }

  /**
   * The input that exposes the guard: a record carrying exactly the three
   * required columns, all whitelisted, of which the loop as written keeps none
   * while the guard without the attribute test keeps all three, in order.
   */
  lemma AsWrittenDropsRequiredColumns()
    ensures var data := [("category", PyStr("receive")), ("title", PyStr("T")), ("security_level", PyStr("internal"))];
      && (forall i :: 0 <= i < |data| ==> IsRequiredColumn(data[i].0) && IsValidColumn(data[i].0))
      && KeptItems(data, HasGetColumnName) == []
      && KeptItems(data, true) == data
  {
    var data := [("category", PyStr("receive")), ("title", PyStr("T")), ("security_level", PyStr("internal"))];
    KeptItemsWithoutHelper(data);
    KeptItemsOfWhitelisted(data);
  }

  /**
   * `add_document` with the guard reduced to the whitelist test: every
   * whitelisted key is inserted with its value, in dictionary order, one `?`
   * per value; no other key is inserted.
   */
  method AddDocumentIntended(data: seq<(string, Value)>) returns (req: Request)
    ensures var kept := KeptItems(data, true);
      && req.params == ValuesOf(kept)
      && req.sql == InsertStatement(ColumnsOf(kept), Markers(|kept|))
    ensures forall item :: item in KeptItems(data, true) <==> item in data && IsValidColumn(item.0)
    ensures Placeholders(req.sql) == |req.params|
    ensures (forall i :: 0 <= i < |data| ==> IsValidColumn(data[i].0)) ==> req.params == ValuesOf(data)
  {
    var columns, values, placeholders := CollectColumns(data, true);
    req := Request(InsertStatement(columns, placeholders), values);
    KeptItemsMembers(data, true);
    forall i | 0 <= i < |columns| ensures '?' !in columns[i] {
      ValidColumnFacts(columns[i]);
    }
    InsertStatementMarkers(columns, placeholders);
    if forall i :: 0 <= i < |data| ==> IsValidColumn(data[i].0) {
      KeptItemsOfWhitelisted(data);
    }
  }
}
