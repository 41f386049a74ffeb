/** Schema dumps. Objects are keyed by structured names instead of dotted strings. */
module Catalog {
  import opened Types

  datatype QName = QName(schema: string, name: string)

  datatype Column = Column(name: string, typ: string, notNull: bool, default: Option<string>, identity: Option<char>)

  /** A table; it is stored under its qualified name. */
  datatype Table = Table(columns: seq<Column>, pk: Option<seq<string>>)

  /** Definition text of an index or constraint, with the columns of its own table and the
      other table it mentions. */
  datatype Definition = Definition(text: string, cols: set<string>, refs: Option<QName>)

  /** An index lives in the schema of its table. */
  datatype Index = Index(table: string, definition: Definition)

  datatype ConName = ConName(table: QName, name: string)

  datatype FnName = FnName(schema: string, name: string, args: string)

  datatype Params = Params(dataType: string, start: int, increment: int, min: int, max: int, cache: int, cycle: bool)

  datatype ColumnRef = ColumnRef(table: QName, column: string)

  datatype Sequence = Sequence(params: Params, lastValue: Option<int>, ownedBy: Option<ColumnRef>)

  datatype Schema = Schema(
    schemas: set<string>,
    tables: map<QName, Table>,
    indexes: map<QName, Index>,
    constraints: map<ConName, Definition>,
    views: map<QName, string>,
    matviews: map<QName, string>,
    functions: map<FnName, string>,
    sequences: map<QName, Sequence>)

  /** Column names of a list are distinct. */
  ghost predicate DistinctNames(cols: seq<Column>) {
    forall i, j :: 0 <= i < j < |cols| ==> cols[i].name != cols[j].name
  }

  /** The columns of a list under their names; of two with one name the later stands. */
  function ByName(cols: seq<Column>): map<string, Column> {
    if cols == [] then map[] else ByName(cols[..|cols| - 1])[cols[|cols| - 1].name := cols[|cols| - 1]]
  }

  ghost predicate TablesOk(s: Schema) {
    forall q :: q in s.tables ==> DistinctNames(s.tables[q].columns)
  }

  /** Equal up to the order of columns. */
  ghost predicate SameTable(a: Table, b: Table) {
    ByName(a.columns) == ByName(b.columns) && a.pk == b.pk
  }

  ghost predicate SameSchema(a: Schema, b: Schema) {
    && a.tables.Keys == b.tables.Keys && (forall q :: q in a.tables ==> SameTable(a.tables[q], b.tables[q]))
    && a.schemas == b.schemas && a.indexes == b.indexes && a.constraints == b.constraints
    && a.views == b.views && a.matviews == b.matviews && a.functions == b.functions && a.sequences == b.sequences
  }

  lemma {:induction false} ByNameFinds(cols: seq<Column>, i: nat)
    requires DistinctNames(cols) && i < |cols|
    ensures cols[i].name in ByName(cols) && ByName(cols)[cols[i].name] == cols[i]
  {
    if i < |cols| - 1 {
      ByNameFinds(cols[..|cols| - 1], i);
    }
  }

  lemma {:induction false} ByNameIsListed(cols: seq<Column>, n: string) returns (i: nat)
    requires n in ByName(cols)
    ensures i < |cols| && cols[i].name == n && ByName(cols)[n] == cols[i]
  {
    if cols[|cols| - 1].name == n {
      i := |cols| - 1;
    } else {
      i := ByNameIsListed(cols[..|cols| - 1], n);
    }
  }
}
