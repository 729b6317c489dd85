/** The slice of a pandas DataFrame the SEO path uses: column labels and
    rows of cells. A cell is missing (NaN after `read_csv`), an integer or
    text; floating point and other dtypes are not modelled. */
module Frame {
  import opened Seqs

  datatype Cell = Null | Int(i: int) | Str(s: string)

  /** `columns` are the labels in order; a row shorter than the header
      reads as missing cells past its end, as `read_csv` fills them. */
  datatype Table = Table(columns: seq<string>, rows: seq<seq<Cell>>)

  /** `pd.DataFrame()`. */
  const EmptyTable := Table([], [])

  /** `df.empty`: true when either axis has length zero. */
  predicate IsEmpty(t: Table) {
    |t.columns| == 0 || |t.rows| == 0
  }

  /** The cell of `row` in column `j`. */
  function At(row: seq<Cell>, j: nat): Cell {
    if j < |row| then row[j] else Null
  }

  /** The position of the first column labelled `name`. */
  function IndexOf(columns: seq<string>, name: string): (j: nat)
    requires name in columns
    ensures j < |columns| && columns[j] == name
    ensures forall k :: 0 <= k < j ==> columns[k] != name
  {
    if columns[0] == name then 0 else 1 + IndexOf(columns[1..], name)
  }

  /** Column `j` of `rows` as a series, in row order. */
  function ColumnOf(rows: seq<seq<Cell>>, j: nat): (cells: seq<Cell>)
    ensures |cells| == |rows|
    ensures forall i :: 0 <= i < |rows| ==> cells[i] == At(rows[i], j)
  {
    seq(|rows|, i requires 0 <= i < |rows| => At(rows[i], j))
  }
}
